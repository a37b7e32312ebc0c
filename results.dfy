/**
 * The results page: the recommendation table, the image switcher and the PDF
 * report built from the stored analysis result.
 */
module Results {
  import opened Wrappers
  import opened RiskGauge
  import opened AppState
  import opened JsPdf

  /** The six recommendations shown for each level. */
  function RecommendationsFor(l: RiskLevel): (r: seq<string>)
    ensures |r| == 6
  {
    match l
    case NoRisk => NoRiskAdvice
    case Mild => MildAdvice
    case Moderate => ModerateAdvice
    case Proliferate => ProliferateAdvice
    case Severe => SevereAdvice
  }

  const NoRiskAdvice: seq<string> := [
    "Continue routine annual health check-ups",
    "Maintain a heart-healthy diet rich in fruits, vegetables, and whole grains",
    "Engage in at least 150 minutes of moderate aerobic activity per week",
    "Avoid tobacco use and limit alcohol consumption",
    "Monitor weight and ensure a healthy BMI",
    "Maintain good sleep hygiene (7\U{2013}9 hours per night)"]

  const MildAdvice: seq<string> := [
    "Schedule a follow-up with your primary care physician for personalized advice",
    "Begin regular monitoring of blood pressure and blood sugar levels",
    "Consider cholesterol and lipid profile testing every 6\U{2013}12 months",
    "Enhance your diet with heart-protective foods (e.g., omega-3 rich fish, nuts)",
    "Incorporate stress-reducing activities such as meditation, yoga, or journaling",
    "Avoid sedentary behavior; take breaks during prolonged sitting"]

  const ModerateAdvice: seq<string> := [
    "Consult a cardiologist within the next 3 months for a comprehensive cardiovascular evaluation",
    "Undergo a complete lipid panel, ECG, and stress test if advised",
    "Initiate or intensify lifestyle changes: diet, exercise, and smoking cessation",
    "Monitor key metrics: blood pressure, fasting glucose, BMI, and cholesterol",
    "Evaluate family history of heart disease with your doctor to assess hereditary risks",
    "Explore preventive medications if recommended by your provider"]

  const ProliferateAdvice: seq<string> := [
    "Schedule a cardiologist appointment within 1 month for in-depth diagnostics",
    "Undergo advanced tests (e.g., echocardiogram, coronary calcium scan, treadmill test)",
    "Begin regular tracking of medication efficacy and side effects (if already prescribed)",
    "Discuss medication adjustments or new prescriptions to manage risk factors",
    "Implement structured lifestyle interventions under medical supervision (dietitian, fitness coach, etc.)",
    "Limit high-risk behaviors: smoking, excessive alcohol, unmanaged stress"]

  const SevereAdvice: seq<string> := [
    "Seek immediate evaluation by a cardiologist or emergency department if symptomatic",
    "Undergo urgent diagnostic testing (ECG, blood markers, cardiac imaging)",
    "Prepare for possible hospitalization or procedural intervention based on evaluation",
    "Begin close, supervised monitoring of vital parameters and medication response",
    "Coordinate with a multidisciplinary team (cardiologist, dietitian, physiotherapist)",
    "Follow strict lifestyle protocols with limited physical exertion until cleared by a doctor"]

  /** The recommendations for a stored level; a value that names no level gets the moderate list. */
  function GetRecommendations(level: string): (r: seq<string>)
    ensures |r| == 6
  {
    match FromName(level)
    case Some(l) => RecommendationsFor(l)
    case None => RecommendationsFor(Moderate)
  }

  /** Every level's own name selects its own list. */
  lemma GetRecommendationsOfLevel(l: RiskLevel)
    ensures GetRecommendations(Name(l)) == RecommendationsFor(l)
  {
    FromNameOfName(l);
  }

  /** Any other value falls back to the moderate list. */
  lemma GetRecommendationsFallback(level: string)
    requires forall l :: Name(l) != level
    ensures GetRecommendations(level) == RecommendationsFor(Moderate)
  {
  }

  /** The image tabs of the preview. */
  datatype Tab = Original | Grayscale | Heatmap | GradCam

  /** The derived image a tab shows, if the tab shows one. */
  function DerivedImage(tab: Tab, r: AnalysisResult): Option<string> {
    match tab
    case Original => None
    case Grayscale => r.grayscaleImage
    case Heatmap => r.heatmapImage
    case GradCam => r.gradCAMImage
  }

  /** The image shown for the selected tab. */
  function ActiveImageUrl(tab: Tab, r: AnalysisResult): (url: string)
    ensures Present(DerivedImage(tab, r)) ==> url == DerivedImage(tab, r).value
    ensures !Present(DerivedImage(tab, r)) ==> url == r.image
  {
    match tab
    case Grayscale => if Present(r.grayscaleImage) then r.grayscaleImage.value else r.image
    case Heatmap => if Present(r.heatmapImage) then r.heatmapImage.value else r.image
    case GradCam => if Present(r.gradCAMImage) then r.gradCAMImage.value else r.image
    case Original => r.image
  }

  /** The caption shown above the selected image; only the original image is captioned as such. */
  function ActiveImageTitle(tab: Tab): (t: string)
    ensures t != ""
    ensures t == "Original Retinal Image" <==> tab == Original
  {
    match tab
    case Grayscale => "Grayscale Analysis"
    case Heatmap => "Vessel Heatmap"
    case GradCam => "Grad-CAM Heatmap"
    case Original => "Original Retinal Image"
  }

  /** Every tab has its own caption. */
  lemma ActiveImageTitleInjective(s: Tab, t: Tab)
    requires s != t
    ensures ActiveImageTitle(s) != ActiveImageTitle(t)
  {
    assert |ActiveImageTitle(s)| != |ActiveImageTitle(t)|;
  }

  /** A number as `${n}` writes it, for integers. */
  function Decimal(n: int): (s: string)
    ensures |s| >= 1
  {
    if n < 0 then "-" + Digits(-n) else Digits(n)
  }

  /** The decimal digits of a natural number, most significant first, with no leading zero. */
  function Digits(n: nat): (s: string)
    ensures |s| >= 1 && forall i :: 0 <= i < |s| ==> '0' <= s[i] <= '9'
    ensures s[0] == '0' ==> n == 0
  {
    if n < 10 then [('0' as int + n) as char]
    else Digits(n / 10) + [('0' as int + n % 10) as char]
  }

  /** The number a string of decimal digits denotes, read left to right. */
  function DigitsValue(s: string): int {
    if s == [] then 0
    else 10 * DigitsValue(s[..|s| - 1]) + (s[|s| - 1] as int - '0' as int)
  }

  /** The number a decimal numeral denotes: an optional minus sign, then digits. */
  function DecimalValue(s: string): int {
    if |s| > 0 && s[0] == '-' then -DigitsValue(s[1..]) else DigitsValue(s)
  }

  /** The digits written for `n` read back as `n`. */
  lemma {:induction false} DigitsRoundTrip(n: nat)
    ensures DigitsValue(Digits(n)) == n
    decreases n
  {
    if n >= 10 {
      var s := Digits(n);
      assert s[..|s| - 1] == Digits(n / 10);
      DigitsRoundTrip(n / 10);
    }
  }

  /** The numeral written for any integer reads back as that integer. */
  lemma DecimalRoundTrip(n: int)
    ensures DecimalValue(Decimal(n)) == n
  {
    if n < 0 {
      assert Decimal(n)[1..] == Digits(-n);
      DigitsRoundTrip(-n);
    } else {
      DigitsRoundTrip(n);
    }
  }

  /** The text line for recommendation `index`. */
  function RecommendationLine(rec: string, index: int): DrawOp {
    Text("- " + rec, 20, 90 + index * 10)
  }

  /** The list of recommendations, one line each, ten units apart from y = 90. */
  function RecommendationLines(recs: seq<string>): (ops: seq<DrawOp>)
    ensures |ops| == |recs|
    ensures forall i :: 0 <= i < |recs| ==> ops[i] == Text("- " + recs[i], 20, 90 + 10 * i)
  {
    if recs == [] then []
    else RecommendationLines(recs[..|recs| - 1]) + [RecommendationLine(recs[|recs| - 1], |recs| - 1)]
  }

  /** Recommendation lines place no image and break no page. */
  lemma {:induction false} RecommendationLinesPlain(recs: seq<string>)
    ensures Placements(RecommendationLines(recs)) == []
    ensures PageBreaks(RecommendationLines(recs)) == 0
  {
    if recs != [] {
      var front := recs[..|recs| - 1];
      RecommendationLinesPlain(front);
      assert RecommendationLines(recs)[..|recs| - 1] == RecommendationLines(front);
    }
  }

  /** Page one: title, result details, recommendations, the original and the grayscale image. */
  function FirstPage(r: AnalysisResult, date: string, recs: seq<string>): seq<DrawOp> {
    ReportHeader(r, date)
    + RecommendationLines(recs)
    + OriginalOps(r)
    + (if Present(r.grayscaleImage) then GrayscaleOps(r) else [])
  }

  /** Title and result details, ending with the "Recommendations:" heading at y = 80. */
  function ReportHeader(r: AnalysisResult, date: string): seq<DrawOp> {
    [FontSize(18), Text("Heart Risk Assessment Report", 20, 20),
     FontSize(12), Text("Risk Level: " + r.riskLevel, 20, 40),
     Text("Confidence: " + Decimal(r.confidence) + "%", 20, 50),
     Text("Date: " + date, 20, 60),
     Text("Recommendations:", 20, 80)]
  }

  function OriginalOps(r: AnalysisResult): seq<DrawOp> {
    [Image(r.image, "JPEG", 20, 120, 80, 60), Text("Original Retinal Image", 20, 190)]
  }

  function GrayscaleOps(r: AnalysisResult): seq<DrawOp>
    requires Present(r.grayscaleImage)
  {
    [Image(r.grayscaleImage.value, "JPEG", 110, 120, 80, 60), Text("Grayscale Analysis", 110, 190)]
  }

  function HeatmapOps(r: AnalysisResult): seq<DrawOp>
    requires Present(r.heatmapImage)
  {
    [Image(r.heatmapImage.value, "JPEG", 20, 30, 80, 60), Text("Vessel Heatmap", 20, 100),
     FontSize(10), Text("Highlights vessel patterns with color coding.", 20, 110),
     Text("Red areas indicate higher risk patterns.", 20, 116), FontSize(16)]
  }

  function GradCamOps(r: AnalysisResult): seq<DrawOp>
    requires Present(r.gradCAMImage)
  {
    [Image(r.gradCAMImage.value, "JPEG", 110, 30, 80, 60), Text("Grad-CAM Analysis", 110, 100),
     FontSize(10), Text("AI-generated attention map showing regions", 110, 110),
     Text("most influential to the risk assessment.", 110, 116)]
  }

  /** Page two, from its page break on: the heading, then heatmap and Grad-CAM when present. */
  function SecondPage(r: AnalysisResult): seq<DrawOp> {
    SecondPageHeading
    + (if Present(r.heatmapImage) then HeatmapOps(r) else [])
    + (if Present(r.gradCAMImage) then GradCamOps(r) else [])
  }

  const SecondPageHeading := [NewPage, FontSize(16), Text("Advanced Image Analysis", 20, 20)]

  /**
   * The whole report with the recommendations `recs`, in the order of the
   * drawing calls. Whichever images are present, it breaks the page exactly
   * once: the report has two pages.
   */
  function Report(r: AnalysisResult, date: string, recs: seq<string>): (ops: seq<DrawOp>)
    ensures PageBreaks(ops) == 1
  {
    FirstPageBreaks(r, date, recs);
    SecondPageBreaks(r);
    PageBreaksAppend(FirstPage(r, date, recs), SecondPage(r));
    FirstPage(r, date, recs) + SecondPage(r)
  }

  /**
   * The report for a result: the six lines after the "Recommendations:"
   * heading list its level's recommendations, or the moderate ones when the
   * stored value names no level.
   */
  function ReportLayout(r: AnalysisResult, date: string): (ops: seq<DrawOp>)
    ensures |ops| >= 13
    ensures FromName(r.riskLevel).Some? ==>
      ops[7..13] == RecommendationLines(RecommendationsFor(FromName(r.riskLevel).value))
    ensures FromName(r.riskLevel).None? ==> ops[7..13] == RecommendationLines(RecommendationsFor(Moderate))
  {
    RecommendationSection(r, date, GetRecommendations(r.riskLevel));
    Report(r, date, GetRecommendations(r.riskLevel))
  }

  /** The recommendation lines follow the seven calls of the header. */
  lemma RecommendationSection(r: AnalysisResult, date: string, recs: seq<string>)
    ensures |Report(r, date, recs)| >= 7 + |recs|
    ensures Report(r, date, recs)[7..7 + |recs|] == RecommendationLines(recs)
  {
    var layout := Report(r, date, recs);
    assert layout == ReportHeader(r, date) + RecommendationLines(recs) + (layout[7 + |recs|..]);
  }

  /** The header of page one, up to the "Recommendations:" heading. */
  lemma ReportRecommendations(r: AnalysisResult, date: string, recs: seq<string>, i: int)
    requires 0 <= i < |recs|
    ensures Report(r, date, recs)[6] == Text("Recommendations:", 20, 80)
    ensures Report(r, date, recs)[7 + i] == Text("- " + recs[i], 20, 90 + 10 * i)
  {
    RecommendationSection(r, date, recs);
  }

  /** Page one breaks no page. */
  lemma FirstPageBreaks(r: AnalysisResult, date: string, recs: seq<string>)
    ensures PageBreaks(FirstPage(r, date, recs)) == 0
  {
    var header := ReportHeader(r, date);
    var lines := RecommendationLines(recs);
    var original := OriginalOps(r);
    var gray := if Present(r.grayscaleImage) then GrayscaleOps(r) else [];
    RecommendationLinesPlain(recs);
    assert NewPage !in header;
    assert NewPage !in original;
    assert NewPage !in gray;
    PageBreaksAppend(header, lines);
    PageBreaksAppend(header + lines, original);
    PageBreaksAppend(header + lines + original, gray);
  }

  /** The second part opens with the report's one page break and has no other. */
  lemma SecondPageBreaks(r: AnalysisResult)
    ensures SecondPage(r)[0] == NewPage && PageBreaks(SecondPage(r)) == 1
  {
    var heat := if Present(r.heatmapImage) then HeatmapOps(r) else [];
    var cam := if Present(r.gradCAMImage) then GradCamOps(r) else [];
    SecondPageHeadingBreaks();
    ImageBlocksPlain(r);
    PageBreaksAppend(SecondPageHeading, heat);
    PageBreaksAppend(SecondPageHeading + heat, cam);
  }

  /** The heading of page two is where the page breaks. */
  lemma SecondPageHeadingBreaks()
    ensures SecondPageHeading[0] == NewPage && PageBreaks(SecondPageHeading) == 1
  {
    var rest := SecondPageHeading[1..];
    assert SecondPageHeading == [NewPage] + rest;
    assert NewPage !in rest;
    PageBreaksAppend([NewPage], rest);
  }

  /** The heatmap and Grad-CAM blocks break no page. */
  lemma ImageBlocksPlain(r: AnalysisResult)
    ensures Present(r.heatmapImage) ==> PageBreaks(HeatmapOps(r)) == 0
    ensures Present(r.gradCAMImage) ==> PageBreaks(GradCamOps(r)) == 0
  {
    if Present(r.heatmapImage) {
      assert NewPage !in HeatmapOps(r);
    }
    if Present(r.gradCAMImage) {
      assert NewPage !in GradCamOps(r);
    }
  }

  /** The original image, then the grayscale image when present, are placed on page one. */
  lemma FirstPageImages(r: AnalysisResult, date: string, recs: seq<string>)
    ensures Placements(FirstPage(r, date, recs)) ==
      [Placement(r.image, 20, 120)]
      + (if Present(r.grayscaleImage) then [Placement(r.grayscaleImage.value, 110, 120)] else [])
  {
    var header := ReportHeader(r, date);
    var lines := RecommendationLines(recs);
    var original := OriginalOps(r);
    var gray := if Present(r.grayscaleImage) then GrayscaleOps(r) else [];
    RecommendationLinesPlain(recs);
    PlacementsNone(header);
    PlacementsLeadImage(original);
    if Present(r.grayscaleImage) {
      PlacementsLeadImage(gray);
    }
    PlacementsAppend(header, lines);
    PlacementsAppend(header + lines, original);
    PlacementsAppend(header + lines + original, gray);
  }

  /** The heatmap, then the Grad-CAM image, each when present, are placed on page two. */
  lemma SecondPageImages(r: AnalysisResult)
    ensures Placements(SecondPage(r)) ==
      (if Present(r.heatmapImage) then [Placement(r.heatmapImage.value, 20, 30)] else [])
      + (if Present(r.gradCAMImage) then [Placement(r.gradCAMImage.value, 110, 30)] else [])
  {
    var heading := SecondPageHeading;
    var heat := if Present(r.heatmapImage) then HeatmapOps(r) else [];
    var cam := if Present(r.gradCAMImage) then GradCamOps(r) else [];
    PlacementsNone(heading);
    if Present(r.heatmapImage) {
      PlacementsLeadImage(heat);
    }
    if Present(r.gradCAMImage) {
      PlacementsLeadImage(cam);
    }
    PlacementsAppend(heading, heat);
    PlacementsAppend(heading + heat, cam);
  }

  const ReportDownloadedToast := Toast("Report downloaded", "Your heart risk assessment report has been downloaded.", false)
  const DownloadFailedToast := Toast("Download failed", "Could not generate the PDF report. Please try again.", true)

  class ResultsPage {
    var result: Option<AnalysisResult>
    var activeImage: Tab
    var isDownloading: bool
    /** The drawing calls of the last report saved. */
    var savedReport: Option<seq<DrawOp>>

    constructor(r: Option<AnalysisResult>)
      ensures result == r && activeImage == Original && !isDownloading && savedReport == None
    {
      result := r;
      activeImage := Original;
      isDownloading := false;
      savedReport := None;
    }

    /**
     * Build and save the PDF report for the current result. `date` is
     * today's date as the browser formats it; `fails` says whether the PDF
     * library throws while the report is built.
     */
    method HandleDownloadReport(date: string, fails: bool) returns (toast: Option<Toast>)
      modifies this
      ensures result == old(result) && activeImage == old(activeImage)
      ensures old(result).None? ==>
        toast == None && isDownloading == old(isDownloading) && savedReport == old(savedReport)
      ensures old(result).Some? ==> !isDownloading
      ensures old(result).Some? && !fails ==>
        savedReport == Some(ReportLayout(old(result).value, date)) && toast == Some(ReportDownloadedToast)
      ensures old(result).Some? && fails ==>
        savedReport == old(savedReport) && toast == Some(DownloadFailedToast)
    {
      if result.None? {
        return None;
      }
      var r := result.value;
      isDownloading := true;
      var doc := new PdfDocument();
      var recommendations := GetRecommendations(r.riskLevel);
      DrawReport(doc, r, date, recommendations);
      assert doc.ops == ReportLayout(r, date);
      if fails {
        toast := Some(DownloadFailedToast);
      } else {
        savedReport := Some(doc.ops);
        toast := Some(ReportDownloadedToast);
      }
      isDownloading := false;
    }

    /** Switch the preview to another tab. */
    method SelectImage(tab: Tab)
      modifies this
      ensures activeImage == tab
      ensures result == old(result) && isDownloading == old(isDownloading) && savedReport == old(savedReport)
    {
      activeImage := tab;
    }
  }

  /** The drawing calls of `handleDownloadReport`, made on `doc`. */
  method DrawReport(doc: PdfDocument, r: AnalysisResult, date: string, recommendations: seq<string>)
    modifies doc
    ensures doc.ops == old(doc.ops) + Report(r, date, recommendations)
  {
    ghost var start := doc.ops;
    DrawFirstPage(doc, r, date, recommendations);
    DrawSecondPage(doc, r);
    assert doc.ops == start + FirstPage(r, date, recommendations) + SecondPage(r);
  }

  method DrawFirstPage(doc: PdfDocument, r: AnalysisResult, date: string, recommendations: seq<string>)
    modifies doc
    ensures doc.ops == old(doc.ops) + FirstPage(r, date, recommendations)
  {
    DrawHeader(doc, r, date);
    DrawRecommendations(doc, recommendations);
    ghost var lines := doc.ops;
    doc.AddImage(r.image, "JPEG", 20, 120, 80, 60);
    doc.AddText("Original Retinal Image", 20, 190);
    assert doc.ops == lines + OriginalOps(r);
    ghost var original := doc.ops;
    if Present(r.grayscaleImage) {
      doc.AddImage(r.grayscaleImage.value, "JPEG", 110, 120, 80, 60);
      doc.AddText("Grayscale Analysis", 110, 190);
      assert doc.ops == original + GrayscaleOps(r);
    } else {
      assert doc.ops == original + [];
    }
  }

  method DrawHeader(doc: PdfDocument, r: AnalysisResult, date: string)
    modifies doc
    ensures doc.ops == old(doc.ops) + ReportHeader(r, date)
  {
    doc.SetFontSize(18);
    doc.AddText("Heart Risk Assessment Report", 20, 20);
    doc.SetFontSize(12);
    doc.AddText("Risk Level: " + r.riskLevel, 20, 40);
    doc.AddText("Confidence: " + Decimal(r.confidence) + "%", 20, 50);
    doc.AddText("Date: " + date, 20, 60);
    doc.AddText("Recommendations:", 20, 80);
  }

  /** `recommendations.forEach`: one line per recommendation, in list order. */
  method DrawRecommendations(doc: PdfDocument, recommendations: seq<string>)
    modifies doc
    ensures doc.ops == old(doc.ops) + RecommendationLines(recommendations)
  {
    ghost var start := doc.ops;
    var index := 0;
    while index < |recommendations|
      invariant 0 <= index <= |recommendations|
      invariant doc.ops == start + RecommendationLines(recommendations[..index])
    {
      doc.AddText("- " + recommendations[index], 20, 90 + index * 10);
      assert recommendations[..index + 1][..index] == recommendations[..index];
      index := index + 1;
    }
    assert recommendations[..index] == recommendations;
  }

  method DrawSecondPage(doc: PdfDocument, r: AnalysisResult)
    modifies doc
    ensures doc.ops == old(doc.ops) + SecondPage(r)
  {
    DrawSecondHeading(doc);
    ghost var heading := doc.ops;
    if Present(r.heatmapImage) {
      DrawHeatmap(doc, r);
    } else {
      assert doc.ops == heading + [];
    }
    ghost var heat := doc.ops;
    if Present(r.gradCAMImage) {
      DrawGradCam(doc, r);
    } else {
      assert doc.ops == heat + [];
    }
  }

  method DrawSecondHeading(doc: PdfDocument)
    modifies doc
    ensures doc.ops == old(doc.ops) + SecondPageHeading
  {
    doc.AddPage();
    doc.SetFontSize(16);
    doc.AddText("Advanced Image Analysis", 20, 20);
  }

  method DrawHeatmap(doc: PdfDocument, r: AnalysisResult)
    requires Present(r.heatmapImage)
    modifies doc
    ensures doc.ops == old(doc.ops) + HeatmapOps(r)
  {
    doc.AddImage(r.heatmapImage.value, "JPEG", 20, 30, 80, 60);
    doc.AddText("Vessel Heatmap", 20, 100);
    doc.SetFontSize(10);
    doc.AddText("Highlights vessel patterns with color coding.", 20, 110);
    doc.AddText("Red areas indicate higher risk patterns.", 20, 116);
    doc.SetFontSize(16);
  }

  method DrawGradCam(doc: PdfDocument, r: AnalysisResult)
    requires Present(r.gradCAMImage)
    modifies doc
    ensures doc.ops == old(doc.ops) + GradCamOps(r)
  {
    doc.AddImage(r.gradCAMImage.value, "JPEG", 110, 30, 80, 60);
    doc.AddText("Grad-CAM Analysis", 110, 100);
    doc.SetFontSize(10);
    doc.AddText("AI-generated attention map showing regions", 110, 110);
    doc.AddText("most influential to the risk assessment.", 110, 116);
  }
}
