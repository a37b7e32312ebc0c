/**
 * The upload page: the file-name keyword classifier and the analysis handler
 * that assembles the result stored for the results page.
 */
module Upload {
  import opened Wrappers
  import opened Strings
  import opened RiskGauge
  import opened AppState

  /** The parts of a browser File the page looks at. */
  datatype File = File(name: string, webkitRelativePath: string)

  /** The path examined: the relative path if it is not empty, else the name. */
  function FilePath(f: File): (r: string)
    ensures f.webkitRelativePath != "" ==> r == f.webkitRelativePath
    ensures f.webkitRelativePath == "" ==> r == f.name
  {
    if f.webkitRelativePath != "" then f.webkitRelativePath
    else if f.name != "" then f.name
    else ""
  }

  /** The upper-case keyword that selects each level. */
  function Keyword(l: RiskLevel): string {
    match l
    case NoRisk => "NO"
    case Mild => "MILD"
    case Moderate => "MODERATE"
    case Proliferate => "PROLIFERATE"
    case Severe => "SEVERE"
  }

  /** The level a file's path names, checked keyword by keyword; `None` when no keyword occurs. */
  function DetermineRisk(f: File): Option<RiskLevel> {
    var path := ToUpper(FilePath(f));
    if Includes(path, "NO") then Some(NoRisk)
    else if Includes(path, "MILD") then Some(Mild)
    else if Includes(path, "MODERATE") then Some(Moderate)
    else if Includes(path, "PROLIFERATE") then Some(Proliferate)
    else if Includes(path, "SEVERE") then Some(Severe)
    else None
  }

  /** The keyword of some level occurs in the upper-cased path. */
  predicate Names(f: File, l: RiskLevel) {
    Includes(ToUpper(FilePath(f)), Keyword(l))
  }

  /**
   * The first keyword in order of severity wins: a file is classified as `l`
   * exactly when `l`'s keyword occurs and no keyword of a milder level does.
   */
  lemma DetermineRiskFirstMatch(f: File, l: RiskLevel)
    ensures DetermineRisk(f) == Some(l) <==>
      Names(f, l) && forall m :: Severity(m) < Severity(l) ==> !Names(f, m)
  {
    assert Severity(NoRisk) == 0 && Severity(Mild) == 1 && Severity(Moderate) == 2;
    assert Severity(Proliferate) == 3 && Severity(Severe) == 4;
    if DetermineRisk(f) == Some(l) {
      forall m | Severity(m) < Severity(l) ensures !Names(f, m) {
      }
    }
  }

  /** No level is found exactly when none of the five keywords occurs. */
  lemma DetermineRiskNone(f: File)
    ensures DetermineRisk(f).None? <==> forall l :: !Names(f, l)
  {
    if DetermineRisk(f).None? {
      forall l ensures !Names(f, l) {
        match l
        case NoRisk =>
        case Mild =>
        case Moderate =>
        case Proliferate =>
        case Severe =>
      }
    } else {
      assert Names(f, DetermineRisk(f).value);
    }
  }

  /** The file with its name and relative path in lower case. */
  function LowerCased(f: File): File {
    File(ToLower(f.name), ToLower(f.webkitRelativePath))
  }

  /** The classification ignores case: lower-casing the file's path changes nothing. */
  lemma DetermineRiskIgnoresCase(f: File)
    ensures DetermineRisk(LowerCased(f)) == DetermineRisk(f)
  {
    var g := LowerCased(f);
    assert FilePath(g) == ToLower(FilePath(f));
    UpperOfLower(FilePath(f));
  }

  /** "ANNOTATED" contains "NO", so any path containing it is classified as no risk. */
  lemma AnnotatedIsNoRisk(f: File)
    requires Includes(ToUpper(FilePath(f)), "ANNOTATED")
    ensures DetermineRisk(f) == Some(NoRisk)
  {
    assert OccursAt("ANNOTATED", "NO", 2);
    IncludesAt("ANNOTATED", "NO", 2);
    IncludesTransitive(ToUpper(FilePath(f)), "ANNOTATED", "NO");
  }

  /** The three images derived from the upload by the raster transforms. */
  datatype DerivedImages = DerivedImages(grayscale: string, heatmap: string, gradCAM: string)

  /** `Math.floor(r * n)` for a draw `0 <= r < 1`: an integer from 0 to n - 1. */
  function Scaled(r: real, n: nat): (k: int)
    requires 0.0 <= r < 1.0 && n > 0
    ensures 0 <= k < n
  {
    assert r * n as real < n as real;
    (r * n as real).Floor
  }

  /**
   * The result stored for the results page. `draws` are the values of
   * `Math.random()` in call order: the level is drawn only when the path names
   * none, so the confidence takes the first or the second draw.
   */
  function DemoResult(f: File, draws: seq<real>, url: string, images: DerivedImages): (r: AnalysisResult)
    requires |draws| >= 2 && forall i :: 0 <= i < |draws| ==> 0.0 <= draws[i] < 1.0
    ensures 70 <= r.confidence <= 99
    ensures FromName(r.riskLevel).Some?
    ensures DetermineRisk(f).Some? ==> r.riskLevel == Name(DetermineRisk(f).value)
    ensures DetermineRisk(f).Some? ==> r.confidence == Scaled(draws[0], 30) + 70
    ensures r.image == url
    ensures r.grayscaleImage == Some(images.grayscale)
    ensures r.heatmapImage == Some(images.heatmap)
    ensures r.gradCAMImage == Some(images.gradCAM)
  {
    var fromPath := DetermineRisk(f);
    var level := if fromPath.Some? then fromPath.value else Levels[Scaled(draws[0], 5)];
    var confidenceDraw := if fromPath.Some? then draws[0] else draws[1];
    AnalysisResult(Name(level), Scaled(confidenceDraw, 30) + 70, url,
      Some(images.grayscale), Some(images.heatmap), Some(images.gradCAM))
  }

  /** Without a keyword in the path, the level is the first draw's pick from the five. */
  lemma DemoResultRandomLevel(f: File, draws: seq<real>, url: string, images: DerivedImages)
    requires |draws| >= 2 && forall i :: 0 <= i < |draws| ==> 0.0 <= draws[i] < 1.0
    requires DetermineRisk(f).None?
    ensures DemoResult(f, draws, url, images).riskLevel == Name(Levels[Scaled(draws[0], 5)])
    ensures DemoResult(f, draws, url, images).confidence == Scaled(draws[1], 30) + 70
  {
  }

  const NoImageToast := Toast("No image uploaded", "Please upload a retinal image to analyze.", true)
  const AnalysisFailedToast := Toast("Analysis failed", "There was an error analyzing your image. Please try again.", true)

  class UploadPage {
    var uploadedFile: Option<File>
    var isProcessing: bool
    /** The session-storage entry "analysisResult". */
    var sessionResult: Option<AnalysisResult>

    constructor(stored: Option<AnalysisResult>)
      ensures uploadedFile == None && !isProcessing && sessionResult == stored
    {
      uploadedFile := None;
      isProcessing := false;
      sessionResult := stored;
    }

    /** The uploader hands over a file. */
    method HandleImageUpload(f: File)
      modifies this
      ensures uploadedFile == Some(f)
      ensures isProcessing == old(isProcessing) && sessionResult == old(sessionResult)
    {
      uploadedFile := Some(f);
    }

    /**
     * Analyse the uploaded file. `url` is the object URL made for it, `images`
     * the three derived images, or `None` when a transform fails, and `draws`
     * the values `Math.random()` returns.
     */
    method HandleAnalyze(url: string, images: Option<DerivedImages>, draws: seq<real>) returns (toast: Option<Toast>)
      requires |draws| >= 2 && forall i :: 0 <= i < |draws| ==> 0.0 <= draws[i] < 1.0
      modifies this
      ensures uploadedFile == old(uploadedFile)
      ensures old(uploadedFile).None? ==>
        toast == Some(NoImageToast) && isProcessing == old(isProcessing) && sessionResult == old(sessionResult)
      ensures old(uploadedFile).Some? ==> !isProcessing
      ensures old(uploadedFile).Some? && images.None? ==>
        toast == Some(AnalysisFailedToast) && sessionResult == old(sessionResult)
      ensures old(uploadedFile).Some? && images.Some? ==>
        toast == None && sessionResult == Some(DemoResult(old(uploadedFile).value, draws, url, images.value))
    {
      if uploadedFile.None? {
        toast := Some(NoImageToast);
        return;
      }
      var file := uploadedFile.value;
      isProcessing := true;
      if images.Some? {
        var filepathRiskLevel := DetermineRisk(file);
        var next := 0;
        var level: RiskLevel;
        if filepathRiskLevel.Some? {
          level := filepathRiskLevel.value;
        } else {
          level := Levels[Scaled(draws[next], 5)];
          next := next + 1;
        }
        var confidence := Scaled(draws[next], 30) + 70;
        var derived := images.value;
        sessionResult := Some(AnalysisResult(Name(level), confidence, url,
          Some(derived.grayscale), Some(derived.heatmap), Some(derived.gradCAM)));
        toast := None;
      } else {
        toast := Some(AnalysisFailedToast);
      }
      isProcessing := false;
    }
  }
}
