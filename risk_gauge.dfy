/**
 * The risk gauge card: the five severity levels, their display table, the
 * gauge position of a level and the "Risk Level k/5" label.
 */
module RiskGauge {
  import opened Wrappers

  datatype RiskLevel = NoRisk | Mild | Moderate | Proliferate | Severe

  /** The level as the application spells it in storage and in class names. */
  function Name(l: RiskLevel): string {
    match l
    case NoRisk => "none"
    case Mild => "mild"
    case Moderate => "moderate"
    case Proliferate => "proliferate"
    case Severe => "severe"
  }

  /** Reading a stored level back: the names of the five levels, and nothing else. */
  function FromName(s: string): (r: Option<RiskLevel>)
    ensures r.Some? ==> Name(r.value) == s
    ensures r.None? ==> forall l :: Name(l) != s
  {
    if s == "none" then Some(NoRisk)
    else if s == "mild" then Some(Mild)
    else if s == "moderate" then Some(Moderate)
    else if s == "proliferate" then Some(Proliferate)
    else if s == "severe" then Some(Severe)
    else None
  }

  /** Each level reads back as itself. */
  lemma FromNameOfName(l: RiskLevel)
    ensures FromName(Name(l)) == Some(l)
  {
  }

  datatype GaugeInfo = GaugeInfo(title: string, color: string, description: string)

  /**
   * The display table: a title, a colour class and a description for every
   * level; the colour class is "risk-" followed by the level's name.
   */
  function Info(l: RiskLevel): (r: GaugeInfo)
    ensures r.color == "risk-" + Name(l)
  {
    ColorIsPrefixedName(l);
    GaugeInfo(Title(l), Color(l), Description(l))
  }

  function Title(l: RiskLevel): string {
    match l
    case NoRisk => "No Risk"
    case Mild => "Mild Risk"
    case Moderate => "Moderate Risk"
    case Proliferate => "Proliferative Risk"
    case Severe => "Severe Risk"
  }

  function Color(l: RiskLevel): string {
    match l
    case NoRisk => "risk-none"
    case Mild => "risk-mild"
    case Moderate => "risk-moderate"
    case Proliferate => "risk-proliferate"
    case Severe => "risk-severe"
  }

  function Description(l: RiskLevel): string {
    match l
    case NoRisk => "No detectable risk factors in retinal scan."
    case Mild => "Early signs of risk factors detected, monitoring recommended."
    case Moderate => "Significant risk factors detected, consultation recommended."
    case Proliferate => "Advanced risk factors detected, medical attention required."
    case Severe => "Critical risk level detected, immediate medical attention required."
  }

  /** Each colour class is "risk-" followed by the level's name. */
  lemma ColorIsPrefixedName(l: RiskLevel)
    ensures Color(l) == "risk-" + Name(l)
  {
    if l == NoRisk { assert "risk-" + "none" == "risk-none"; }
    else if l == Mild { assert "risk-" + "mild" == "risk-mild"; }
    else if l == Moderate { assert "risk-" + "moderate" == "risk-moderate"; }
    else if l == Proliferate { assert "risk-" + "proliferate" == "risk-proliferate"; }
    else { assert "risk-" + "severe" == "risk-severe"; }
  }

  /** Distinct levels have distinct names. */
  lemma NameInjective(l: RiskLevel, m: RiskLevel)
    requires l != m
    ensures Name(l) != Name(m)
  {
    FromNameOfName(l);
    FromNameOfName(m);
  }

  /** Distinct levels are shown in distinct colours. */
  lemma ColorInjective(l: RiskLevel, m: RiskLevel)
    requires l != m
    ensures Info(l).color != Info(m).color
  {
    var _ := Info(l);
    var _ := Info(m);
    NameInjective(l, m);
    PrefixedDistinct(Name(l), Name(m));
  }

  /** One prefix in front of two distinct strings keeps them distinct. */
  lemma PrefixedDistinct(x: string, y: string)
    requires x != y
    ensures "risk-" + x != "risk-" + y
  {
    assert ("risk-" + x)[5..] == x;
    assert ("risk-" + y)[5..] == y;
  }

  /** The levels in order of severity. */
  const Levels: seq<RiskLevel> := [NoRisk, Mild, Moderate, Proliferate, Severe]

  /** Array.prototype.indexOf: the first position holding `x`, or -1. */
  function IndexOf<T(==)>(xs: seq<T>, x: T): (r: int)
    ensures -1 <= r < |xs|
    ensures r >= 0 ==> xs[r] == x && forall j :: 0 <= j < r ==> xs[j] != x
    ensures r == -1 <==> x !in xs
  {
    if xs == [] then -1
    else if xs[0] == x then 0
    else
      var i := IndexOf(xs[1..], x);
      if i < 0 then -1 else i + 1
  }

  /** Position of a level on the gauge: every level has one, 0 to 4, and it holds the level. */
  function RiskIndex(l: RiskLevel): (r: int)
    ensures 0 <= r < |Levels| && Levels[r] == l
  {
    LevelListed(l);
    IndexOf(Levels, l)
  }

  /** `Levels` lists every level. */
  lemma LevelListed(l: RiskLevel)
    ensures l in Levels
  {
    match l
    case NoRisk => assert Levels[0] == l;
    case Mild => assert Levels[1] == l;
    case Moderate => assert Levels[2] == l;
    case Proliferate => assert Levels[3] == l;
    case Severe => assert Levels[4] == l;
  }

  /** Positions are the order of `Levels`: the level at position `i` has index `i`. */
  lemma RiskIndexOfLevel(i: int)
    requires 0 <= i < |Levels|
    ensures RiskIndex(Levels[i]) == i
  {
    var j := RiskIndex(Levels[i]);
    assert forall a, b :: 0 <= a < b < |Levels| ==> Levels[a] != Levels[b];
    assert !(j < i) && !(i < j);
  }

  /** The rank of a level by severity, mildest first. */
  function Severity(l: RiskLevel): nat {
    match l
    case NoRisk => 0
    case Mild => 1
    case Moderate => 2
    case Proliferate => 3
    case Severe => 4
  }

  /** The gauge position found by `indexOf` is the level's rank. */
  lemma RiskIndexIsSeverity(l: RiskLevel)
    ensures RiskIndex(l) == Severity(l)
  {
    assert Levels[Severity(l)] == l;
    RiskIndexOfLevel(Severity(l));
  }

  /**
   * How far along the gauge a level sits, in percent: `index / (count - 1) * 100`.
   * The percentages are 0, 25, 50, 75 and 100; the ends belong to no risk
   * and to severe.
   */
  function GaugePercentage(l: RiskLevel): (r: real)
    ensures r == 25.0 * RiskIndex(l) as real
    ensures 0.0 <= r <= 100.0
    ensures r == 0.0 <==> l == NoRisk
    ensures r == 100.0 <==> l == Severe
  {
    RiskIndexIsSeverity(l);
    QuarterSteps(RiskIndex(l) as real, (|Levels| - 1) as real);
    (RiskIndex(l) as real / (|Levels| - 1) as real) * 100.0
  }

  /** A quarter of a step, in percent, is 25 per step. */
  lemma QuarterSteps(i: real, n: real)
    requires n == 4.0
    ensures (i / n) * 100.0 == 25.0 * i
  {
  }

  /** A more severe level sits strictly further along the gauge. */
  lemma GaugePercentageIncreasing(i: int, j: int)
    requires 0 <= i < j < |Levels|
    ensures GaugePercentage(Levels[i]) < GaugePercentage(Levels[j])
  {
    RiskIndexOfLevel(i);
    RiskIndexOfLevel(j);
  }

  /**
   * Left offset and width (in percent) of the mask over the unfilled part of
   * the gauge: it lies inside the gauge and reaches exactly its right end.
   */
  function MaskLeft(l: RiskLevel): (r: real)
    ensures r == GaugePercentage(l)
    ensures 0.0 <= r <= 100.0
  {
    GaugePercentage(l)
  }

  function MaskWidth(l: RiskLevel): (r: real)
    ensures 0.0 <= r <= 100.0
    ensures MaskLeft(l) + r == 100.0
  {
    100.0 - GaugePercentage(l)
  }

  /** The number shown in "Risk Level k/5". */
  function LevelNumber(l: RiskLevel): int {
    RiskIndex(l) + 1
  }

  /** The footer label "Risk Level k/5". */
  function LevelLabel(l: RiskLevel): (r: string)
    ensures |r| == 14 && r[..11] == "Risk Level " && r[12..] == "/5"
  {
    "Risk Level " + [('0' as int + LevelNumber(l)) as char] + "/5"
  }

  /** The label's number is the level's rank, 1 to 5, written as one digit. */
  lemma LevelLabelNumber(l: RiskLevel)
    ensures 1 <= LevelNumber(l) <= 5
    ensures LevelLabel(l)[11] as int - '0' as int == LevelNumber(l)
  {
  }
}
