/**
 * The two presentational helpers that every result page repeats verbatim:
 * the metric card's normal/warning/critical status and the RiskIndicator
 * that turns a free-form risk string into a colour and a label.
 * Threshold buckets of every page are built from StatusAbove.
 */
module Indicators {

  /** The `status` of a metric card. */
  datatype Status = Normal | Warning | Critical

  /** Severity order of statuses, used to state monotonicity. */
  function Rank(s: Status): nat
  {
    match s
    case Normal => 0
    case Warning => 1
    case Critical => 2
  }

  /**
   * The ternary `x > criticalAbove ? 'critical' : x > warnAbove ? 'warning' : 'normal'`
   * that every page writes out for its metric cards.
   */
  function StatusAbove(x: real, warnAbove: real, criticalAbove: real): (s: Status)
    requires warnAbove <= criticalAbove
    ensures s == Critical <==> x > criticalAbove
    ensures s == Warning <==> warnAbove < x <= criticalAbove
    ensures s == Normal <==> x <= warnAbove
  {
    if x > criticalAbove then Critical
    else if x > warnAbove then Warning
    else Normal
  }

  /** Raising the measured value never lowers the card's status. */
  lemma StatusAboveMonotone(x: real, y: real, warnAbove: real, criticalAbove: real)
    requires warnAbove <= criticalAbove
    requires x <= y
    ensures Rank(StatusAbove(x, warnAbove, criticalAbove)) <= Rank(StatusAbove(y, warnAbove, criticalAbove))
  {
  }

  /** The heat bucket shared by temperature cards: critical above 35 degrees, warning above 30. */
  function HeatStatus(celsius: real): (s: Status)
    ensures s == Critical <==> celsius > 35.0
    ensures s == Warning <==> 30.0 < celsius <= 35.0
    ensures s == Normal <==> celsius <= 30.0
  {
    StatusAbove(celsius, 30.0, 35.0)
  }

  /** ASCII upper-case letters map to lower case; every other character is kept. */
  function LowerChar(c: char): (d: char)
    ensures 'A' <= c <= 'Z' ==> d as int == c as int + 32
    ensures !('A' <= c <= 'Z') ==> d == c
  {
    if 'A' <= c <= 'Z' then (c as int + 32) as char else c
  }

  /** `String.prototype.toLowerCase`, restricted to the ASCII letters. */
  function ToLower(s: string): (t: string)
    ensures |t| == |s|
    ensures forall i :: 0 <= i < |s| ==> t[i] == LowerChar(s[i])
  {
    seq(|s|, i requires 0 <= i < |s| => LowerChar(s[i]))
  }

  /** What RiskIndicator renders: text colour, dot colour and caption. */
  datatype RiskDisplay = RiskDisplay(color: string, bg: string, caption: string)

  /**
   * RiskIndicator: the level is lower-cased first, then 'high' and 'medium'
   * are recognised and everything else falls to the low-risk default.
   */
  function RiskIndicator(level: string): (d: RiskDisplay)
    ensures d.caption == "High Risk" <==> ToLower(level) == "high"
    ensures d.caption == "Medium Risk" <==> ToLower(level) == "medium"
    ensures d.caption == "Low Risk" <==> ToLower(level) != "high" && ToLower(level) != "medium"
    ensures d.caption == "High Risk" ==> d.color == "text-red-400" && d.bg == "bg-red-400"
    ensures d.caption == "Medium Risk" ==> d.color == "text-yellow-400" && d.bg == "bg-yellow-400"
    ensures d.caption == "Low Risk" ==> d.color == "text-emerald-400" && d.bg == "bg-emerald-400"
  {
    var l := ToLower(level);
    if l == "high" then RiskDisplay("text-red-400", "bg-red-400", "High Risk")
    else if l == "medium" then RiskDisplay("text-yellow-400", "bg-yellow-400", "Medium Risk")
    else RiskDisplay("text-emerald-400", "bg-emerald-400", "Low Risk")
  }

  /** Any capitalisation of "high" is displayed as high risk. */
  lemma RiskIndicatorIgnoresCase(level: string)
    requires |level| == 4
    requires level[0] in "hH" && level[1] in "iI" && level[2] in "gG" && level[3] in "hH"
    ensures RiskIndicator(level).caption == "High Risk"
  {
    var l := ToLower(level);
    assert l == "high";
  }
}
