/** `severityFromScore` (index.js:90-94) and its thresholds (index.js:22-23). */
module Severity {

  datatype Severity = Low | Medium | High

  /** The two configured thresholds, `SCORE_MEDIUM_MIN` and `SCORE_HIGH_MIN`. */
  datatype Thresholds = Thresholds(minMedium: int, minHigh: int)

  /** The thresholds used when the environment sets none. */
  const DEFAULT_THRESHOLDS := Thresholds(50, 80)

  /** Orders the tiers: low < medium < high. */
  function Level(s: Severity): nat {
    match s
    case Low => 0
    case Medium => 1
    case High => 2
  }

  /**
   * The high threshold is tested first, so with thresholds in the wrong order a
   * score can be high without ever being medium.
   */
  function SeverityFromScore(score: int, t: Thresholds): (s: Severity)
    ensures s == High <==> score >= t.minHigh
    ensures s == Medium <==> t.minMedium <= score < t.minHigh
    ensures s == Low <==> score < t.minMedium && score < t.minHigh
  {
    if score >= t.minHigh then High
    else if score >= t.minMedium then Medium
    else Low
  }

  /** A higher score never gets a lower tier, whatever the thresholds. */
  lemma SeverityMonotone(a: int, b: int, t: Thresholds)
    requires a <= b
    ensures Level(SeverityFromScore(a, t)) <= Level(SeverityFromScore(b, t))
  {
  }

  /** The boundaries under the default thresholds 50/80. */
  lemma DefaultBoundaries()
    ensures SeverityFromScore(49, DEFAULT_THRESHOLDS) == Low
    ensures SeverityFromScore(50, DEFAULT_THRESHOLDS) == Medium
    ensures SeverityFromScore(79, DEFAULT_THRESHOLDS) == Medium
    ensures SeverityFromScore(80, DEFAULT_THRESHOLDS) == High
  {
  }
}
