/** The threshold evaluator: a snapshot and the two configured thresholds decide the
    alert level. */
module Evaluator {
  import opened Wrappers
  import opened Metrics

  /** The thresholds read from `alert.levels`. Nothing requires warning < critical. */
  datatype Levels = Levels(warning: real, critical: real)

  /** The largest of the three percentages that drive alerting. */
  function Peak(s: Snapshot): (p: real)
    ensures p >= s.cpuPercent && p >= s.memoryPercent && p >= s.diskPercent
    ensures p == s.cpuPercent || p == s.memoryPercent || p == s.diskPercent
  {
    var m := if s.cpuPercent >= s.memoryPercent then s.cpuPercent else s.memoryPercent;
    if m >= s.diskPercent then m else s.diskPercent
  }

  /** Severity order of an evaluation result: none < warning < critical. */
  function Rank(level: Option<AlertLevel>): nat
  {
    match level
    case None => 0
    case Some(Warning) => 1
    case Some(Critical) => 2
  }

  /** The alert level of a metrics record. The critical test runs first and wins; both
      tests use strict `>`; a missing record yields no level. The result is
      characterised by the peak percentage alone. */
  function AlertLevelOf(metrics: Option<Snapshot>, levels: Levels): (r: Option<AlertLevel>)
    ensures r == Some(Critical) <==>
              metrics.Some? && Peak(metrics.value) > levels.critical
    ensures r == Some(Warning) <==>
              metrics.Some? && levels.warning < Peak(metrics.value) <= levels.critical
    ensures r == None <==>
              metrics.None? ||
              (Peak(metrics.value) <= levels.warning && Peak(metrics.value) <= levels.critical)
  {
    match metrics
    case None => None
    case Some(s) =>
      if s.cpuPercent > levels.critical
         || s.memoryPercent > levels.critical
         || s.diskPercent > levels.critical
      then Some(Critical)
      else if s.cpuPercent > levels.warning
              || s.memoryPercent > levels.warning
              || s.diskPercent > levels.warning
      then Some(Warning)
      else None
  }

  /** Every percentage of `a` is at least the matching percentage of `b`. */
  predicate Dominates(a: Snapshot, b: Snapshot)
  {
    a.cpuPercent >= b.cpuPercent
    && a.memoryPercent >= b.memoryPercent
    && a.diskPercent >= b.diskPercent
  }

  /** Raising any percentage never lowers the level. */
  lemma LevelIsMonotone(a: Snapshot, b: Snapshot, levels: Levels)
    requires Dominates(a, b)
    ensures Rank(AlertLevelOf(Some(a), levels)) >= Rank(AlertLevelOf(Some(b), levels))
  {
  }

  /** With ordered thresholds, a record whose percentages are all at most the warning
      threshold raises nothing: equality never triggers a level. */
  lemma AtOrBelowWarningIsQuiet(s: Snapshot, levels: Levels)
    requires levels.warning <= levels.critical
    requires s.cpuPercent <= levels.warning
    requires s.memoryPercent <= levels.warning
    requires s.diskPercent <= levels.warning
    ensures AlertLevelOf(Some(s), levels) == None
  {
  }

  /** One percentage above critical gives Critical whatever the other two are. */
  lemma CriticalTakesPrecedence(s: Snapshot, levels: Levels)
    requires s.cpuPercent > levels.critical
             || s.memoryPercent > levels.critical
             || s.diskPercent > levels.critical
    ensures AlertLevelOf(Some(s), levels) == Some(Critical)
  {
  }

  /** When the thresholds are not ordered (warning >= critical) the Warning level is
      unreachable: the loader never rejects such a configuration. */
  lemma InvertedThresholdsNeverWarn(m: Option<Snapshot>, levels: Levels)
    requires levels.warning >= levels.critical
    ensures AlertLevelOf(m, levels) != Some(Warning)
  {
  }

  /** Boundary cases for the shipped thresholds 85 and 95. */
  lemma ShippedThresholdBoundaries()
    ensures AlertLevelOf(Some(Snapshot("", 85.0, 40.0, 40.0, None)), Levels(85.0, 95.0)) == None
    ensures AlertLevelOf(Some(Snapshot("", 85.5, 40.0, 40.0, None)), Levels(85.0, 95.0)) == Some(Warning)
    ensures AlertLevelOf(Some(Snapshot("", 40.0, 95.0, 40.0, None)), Levels(85.0, 95.0)) == Some(Warning)
    ensures AlertLevelOf(Some(Snapshot("", 90.0, 40.0, 95.1, None)), Levels(85.0, 95.0)) == Some(Critical)
  {
  }
}
