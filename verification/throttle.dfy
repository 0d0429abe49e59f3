/** The alert throttle: per level, an alert is let through at most once per interval. */
module Throttle {
  import opened Metrics

  /** Time of the last alert let through, per level. A level that is absent has never
      alerted. */
  type AlertTimes = map<AlertLevel, real>

  /** The throttle's answer together with its updated state. */
  datatype Decision = Decision(times: AlertTimes, send: bool)

  /** One request for `level` at clock reading `now`. */
  datatype Request = Request(level: AlertLevel, now: real)

  /** Whether an alert of `level` may go out at `now`. The first request for a level is
      always allowed; a later one only once `interval` has elapsed since the last allowed
      one. Allowing records `now`; refusing changes nothing. Other levels are never
      touched, and with a non-negative interval no recorded time ever decreases, even if
      the clock steps backwards. */
  function ShouldSend(times: AlertTimes, level: AlertLevel, now: real, interval: real): (d: Decision)
    ensures level !in times ==> d.send
    ensures level in times ==> (d.send <==> now - times[level] >= interval)
    ensures d.send ==> level in d.times && d.times[level] == now
    ensures !d.send ==> d.times == times
    ensures d.times.Keys == times.Keys + {level}
    ensures forall l :: l != level && l in times ==> d.times[l] == times[l]
    ensures interval >= 0.0 ==> forall l :: l in times ==> d.times[l] >= times[l]
  {
    if level !in times then
      Decision(times[level := now], true)
    else if now - times[level] >= interval then
      Decision(times[level := now], true)
    else
      Decision(times, false)
  }

  /** Both maps agree on `level`: present in both with the same time, or in neither. */
  predicate SameEntry(a: AlertTimes, b: AlertTimes, level: AlertLevel)
  {
    (level in a <==> level in b) && (level in a ==> a[level] == b[level])
  }

  /** The times at which alerts of `level` are let through while the throttle answers
      `reqs` in order, starting from `times`. */
  function SentAt(times: AlertTimes, reqs: seq<Request>, level: AlertLevel, interval: real): (sent: seq<real>)
    ensures forall t :: t in sent ==>
              exists i :: 0 <= i < |reqs| && reqs[i].level == level && reqs[i].now == t
    decreases |reqs|
  {
    if |reqs| == 0 then []
    else
      var d := ShouldSend(times, reqs[0].level, reqs[0].now, interval);
      (if d.send && reqs[0].level == level then [reqs[0].now] else [])
      + SentAt(d.times, reqs[1..], level, interval)
  }

  /** Consecutive times in `ts` are at least `interval` apart. */
  predicate Spaced(ts: seq<real>, interval: real)
  {
    forall k :: 1 <= k < |ts| ==> ts[k] - ts[k - 1] >= interval
  }

  /** The requests for one level, in order. */
  function OfLevel(reqs: seq<Request>, level: AlertLevel): (r: seq<Request>)
    ensures |r| <= |reqs|
    ensures forall i :: 0 <= i < |r| ==> r[i].level == level
    ensures forall q :: q in r <==> q in reqs && q.level == level
  {
    if |reqs| == 0 then []
    else (if reqs[0].level == level then [reqs[0]] else []) + OfLevel(reqs[1..], level)
  }

  /** Rate limit: the alerts let through for one level are at least `interval` apart,
      and the first is at least `interval` after the time already recorded for it. This
      holds whatever order the clock readings come in. */
  lemma {:induction false} SendsAreSpaced(times: AlertTimes, reqs: seq<Request>, level: AlertLevel, interval: real)
    ensures Spaced(SentAt(times, reqs, level, interval), interval)
    ensures level in times && |SentAt(times, reqs, level, interval)| > 0 ==>
              SentAt(times, reqs, level, interval)[0] - times[level] >= interval
    decreases |reqs|
  {
    if |reqs| > 0 {
      var d := ShouldSend(times, reqs[0].level, reqs[0].now, interval);
      var rest := SentAt(d.times, reqs[1..], level, interval);
      SendsAreSpaced(d.times, reqs[1..], level, interval);
      if d.send && reqs[0].level == level {
        assert SentAt(times, reqs, level, interval) == [reqs[0].now] + rest;
        assert d.times[level] == reqs[0].now;
      } else {
        assert SentAt(times, reqs, level, interval) == rest;
        assert SameEntry(times, d.times, level);
      }
    }
  }

  /** Levels are throttled independently: what is let through for `level` depends only
      on its own entry and its own requests, so a recent Warning never suppresses a
      Critical and vice versa. */
  lemma {:induction false} LevelsAreIndependent(times: AlertTimes, times': AlertTimes, reqs: seq<Request>, level: AlertLevel, interval: real)
    requires SameEntry(times, times', level)
    ensures SentAt(times, reqs, level, interval) == SentAt(times', OfLevel(reqs, level), level, interval)
    decreases |reqs|
  {
    if |reqs| > 0 {
      var d := ShouldSend(times, reqs[0].level, reqs[0].now, interval);
      if reqs[0].level == level {
        var d' := ShouldSend(times', reqs[0].level, reqs[0].now, interval);
        var filtered := OfLevel(reqs, level);
        assert filtered == [reqs[0]] + OfLevel(reqs[1..], level);
        assert filtered[0] == reqs[0] && filtered[1..] == OfLevel(reqs[1..], level);
        assert d.send == d'.send;
        LevelsAreIndependent(d.times, d'.times, reqs[1..], level, interval);
      } else {
        assert OfLevel(reqs, level) == OfLevel(reqs[1..], level);
        LevelsAreIndependent(d.times, times', reqs[1..], level, interval);
      }
    }
  }

  /** The throttling example with a one-hour interval: Critical at t0 goes out, at
      t0 + 1000 it is held back, at t0 + 3601 it goes out again; a Warning at t0 + 10 goes
      out regardless of the Critical history. */
  lemma OneHourExample(t0: real)
    ensures var reqs := [Request(Critical, t0), Request(Warning, t0 + 10.0),
                         Request(Critical, t0 + 1000.0), Request(Critical, t0 + 3601.0)];
            SentAt(map[], reqs, Critical, 3600.0) == [t0, t0 + 3601.0]
            && SentAt(map[], reqs, Warning, 3600.0) == [t0 + 10.0]
  {
    var reqs := [Request(Critical, t0), Request(Warning, t0 + 10.0),
                 Request(Critical, t0 + 1000.0), Request(Critical, t0 + 3601.0)];
    var m1 := map[Critical := t0];
    var m2 := map[Critical := t0, Warning := t0 + 10.0];
    var m4 := map[Critical := t0 + 3601.0, Warning := t0 + 10.0];
    assert ShouldSend(map[], Critical, t0, 3600.0) == Decision(m1, true);
    assert ShouldSend(m1, Warning, t0 + 10.0, 3600.0) == Decision(m2, true);
    assert ShouldSend(m2, Critical, t0 + 1000.0, 3600.0) == Decision(m2, false);
    assert ShouldSend(m2, Critical, t0 + 3601.0, 3600.0) == Decision(m4, true);
    assert reqs[1..][1..][1..][1..] == [];
    assert SentAt(m4, [], Critical, 3600.0) == [];
    assert SentAt(m2, reqs[1..][1..][1..], Critical, 3600.0) == [t0 + 3601.0];
    assert SentAt(m2, reqs[1..][1..], Critical, 3600.0) == [t0 + 3601.0];
    assert SentAt(m1, reqs[1..], Critical, 3600.0) == [t0 + 3601.0];
    assert SentAt(m2, reqs[1..][1..][1..], Warning, 3600.0) == [];
    assert SentAt(m2, reqs[1..][1..], Warning, 3600.0) == [];
    assert SentAt(m1, reqs[1..], Warning, 3600.0) == [t0 + 10.0];
  }
}
