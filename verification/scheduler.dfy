/** One iteration of the monitoring loop as a pure step, and runs of many iterations. */
module Scheduler {
  import opened Wrappers
  import opened Metrics
  import opened Evaluator
  import opened Throttle
  import opened History
  import opened Config

  /** History is saved whenever its length is a multiple of this. */
  const SaveEvery: nat := 100

  /** The state that survives between iterations: the bounded history and the
      throttle's last-alert times. */
  datatype MonitorState = MonitorState(history: seq<Snapshot>, lastAlert: AlertTimes)

  /** A freshly constructed monitor: empty history, no level has alerted. */
  function Initial(): MonitorState
  {
    MonitorState([], map[])
  }

  /** The effects of one iteration: the new state, the level of the alert handed to the
      notifier (if any), and whether the history is written out. */
  datatype Tick = Tick(state: MonitorState, alert: Option<AlertLevel>, save: bool)

  /** What the outside world supplies to one iteration: the collector's result (`None`
      when collection failed) and the clock reading the throttle sees. */
  datatype Input = Input(sample: Option<Snapshot>, now: real)

  /** One iteration. A failed collection changes nothing, sends nothing and saves
      nothing. Otherwise the sample enters the history before it is evaluated; an alert
      is handed to the notifier only for the evaluated level and only when the throttle
      allows it; the save is triggered exactly when the history length after the append
      is a multiple of 100. */
  function Step(cfg: Settings, st: MonitorState, sample: Option<Snapshot>, now: real): (t: Tick)
    ensures sample.None? ==> t == Tick(st, None, false)
    ensures sample.Some? ==> t.state.history == Record(st.history, sample.value)
    ensures sample.Some? ==> (t.save <==> |t.state.history| % SaveEvery == 0)
    ensures |st.history| <= MaxHistorySize ==> |t.state.history| <= MaxHistorySize
    ensures t.alert.Some? ==>
              && t.alert == AlertLevelOf(sample, cfg.levels)
              && (t.alert.value !in st.lastAlert
                  || now - st.lastAlert[t.alert.value] >= cfg.alertInterval)
              && t.state.lastAlert == st.lastAlert[t.alert.value := now]
    ensures t.alert.None? && AlertLevelOf(sample, cfg.levels).Some? ==>
              && AlertLevelOf(sample, cfg.levels).value in st.lastAlert
              && now - st.lastAlert[AlertLevelOf(sample, cfg.levels).value] < cfg.alertInterval
    ensures t.alert.None? ==> t.state.lastAlert == st.lastAlert
    ensures cfg.alertInterval >= 0.0 ==>
              forall l :: l in st.lastAlert ==>
                l in t.state.lastAlert && t.state.lastAlert[l] >= st.lastAlert[l]
  {
    match sample
    case None => Tick(st, None, false)
    case Some(s) =>
      var history := Record(st.history, s);
      var level := AlertLevelOf(Some(s), cfg.levels);
      if level.None? then
        Tick(MonitorState(history, st.lastAlert), None, |history| % SaveEvery == 0)
      else
        var d := ShouldSend(st.lastAlert, level.value, now, cfg.alertInterval);
        Tick(MonitorState(history, d.times), if d.send then level else None, |history| % SaveEvery == 0)
  }

  /** The state after running the loop over `inputs`, in order. */
  function Run(cfg: Settings, st: MonitorState, inputs: seq<Input>): MonitorState
    decreases |inputs|
  {
    if |inputs| == 0 then st
    else Run(cfg, Step(cfg, st, inputs[0].sample, inputs[0].now).state, inputs[1..])
  }

  /** The clock readings of the iterations in which an alert of `level` is handed to
      the notifier. */
  function AlertsAt(cfg: Settings, st: MonitorState, inputs: seq<Input>, level: AlertLevel): seq<real>
    decreases |inputs|
  {
    if |inputs| == 0 then []
    else
      var t := Step(cfg, st, inputs[0].sample, inputs[0].now);
      (if t.alert == Some(level) then [inputs[0].now] else [])
      + AlertsAt(cfg, t.state, inputs[1..], level)
  }

  /** The samples that were collected successfully, in order. */
  function Collected(inputs: seq<Input>): (c: seq<Snapshot>)
    ensures forall x :: x in c <==> exists j :: 0 <= j < |inputs| && inputs[j].sample == Some(x)
  {
    if |inputs| == 0 then []
    else
      (match inputs[0].sample case None => [] case Some(s) => [s])
      + Collected(inputs[1..])
  }

  /** The requests the loop puts to the throttle: one per collected sample that
      evaluates to a level. */
  function Requests(levels: Levels, inputs: seq<Input>): (reqs: seq<Request>)
    ensures forall q :: q in reqs ==>
              exists j :: 0 <= j < |inputs| && inputs[j].now == q.now
                          && AlertLevelOf(inputs[j].sample, levels) == Some(q.level)
  {
    if |inputs| == 0 then []
    else
      (match AlertLevelOf(inputs[0].sample, levels)
       case None => []
       case Some(l) => [Request(l, inputs[0].now)])
      + Requests(levels, inputs[1..])
  }

  /** Over a run, the history is the collected samples recorded one by one; failed
      collections leave no trace in it. */
  lemma {:induction false} RunRecordsCollected(cfg: Settings, st: MonitorState, inputs: seq<Input>)
    ensures Run(cfg, st, inputs).history == RecordAll(st.history, Collected(inputs))
    decreases |inputs|
  {
    if |inputs| > 0 {
      var t := Step(cfg, st, inputs[0].sample, inputs[0].now);
      RunRecordsCollected(cfg, t.state, inputs[1..]);
      match inputs[0].sample
      case None =>
        assert Collected(inputs) == Collected(inputs[1..]);
      case Some(s) =>
        var c := Collected(inputs);
        assert c == [s] + Collected(inputs[1..]);
        assert c[0] == s && c[1..] == Collected(inputs[1..]);
    }
  }

  /** From a fresh monitor, the history holds the newest `min(n, 1000)` collected
      samples in arrival order. */
  lemma HistoryIsNewestSamples(cfg: Settings, inputs: seq<Input>)
    ensures Run(cfg, Initial(), inputs).history == Window(Collected(inputs))
  {
    RunRecordsCollected(cfg, Initial(), inputs);
    RecordAllIsWindow([], Collected(inputs));
    assert [] + Collected(inputs) == Collected(inputs);
  }

  /** The alerts a run hands to the notifier are exactly what the throttle lets through
      for the requests of that run. */
  lemma {:induction false} AlertsFollowThrottle(cfg: Settings, st: MonitorState, inputs: seq<Input>, level: AlertLevel)
    ensures AlertsAt(cfg, st, inputs, level)
            == SentAt(st.lastAlert, Requests(cfg.levels, inputs), level, cfg.alertInterval)
    decreases |inputs|
  {
    if |inputs| > 0 {
      var t := Step(cfg, st, inputs[0].sample, inputs[0].now);
      AlertsFollowThrottle(cfg, t.state, inputs[1..], level);
      var reqs := Requests(cfg.levels, inputs);
      match AlertLevelOf(inputs[0].sample, cfg.levels)
      case None =>
        assert reqs == Requests(cfg.levels, inputs[1..]);
      case Some(l) =>
        assert reqs == [Request(l, inputs[0].now)] + Requests(cfg.levels, inputs[1..]);
        assert reqs[0] == Request(l, inputs[0].now);
        assert reqs[1..] == Requests(cfg.levels, inputs[1..]);
    }
  }

  /** End to end: alerts of one level leave the loop at least `alert.interval` apart, and
      the first one at least that long after the level's recorded time. */
  lemma AlertsAreRateLimited(cfg: Settings, st: MonitorState, inputs: seq<Input>, level: AlertLevel)
    ensures Spaced(AlertsAt(cfg, st, inputs, level), cfg.alertInterval)
    ensures level in st.lastAlert && |AlertsAt(cfg, st, inputs, level)| > 0 ==>
              AlertsAt(cfg, st, inputs, level)[0] - st.lastAlert[level] >= cfg.alertInterval
  {
    AlertsFollowThrottle(cfg, st, inputs, level);
    SendsAreSpaced(st.lastAlert, Requests(cfg.levels, inputs), level, cfg.alertInterval);
  }

  /** From a fresh monitor, the n-th successful collection triggers a save exactly when
      n is a multiple of 100 or the history has filled up (n >= 1000): once full, every
      successful iteration saves. */
  lemma SaveSchedule(cfg: Settings, inputs: seq<Input>, s: Snapshot, now: real)
    ensures var n := |Collected(inputs)| + 1;
            Step(cfg, Run(cfg, Initial(), inputs), Some(s), now).save
            <==> (n % SaveEvery == 0 || n >= MaxHistorySize)
  {
    var st := Run(cfg, Initial(), inputs);
    var c := |Collected(inputs)|;
    assert |st.history| == (if c <= MaxHistorySize then c else MaxHistorySize) by {
      RunHistoryLength(cfg, inputs);
    }
    SaveOnCount(cfg, st, c, s, now);
  }

  /** A successful iteration on a history that holds the `c` samples collected so far
      (capped at 1000) saves exactly when c + 1 is a multiple of 100 or c + 1 >= 1000. */
  lemma SaveOnCount(cfg: Settings, st: MonitorState, c: nat, s: Snapshot, now: real)
    requires |st.history| == if c <= MaxHistorySize then c else MaxHistorySize
    ensures Step(cfg, st, Some(s), now).save
            <==> ((c + 1) % SaveEvery == 0 || c + 1 >= MaxHistorySize)
  {
    SaveAfter(cfg, st, s, now);
    CappedCountSaves(c, |st.history|);
  }

  /** The save test on the capped length `m` agrees with the save test on the uncapped
      count `c`. */
  lemma CappedCountSaves(c: nat, m: nat)
    requires m == if c <= MaxHistorySize then c else MaxHistorySize
    ensures ((m + 1) % SaveEvery == 0 || m == MaxHistorySize)
            <==> ((c + 1) % SaveEvery == 0 || c + 1 >= MaxHistorySize)
  {
    if c < MaxHistorySize {
      assert m == c && c != MaxHistorySize;
      assert c + 1 >= MaxHistorySize ==> c + 1 == MaxHistorySize;
    }
  }

  /** From a fresh monitor, the history length is the number of collected samples,
      capped at 1000. */
  lemma RunHistoryLength(cfg: Settings, inputs: seq<Input>)
    ensures |Run(cfg, Initial(), inputs).history|
            == if |Collected(inputs)| <= MaxHistorySize then |Collected(inputs)| else MaxHistorySize
  {
    HistoryIsNewestSamples(cfg, inputs);
  }

  /** From a history within the cap, a successful iteration saves exactly when the
      appended length is a multiple of 100 or the history was already full. */
  lemma SaveAfter(cfg: Settings, st: MonitorState, s: Snapshot, now: real)
    requires |st.history| <= MaxHistorySize
    ensures Step(cfg, st, Some(s), now).save
            <==> ((|st.history| + 1) % SaveEvery == 0 || |st.history| == MaxHistorySize)
  {
    RecordLength(st.history, s);
  }

  /** A full history stays full, so every successful iteration then triggers a save. */
  lemma FullHistorySavesEveryIteration(cfg: Settings, st: MonitorState, s: Snapshot, now: real)
    requires |st.history| == MaxHistorySize
    ensures |Step(cfg, st, Some(s), now).state.history| == MaxHistorySize
    ensures Step(cfg, st, Some(s), now).save
  {
  }

  /** The three samples of the held-back example below. */
  function HeldBackInputs(t0: real): seq<Input>
  {
    [Input(Some(Snapshot("", 96.0, 40.0, 40.0, None)), t0),
     Input(Some(Snapshot("", 50.0, 96.0, 40.0, None)), t0 + 600.0),
     Input(Some(Snapshot("", 96.0, 40.0, 40.0, None)), t0 + 2400.0)]
  }

  /** Each of the three samples evaluates to Critical, so each asks the throttle. */
  lemma HeldBackRequests(t0: real)
    ensures Requests(Levels(85.0, 95.0), HeldBackInputs(t0))
            == [Request(Critical, t0), Request(Critical, t0 + 600.0), Request(Critical, t0 + 2400.0)]
  {
    var levels := Levels(85.0, 95.0);
    var inputs := HeldBackInputs(t0);
    var reqs := [Request(Critical, t0), Request(Critical, t0 + 600.0), Request(Critical, t0 + 2400.0)];
    assert AlertLevelOf(inputs[0].sample, levels) == Some(Critical);
    assert AlertLevelOf(inputs[1].sample, levels) == Some(Critical);
    assert AlertLevelOf(inputs[2].sample, levels) == Some(Critical);
    assert inputs[1..][1..][1..] == [];
    assert Requests(levels, inputs[1..][1..]) == reqs[2..];
    assert Requests(levels, inputs[1..]) == reqs[1..];
  }

  /** The throttle lets through only the first of the three Critical requests. */
  lemma HeldBackThrottle(t0: real)
    ensures var reqs := [Request(Critical, t0), Request(Critical, t0 + 600.0), Request(Critical, t0 + 2400.0)];
            SentAt(map[], reqs, Critical, 3600.0) == [t0]
            && SentAt(map[], reqs, Warning, 3600.0) == []
  {
    var reqs := [Request(Critical, t0), Request(Critical, t0 + 600.0), Request(Critical, t0 + 2400.0)];
    var m := map[Critical := t0];
    assert ShouldSend(map[], Critical, t0, 3600.0) == Decision(m, true);
    assert ShouldSend(m, Critical, t0 + 600.0, 3600.0) == Decision(m, false);
    assert ShouldSend(m, Critical, t0 + 2400.0, 3600.0) == Decision(m, false);
    assert reqs[1..][1..][1..] == [];
    assert SentAt(m, reqs[1..][1..], Critical, 3600.0) == [];
    assert SentAt(m, reqs[1..], Critical, 3600.0) == [];
    assert SentAt(m, reqs[1..][1..], Warning, 3600.0) == [];
    assert SentAt(m, reqs[1..], Warning, 3600.0) == [];
  }

  /** Thresholds 85 / 95 and a one-hour interval: CPU at 96 at t0, memory at 96 ten
      minutes later, CPU at 96 forty minutes after t0. Only the first Critical alert goes
      out; the later two are held back although a different metric triggered one of
      them. */
  lemma SameLevelIsHeldBack(t0: real)
    ensures var cfg := Settings(Levels(85.0, 95.0), 3600.0);
            AlertsAt(cfg, Initial(), HeldBackInputs(t0), Critical) == [t0]
            && AlertsAt(cfg, Initial(), HeldBackInputs(t0), Warning) == []
  {
    var cfg := Settings(Levels(85.0, 95.0), 3600.0);
    AlertsFollowThrottle(cfg, Initial(), HeldBackInputs(t0), Critical);
    AlertsFollowThrottle(cfg, Initial(), HeldBackInputs(t0), Warning);
    HeldBackRequests(t0);
    HeldBackThrottle(t0);
  }
}
