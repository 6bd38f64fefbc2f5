/** The simulated training lifecycle as values: the in-memory model state,
    what accepting a training request does to it, what one firing of the
    playback timer does to it, and the invariants that every reachable state
    keeps. The class in module Server is proved against these functions. */
module TrainingRun {
  import opened LogLines

  datatype Option<T> = None | Some(value: T)

  datatype Status = NotTrained | Training | Trained

  /** The status string the endpoints report. */
  function Label(s: Status): (text: string)
    ensures text == "Not Trained" <==> s == NotTrained
    ensures text == "Training" <==> s == Training
    ensures text == "Trained" <==> s == Trained
  {
    match s
    case NotTrained => "Not Trained"
    case Training => "Training"
    case Trained => "Trained"
  }

  /** The six evaluation metrics; `None` is JavaScript's `null`. The values
      are constants that are only stored and copied, never computed with. */
  datatype Metrics = Metrics(
    accuracy: Option<real>,
    precision: Option<real>,
    recall: Option<real>,
    f1: Option<real>,
    rocAuc: Option<real>,
    mcc: Option<real>)

  const NullMetrics := Metrics(None, None, None, None, None, None)

  /** The fixed metrics installed when a run completes. */
  const TrainedMetrics := Metrics(Some(94.7), Some(92.1), Some(95.3), Some(93.8), Some(98.2), Some(89.4))

  predicate AllNull(m: Metrics) {
    m.accuracy.None? && m.precision.None? && m.recall.None? &&
    m.f1.None? && m.rocAuc.None? && m.mcc.None?
  }

  predicate AllSet(m: Metrics) {
    m.accuracy.Some? && m.precision.Some? && m.recall.Some? &&
    m.f1.Some? && m.rocAuc.Some? && m.mcc.Some?
  }

  /** Counts per class: "False Positive", "Candidate", "Confirmed". */
  datatype Distribution = Distribution(falsePositive: int, candidate: int, confirmed: int)

  const InitialDistribution := Distribution(48, 28, 24)

  /** The ranges a re-rolled distribution falls in. */
  predicate InRange(d: Distribution) {
    45 <= d.falsePositive <= 50 && 25 <= d.candidate <= 30 && 22 <= d.confirmed <= 27
  }

  /** Three draws of `Math.random()`, one per class. */
  datatype Draws = Draws(falsePositive: real, candidate: real, confirmed: real)

  predicate IsDraw(r: real) {
    0.0 <= r < 1.0
  }

  predicate DrawsValid(d: Draws) {
    IsDraw(d.falsePositive) && IsDraw(d.candidate) && IsDraw(d.confirmed)
  }

  /** `Math.floor(draw * 6) + base`: one of the six counts base..base+5. */
  function RollCount(draw: real, base: int): (n: int)
    requires IsDraw(draw)
    ensures base <= n <= base + 5
  {
    (draw * 6.0).Floor + base
  }

  /** The distribution installed when a run completes. */
  function Reroll(d: Draws): (r: Distribution)
    requires DrawsValid(d)
    ensures InRange(r)
  {
    Distribution(RollCount(d.falsePositive, 45), RollCount(d.candidate, 25), RollCount(d.confirmed, 22))
  }

  /** What one firing of the playback timer observes from its environment:
      the local time of day, the ISO date-time, and three random draws. */
  datatype Firing = Firing(clock: string, iso: string, draws: Draws)

  predicate FiringsValid(fs: seq<Firing>) {
    forall k :: 0 <= k < |fs| ==> DrawsValid(fs[k].draws)
  }

  /** The model state, plus `counter`: the number of template lines the
      current (or last) run has played. */
  datatype Snapshot = Snapshot(
    status: Status,
    lastTrained: Option<string>,
    metrics: Metrics,
    distribution: Distribution,
    logs: seq<string>,
    counter: nat)

  const Initial := Snapshot(NotTrained, None, NullMetrics, InitialDistribution, [], 0)

  /** The reply to a training request. */
  datatype TrainReply = Started | Conflict {
    function HttpStatus(): (code: int)
      ensures code == 409 <==> Conflict?
    {
      if Conflict? then 409 else 200
    }
  }

  /** The invariant of the model state while `script` is the played template. */
  predicate Inv(script: seq<string>, s: Snapshot) {
    |s.logs| == s.counter <= |script| &&
    (forall k :: 0 <= k < |s.logs| ==> Renders(s.logs[k], script[k])) &&
    InRange(s.distribution) &&
    (s.status == NotTrained ==>
       s.logs == [] && s.metrics == NullMetrics && s.lastTrained == None &&
       s.distribution == InitialDistribution) &&
    (s.status == Training ==> s.metrics == NullMetrics) &&
    (s.status == Trained ==>
       s.counter == |script| && s.metrics == TrainedMetrics && s.lastTrained.Some?)
  }

  /** The reply to a training request: a conflict exactly while a run is live. */
  function ReplyTo(s: Snapshot): (r: TrainReply)
    ensures r == Conflict <==> s.status == Training
  {
    if s.status == Training then Conflict else Started
  }

  /** The state after a training request. */
  function AfterTrain(s: Snapshot): (r: Snapshot)
    ensures r.status == Training
    ensures s.status == Training ==> r == s
    ensures s.status != Training ==>
      r.logs == [] && AllNull(r.metrics) && r.counter == 0 &&
      r.distribution == s.distribution && r.lastTrained == s.lastTrained
  {
    if s.status == Training then s
    else s.(status := Training, logs := [], metrics := NullMetrics, counter := 0)
  }

  /** The state after one firing of the playback timer of the live run that
      plays `script` (the server plays TrainingLogsTemplate). */
  function AfterTick(script: seq<string>, s: Snapshot, f: Firing): (r: Snapshot)
    requires s.status == Training && DrawsValid(f.draws)
    ensures r.status == Training <==> s.counter < |script|
    ensures r.status == Training ==>
      r.logs == s.logs + [RewritePrefix(script[s.counter], f.clock)] && r.counter == s.counter + 1 &&
      Renders(r.logs[|s.logs|], script[s.counter])
    ensures r.status != Training ==>
      r.status == Trained && r.logs == s.logs && r.metrics == TrainedMetrics &&
      InRange(r.distribution) && r.lastTrained == Some(f.iso)
  {
    if s.counter < |script| then
      s.(logs := s.logs + [RewritePrefix(script[s.counter], f.clock)],
         counter := s.counter + 1)
    else
      s.(status := Trained, lastTrained := Some(f.iso), metrics := TrainedMetrics,
         distribution := Reroll(f.draws))
  }

  /** The state after the given firings; once the run is over the timer is
      cleared, so later firings do not happen. */
  function Ticks(script: seq<string>, s: Snapshot, fs: seq<Firing>): (r: Snapshot)
    requires FiringsValid(fs)
    ensures s.status != Training ==> r == s
    ensures s.status == Training ==> r.status != NotTrained
    ensures |s.logs| <= |r.logs| && r.logs[..|s.logs|] == s.logs
    decreases |fs|
  {
    if fs == [] || s.status != Training then s
    else Ticks(script, AfterTick(script, s, fs[0]), fs[1..])
  }

  /** The lines played by `fs`, starting at line `from` of the script. */
  function Played(script: seq<string>, fs: seq<Firing>, from: nat): (lines: seq<string>)
    requires from + |fs| <= |script|
    ensures |lines| == |fs|
    decreases |fs|
  {
    if fs == [] then []
    else [RewritePrefix(script[from], fs[0].clock)] + Played(script, fs[1..], from + 1)
  }

  /** Line `k` played is the rewrite of script line `from + k` with the
      clock of firing `k`. */
  lemma {:induction false} PlayedAt(script: seq<string>, fs: seq<Firing>, from: nat, k: nat)
    requires from + |fs| <= |script| && k < |fs|
    ensures Played(script, fs, from)[k] == RewritePrefix(script[from + k], fs[k].clock)
    decreases |fs|
  {
    var head := RewritePrefix(script[from], fs[0].clock);
    var tail := Played(script, fs[1..], from + 1);
    assert Played(script, fs, from) == [head] + tail;
    if k > 0 {
      PlayedAt(script, fs[1..], from + 1, k - 1);
      assert fs[1..][k - 1] == fs[k];
      assert ([head] + tail)[k] == tail[k - 1];
    }
  }

  /** A request to train, or one firing of the timer of the live run. */
  datatype Event = TrainRequest | TimerFiring(f: Firing)

  predicate EventsValid(es: seq<Event>) {
    forall k :: 0 <= k < |es| ==> es[k].TimerFiring? ==> DrawsValid(es[k].f.draws)
  }

  /** The state after a sequence of events; a firing with no live run has
      no timer behind it and changes nothing. */
  function Run(script: seq<string>, s: Snapshot, es: seq<Event>): (r: Snapshot)
    requires EventsValid(es)
    ensures r.status == NotTrained ==> r == s
    ensures s.status != NotTrained ==> r.status != NotTrained
    decreases |es|
  {
    if es == [] then s
    else
      var next :=
        match es[0]
        case TrainRequest => AfterTrain(s)
        case TimerFiring(f) => if s.status == Training then AfterTick(script, s, f) else s;
      Run(script, next, es[1..])
  }


  // ---------------------------------------------------------------------
  // The guard and the reset

  /** While a run is live a training request is refused with 409 and changes nothing. */
  lemma TrainRefusedWhileTraining(s: Snapshot)
    requires s.status == Training
    ensures ReplyTo(s).HttpStatus() == 409
    ensures AfterTrain(s) == s
  {
  }

  /** Otherwise (not trained yet, or trained before) the request is accepted
      and starts a fresh run: empty logs, all metrics null, counter zero;
      the distribution and the last-trained time are kept. */
  lemma TrainResets(s: Snapshot)
    requires s.status != Training
    ensures ReplyTo(s) == Started && ReplyTo(s).HttpStatus() == 200
    ensures var r := AfterTrain(s);
      r.status == Training && r.logs == [] && AllNull(r.metrics) && r.counter == 0 &&
      r.distribution == s.distribution && r.lastTrained == s.lastTrained
  {
  }

  /** Two requests in a row: the first is accepted, the second refused. */
  lemma SecondTrainConflicts(s: Snapshot)
    requires s.status != Training
    ensures ReplyTo(s) == Started && ReplyTo(AfterTrain(s)) == Conflict
    ensures AfterTrain(AfterTrain(s)) == AfterTrain(s)
  {
  }

  // ---------------------------------------------------------------------
  // One firing

  /** While lines remain, a firing appends exactly one line, the rewrite of
      the next script line, and advances the counter; nothing else changes. */
  lemma TickAppendsOne(script: seq<string>, s: Snapshot, f: Firing)
    requires Inv(script, s) && s.status == Training && DrawsValid(f.draws)
    requires s.counter < |script|
    ensures var r := AfterTick(script, s, f);
      r.status == Training && r.counter == s.counter + 1 &&
      r.logs == s.logs + [RewritePrefix(script[s.counter], f.clock)] &&
      Renders(r.logs[|s.logs|], script[s.counter]) &&
      r.metrics == s.metrics && r.distribution == s.distribution &&
      r.lastTrained == s.lastTrained
  {
  }

  /** Once all lines are played, the next firing completes the run: status
      Trained, the fixed metrics, a re-rolled distribution within its ranges,
      the firing's date-time as last-trained, and no further line. */
  lemma TickFinishes(script: seq<string>, s: Snapshot, f: Firing)
    requires Inv(script, s) && s.status == Training && DrawsValid(f.draws)
    requires s.counter == |script|
    ensures var r := AfterTick(script, s, f);
      r.status == Trained && r.metrics == TrainedMetrics && AllSet(r.metrics) &&
      r.logs == s.logs && |r.logs| == |script| && InRange(r.distribution) &&
      r.lastTrained == Some(f.iso)
  {
  }

  // ---------------------------------------------------------------------
  // The invariant

  lemma InitialInv(script: seq<string>)
    ensures Inv(script, Initial)
    ensures Initial.status == NotTrained && AllNull(Initial.metrics)
  {
  }

  lemma TrainPreservesInv(script: seq<string>, s: Snapshot)
    requires Inv(script, s)
    ensures Inv(script, AfterTrain(s))
  {
  }

  lemma TickPreservesInv(script: seq<string>, s: Snapshot, f: Firing)
    requires Inv(script, s) && s.status == Training && DrawsValid(f.draws)
    ensures Inv(script, AfterTick(script, s, f))
  {
  }

  /** Every state reachable by training requests and timer firings satisfies
      the invariant. */
  lemma {:induction false} RunPreservesInv(script: seq<string>, s: Snapshot, es: seq<Event>)
    requires Inv(script, s) && EventsValid(es)
    ensures Inv(script, Run(script, s, es))
    decreases |es|
  {
    if es != [] {
      assert EventsValid(es[1..]) by {
        forall k | 0 <= k < |es| - 1 ensures es[1..][k].TimerFiring? ==> DrawsValid(es[1..][k].f.draws) {
          assert es[1..][k] == es[k + 1];
        }
      }
      match es[0]
      case TrainRequest =>
        TrainPreservesInv(script, s);
        RunPreservesInv(script, AfterTrain(s), es[1..]);
      case TimerFiring(f) =>
        assert DrawsValid(es[0].f.draws);
        if s.status == Training {
          TickPreservesInv(script, s, f);
          RunPreservesInv(script, AfterTick(script, s, f), es[1..]);
        } else {
          RunPreservesInv(script, s, es[1..]);
        }
    }
  }

  /** What the status endpoint can observe in every state reachable from
      process start: while training all metrics are null, once trained they
      are the fixed ones and the log has nine lines, the log never exceeds
      nine lines, and the distribution is within its ranges. */
  lemma ReachableFacts(es: seq<Event>)
    requires EventsValid(es)
    ensures var s := Run(TrainingLogsTemplate, Initial, es);
      (s.status == Training ==> AllNull(s.metrics)) &&
      (s.status == Trained ==> s.metrics == TrainedMetrics && |s.logs| == 9) &&
      (s.status == NotTrained ==> s.logs == [] && AllNull(s.metrics)) &&
      InRange(s.distribution) && |s.logs| <= 9
  {
    InitialInv(TrainingLogsTemplate);
    RunPreservesInv(TrainingLogsTemplate, Initial, es);
    TemplatePrefixes([]);
  }

  // ---------------------------------------------------------------------
  // A whole run

  lemma FiringsTailValid(fs: seq<Firing>)
    requires FiringsValid(fs) && fs != []
    ensures FiringsValid(fs[1..])
  {
  }

  /** While lines remain, firings append their lines in order and keep the run live. */
  lemma {:induction false} TicksWhilePlaying(script: seq<string>, s: Snapshot, fs: seq<Firing>)
    requires s.status == Training && FiringsValid(fs)
    requires s.counter + |fs| <= |script|
    ensures Ticks(script, s, fs) ==
      s.(logs := s.logs + Played(script, fs, s.counter), counter := s.counter + |fs|)
    decreases |fs|
  {
    if fs != [] {
      var next := AfterTick(script, s, fs[0]);
      FiringsTailValid(fs);
      TicksWhilePlaying(script, next, fs[1..]);
      var line := RewritePrefix(script[s.counter], fs[0].clock);
      var rest := Played(script, fs[1..], s.counter + 1);
      assert Played(script, fs, s.counter) == [line] + rest;
      assert next.logs == s.logs + [line];
      assert (s.logs + [line]) + rest == s.logs + ([line] + rest);
    }
  }

  /** Firings compose: playing `a` then `b` is playing `a + b`. */
  lemma {:induction false} TicksAppend(script: seq<string>, s: Snapshot, a: seq<Firing>, b: seq<Firing>)
    requires FiringsValid(a) && FiringsValid(b)
    ensures FiringsValid(a + b)
    ensures Ticks(script, s, a + b) == Ticks(script, Ticks(script, s, a), b)
    decreases |a|
  {
    assert forall k :: 0 <= k < |a + b| ==> (a + b)[k] == if k < |a| then a[k] else b[k - |a|];
    if a != [] && s.status == Training {
      assert (a + b)[1..] == a[1..] + b;
      FiringsTailValid(a);
      TicksAppend(script, AfterTick(script, s, a[0]), a[1..], b);
    } else if a == [] {
      assert a + b == b;
    }
  }

  /** After an accepted request, as many firings as the script has lines
      play all of them and leave the run live; the next firing completes it,
      so a finished run holds exactly one line per script line. */
  lemma {:induction false} RunCompletesAfterScript(script: seq<string>, s: Snapshot, fs: seq<Firing>)
    requires s.status != Training && FiringsValid(fs) && |fs| > |script|
    ensures var playing := Ticks(script, AfterTrain(s), fs[..|script|]);
      playing.status == Training && playing.logs == Played(script, fs[..|script|], 0)
    ensures var done := Ticks(script, AfterTrain(s), fs);
      done.status == Trained && done.logs == Played(script, fs[..|script|], 0) &&
      |done.logs| == |script| && done.metrics == TrainedMetrics &&
      done.lastTrained == Some(fs[|script|].iso) && done.distribution == Reroll(fs[|script|].draws)
  {
    var n := |script|;
    var t := AfterTrain(s);
    var a, b := fs[..n], fs[n..];
    assert fs == a + b;
    assert FiringsValid(a) by {
      forall k | 0 <= k < |a| ensures DrawsValid(a[k].draws) { assert a[k] == fs[k]; }
    }
    assert FiringsValid(b) by {
      forall k | 0 <= k < |b| ensures DrawsValid(b[k].draws) { assert b[k] == fs[n + k]; }
    }
    TicksWhilePlaying(script, t, a);
    TicksAppend(script, t, a, b);
    var playing := Ticks(script, t, a);
    var done := AfterTick(script, playing, b[0]);
    assert Ticks(script, playing, b) == Ticks(script, done, b[1..]);
    assert b[0] == fs[n];
  }

  /** The server's run: nine firings play the nine template lines, the tenth
      completes the run with exactly nine lines, and the first line, which
      carries a date rather than a clock, keeps its original text. */
  lemma CompletesOnTenthFiring(s: Snapshot, fs: seq<Firing>)
    requires s.status != Training && FiringsValid(fs) && |fs| >= 10
    ensures Ticks(TrainingLogsTemplate, AfterTrain(s), fs[..9]).status == Training
    ensures var done := Ticks(TrainingLogsTemplate, AfterTrain(s), fs);
      done.status == Trained && |done.logs| == 9 &&
      done.logs[0] == TrainingLogsTemplate[0] && done.metrics == TrainedMetrics
  {
    TemplatePrefixes(fs[0].clock);
    RunCompletesAfterScript(TrainingLogsTemplate, s, fs);
    PlayedAt(TrainingLogsTemplate, fs[..9], 0, 0);
  }
}
