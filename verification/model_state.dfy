/** The server's single in-memory model state and the handlers that act on
    it: the training request, the playback timer's callback, and the status
    view. Each handler is proved against the functions of TrainingRun. */
module Server {
  import opened LogLines
  import opened TrainingRun

  /** What the status endpoint returns. */
  datatype StatusView = StatusView(
    status: string,
    lastTrained: Option<string>,
    metrics: Metrics,
    distribution: Distribution,
    recentLogs: seq<string>)

  class ModelState {
    var status: Status
    var lastTrained: Option<string>
    var metrics: Metrics
    var classDistribution: Distribution
    var logs: seq<string>
    /** The live run's count of played template lines. */
    var counter: nat

    /** The state as a value. */
    function Abs(): Snapshot
      reads this
    {
      Snapshot(status, lastTrained, metrics, classDistribution, logs, counter)
    }

    predicate Valid()
      reads this
    {
      Inv(TrainingLogsTemplate, Abs())
    }

    /** The state at process start: not trained, no logs, all metrics null. */
    constructor ()
      ensures Valid() && Abs() == Initial
    {
      status := NotTrained;
      lastTrained := None;
      metrics := NullMetrics;
      classDistribution := InitialDistribution;
      logs := [];
      counter := 0;
      InitialInv(TrainingLogsTemplate);
    }

    /** The training request: refused with 409 while a run is live, otherwise
        the state is reset and a new run starts. */
    method Train() returns (reply: TrainReply)
      requires Valid()
      modifies this
      ensures Valid()
      ensures reply == ReplyTo(old(Abs())) && (reply == Conflict <==> old(status) == Training)
      ensures Abs() == AfterTrain(old(Abs()))
      ensures reply == Conflict ==> unchanged(this)
      ensures reply == Started ==>
        status == Training && logs == [] && metrics == NullMetrics && counter == 0 &&
        lastTrained == old(lastTrained) && classDistribution == old(classDistribution)
    {
      if status == Training {
        return Conflict;
      }
      TrainPreservesInv(TrainingLogsTemplate, Abs());
      status := Training;
      logs := [];
      metrics := NullMetrics;
      counter := 0;
      reply := Started;
    }

    /** One firing of the playback timer: plays the next template line, or,
        once all are played, completes the run; `done` says the timer is cleared. */
    method Tick(f: Firing) returns (done: bool)
      requires Valid() && status == Training && DrawsValid(f.draws)
      modifies this
      ensures Valid()
      ensures Abs() == AfterTick(TrainingLogsTemplate, old(Abs()), f)
      ensures done == (status == Trained) && done == (old(counter) == |TrainingLogsTemplate|)
      ensures !done ==> logs == old(logs) + [RewritePrefix(TrainingLogsTemplate[old(counter)], f.clock)]
      ensures done ==> logs == old(logs) && metrics == TrainedMetrics && InRange(classDistribution)
    {
      TickPreservesInv(TrainingLogsTemplate, Abs(), f);
      if counter < |TrainingLogsTemplate| {
        var line := RewritePrefix(TrainingLogsTemplate[counter], f.clock);
        logs := logs + [line];
        counter := counter + 1;
        done := false;
      } else {
        status := Trained;
        lastTrained := Some(f.iso);
        metrics := TrainedMetrics;
        classDistribution := Reroll(f.draws);
        done := true;
      }
    }

    /** The playback timer of a live run: it fires the callback once per
        element of `fs` until the callback clears it. */
    method RunInterval(fs: seq<Firing>) returns (fired: nat)
      requires Valid() && status == Training && FiringsValid(fs)
      modifies this
      ensures Valid()
      ensures Abs() == Ticks(TrainingLogsTemplate, old(Abs()), fs)
      ensures fired <= |fs| && (fired < |fs| ==> status == Trained)
    {
      fired := 0;
      var done := false;
      while fired < |fs| && !done
        invariant Valid() && fired <= |fs|
        invariant done <==> status != Training
        invariant Ticks(TrainingLogsTemplate, old(Abs()), fs) == Ticks(TrainingLogsTemplate, Abs(), fs[fired..])
        invariant done ==> status == Trained
        decreases |fs| - fired
      {
        assert DrawsValid(fs[fired].draws);
        assert fs[fired..][1..] == fs[fired + 1..];
        done := Tick(fs[fired]);
        fired := fired + 1;
      }
    }

    /** The status view: reads the state and changes nothing; the log part is
        the last (at most) ten lines. */
    method GetStatus() returns (view: StatusView)
      requires Valid()
      ensures view.status == Label(status) && view.lastTrained == lastTrained
      ensures view.metrics == metrics && view.distribution == classDistribution
      ensures |view.recentLogs| == Min(|logs|, 10) && |view.recentLogs| <= 10
      ensures view.recentLogs == logs[|logs| - |view.recentLogs|..]
      ensures status == Training ==> AllNull(view.metrics)
      ensures status == Trained ==> view.metrics == TrainedMetrics
      ensures InRange(view.distribution)
    {
      view := StatusView(Label(status), lastTrained, metrics, classDistribution, RecentLogs(logs));
    }
  }

  /** Two training requests in a row: one is started, the other refused,
      and the second leaves the state as the first made it. */
  method TrainTwice(m: ModelState) returns (first: TrainReply, second: TrainReply)
    requires m.Valid() && m.status != Training
    modifies m
    ensures first == Started && second == Conflict
    ensures m.Valid() && m.status == Training && m.logs == [] && AllNull(m.metrics)
  {
    first := m.Train();
    second := m.Train();
  }
}
