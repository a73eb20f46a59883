/**
 The progress driver of the upload simulation: starting a batch run, the
 recurring tick that advances the shared counter by 5 and applies one
 `Batch.Tick`, and the stop condition. The timer itself is replaced by
 explicit steps; what the environment contributes to a tick (the random
 chatter and the clock) is an input.
 */
module Driver {
  import opened Types
  import opened Batch

  /** The state a batch run keeps: the registry, the log feed, the shared
      counter, and whether the interval is still armed. */
  datatype RunState = RunState(apps: seq<IntuneApp>, logs: seq<LogEntry>, counter: int, running: bool)

  /** What the environment supplies to one tick: the tag of the optional
      "Packaging stream" chatter entry (absent when the random draw does not
      emit one) and the clock reading used for the entries logged. */
  datatype TickInput = TickInput(chatter: Option<string>, stamp: Stamp)

  /** Amount the shared counter grows by on every tick. */
  const CounterStep: int := 5

  /** Ticks of a complete run: the counter goes 10, 15, ..., 100. */
  const RunLength: nat := 19

  /** Number of entries of the feed with the given level. */
  function CountLevel(logs: seq<LogEntry>, level: LogLevel): (n: nat)
    ensures n <= |logs|
    ensures n == 0 <==> forall k :: 0 <= k < |logs| ==> logs[k].level != level
  {
    if |logs| == 0 then 0
    else (if logs[0].level == level then 1 else 0) + CountLevel(logs[1..], level)
  }

  lemma {:induction false} CountLevelAppend(a: seq<LogEntry>, b: seq<LogEntry>, level: LogLevel)
    ensures CountLevel(a + b, level) == CountLevel(a, level) + CountLevel(b, level)
  {
    if |a| > 0 {
      assert (a + b)[1..] == a[1..] + b;
      CountLevelAppend(a[1..], b, level);
    } else {
      assert a + b == b;
    }
  }

  function ChatterLog(chatter: Option<string>, stamp: Stamp): (r: seq<LogEntry>)
    ensures |r| <= 1
    ensures forall k :: 0 <= k < |r| ==> r[k].level == LogLevel.INFO
  {
    match chatter
    case None => []
    case Some(tag) => [LogEntry(stamp.id, stamp.time, LogLevel.INFO, "Packaging stream [" + tag + "] processed.")]
  }

  function StartEntry(stamp: Stamp): LogEntry {
    LogEntry(stamp.id, stamp.time, LogLevel.INFO, StartMessage)
  }

  function CompletedEntry(stamp: Stamp): LogEntry {
    LogEntry(stamp.id, stamp.time, LogLevel.SUCCESS, CompletedMessage)
  }

  /** Starting an upload: one INFO entry is appended, every IDLE app begins
      packaging, and the interval is armed with the counter at 5. */
  function StartUpload(apps: seq<IntuneApp>, logs: seq<LogEntry>, stamp: Stamp): (r: RunState)
    ensures r.running && r.counter == StartProgress
    ensures r.apps == StartBatch(apps)
    ensures Extends(logs, r.logs) && |r.logs| == |logs| + 1
    ensures r.logs[|logs|].level == LogLevel.INFO && r.logs[|logs|].message == StartMessage
  {
    RunState(StartBatch(apps), logs + [StartEntry(stamp)], StartProgress, true)
  }

  /** The entries one firing of the interval appends, the counter already
      advanced: the optional chatter entry, one rejection per failing
      package on the completing tick, and then the completion entry. No
      firing logs a WARN entry or more than one INFO entry. */
  function TickLog(apps: seq<IntuneApp>, counter: int, input: TickInput): (r: seq<LogEntry>)
    ensures forall k :: 0 <= k < |r| ==> r[k].level != LogLevel.WARN
    ensures CountLevel(r, LogLevel.INFO) <= 1
    ensures counter >= Complete ==>
      |r| == |ChatterLog(input.chatter, input.stamp)| + FailingInFlight(apps) + 1 && r[|r| - 1] == CompletedEntry(input.stamp)
    ensures counter >= Complete ==>
      forall k :: 0 <= k < |r| - 1 ==> r[k].level == LogLevel.INFO || r[k].level == LogLevel.ERROR
    ensures counter < Complete ==> |r| <= 1 && forall k :: 0 <= k < |r| ==> r[k].level == LogLevel.INFO
  {
    var chatter := ChatterLog(input.chatter, input.stamp);
    var rejected := RejectionLog(apps, counter, input.stamp);
    CountLevelAppend(chatter, rejected, LogLevel.INFO);
    if counter >= Complete then
      RejectionLogCount(apps, counter, input.stamp);
      CountLevelAppend(chatter + rejected, [CompletedEntry(input.stamp)], LogLevel.INFO);
      chatter + rejected + [CompletedEntry(input.stamp)]
    else
      chatter + rejected
  }

  /** One firing of the interval. A cleared interval never fires, so a
      stopped run is left as it is. Otherwise the counter grows by 5, the
      registry takes one tick, its entries are appended to the feed, and
      once the counter has reached 100 the interval is cleared. */
  function Step(s: RunState, input: TickInput): (r: RunState)
    ensures !s.running ==> r == s
    ensures s.running ==> r.counter == s.counter + CounterStep && r.apps == Tick(s.apps, r.counter)
    ensures s.running ==> r.logs == s.logs + TickLog(s.apps, r.counter, input)
    ensures s.running ==> (r.running <==> r.counter < Complete)
    ensures Extends(s.logs, r.logs)
    ensures s.running && !r.running ==>
      |r.logs| > |s.logs| && r.logs[|r.logs| - 1] == CompletedEntry(input.stamp)
    ensures r.running ==>
      (|r.logs| <= |s.logs| + 1 && forall k :: |s.logs| <= k < |r.logs| ==> r.logs[k].level == LogLevel.INFO)
  {
    if !s.running then s
    else
      var counter := s.counter + CounterStep;
      RunState(Tick(s.apps, counter), s.logs + TickLog(s.apps, counter, input), counter, counter < Complete)
  }

  /** The ERROR entries a firing adds are exactly the rejections of the
      failing packages still in flight on the completing tick; no other
      firing adds any. */
  lemma TickLogErrors(apps: seq<IntuneApp>, counter: int, input: TickInput)
    ensures CountLevel(TickLog(apps, counter, input), LogLevel.ERROR) ==
      if counter >= Complete then FailingInFlight(apps) else 0
  {
    var chatter := ChatterLog(input.chatter, input.stamp);
    var rejected := RejectionLog(apps, counter, input.stamp);
    CountLevelAppend(chatter, rejected, LogLevel.ERROR);
    if counter >= Complete {
      RejectionLogCount(apps, counter, input.stamp);
      AllErrorCount(rejected);
      CountLevelAppend(chatter + rejected, [CompletedEntry(input.stamp)], LogLevel.ERROR);
    }
  }

  lemma {:induction false} AllErrorCount(logs: seq<LogEntry>)
    requires forall k :: 0 <= k < |logs| ==> logs[k].level == LogLevel.ERROR
    ensures CountLevel(logs, LogLevel.ERROR) == |logs|
  {
    if |logs| > 0 {
      AllErrorCount(logs[1..]);
    }
  }

  /** The state after the interval has fired once per input. The registry
      keeps its length, the feed only grows by appending, and a stopped run
      is left as it is. */
  function RunTicks(s: RunState, inputs: seq<TickInput>): (r: RunState)
    ensures |r.apps| == |s.apps|
    ensures Extends(s.logs, r.logs)
    ensures !s.running ==> r == s
    decreases |inputs|
  {
    if |inputs| == 0 then s
    else
      var s1 := Step(s, inputs[0]);
      var r := RunTicks(s1, inputs[1..]);
      ExtendsTransitive(s.logs, s1.logs, r.logs);
      r
  }

  /** An app that is not in flight is left unchanged by any number of
      firings: SUCCESS, ERROR and IDLE are absorbing within a run. */
  lemma {:induction false} RunAbsorbing(s: RunState, inputs: seq<TickInput>, i: int)
    requires 0 <= i < |s.apps| && !InFlight(s.apps[i].status)
    ensures RunTicks(s, inputs).apps[i] == s.apps[i]
    decreases |inputs|
  {
    if |inputs| > 0 {
      RunAbsorbing(Step(s, inputs[0]), inputs[1..], i);
    }
  }

  /** Shape of the driver state during a run: the counter is a multiple of
      5 between 5 and 100, and the interval is armed exactly while it is
      below 100. */
  predicate DriverOk(s: RunState) {
    StartProgress <= s.counter <= Complete && s.counter % CounterStep == 0
    && (s.running <==> s.counter < Complete)
  }

  /** Once the interval has been cleared no app is in flight. */
  predicate Settled(s: RunState) {
    !s.running ==> forall i :: 0 <= i < |s.apps| ==> !InFlight(s.apps[i].status)
  }

  /** While the run is armed, every in-flight app stands at the counter. */
  predicate Synced(s: RunState) {
    s.running ==> forall i :: 0 <= i < |s.apps| && InFlight(s.apps[i].status) ==> s.apps[i].progress == s.counter
  }

  function Min(a: int, b: int): int {
    if a <= b then a else b
  }

  lemma StartUploadDriverOk(apps: seq<IntuneApp>, logs: seq<LogEntry>, stamp: Stamp)
    ensures DriverOk(StartUpload(apps, logs, stamp)) && Settled(StartUpload(apps, logs, stamp))
  {
  }

  lemma StepDriverOk(s: RunState, input: TickInput)
    requires DriverOk(s)
    ensures DriverOk(Step(s, input))
  {
  }

  /** After n firings the counter has grown by 5n, up to 100; a stopped run
      has settled every app. */
  lemma {:induction false} RunCounter(s: RunState, inputs: seq<TickInput>)
    requires DriverOk(s) && Settled(s)
    ensures DriverOk(RunTicks(s, inputs)) && Settled(RunTicks(s, inputs))
    ensures RunTicks(s, inputs).counter == Min(s.counter + CounterStep * |inputs|, Complete)
    decreases |inputs|
  {
    if |inputs| > 0 {
      RunCounter(Step(s, inputs[0]), inputs[1..]);
    }
  }

  /** A run started from any registry stops after exactly 19 firings of the
      interval, and when it has stopped no app is PACKAGING or UPLOADING. */
  lemma StopsAfterNineteenTicks(apps: seq<IntuneApp>, logs: seq<LogEntry>, stamp: Stamp, inputs: seq<TickInput>)
    ensures RunTicks(StartUpload(apps, logs, stamp), inputs).running <==> |inputs| < RunLength
    ensures |inputs| >= RunLength ==>
      forall i :: 0 <= i < |apps| ==> !InFlight(RunTicks(StartUpload(apps, logs, stamp), inputs).apps[i].status)
  {
    var s := StartUpload(apps, logs, stamp);
    RunCounter(s, inputs);
  }

  lemma ExtendsTransitive(a: seq<LogEntry>, b: seq<LogEntry>, c: seq<LogEntry>)
    requires Extends(a, b) && Extends(b, c)
    ensures Extends(a, c)
  {
    assert c[..|a|] == c[..|b|][..|a|];
  }

  /** Progress stays a percentage and a deployed app stays at 100 through
      every firing of the interval. */
  lemma {:induction false} RunKeepsRegistryOk(s: RunState, inputs: seq<TickInput>)
    requires DriverOk(s) && RegistryOk(s.apps)
    ensures RegistryOk(RunTicks(s, inputs).apps)
    decreases |inputs|
  {
    if |inputs| > 0 {
      var s1 := Step(s, inputs[0]);
      if s.running {
        TickKeepsRegistryOk(s.apps, s1.counter);
      }
      RunKeepsRegistryOk(s1, inputs[1..]);
    }
  }

  /** A batch may only be started while nothing is in flight (the start
      button is disabled otherwise); then every in-flight app moves in step
      with the counter. */
  lemma StartUploadSynced(apps: seq<IntuneApp>, logs: seq<LogEntry>, stamp: Stamp)
    requires forall i :: 0 <= i < |apps| ==> !InFlight(apps[i].status)
    ensures Synced(StartUpload(apps, logs, stamp))
  {
  }

  /** On each firing an app that stays in flight gains exactly 5 points of
      progress, so in-flight progress strictly increases tick to tick. */
  lemma StepAdvancesProgress(s: RunState, input: TickInput, i: int)
    requires DriverOk(s) && Settled(s) && Synced(s)
    requires 0 <= i < |s.apps|
    requires InFlight(s.apps[i].status) && InFlight(Step(s, input).apps[i].status)
    ensures Synced(Step(s, input))
    ensures Step(s, input).apps[i].progress == s.apps[i].progress + CounterStep
  {
  }

  /** The result of a complete run for one app of the registry it was
      started from: SUCCESS and ERROR apps are untouched, every other app
      ends deployed at 100, or rejected at 85 if it is the failing package. */
  function Outcome(a: IntuneApp): (r: IntuneApp)
    ensures SameIdentity(r, a) && Terminal(r.status)
    ensures Terminal(a.status) ==> r == a
  {
    if Terminal(a.status) then a else Finish(a)
  }

  /** The run state `s` is on its way from registry `orig` to the outcome. */
  predicate Tracks(orig: seq<IntuneApp>, s: RunState) {
    |s.apps| == |orig|
    && (forall i :: 0 <= i < |orig| && Terminal(orig[i].status) ==> s.apps[i] == orig[i])
    && (forall i :: 0 <= i < |orig| && !Terminal(orig[i].status) ==>
          if s.running then InFlight(s.apps[i].status) && SameIdentity(s.apps[i], orig[i])
          else s.apps[i] == Finish(orig[i]))
  }

  /** Starting an upload puts the run on its way to the outcome. */
  lemma StartUploadTracks(apps: seq<IntuneApp>, logs: seq<LogEntry>, stamp: Stamp)
    ensures DriverOk(StartUpload(apps, logs, stamp)) && Tracks(apps, StartUpload(apps, logs, stamp))
  {
  }

  lemma StepTracks(orig: seq<IntuneApp>, s: RunState, input: TickInput)
    requires DriverOk(s) && Tracks(orig, s)
    ensures Tracks(orig, Step(s, input))
  {
    var r := Step(s, input);
    if s.running {
      forall i | 0 <= i < |orig| && !Terminal(orig[i].status) && !r.running
        ensures r.apps[i] == Finish(orig[i])
      {
        assert r.apps[i] == Finish(s.apps[i]);
      }
    }
  }

  lemma {:induction false} RunTracks(orig: seq<IntuneApp>, s: RunState, inputs: seq<TickInput>)
    requires DriverOk(s) && Tracks(orig, s)
    ensures Tracks(orig, RunTicks(s, inputs))
    decreases |inputs|
  {
    if |inputs| > 0 {
      StepTracks(orig, s, inputs[0]);
      assert DriverOk(Step(s, inputs[0]));
      RunTracks(orig, Step(s, inputs[0]), inputs[1..]);
    }
  }

  /** The outcome of a complete batch run, from any registry: after 19 or
      more firings every app has its `Outcome`, in the same order. */
  lemma BatchOutcome(apps: seq<IntuneApp>, logs: seq<LogEntry>, stamp: Stamp, inputs: seq<TickInput>)
    requires |inputs| >= RunLength
    ensures |RunTicks(StartUpload(apps, logs, stamp), inputs).apps| == |apps|
    ensures forall i :: 0 <= i < |apps| ==> RunTicks(StartUpload(apps, logs, stamp), inputs).apps[i] == Outcome(apps[i])
  {
    var s := StartUpload(apps, logs, stamp);
    StartUploadTracks(apps, logs, stamp);
    RunTracks(apps, s, inputs);
    StopsAfterNineteenTicks(apps, logs, stamp, inputs);
  }

  /** Apart from the ERROR entries, a firing adds exactly one SUCCESS entry
      on the completing tick, and none on any other. */
  lemma TickLogSuccesses(apps: seq<IntuneApp>, counter: int, input: TickInput)
    ensures CountLevel(TickLog(apps, counter, input), LogLevel.SUCCESS) ==
      if counter >= Complete then 1 else 0
  {
    var chatter := ChatterLog(input.chatter, input.stamp);
    var rejected := RejectionLog(apps, counter, input.stamp);
    CountLevelAppend(chatter, rejected, LogLevel.SUCCESS);
    if counter >= Complete {
      CountLevelAppend(chatter + rejected, [CompletedEntry(input.stamp)], LogLevel.SUCCESS);
    }
  }

  lemma {:induction false} FailingInFlightPointwise(a: seq<IntuneApp>, b: seq<IntuneApp>)
    requires |a| == |b|
    requires forall i :: 0 <= i < |a| ==>
      (InFlight(a[i].status) && a[i].name == FailingApp) == (InFlight(b[i].status) && b[i].name == FailingApp)
    ensures FailingInFlight(a) == FailingInFlight(b)
  {
    if |a| > 0 {
      FailingInFlightPointwise(a[1..], b[1..]);
    }
  }

  /** Number of packages of registry `orig` that a run started from it
      rejects: the failing package, unless it had already finished. */
  function Rejected(orig: seq<IntuneApp>): nat {
    FailingInFlight(StartBatch(orig))
  }

  /** One firing from an armed state on the way to the outcome adds the
      ERROR entries of the rejected packages, and only when it stops. */
  lemma StepLogErrors(orig: seq<IntuneApp>, s: RunState, input: TickInput)
    requires DriverOk(s) && Tracks(orig, s) && s.running
    ensures CountLevel(Step(s, input).logs, LogLevel.ERROR) ==
      CountLevel(s.logs, LogLevel.ERROR) + (if Step(s, input).running then 0 else Rejected(orig))
  {
    var counter := s.counter + CounterStep;
    var added := TickLog(s.apps, counter, input);
    assert Step(s, input).logs == s.logs + added;
    TickLogErrors(s.apps, counter, input);
    CountLevelAppend(s.logs, added, LogLevel.ERROR);
    if counter >= Complete {
      TracksRejected(orig, s);
    }
  }

  /** One firing from an armed state adds the SUCCESS completion entry
      exactly when it stops. */
  lemma StepLogSuccesses(s: RunState, input: TickInput)
    requires DriverOk(s) && s.running
    ensures CountLevel(Step(s, input).logs, LogLevel.SUCCESS) ==
      CountLevel(s.logs, LogLevel.SUCCESS) + (if Step(s, input).running then 0 else 1)
  {
    var counter := s.counter + CounterStep;
    var added := TickLog(s.apps, counter, input);
    assert Step(s, input).logs == s.logs + added;
    TickLogSuccesses(s.apps, counter, input);
    CountLevelAppend(s.logs, added, LogLevel.SUCCESS);
  }

  /** While a run is armed, the failing packages in flight are exactly the
      ones it will reject. */
  lemma TracksRejected(orig: seq<IntuneApp>, s: RunState)
    requires Tracks(orig, s) && s.running
    ensures FailingInFlight(s.apps) == Rejected(orig)
  {
    var started := StartBatch(orig);
    forall i | 0 <= i < |orig|
      ensures (InFlight(s.apps[i].status) && s.apps[i].name == FailingApp)
           == (InFlight(started[i].status) && started[i].name == FailingApp)
    {
      assert InFlight(started[i].status) <==> !Terminal(orig[i].status);
      assert started[i].name == orig[i].name;
    }
    FailingInFlightPointwise(s.apps, started);
  }

  /** From any armed state on the way to the outcome, running the interval
      to completion adds one ERROR entry per rejected package and exactly
      one SUCCESS entry. */
  lemma {:induction false} RunLogs(orig: seq<IntuneApp>, s: RunState, inputs: seq<TickInput>)
    requires DriverOk(s) && Tracks(orig, s) && s.running
    requires s.counter + CounterStep * |inputs| >= Complete
    ensures CountLevel(RunTicks(s, inputs).logs, LogLevel.ERROR) == CountLevel(s.logs, LogLevel.ERROR) + Rejected(orig)
    ensures CountLevel(RunTicks(s, inputs).logs, LogLevel.SUCCESS) == CountLevel(s.logs, LogLevel.SUCCESS) + 1
    decreases |inputs|
  {
    var s1 := Step(s, inputs[0]);
    StepLogErrors(orig, s, inputs[0]);
    StepLogSuccesses(s, inputs[0]);
    StepTracks(orig, s, inputs[0]);
    StepDriverOk(s, inputs[0]);
    assert RunTicks(s, inputs) == RunTicks(s1, inputs[1..]);
    if s1.running {
      RunLogs(orig, s1, inputs[1..]);
      var final := RunTicks(s1, inputs[1..]);
      assert CountLevel(final.logs, LogLevel.ERROR) == CountLevel(s.logs, LogLevel.ERROR) + Rejected(orig);
      assert CountLevel(final.logs, LogLevel.SUCCESS) == CountLevel(s.logs, LogLevel.SUCCESS) + 1;
      assert final == RunTicks(s, inputs);
    }
  }

  /** Running an armed interval to completion leaves the completion entry
      at the end of the feed. */
  lemma {:induction false} RunEndsWithCompletion(s: RunState, inputs: seq<TickInput>)
    requires DriverOk(s) && s.running
    requires s.counter + CounterStep * |inputs| >= Complete
    ensures |RunTicks(s, inputs).logs| > 0
    ensures RunTicks(s, inputs).logs[|RunTicks(s, inputs).logs| - 1].message == CompletedMessage
    decreases |inputs|
  {
    var s1 := Step(s, inputs[0]);
    StepDriverOk(s, inputs[0]);
    assert RunTicks(s, inputs) == RunTicks(s1, inputs[1..]);
    if s1.running {
      RunEndsWithCompletion(s1, inputs[1..]);
    } else {
      assert RunTicks(s1, inputs[1..]) == s1;
      assert s1.logs[|s1.logs| - 1] == CompletedEntry(inputs[0].stamp);
    }
  }

  /** The feed ends with a rejection as its most recent ERROR entry,
      followed by one more entry. */
  predicate RejectionIsLastError(feed: seq<LogEntry>) {
    |feed| >= 2 && IsLastError(feed, |feed| - 2) && feed[|feed| - 2].message == RejectionMessage
  }

  /** The completing firing of a run that rejects a package: the last
      rejection is the most recent ERROR entry, followed only by the
      completion entry. */
  lemma StepLastError(orig: seq<IntuneApp>, s: RunState, input: TickInput)
    requires DriverOk(s) && Tracks(orig, s) && s.running
    requires s.counter + CounterStep >= Complete
    requires Rejected(orig) > 0
    ensures RejectionIsLastError(Step(s, input).logs)
  {
    var counter := s.counter + CounterStep;
    var chatter := ChatterLog(input.chatter, input.stamp);
    var rejected := RejectionLog(s.apps, counter, input.stamp);
    TracksRejected(orig, s);
    RejectionLogCount(s.apps, counter, input.stamp);
    var logs := Step(s, input).logs;
    assert logs == (s.logs + chatter + rejected) + [CompletedEntry(input.stamp)];
    assert logs[|logs| - 2] == rejected[|rejected| - 1];
  }

  /** Running an armed interval that rejects a package to completion leaves
      a rejection as the most recent ERROR entry of the feed. */
  lemma {:induction false} RunLastError(orig: seq<IntuneApp>, s: RunState, inputs: seq<TickInput>)
    requires DriverOk(s) && Tracks(orig, s) && s.running
    requires s.counter + CounterStep * |inputs| >= Complete
    requires Rejected(orig) > 0
    ensures RejectionIsLastError(RunTicks(s, inputs).logs)
    decreases |inputs|
  {
    var s1 := Step(s, inputs[0]);
    StepDriverOk(s, inputs[0]);
    assert RunTicks(s, inputs) == RunTicks(s1, inputs[1..]);
    if s1.running {
      StepTracks(orig, s, inputs[0]);
      RunLastError(orig, s1, inputs[1..]);
    } else {
      StepLastError(orig, s, inputs[0]);
    }
  }

  /** After a complete batch run that rejected a package, the most recent
      ERROR entry of the feed is that rejection. */
  lemma BatchLastError(apps: seq<IntuneApp>, logs: seq<LogEntry>, stamp: Stamp, inputs: seq<TickInput>)
    requires |inputs| >= RunLength
    requires Rejected(apps) > 0
    ensures RejectionIsLastError(RunTicks(StartUpload(apps, logs, stamp), inputs).logs)
  {
    StartUploadTracks(apps, logs, stamp);
    RunLastError(apps, StartUpload(apps, logs, stamp), inputs);
  }

  /** The feed of a complete batch run: the start entry, one ERROR entry per
      rejected package and one final SUCCESS completion entry are appended
      to the feed the run started from. */
  lemma BatchLog(apps: seq<IntuneApp>, logs: seq<LogEntry>, stamp: Stamp, inputs: seq<TickInput>)
    requires |inputs| >= RunLength
    ensures Extends(logs, RunTicks(StartUpload(apps, logs, stamp), inputs).logs)
    ensures CountLevel(RunTicks(StartUpload(apps, logs, stamp), inputs).logs, LogLevel.ERROR) ==
      CountLevel(logs, LogLevel.ERROR) + Rejected(apps)
    ensures CountLevel(RunTicks(StartUpload(apps, logs, stamp), inputs).logs, LogLevel.SUCCESS) ==
      CountLevel(logs, LogLevel.SUCCESS) + 1
    ensures |RunTicks(StartUpload(apps, logs, stamp), inputs).logs| > 0
    ensures var final := RunTicks(StartUpload(apps, logs, stamp), inputs).logs;
      final[|final| - 1].message == CompletedMessage
  {
    var s := StartUpload(apps, logs, stamp);
    var final := RunTicks(s, inputs);
    StartUploadDriverOk(apps, logs, stamp);
    RunEndsWithCompletion(s, inputs);
    assert final.logs[|final.logs| - 1].message == CompletedMessage;
    ExtendsTransitive(logs, s.logs, final.logs);
    BatchLogCounts(apps, logs, stamp, inputs);
  }

  lemma BatchLogCounts(apps: seq<IntuneApp>, logs: seq<LogEntry>, stamp: Stamp, inputs: seq<TickInput>)
    requires |inputs| >= RunLength
    ensures CountLevel(RunTicks(StartUpload(apps, logs, stamp), inputs).logs, LogLevel.ERROR) ==
      CountLevel(logs, LogLevel.ERROR) + Rejected(apps)
    ensures CountLevel(RunTicks(StartUpload(apps, logs, stamp), inputs).logs, LogLevel.SUCCESS) ==
      CountLevel(logs, LogLevel.SUCCESS) + 1
  {
    var s := StartUpload(apps, logs, stamp);
    var final := RunTicks(s, inputs);
    assert s.logs == logs + [StartEntry(stamp)];
    CountLevelAppend(logs, [StartEntry(stamp)], LogLevel.ERROR);
    CountLevelAppend(logs, [StartEntry(stamp)], LogLevel.SUCCESS);
    StartUploadTracks(apps, logs, stamp);
    RunLogs(apps, s, inputs);
    assert CountLevel(final.logs, LogLevel.ERROR) == CountLevel(s.logs, LogLevel.ERROR) + Rejected(apps);
    assert CountLevel(final.logs, LogLevel.SUCCESS) == CountLevel(s.logs, LogLevel.SUCCESS) + 1;
  }

  /** The registry the dashboard starts with. */
  const InitialRegistry: seq<IntuneApp> := [
    IntuneApp("1", "Google Chrome", "119.0.6045", IDLE, 0, "Today", "105 MB"),
    IntuneApp("2", "7-Zip", "23.01", IDLE, 0, "Today", "1.5 MB"),
    IntuneApp("3", "Adobe Reader DC", "2023.006", AppStatus.ERROR, 45, "Yesterday", "240 MB"),
    IntuneApp("4", "VLC Media Player", "3.0.18", AppStatus.SUCCESS, 100, "Yesterday", "40 MB")
  ]

  /** The registry at the end of a batch run over the initial one. */
  const InitialOutcome: seq<IntuneApp> := [
    IntuneApp("1", "Google Chrome", "119.0.6045", AppStatus.SUCCESS, 100, "Today", "105 MB"),
    IntuneApp("2", "7-Zip", "23.01", AppStatus.ERROR, 85, "Today", "1.5 MB"),
    IntuneApp("3", "Adobe Reader DC", "2023.006", AppStatus.ERROR, 45, "Yesterday", "240 MB"),
    IntuneApp("4", "VLC Media Player", "3.0.18", AppStatus.SUCCESS, 100, "Yesterday", "40 MB")
  ]

  lemma InitialOutcomes()
    ensures |InitialOutcome| == |InitialRegistry|
    ensures forall i :: 0 <= i < |InitialRegistry| ==> Outcome(InitialRegistry[i]) == InitialOutcome[i]
  {
    assert Outcome(InitialRegistry[0]) == InitialOutcome[0];
    assert Outcome(InitialRegistry[1]) == InitialOutcome[1];
  }

  /** A batch run over the initial registry ends with Chrome deployed,
      7-Zip rejected at 85, Reader still failed at 45 and VLC still deployed,
      having logged exactly one rejection. */
  lemma InitialRun(logs: seq<LogEntry>, stamp: Stamp, inputs: seq<TickInput>)
    requires |inputs| >= RunLength
    ensures RunTicks(StartUpload(InitialRegistry, logs, stamp), inputs).apps == InitialOutcome
    ensures CountLevel(RunTicks(StartUpload(InitialRegistry, logs, stamp), inputs).logs, LogLevel.ERROR) ==
      CountLevel(logs, LogLevel.ERROR) + 1
  {
    var final := RunTicks(StartUpload(InitialRegistry, logs, stamp), inputs);
    InitialRunApps(logs, stamp, inputs);
    InitialRejected();
    BatchLog(InitialRegistry, logs, stamp, inputs);
    assert CountLevel(final.logs, LogLevel.ERROR) == CountLevel(logs, LogLevel.ERROR) + Rejected(InitialRegistry);
  }

  /** The initial registry is well formed. */
  lemma InitialRegistryOk()
    ensures RegistryOk(InitialRegistry)
  {
  }

  lemma InitialRunApps(logs: seq<LogEntry>, stamp: Stamp, inputs: seq<TickInput>)
    requires |inputs| >= RunLength
    ensures RunTicks(StartUpload(InitialRegistry, logs, stamp), inputs).apps == InitialOutcome
  {
    var final := RunTicks(StartUpload(InitialRegistry, logs, stamp), inputs).apps;
    BatchOutcome(InitialRegistry, logs, stamp, inputs);
    InitialOutcomes();
    assert |final| == |InitialOutcome|;
    assert forall i :: 0 <= i < |final| ==> final[i] == InitialOutcome[i];
  }

  lemma InitialRejected()
    ensures Rejected(InitialRegistry) == 1
  {
    var started := StartBatch(InitialRegistry);
    assert started[1..][1..][1..][1..] == [];
    assert started[0].name != FailingApp;
    assert started[1].name == FailingApp && InFlight(started[1].status);
    assert !InFlight(started[2].status) && !InFlight(started[3].status);
  }

  /** The whole run as the interval performs it: start, then fire until the
      interval is cleared. `inputs(k)` is what the environment supplies to
      the k-th firing. */
  method DriveBatch(apps: seq<IntuneApp>, logs: seq<LogEntry>, stamp: Stamp, inputs: nat -> TickInput)
    returns (final: RunState, ticks: nat)
    ensures ticks == RunLength && !final.running && final.counter == Complete
    ensures |final.apps| == |apps|
    ensures forall i :: 0 <= i < |apps| ==> final.apps[i] == Outcome(apps[i])
    ensures Extends(logs, final.logs)
  {
    final := StartUpload(apps, logs, stamp);
    ticks := 0;
    StartUploadTracks(apps, logs, stamp);
    while final.running
      invariant DriverOk(final) && Tracks(apps, final)
      invariant final.counter == StartProgress + CounterStep * ticks
      invariant Extends(logs, final.logs)
      decreases Complete - final.counter
    {
      var next := Step(final, inputs(ticks));
      StepDriverOk(final, inputs(ticks));
      StepTracks(apps, final, inputs(ticks));
      ExtendsTransitive(logs, final.logs, next.logs);
      final := next;
      ticks := ticks + 1;
    }
    StoppedOutcome(apps, final);
  }

  /** A stopped run on its way from `orig` has reached the outcome. */
  lemma StoppedOutcome(orig: seq<IntuneApp>, s: RunState)
    requires Tracks(orig, s) && !s.running
    ensures |s.apps| == |orig|
    ensures forall i :: 0 <= i < |orig| ==> s.apps[i] == Outcome(orig[i])
  {
  }
}
