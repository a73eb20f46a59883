/**
 The simulated batch packaging and upload: the two transitions applied to
 the registry (starting a batch, advancing it by one tick of the shared
 counter) and the log entries they produce.
 */
module Batch {
  import opened Types

  /** The package whose upload always fails at the end of a run. */
  const FailingApp: string := "7-Zip"

  /** Progress a failing package is pinned at. */
  const FailedProgress: int := 85

  /** Progress given to every package when a batch starts. */
  const StartProgress: int := 5

  /** Above this counter value an in-flight package is uploading. */
  const UploadThreshold: int := 30

  /** The counter value at which the run completes. */
  const Complete: int := 100

  const StartMessage: string := "Initiating batch upload sequence..."
  const CompletedMessage: string := "Batch sequence completed."

  /** Text of the entry logged when the failing package is rejected. */
  const RejectionMessage: string := "FATAL: " + FailingApp + " upload rejected. 401 Unauthorized."

  /** What starting a batch does to one app: a queued app begins packaging. */
  function StartApp(a: IntuneApp): (r: IntuneApp)
    ensures SameIdentity(r, a)
    ensures a.status == IDLE ==> r.status == PACKAGING && r.progress == StartProgress
    ensures a.status != IDLE ==> r == a
  {
    if a.status == IDLE then a.(status := PACKAGING, progress := StartProgress) else a
  }

  /** Every IDLE app begins packaging at progress 5; the rest are left as
      they are. Length and order of the registry are kept. */
  function StartBatch(apps: seq<IntuneApp>): (r: seq<IntuneApp>)
    ensures |r| == |apps|
    ensures forall i :: 0 <= i < |apps| ==> SameIdentity(r[i], apps[i])
    ensures forall i :: 0 <= i < |apps| && apps[i].status == IDLE ==>
      r[i].status == PACKAGING && r[i].progress == StartProgress
    ensures forall i :: 0 <= i < |apps| && apps[i].status != IDLE ==> r[i] == apps[i]
    ensures forall i :: 0 <= i < |r| ==> r[i].status != IDLE
  {
    seq(|apps|, i requires 0 <= i < |apps| => StartApp(apps[i]))
  }

  /** The terminal record of an in-flight app once the counter completes:
      the failing package is rejected at 85, every other one is deployed. */
  function Finish(a: IntuneApp): (r: IntuneApp)
    ensures SameIdentity(r, a)
    ensures Terminal(r.status) && AppOk(r)
    ensures r.status == AppStatus.ERROR <==> a.name == FailingApp
    ensures r.status == AppStatus.ERROR ==> r.progress == FailedProgress
  {
    if a.name == FailingApp then a.(status := AppStatus.ERROR, progress := FailedProgress)
    else a.(status := AppStatus.SUCCESS, progress := Complete)
  }

  /** One tick for one app, with the shared counter already advanced. */
  function AdvanceApp(a: IntuneApp, counter: int): (r: IntuneApp)
    ensures SameIdentity(r, a)
    ensures !InFlight(a.status) ==> r == a
    ensures InFlight(a.status) && counter >= Complete ==> r == Finish(a)
    ensures InFlight(a.status) && counter < Complete ==>
      r.progress == counter && InFlight(r.status) && (r.status == UPLOADING <==> counter > UploadThreshold)
  {
    if InFlight(a.status) then
      if counter >= Complete then Finish(a)
      else a.(status := if counter > UploadThreshold then UPLOADING else PACKAGING, progress := counter)
    else a
  }

  /** One tick over the registry: every in-flight app is advanced to the
      counter, or finished when the counter has reached 100; every other
      app is left untouched. */
  function Tick(apps: seq<IntuneApp>, counter: int): (r: seq<IntuneApp>)
    ensures |r| == |apps|
    ensures forall i :: 0 <= i < |apps| ==> SameIdentity(r[i], apps[i])
    ensures forall i :: 0 <= i < |apps| && !InFlight(apps[i].status) ==> r[i] == apps[i]
    ensures forall i :: 0 <= i < |apps| && InFlight(apps[i].status) && counter < Complete ==>
      r[i].progress == counter && InFlight(r[i].status)
      && (r[i].status == UPLOADING <==> counter > UploadThreshold)
    ensures forall i :: 0 <= i < |apps| && InFlight(apps[i].status) && counter >= Complete ==>
      r[i] == Finish(apps[i])
    ensures counter >= Complete ==> forall i :: 0 <= i < |r| ==> !InFlight(r[i].status)
  {
    seq(|apps|, i requires 0 <= i < |apps| => AdvanceApp(apps[i], counter))
  }

  /** The ERROR entry logged when the failing package is rejected. */
  function RejectionEntry(a: IntuneApp, stamp: Stamp): LogEntry {
    LogEntry(stamp.id, stamp.time, LogLevel.ERROR, "FATAL: " + a.name + " upload rejected. 401 Unauthorized.")
  }

  /** The ERROR entries one tick logs: one per in-flight failing package,
      in registry order, and only on the completing tick. Each one is the
      rejection of "7-Zip", stamped with the tick's clock reading. */
  function RejectionLog(apps: seq<IntuneApp>, counter: int, stamp: Stamp): (r: seq<LogEntry>)
    ensures counter < Complete ==> r == []
    ensures forall k :: 0 <= k < |r| ==> r[k].level == LogLevel.ERROR
    ensures forall k :: 0 <= k < |r| ==> r[k] == LogEntry(stamp.id, stamp.time, LogLevel.ERROR, RejectionMessage)
    ensures |r| <= |apps|
  {
    if counter < Complete || |apps| == 0 then []
    else
      var head := if InFlight(apps[0].status) && apps[0].name == FailingApp then [RejectionEntry(apps[0], stamp)] else [];
      head + RejectionLog(apps[1..], counter, stamp)
  }

  /** Number of in-flight records of the failing package. */
  function FailingInFlight(apps: seq<IntuneApp>): nat {
    if |apps| == 0 then 0
    else (if InFlight(apps[0].status) && apps[0].name == FailingApp then 1 else 0) + FailingInFlight(apps[1..])
  }

  /** On the completing tick exactly one rejection is logged per in-flight
      failing package. */
  lemma {:induction false} RejectionLogCount(apps: seq<IntuneApp>, counter: int, stamp: Stamp)
    requires counter >= Complete
    ensures |RejectionLog(apps, counter, stamp)| == FailingInFlight(apps)
  {
    if |apps| > 0 {
      RejectionLogCount(apps[1..], counter, stamp);
    }
  }

  /** Both transitions keep the registry well-formed: progress within
      0..100, and a deployed app at 100. */
  lemma StartBatchKeepsRegistryOk(apps: seq<IntuneApp>)
    requires RegistryOk(apps)
    ensures RegistryOk(StartBatch(apps))
  {
  }

  lemma TickKeepsRegistryOk(apps: seq<IntuneApp>, counter: int)
    requires RegistryOk(apps)
    requires 0 <= counter
    ensures RegistryOk(Tick(apps, counter))
  {
  }
}
