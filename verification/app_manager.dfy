/**
 The queries of the deployment view: whether a run is in progress (which
 disables the start button), which log entry the error analysis is asked
 about, and the badge shown for each status.
 */
module AppManager {
  import opened Types
  import Dashboard
  import Batch
  import Driver

  /** A run is in progress: some app is PACKAGING or UPLOADING. The start
      button is disabled, and shows the running label, exactly then, which
      is exactly when the dashboard shows at least one active process. */
  function UploadRunning(apps: seq<IntuneApp>): (running: bool)
    ensures running <==> Dashboard.ProcessingCount(apps) > 0
  {
    Dashboard.CountInExtremes(apps, Dashboard.Processing);
    exists i :: 0 <= i < |apps| && InFlight(apps[i].status)
  }

  /** Starting an upload from a registry with a queued app disables the
      button for the whole run: it is disabled after every firing that
      leaves the interval armed, and enabled again once it is cleared. */
  lemma RunDisablesStart(apps: seq<IntuneApp>, logs: seq<LogEntry>, stamp: Stamp, inputs: seq<Driver.TickInput>)
    requires exists i :: 0 <= i < |apps| && apps[i].status == IDLE
    ensures UploadRunning(Driver.RunTicks(Driver.StartUpload(apps, logs, stamp), inputs).apps) <==> |inputs| < Driver.RunLength
  {
    Driver.StopsAfterNineteenTicks(apps, logs, stamp, inputs);
    if |inputs| < Driver.RunLength {
      var i :| 0 <= i < |apps| && apps[i].status == IDLE;
      ArmedRunKeepsQueuedInFlight(apps, logs, stamp, inputs, i);
    }
  }

  lemma ArmedRunKeepsQueuedInFlight(apps: seq<IntuneApp>, logs: seq<LogEntry>, stamp: Stamp, inputs: seq<Driver.TickInput>, i: int)
    requires 0 <= i < |apps| && apps[i].status == IDLE
    requires |inputs| < Driver.RunLength
    ensures InFlight(Driver.RunTicks(Driver.StartUpload(apps, logs, stamp), inputs).apps[i].status)
  {
    var s := Driver.StartUpload(apps, logs, stamp);
    Driver.StartUploadTracks(apps, logs, stamp);
    Driver.RunTracks(apps, s, inputs);
    Driver.StopsAfterNineteenTicks(apps, logs, stamp, inputs);
    var final := Driver.RunTicks(s, inputs);
    assert final.running && !Terminal(apps[i].status);
  }

  /** The sequence in reverse order, as `slice().reverse()` yields it; the
      original is not changed. */
  function Reverse<T>(s: seq<T>): (r: seq<T>)
    ensures |r| == |s|
    ensures forall k :: 0 <= k < |s| ==> r[k] == s[|s| - 1 - k]
  {
    if |s| == 0 then [] else Reverse(s[1..]) + [s[0]]
  }

  /** The first ERROR entry of a feed, as `find` returns it. */
  function FindError(logs: seq<LogEntry>): (r: Option<LogEntry>)
    ensures r.Some? ==> r.value in logs && r.value.level == LogLevel.ERROR
    ensures r.None? <==> forall k :: 0 <= k < |logs| ==> logs[k].level != LogLevel.ERROR
    ensures forall i :: 0 <= i < |logs| && logs[i].level == LogLevel.ERROR && NoErrorBefore(logs, i) ==>
      r == Some(logs[i])
  {
    if |logs| == 0 then None
    else if logs[0].level == LogLevel.ERROR then Some(logs[0])
    else
      var r := FindError(logs[1..]);
      assert forall i :: 0 < i < |logs| && NoErrorBefore(logs, i) ==> NoErrorBefore(logs[1..], i - 1);
      r
  }

  /** No entry before index `i` is an ERROR entry. */
  predicate NoErrorBefore(logs: seq<LogEntry>, i: int)
    requires 0 <= i <= |logs|
  {
    forall k :: 0 <= k < i ==> logs[k].level != LogLevel.ERROR
  }

  /** The entry the error analysis is asked about: the first ERROR entry of
      a reversed copy of the feed. It is the most recent ERROR entry, and
      there is none exactly when the feed has no ERROR entry. */
  function SelectErrorLog(logs: seq<LogEntry>): (r: Option<LogEntry>)
    ensures r.None? <==> forall k :: 0 <= k < |logs| ==> logs[k].level != LogLevel.ERROR
    ensures forall i :: IsLastError(logs, i) ==> r == Some(logs[i])
  {
    LastErrorIsSelected(logs);
    FindError(Reverse(logs))
  }

  /** The first ERROR entry of the reversed feed is the last ERROR entry of
      the feed, and the reversed feed has one exactly when the feed does. */
  lemma LastErrorIsSelected(logs: seq<LogEntry>)
    ensures FindError(Reverse(logs)).None? <==> forall k :: 0 <= k < |logs| ==> logs[k].level != LogLevel.ERROR
    ensures forall i :: IsLastError(logs, i) ==> FindError(Reverse(logs)) == Some(logs[i])
  {
    forall i | IsLastError(logs, i)
      ensures FindError(Reverse(logs)) == Some(logs[i])
    {
      ReversedAt(logs, i);
    }
    ReversedNone(logs);
  }

  lemma ReversedAt(logs: seq<LogEntry>, i: int)
    requires IsLastError(logs, i)
    ensures FindError(Reverse(logs)) == Some(logs[i])
  {
    var rev := Reverse(logs);
    var pos := |logs| - 1 - i;
    assert rev[pos] == logs[i];
    assert NoErrorBefore(rev, pos);
  }

  lemma ReversedNone(logs: seq<LogEntry>)
    ensures FindError(Reverse(logs)).None? <==> forall k :: 0 <= k < |logs| ==> logs[k].level != LogLevel.ERROR
  {
    var rev := Reverse(logs);
    if forall k :: 0 <= k < |rev| ==> rev[k].level != LogLevel.ERROR {
      forall k | 0 <= k < |logs|
        ensures logs[k].level != LogLevel.ERROR
      {
        assert rev[|logs| - 1 - k] == logs[k];
      }
    }
  }

  /** What the diagnostic panel shows. */
  datatype Panel = Panel(selected: Option<IntuneApp>, analysis: Option<string>, analyzing: bool)

  /** The panel after a request for analysis, and the log message handed to
      the analysis service, if one is requested at all. */
  datatype AnalysisStart = AnalysisStart(panel: Panel, request: Option<string>)

  /** Requesting analysis of `app`: only an app in ERROR with an ERROR entry
      in the feed starts one; the panel then shows the app as analysing and
      the service is asked about the most recent ERROR entry's message. */
  function AnalyzeError(panel: Panel, app: IntuneApp, logs: seq<LogEntry>): (r: AnalysisStart)
    ensures app.status != AppStatus.ERROR ==> r == AnalysisStart(panel, None)
    ensures (forall k :: 0 <= k < |logs| ==> logs[k].level != LogLevel.ERROR) ==> r == AnalysisStart(panel, None)
    ensures r.request.None? ==> r.panel == panel
    ensures r.request.Some? ==> r.panel == Panel(Some(app), None, true) && app.status == AppStatus.ERROR
  {
    if app.status != AppStatus.ERROR then AnalysisStart(panel, None)
    else
      match SelectErrorLog(logs)
      case None => AnalysisStart(panel, None)
      case Some(entry) => AnalysisStart(Panel(Some(app), None, true), Some(entry.message))
  }

  /** When analysis starts, the message asked about is that of an ERROR
      entry of the feed after which no ERROR entry was logged. */
  lemma AnalyzeErrorUsesLastError(panel: Panel, app: IntuneApp, logs: seq<LogEntry>)
    requires app.status == AppStatus.ERROR
    requires exists k :: 0 <= k < |logs| && logs[k].level == LogLevel.ERROR
    ensures AnalyzeError(panel, app, logs).request.Some?
    ensures exists i :: IsLastError(logs, i) && AnalyzeError(panel, app, logs).request == Some(logs[i].message)
  {
    var i := LastError(logs);
    assert IsLastError(logs, i);
  }

  /** Index of the last ERROR entry of a feed that has one. */
  function LastError(logs: seq<LogEntry>): (i: nat)
    requires exists k :: 0 <= k < |logs| && logs[k].level == LogLevel.ERROR
    ensures IsLastError(logs, i)
  {
    if logs[|logs| - 1].level == LogLevel.ERROR then |logs| - 1
    else LastError(logs[..|logs| - 1])
  }

  /** The entry asked about does not depend on which failed app is being
      analysed: every app in ERROR is analysed with the same message. */
  lemma AnalysisIgnoresApp(panel: Panel, a: IntuneApp, b: IntuneApp, logs: seq<LogEntry>)
    requires a.status == AppStatus.ERROR && b.status == AppStatus.ERROR
    ensures AnalyzeError(panel, a, logs).request == AnalyzeError(panel, b, logs).request
  {
  }

  /** The service's answer arrives: it is shown and analysing stops. */
  function CompleteAnalysis(panel: Panel, answer: string): (r: Panel)
    ensures r.selected == panel.selected && r.analysis == Some(answer) && !r.analyzing
  {
    panel.(analysis := Some(answer), analyzing := false)
  }

  /** The panel renders the answer when analysis has finished, the answer
      is not empty, and the selected app is in ERROR. */
  predicate ShowsAnswer(panel: Panel) {
    !panel.analyzing && panel.analysis.Some? && panel.analysis.value != ""
    && panel.selected.Some? && panel.selected.value.status == AppStatus.ERROR
  }

  /** A whole analysis round for an app in ERROR, with an ERROR entry in
      the feed: the panel ends selecting that app and holding the answer,
      no longer analysing, and renders the answer unless it is empty. */
  lemma AnalysisRound(panel: Panel, app: IntuneApp, logs: seq<LogEntry>, answer: string)
    requires app.status == AppStatus.ERROR
    requires exists k :: 0 <= k < |logs| && logs[k].level == LogLevel.ERROR
    ensures AnalyzeError(panel, app, logs).request.Some?
    ensures CompleteAnalysis(AnalyzeError(panel, app, logs).panel, answer) == Panel(Some(app), Some(answer), false)
    ensures ShowsAnswer(CompleteAnalysis(AnalyzeError(panel, app, logs).panel, answer)) <==> answer != ""
  {
  }

  /** Analysing an app in ERROR asks about the most recent ERROR entry. */
  lemma AnalysisOfLastError(panel: Panel, app: IntuneApp, logs: seq<LogEntry>, i: int)
    requires app.status == AppStatus.ERROR && IsLastError(logs, i)
    ensures AnalyzeError(panel, app, logs).request == Some(logs[i].message)
  {
  }

  lemma AnalysisOfRejection(panel: Panel, app: IntuneApp, logs: seq<LogEntry>)
    requires app.status == AppStatus.ERROR && Driver.RejectionIsLastError(logs)
    ensures AnalyzeError(panel, app, logs).request.Some?
    ensures AnalyzeError(panel, app, logs).request.value == Batch.RejectionMessage
  {
    AnalysisOfLastError(panel, app, logs, |logs| - 2);
  }

  /** After a complete batch run that rejected a package, analysing any app
      in ERROR, whichever package it is, asks about the rejection. */
  lemma AnalysisAfterRejection(panel: Panel, app: IntuneApp, apps: seq<IntuneApp>, logs: seq<LogEntry>,
                               stamp: Stamp, inputs: seq<Driver.TickInput>)
    requires app.status == AppStatus.ERROR
    requires |inputs| >= Driver.RunLength && Driver.Rejected(apps) > 0
    ensures var request := AnalyzeError(panel, app, Driver.RunTicks(Driver.StartUpload(apps, logs, stamp), inputs).logs).request;
      request.Some? && request.value == Batch.RejectionMessage
  {
    var final := Driver.RunTicks(Driver.StartUpload(apps, logs, stamp), inputs).logs;
    Driver.BatchLastError(apps, logs, stamp, inputs);
    AnalysisOfRejection(panel, app, final);
  }

  /** Text of the status badge. */
  function BadgeLabel(status: AppStatus): (badge: string)
    ensures badge in {"DEPLOYED", "FAILED", "PACKING", "UPLOADING", "QUEUED"}
    ensures badge == "QUEUED" <==> status == IDLE
    ensures badge == "DEPLOYED" <==> status == AppStatus.SUCCESS
    ensures badge == "FAILED" <==> status == AppStatus.ERROR
    ensures badge == "PACKING" <==> status == PACKAGING
    ensures badge == "UPLOADING" <==> status == UPLOADING
  {
    match status
    case SUCCESS => "DEPLOYED"
    case ERROR => "FAILED"
    case PACKAGING => "PACKING"
    case UPLOADING => "UPLOADING"
    case _ => "QUEUED"
  }

  /** Different statuses show different badges, so the badge identifies the
      status. */
  lemma BadgeLabelInjective(s: AppStatus, t: AppStatus)
    requires BadgeLabel(s) == BadgeLabel(t)
    ensures s == t
  {
  }
}
