/** Safety of the outbox over every run, with a crash allowed at every dispatcher step. */
module OutboxSafety {
  import opened Wrappers
  import opened Domain
  import opened Tables
  import opened AttendanceProcessor
  import opened SyslogPipeline
  import opened AttendanceAdmin
  import opened DayEndDispatcher
  import opened DebugAdmin
  import opened ReportDispatcher
  import opened Outbox
  import opened OutboxInvariant
  import opened OutboxProducers
  import opened OutboxDispatch

  // ----- the invariant is inductive -----

  lemma ProducerKeepsInv(s: World, after: Store, id: nat)
    requires Inv(s) && ProducerShape(s.store, after, id) && RecordOk(after.records[id], id, after.reports)
    requires forall i :: |s.store.reports| <= i < |after.reports| ==> !after.reports[i].key.ManualKey?
    ensures Inv(s.(store := after))
  {
    ShapeKeepsStore(s.store, after, id, s.limit);
    ShapeKeepsRemote(s.store, after, id, s.remote);
    ShapeKeepsWork(s.store, after, id, s.remote, s.limit, s.work);
  }

  lemma MessageKeepsInv(s: World, devices: map<string, nat>, event: Option<Event>)
    requires Inv(s)
    ensures Inv(Apply(s, Message(devices, event)))
  {
    if event.Some? && event.value.mac in devices {
      var employee := devices[event.value.mac];
      HandleEventOk(s.store, s.limit, employee, event.value);
      var after := HandleEvent(s.store, employee, event.value);
      ProducerKeepsInv(s, after, TargetId(s.store.records, employee, event.value.date));
    }
  }

  lemma CorrectKeepsInv(s: World, id: nat, input: CorrectionInput, now: Seconds)
    requires Inv(s) && Enabled(s, Correct(id, input, now))
    ensures Inv(Apply(s, Correct(id, input, now)))
  {
    if CorrectAttendance(s.store, id, input, now).Success? {
      CorrectAttendanceOk(s.store, s.limit, id, input, now);
      var after := CorrectAttendance(s.store, id, input, now).value.store;
      if !KeepsTimes(s.store.records[id], input) {
        ProducerKeepsInv(s, after, id);
      }
    }
  }

  lemma DebugKeepsInv(s: World, id: nat, rtype: ReportType, requestedAt: Nanos)
    requires Inv(s) && Enabled(s, DebugDispatch(id, rtype, requestedAt))
    ensures Inv(Apply(s, DebugDispatch(id, rtype, requestedAt)))
  {
    if ManualReport(s.store, id, rtype, requestedAt).Success? {
      var report := ManualReport(s.store, id, rtype, requestedAt).value;
      ManualReportOk(s.store, s.limit, s.debugClock, id, rtype, requestedAt);
      var after := s.store.(reports := SaveReport(s.store.reports, report));
      ShapeKeepsStore(s.store, after, id, s.limit);
      ShapeKeepsRemote(s.store, after, id, s.remote);
      var rows := after.reports;
      assert JobMatches(rows, s.remote, s.limit, rows[|rows| - 1], Job(report, Begin));
    }
  }

  lemma StartRunKeepsInv(s: World)
    requires Inv(s) && s.work == []
    ensures Inv(Apply(s, StartRun))
  {
    var rows := s.store.reports;
    var work := ListedWork(rows, s.limit);
    forall i | 0 <= i < |work|
      ensures JobOk(rows, s.remote, s.limit, work[i]) && work[i].phase in {Begin, NotifyBegin}
    {
      var k: nat := ListedJob(rows, s.limit, i);
      assert RowOk(s.store.records, rows[k], s.limit);
      assert JobMatches(rows, s.remote, s.limit, rows[k], work[i]);
    }
    forall i, j | 0 <= i < j < |work| ensures work[i].report.key != work[j].report.key {
      ListedJobsDistinct(rows, s.limit, i, j);
    }
  }

  /** Every step of every actor keeps the invariant. */
  lemma StepKeepsInv(s: World, step: Step)
    requires Inv(s) && Enabled(s, step)
    ensures Inv(Apply(s, step))
  {
    match step
    case Message(devices, event) => MessageKeepsInv(s, devices, event);
    case Correct(id, input, now) => CorrectKeepsInv(s, id, input, now);
    case FinalizeOne(id, now) =>
      FinalizeRecordOk(s.store, s.limit, id, now);
      ProducerKeepsInv(s, FinalizeRecord(s.store, id, now), id);
    case RecordRun(run) => SavedRunIsFound(s.runs, run);
    case DebugDispatch(id, rtype, requestedAt) => DebugKeepsInv(s, id, rtype, requestedAt);
    case StartRun => StartRunKeepsInv(s);
    case Advance(answer) => AdvanceKeepsInv(s, answer);
    case Crash =>
  }

  lemma {:induction false} ReachableInv(states: seq<World>, steps: seq<Step>, i: nat)
    requires IsRun(states, steps) && i < |states|
    ensures Inv(states[i])
  {
    if i > 0 {
      ReachableInv(states, steps, i - 1);
      assert TakesAt(states, steps, i - 1);
      StepKeepsInv(states[i - 1], steps[i - 1]);
    }
  }

  /** Some run ends in this state. */
  ghost predicate Reachable(s: World) {
    exists states: seq<World>, steps: seq<Step> :: IsRun(states, steps) && states[|states| - 1] == s
  }

  lemma ReachableStep(s: World, step: Step)
    requires Reachable(s) && Enabled(s, step)
    ensures Reachable(Apply(s, step))
  {
    var states: seq<World>, steps: seq<Step> :| IsRun(states, steps) && states[|states| - 1] == s;
    var states', steps' := states + [Apply(s, step)], steps + [step];
    forall i | 0 <= i < |steps'| ensures TakesAt(states', steps', i) {
      if i < |steps| {
        assert TakesAt(states, steps, i);
      }
    }
    assert IsRun(states', steps');
  }

  lemma ReachableStateInv(s: World)
    requires Reachable(s)
    ensures Inv(s)
  {
    var states: seq<World>, steps: seq<Step> :| IsRun(states, steps) && states[|states| - 1] == s;
    ReachableInv(states, steps, |states| - 1);
  }

  /** The step that leaves state `i` starts from a state in the invariant. */
  lemma StepAt(states: seq<World>, steps: seq<Step>, i: nat)
    requires IsRun(states, steps) && i < |steps|
    ensures Inv(states[i]) && Takes(states[i], steps[i], states[i + 1])
  {
    ReachableInv(states, steps, i);
    assert TakesAt(states, steps, i);
  }

  // ----- replay -----

  /** In every reachable state the clock-in reports of a record replay to its first connect. */
  lemma ReplayGivesFirstConnect(states: seq<World>, steps: seq<Step>, i: nat, id: nat)
    requires IsRun(states, steps) && i < |states| && id < |states[i].store.records|
    ensures Replay(states[i].store.reports, id, ClockIn) == states[i].store.records[id].first
  {
    ReachableInv(states, steps, i);
    assert RecordOk(states[i].store.records[id], id, states[i].store.reports);
  }

  /** The highest-id report of a stream. */
  ghost predicate IsNewest(rows: seq<Report>, n: nat, id: nat, rtype: ReportType) {
    && n < |rows| && rows[n].recordId == id && rows[n].rtype == rtype
    && forall j :: n < j < |rows| ==> rows[j].recordId != id || rows[j].rtype != rtype
  }

  lemma {:induction false} NewestDecidesReplay(rows: seq<Report>, n: nat, id: nat, rtype: ReportType)
    requires IsNewest(rows, n, id, rtype)
    ensures Replay(rows, id, rtype) == BodyTime(rows[n].body)
  {
    var last := |rows| - 1;
    if n < last {
      NewestDecidesReplay(rows[..last], n, id, rtype);
    }
  }

  lemma {:induction false} ReplayNamesNewest(rows: seq<Report>, id: nat, rtype: ReportType) returns (n: nat)
    requires Replay(rows, id, rtype).Some?
    ensures IsNewest(rows, n, id, rtype) && BodyTime(rows[n].body) == Replay(rows, id, rtype)
  {
    var last := |rows| - 1;
    if rows[last].recordId == id && rows[last].rtype == rtype {
      n := last;
    } else {
      n := ReplayNamesNewest(rows[..last], id, rtype);
    }
  }

  // ----- delivery -----

  /** The newest report of a stream, once successful and not a clear, has its flow live. */
  lemma NewestFlowIsLive(states: seq<World>, steps: seq<Step>, i: nat, id: nat, rtype: ReportType, n: nat)
    requires IsRun(states, steps) && i < |states|
    requires IsNewest(states[i].store.reports, n, id, rtype)
    requires states[i].store.reports[n].status == Done && states[i].store.reports[n].body != Clear
    ensures var s := states[i];
            var report := s.store.reports[n];
            && id < |s.store.records|
            && report.body.At? && report.external.Some? && report.external.value in s.remote.live
            && s.remote.live[report.external.value]
               == Flow(id, rtype, s.store.records[id].employee, report.body.time)
  {
    ReachableInv(states, steps, i);
    var s := states[i];
    assert RowOk(s.store.records, s.store.reports[n], s.limit);
    assert FlowOk(s.store.reports, s.remote, n);
  }

  /** Delivery: the remote service holds the current first connect of the record. */
  lemma Delivery(states: seq<World>, steps: seq<Step>, i: nat, id: nat, n: nat)
    requires IsRun(states, steps) && i < |states|
    requires IsNewest(states[i].store.reports, n, id, ClockIn)
    requires states[i].store.reports[n].status == Done && states[i].store.reports[n].body != Clear
    ensures var s := states[i];
            && id < |s.store.records| && s.store.records[id].first.Some?
            && exists flow ::
                 && flow in s.remote.live
                 && s.store.reports[n].external == Some(flow)
                 && s.remote.live[flow]
                    == Flow(id, ClockIn, s.store.records[id].employee, s.store.records[id].first.value)
  {
    NewestFlowIsLive(states, steps, i, id, ClockIn, n);
    ReplayGivesFirstConnect(states, steps, i, id);
    NewestDecidesReplay(states[i].store.reports, n, id, ClockIn);
  }

  /** What a report deletes was created by an earlier report of the same record and type. */
  lemma DeletesOnlyEarlierFlows(states: seq<World>, steps: seq<Step>, i: nat, j: nat)
    requires IsRun(states, steps) && i < |states| && j < |states[i].store.reports|
    requires states[i].store.reports[j].deleteId.Some?
    ensures var rows := states[i].store.reports;
            exists k :: 0 <= k < j && SameStream(rows[k], rows[j]) && rows[k].status == Done
                        && rows[k].external == rows[j].deleteId
  {
    ReachableInv(states, steps, i);
    var rows := states[i].store.reports;
    assert DeletesEarlier(rows, j);
    var k :| 0 <= k < j && SameStream(rows[k], rows[j]) && rows[k].external == rows[j].deleteId;
    assert RowOk(states[i].store.records, rows[k], states[i].limit);
  }

  // ----- nothing delivered is lost -----

  /** A stored report keeps its place and content; success and the remote id are final. */
  ghost predicate Kept(before: Report, after: Report) {
    && SameCore(before, after)
    && (before.status == Done ==>
          after.status == Done && after.external == before.external && after.retries == before.retries)
  }

  lemma StepKeepsReports(s: World, step: Step, k: nat)
    requires Inv(s) && Enabled(s, step) && k < |s.store.reports|
    ensures k < |Apply(s, step).store.reports| && Kept(s.store.reports[k], Apply(s, step).store.reports[k])
    ensures !step.Advance? ==> Apply(s, step).store.reports[k] == s.store.reports[k]
  {
    match step
    case Message(devices, event) =>
      if event.Some? && event.value.mac in devices {
        HandleEventOk(s.store, s.limit, devices[event.value.mac], event.value);
      }
    case Correct(id, input, now) =>
      if CorrectAttendance(s.store, id, input, now).Success? {
        CorrectAttendanceOk(s.store, s.limit, id, input, now);
      }
    case FinalizeOne(id, now) => FinalizeRecordOk(s.store, s.limit, id, now);
    case DebugDispatch(id, rtype, requestedAt) =>
      if ManualReport(s.store, id, rtype, requestedAt).Success? {
        ManualReportOk(s.store, s.limit, s.debugClock, id, rtype, requestedAt);
      }
    case Advance(answer) => AdvanceKeepsReports(s, answer, k);
    case _ =>
  }

  /** What a save writes over a row never takes a success back. */
  lemma SaveKeepsRow(rows: seq<Report>, remote: Remote, limit: nat, row: Report, job: Job)
    requires JobMatches(rows, remote, limit, row, job) && job.phase in {Deleted, Finish}
    ensures Kept(row, job.report)
  {
  }

  lemma WriteKeepsRow(rows: seq<Report>, head: nat, report: Report, k: nat)
    requires head < |rows| && k < |rows| && Kept(rows[head], report)
    ensures Kept(rows[k], rows[head := report][k])
  {
  }

  /** A dispatcher step writes the job over its own row, or writes nothing. */
  lemma AdvanceWrites(s: World, answer: Answer, k: nat)
    requires Inv(s) && Enabled(s, Advance(answer)) && k < |s.store.reports|
    requires JobMatches(s.store.reports, s.remote, s.limit, s.store.reports[k], s.work[0])
    ensures var rows := s.store.reports;
            Apply(s, Advance(answer)).store.reports
            == if s.work[0].phase in {Deleted, Finish} then rows[k := s.work[0].report] else rows
  {
    if s.work[0].phase in {Deleted, Finish} {
      SavedStep(s, answer, k);
    } else {
      UnsavedStep(s, answer, k);
    }
  }

  lemma AdvanceKeepsReports(s: World, answer: Answer, k: nat)
    requires Inv(s) && Enabled(s, Advance(answer)) && k < |s.store.reports|
    ensures k < |Apply(s, Advance(answer)).store.reports|
    ensures Kept(s.store.reports[k], Apply(s, Advance(answer)).store.reports[k])
  {
    var head: nat := HeadRow(s);
    AdvanceWrites(s, answer, head);
    if s.work[0].phase in {Deleted, Finish} {
      SaveKeepsRow(s.store.reports, s.remote, s.limit, s.store.reports[head], s.work[0]);
      WriteKeepsRow(s.store.reports, head, s.work[0].report, k);
    }
  }

  lemma KeptTwice(a: Report, b: Report, c: Report)
    ensures Kept(a, b) && Kept(b, c) ==> Kept(a, c)
  {
  }

  /** No report is overwritten and success is absorbing, whatever happens between two states. */
  lemma {:induction false} SuccessIsFinal(states: seq<World>, steps: seq<Step>, i: nat, j: nat, k: nat)
    requires IsRun(states, steps) && i <= j < |states| && k < |states[i].store.reports|
    ensures k < |states[j].store.reports| && Kept(states[i].store.reports[k], states[j].store.reports[k])
  {
    if i < j {
      var m := j - 1;
      SuccessIsFinal(states, steps, i, m, k);
      StepAt(states, steps, m);
      StepKeepsReports(states[m], steps[m], k);
      KeptTwice(states[i].store.reports[k], states[m].store.reports[k], states[m + 1].store.reports[k]);
    }
  }

  /** The pipeline never takes its branch for an existing key: an earlier connect always queues a report. */
  lemma EarlierConnectIsReported(states: seq<World>, steps: seq<Step>, i: nat, employee: nat, event: Event)
    requires IsRun(states, steps) && i < |states|
    requires ApplyEvent(LoadRecord(states[i].store.records, employee, event.date), event).clockInNeedsReport
    ensures var rows := states[i].store.reports;
            var after := HandleEvent(states[i].store, employee, event).reports;
            && |after| == |rows| + 1 && after[..|rows|] == rows
            && after[|rows|].rtype == ClockIn && after[|rows|].body == At(event.time)
            && after[|rows|].status == Pending
  {
    ReachableInv(states, steps, i);
    ClockInKeyIsFresh(states[i].store, states[i].limit, employee, event);
  }

  // ----- statuses -----

  /** The only statuses that a record can show. */
  lemma ReachableStatuses(states: seq<World>, steps: seq<Step>, i: nat, id: nat)
    requires IsRun(states, steps) && i < |states| && id < |states[i].store.records|
    ensures var record := states[i].store.records[id];
            && (|| (record.clockOut == OutPending && record.exception == NoException)
                || (record.clockOut == OutMissing && record.exception == MissingDisconnect)
                || (record.clockOut == OutDone && record.exception == NoException))
            && (record.clockOut == OutDone ==> record.last.Some?)
            && (record.clockIn == InDone ==> record.first.Some?)
  {
    ReachableInv(states, steps, i);
    assert RecordOk(states[i].store.records[id], id, states[i].store.reports);
  }

  /** A delivered time has been notified, or its notification failed and is retried; a clear is never notified. */
  lemma NotificationFollowsDelivery(states: seq<World>, steps: seq<Step>, i: nat, k: nat)
    requires IsRun(states, steps) && i < |states| && k < |states[i].store.reports|
    ensures var row := states[i].store.reports[k];
            && (row.body == Clear ==> row.notification == NotifySkipped)
            && (row.body.At? && row.status != Done ==> row.notification == NotifyPending)
            && (row.body.At? && row.status == Done ==>
                  || (row.notification == NotifySent && row.notifyRetries == 0)
                  || (row.notification == NotifyFailed && 0 < row.notifyRetries <= states[i].limit))
            && (row.status == Pending ==> row.retries == 0)
            && (row.status == Failed ==> 0 < row.retries <= states[i].limit)
  {
    ReachableInv(states, steps, i);
    assert RowOk(states[i].store.records, states[i].store.reports[k], states[i].limit);
  }

  /** A newest clear says that the record has no first connect, and no flow of its own. */
  lemma ClearedMeansNoFirstConnect(states: seq<World>, steps: seq<Step>, i: nat, id: nat, n: nat)
    requires IsRun(states, steps) && i < |states| && id < |states[i].store.records|
    requires IsNewest(states[i].store.reports, n, id, ClockIn)
    ensures states[i].store.reports[n].body == Clear <==> states[i].store.records[id].first.None?
    ensures states[i].store.reports[n].body == Clear ==> states[i].store.reports[n].external.None?
  {
    ReachableInv(states, steps, i);
    assert RowOk(states[i].store.records, states[i].store.reports[n], states[i].limit);
    ReplayGivesFirstConnect(states, steps, i, id);
    NewestDecidesReplay(states[i].store.reports, n, id, ClockIn);
  }

  // ----- the dispatcher never drops a created flow -----

  lemma NoAbort(s: World, answer: Answer)
    requires Inv(s) && s.work != []
    ensures !StepJob(s.work[0], answer).after.Aborted?
  {
    var k: nat := HeadRow(s);
    assert RowOk(s.store.records, s.store.reports[k], s.limit);
  }

  /** No dispatcher step of a run returns an error: a created flow always reaches its final save. */
  lemma NoStepAborts(states: seq<World>, steps: seq<Step>, i: nat, answer: Answer)
    requires IsRun(states, steps) && i < |states| && states[i].work != []
    ensures !StepJob(states[i].work[0], answer).after.Aborted?
  {
    ReachableInv(states, steps, i);
    NoAbort(states[i], answer);
  }
}
