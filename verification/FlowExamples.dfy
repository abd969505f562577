/**
  The three conditions of the single-flow results are needed: without any one of them a run
  reaches a state in which the remote service holds two flows of one stream.
 */
module FlowExamples {
  import opened Wrappers
  import opened Domain
  import opened Tables
  import opened SyslogPipeline
  import opened ReportService
  import opened AttendanceAdmin
  import opened DayEndDispatcher
  import opened ReportDispatcher
  import opened Outbox
  import opened OutboxProducers
  import opened OutboxSafety
  import opened FlowStreams

  function Yes(flow: FlowId): Answer {
    Answer(true, DeleteOk, Some(flow), true)
  }

  function Issue(remote: Remote, flow: FlowId, row: Report): Remote
    requires row.body.At?
  {
    Remote(remote.live[flow := FlowFor(row, row.body.time)], remote.issued + {flow})
  }

  /** A first report about to be dispatched, at the head of the work. */
  ghost predicate Fresh(s: World, k: nat, flow: FlowId) {
    && k < |s.store.reports| && s.work != [] && s.work[0] == Job(s.store.reports[k], Begin)
    && s.store.reports[k].status == Pending && s.store.reports[k].body.At? && s.store.reports[k].deleteId.None?
    && s.store.reports[k].notification == NotifyPending
    && flow !in s.remote.issued
  }

  /** The created flow is live, the save that records it is still to come. */
  function Unsaved(s: World, k: nat, flow: FlowId): World
    requires Fresh(s, k, flow)
  {
    var row := s.store.reports[k];
    s.(remote := Issue(s.remote, flow, row),
    work := [Job(row.(external := Some(flow), status := Done), Created)] + s.work[1..])
  }

  lemma CreateReachable(s: World, k: nat, flow: FlowId)
    requires Reachable(s) && Fresh(s, k, flow)
    ensures Reachable(Unsaved(s, k, flow))
  {
    var ready := s.(work := [Job(s.store.reports[k], ReadyToCreate)] + s.work[1..]);
    assert Apply(s, Advance(Yes(flow))) == ready;
    ReachableStep(s, Advance(Yes(flow)));
    assert Apply(ready, Advance(Yes(flow))) == Unsaved(s, k, flow);
    ReachableStep(ready, Advance(Yes(flow)));
  }

  function Sent(row: Report, flow: FlowId): Report {
    row.(external := Some(flow), status := Done, notification := NotifySent, notifyRetries := 0)
  }

  function Delivered(s: World, k: nat, flow: FlowId): World
    requires Fresh(s, k, flow)
  {
    var row := s.store.reports[k];
    s.(store := s.store.(reports := s.store.reports[k := Sent(row, flow)]),
    remote := Issue(s.remote, flow, row),
    work := s.work[1..])
  }

  lemma DeliveryReachable(s: World, k: nat, flow: FlowId)
    requires Reachable(s) && Fresh(s, k, flow)
    ensures Reachable(Delivered(s, k, flow))
  {
    CreateReachable(s, k, flow);
    var created := Unsaved(s, k, flow);
    var finish := created.(work := [Job(Sent(s.store.reports[k], flow), Finish)] + s.work[1..]);
    assert Apply(created, Advance(Yes(flow))) == finish;
    ReachableStep(created, Advance(Yes(flow)));
    assert UniqueKeys(s.store.reports) by {
      ReachableStateInv(s);
    }
    FindKeyAt(s.store.reports, k);
    assert Apply(finish, Advance(Yes(flow))) == Delivered(s, k, flow);
    ReachableStep(finish, Advance(Yes(flow)));
  }

  // ----- the starting points -----

  const Devices := map["mac" := 7]

  function Says(kind: EventKind, time: Seconds): Step {
    Message(Devices, Some(Event("mac", 0, time, kind)))
  }

  function Idle(records: seq<Record>, reports: seq<Report>): World {
    World(Store(records, reports), [], Remote(map[], {}), [], 0, 1)
  }

  lemma StartReachable()
    ensures Reachable(Idle([], []))
  {
    assert IsRun([Idle([], [])], []);
  }

  function Connected(time: Seconds): Record {
    NewRecord(7, 0).(first := Some(time))
  }

  /** One connect: its record, and its pending clock-in report. */
  lemma ConnectReachable(time: Seconds)
    ensures Reachable(Idle([Connected(time)], [CreatePendingReport(0, Connected(time), ClockIn, time)]))
  {
    var start := Idle([], []);
    StartReachable();
    assert Apply(start, Says(Connect, time))
        == Idle([Connected(time)], [CreatePendingReport(0, Connected(time), ClockIn, time)]);
    ReachableStep(start, Says(Connect, time));
  }

  lemma {:induction false} NothingToDispatch(rows: seq<Report>, limit: nat)
    requires forall i :: 0 <= i < |rows| ==> !Dispatchable(rows[i], limit)
    ensures ListDispatchable(rows, DispatchBatch, limit) == []
  {
    if rows != [] {
      NothingToDispatch(rows[..|rows| - 1], limit);
    }
  }

  lemma {:induction false} NothingToNotify(rows: seq<Report>, limit: nat)
    requires forall i :: 0 <= i < |rows| ==> !Notifiable(rows[i], limit)
    ensures ListNotificationDispatchable(rows, DispatchBatch, limit) == []
  {
    if rows != [] {
      NothingToNotify(rows[..|rows| - 1], limit);
    }
  }

  /** Only the last row is to be dispatched. */
  lemma LastToDispatch(rows: seq<Report>, limit: nat)
    requires rows != [] && Dispatchable(rows[|rows| - 1], limit)
    requires forall i :: 0 <= i < |rows| - 1 ==> !Dispatchable(rows[i], limit)
    ensures ListDispatchable(rows, DispatchBatch, limit) == [|rows| - 1]
  {
    NothingToDispatch(rows[..|rows| - 1], limit);
  }

  /** The work of a run is its dispatch list when there is nobody to notify. */
  lemma WorkIsDispatchList(rows: seq<Report>, limit: nat, ids: seq<nat>, work: seq<Job>)
    requires ListDispatchable(rows, DispatchBatch, limit) == ids
    requires ListNotificationDispatchable(rows, DispatchBatch, limit) == []
    requires |work| == |ids| && forall i :: 0 <= i < |ids| ==> ids[i] < |rows| && work[i] == Job(rows[ids[i]], Begin)
    ensures ListedWork(rows, limit) == work
  {
  }

  ghost predicate OnlyLastWaits(rows: seq<Report>, limit: nat) {
    && rows != [] && Dispatchable(rows[|rows| - 1], limit)
    && (forall i :: 0 <= i < |rows| - 1 ==> !Dispatchable(rows[i], limit))
    && forall i :: 0 <= i < |rows| ==> !Notifiable(rows[i], limit)
  }

  lemma ListsLast(rows: seq<Report>, limit: nat)
    requires OnlyLastWaits(rows, limit)
    ensures ListedWork(rows, limit) == [Job(rows[|rows| - 1], Begin)]
  {
    LastToDispatch(rows, limit);
    NothingToNotify(rows, limit);
    WorkIsDispatchList(rows, limit, [|rows| - 1], [Job(rows[|rows| - 1], Begin)]);
  }

  lemma StartLists(s: World, work: seq<Job>)
    requires Reachable(s) && s.work == [] && ListedWork(s.store.reports, s.limit) == work
    ensures Reachable(s.(work := work))
  {
    ReachableStep(s, StartRun);
  }

  lemma StartReachesFresh(s: World)
    requires Reachable(s) && s.work == [] && OnlyLastWaits(s.store.reports, s.limit)
    ensures Reachable(s.(work := [Job(s.store.reports[|s.store.reports| - 1], Begin)]))
  {
    ListsLast(s.store.reports, s.limit);
    StartLists(s, [Job(s.store.reports[|s.store.reports| - 1], Begin)]);
  }

  // ----- the examples -----

  function ConnectReport(time: Seconds): Report {
    CreatePendingReport(0, Connected(time), ClockIn, time)
  }

  /** The connect at 100 was delivered as flow 1. */
  function DeliveredLate(): World {
    Idle([Connected(100)], [Sent(ConnectReport(100), 1)]).(
    remote := Remote(map[1 := FlowFor(ConnectReport(100), 100)], {1}))
  }

  lemma DeliveredLateReachable()
    ensures Reachable(DeliveredLate())
  {
    var queued := Idle([Connected(100)], [ConnectReport(100)]);
    ConnectReachable(100);
    StartReachesFresh(queued);
    var listed := queued.(work := [Job(ConnectReport(100), Begin)]);
    DeliveryReachable(listed, 0, 1);
    assert Delivered(listed, 0, 1) == DeliveredLate();
  }

  /** An earlier connect after a delivery: the pipeline names no flow to delete, so both clock-in flows stay. */
  lemma EarlierConnectLeavesTwoFlows()
    ensures exists s: World :: Reachable(s) && TwoFlows(s.remote, Stream(0, ClockIn))
  {
    var sent := DeliveredLate();
    DeliveredLateReachable();
    var again := sent.(store := Store([Connected(50)], [Sent(ConnectReport(100), 1), ConnectReport(50)]));
    assert Apply(sent, Says(Connect, 50)) == again;
    ReachableStep(sent, Says(Connect, 50));
    StartReachesFresh(again);
    var listed := again.(work := [Job(ConnectReport(50), Begin)]);
    DeliveryReachable(listed, 1, 2);
    var both := Delivered(listed, 1, 2);
    assert LiveFor(both.remote, Stream(0, ClockIn), 1) && LiveFor(both.remote, Stream(0, ClockIn), 2);
  }

  function LeftAt(time: Seconds): Record {
    NewRecord(7, 0).(last := Some(time))
  }

  function ClosedAt(time: Seconds): Record {
    Finalized(LeftAt(time), 0)
  }

  function ClosingReport(time: Seconds): Report {
    CreatePendingReport(0, ClosedAt(time), ClockOut, time)
  }

  const Later := CorrectionInput(Absent, OptionalTimeField(true, true, Some(200)))

  function Corrected(): Record {
    CorrectedRecord(ClosedAt(100), Later, 0)
  }

  function CorrectingReport(): Report {
    CreatePendingReport(0, Corrected(), ClockOut, 200)
  }

  /** A correction of the time whose day-end report is still pending. */
  lemma CorrectionWhilePending()
    ensures CorrectAttendance(Store([ClosedAt(100)], [ClosingReport(100)]), 0, Later, 0)
            == Success(Correction(Store([Corrected()], [ClosingReport(100), CorrectingReport()]), [CorrectingReport()]))
  {
    var store := Store([ClosedAt(100)], [ClosingReport(100)]);
    SaveRecordInPlace(store.records, 0, Corrected());
    assert !KeepsTimes(ClosedAt(100), Later);
    assert SaveRecord(store.records, Corrected()) == SavedRecord([Corrected()], 0);
    var clockIn := CorrectionReportForField(store.reports, 0, Corrected(), ClockIn, None, Later.first);
    assert clockIn == None;
    assert LatestSuccessful(store.reports, 0, ClockOut).None?;
    var clockOut := CorrectionReportForField(store.reports, 0, Corrected(), ClockOut, Some(100), Later.last);
    assert clockOut == Some(CorrectingReport());
    assert SaveOptional(store.reports, clockOut) == [ClosingReport(100), CorrectingReport()];
    assert OptionalSeq(clockIn) + OptionalSeq(clockOut) == [CorrectingReport()];
    assert CorrectAttendance(store, 0, Later, 0).Success?;
  }

  /** Two pending rows are to be dispatched one after the other. */
  lemma TwoToDispatch(rows: seq<Report>, limit: nat)
    requires |rows| == 2 && Dispatchable(rows[0], limit) && Dispatchable(rows[1], limit)
    ensures ListDispatchable(rows, DispatchBatch, limit) == [0, 1]
  {
    assert |rows[..1]| == 1 && rows[..1][0] == rows[0];
    LastToDispatch(rows[..1], limit);
    assert rows[..|rows| - 1] == rows[..1];
  }

  lemma ListsTwo(rows: seq<Report>, limit: nat)
    requires |rows| == 2 && Dispatchable(rows[0], limit) && Dispatchable(rows[1], limit)
    requires !Notifiable(rows[0], limit) && !Notifiable(rows[1], limit)
    ensures ListedWork(rows, limit) == [Job(rows[0], Begin), Job(rows[1], Begin)]
  {
    TwoToDispatch(rows, limit);
    NothingToNotify(rows, limit);
    WorkIsDispatchList(rows, limit, [0, 1], [Job(rows[0], Begin), Job(rows[1], Begin)]);
  }

  lemma PendingPairReachable()
    ensures Reachable(Idle([Corrected()], [ClosingReport(100), CorrectingReport()]))
  {
    var start := Idle([], []);
    StartReachable();
    ReachableStep(start, Says(Disconnect, 100));
    var left := Idle([LeftAt(100)], []);
    assert Apply(start, Says(Disconnect, 100)) == left;
    var once := Idle([ClosedAt(100)], [ClosingReport(100)]);
    assert Apply(left, FinalizeOne(0, 0)) == once;
    ReachableStep(left, FinalizeOne(0, 0));
    CorrectionWhilePending();
    ReachableStep(once, Correct(0, Later, 0));
  }

  /** Two first reports of one stream that wait together create two flows. */
  lemma PendingPairIsCreated(s: World)
    requires Reachable(s) && s.work == [] && s.limit == 1 && s.remote == Remote(map[], {})
    requires s.store.reports == [ClosingReport(100), CorrectingReport()]
    ensures exists after: World :: Reachable(after) && TwoFlows(after.remote, Stream(0, ClockOut))
  {
    var rows := s.store.reports;
    var listed := s.(work := [Job(rows[0], Begin), Job(rows[1], Begin)]);
    ListsTwo(rows, s.limit);
    StartLists(s, [Job(rows[0], Begin), Job(rows[1], Begin)]);
    DeliveryReachable(listed, 0, 1);
    var half := Delivered(listed, 0, 1);
    DeliveryReachable(half, 1, 2);
    var both := Delivered(half, 1, 2);
    assert LiveFor(both.remote, Stream(0, ClockOut), 1) && LiveFor(both.remote, Stream(0, ClockOut), 2);
  }

  /** A correction of a time whose day-end report is still pending: neither report names the other's flow. */
  lemma QueueingEarlyLeavesTwoFlows()
    ensures exists s: World :: Reachable(s) && TwoFlows(s.remote, Stream(0, ClockOut))
  {
    PendingPairReachable();
    PendingPairIsCreated(Idle([Corrected()], [ClosingReport(100), CorrectingReport()]));
  }

  /** A crash between the creation and its save: the report is dispatched again and creates a second flow. */
  lemma CrashLeavesTwoFlows()
    ensures exists s: World :: Reachable(s) && TwoFlows(s.remote, Stream(0, ClockIn))
  {
    var report := ConnectReport(100);
    var queued := Idle([Connected(100)], [report]);
    ConnectReachable(100);
    StartReachesFresh(queued);
    var listed := queued.(work := [Job(report, Begin)]);
    CreateReachable(listed, 0, 1);
    var created := Unsaved(listed, 0, 1);
    ReachableStep(created, Crash);
    var crashed := created.(work := []);
    StartReachesFresh(crashed);
    var relisted := crashed.(work := [Job(report, Begin)]);
    CreateReachable(relisted, 0, 2);
    var both := Unsaved(relisted, 0, 2);
    assert LiveFor(both.remote, Stream(0, ClockIn), 1) && LiveFor(both.remote, Stream(0, ClockIn), 2);
  }
}
