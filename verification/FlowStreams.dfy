/**
  The reports about one field of one record, what it means to queue them in turn, and which flow
  the remote service may hold for them meanwhile.
 */
module FlowStreams {
  import opened Wrappers
  import opened Domain
  import opened DebugAdmin
  import opened ReportDispatcher
  import opened Outbox

  /** The reports about one field of one record. */
  datatype Stream = Stream(recordId: nat, rtype: ReportType)

  predicate InStream(row: Report, stream: Stream) {
    row.recordId == stream.recordId && row.rtype == stream.rtype
  }

  ghost predicate LiveFor(remote: Remote, stream: Stream, flow: FlowId) {
    flow in remote.live && remote.live[flow].recordId == stream.recordId && remote.live[flow].rtype == stream.rtype
  }

  ghost predicate TwoFlows(remote: Remote, stream: Stream) {
    exists a, b :: a != b && LiveFor(remote, stream, a) && LiveFor(remote, stream, b)
  }

  /** The first job created a flow for this stream that its row does not name yet. */
  ghost predicate Carries(rows: seq<Report>, work: seq<Job>, stream: Stream) {
    && work != [] && InStream(work[0].report, stream) && work[0].report.external.Some?
    && exists k :: 0 <= k < |rows| && InStream(rows[k], stream) && rows[k].key == work[0].report.key
                   && rows[k].status != Done
  }

  ghost predicate InWork(row: Report, work: seq<Job>) {
    exists i :: 0 <= i < |work| && work[i].report.key == row.key
  }

  /** The dispatcher is through with the report: it succeeded, or used up its retries. */
  ghost predicate Settled(row: Report, work: seq<Job>, limit: nat) {
    row.status == Done || (row.retries >= limit && !InWork(row, work))
  }

  ghost predicate AllSettled(rows: seq<Report>, work: seq<Job>, limit: nat, stream: Stream) {
    forall i :: 0 <= i < |rows| && InStream(rows[i], stream) ==> Settled(rows[i], work, limit)
  }

  ghost predicate AllDone(rows: seq<Report>, stream: Stream) {
    forall i :: 0 <= i < |rows| && InStream(rows[i], stream) ==> rows[i].status == Done
  }

  /** The step appends a report of the stream. */
  ghost predicate Queues(s: World, after: World, stream: Stream) {
    exists j :: |s.store.reports| <= j < |after.store.reports| && InStream(after.store.reports[j], stream)
  }

  /** A step that queues for the stream in turn, and does not crash between a creation and its save. */
  ghost predicate TakesInTurn(s: World, step: Step, after: World, stream: Stream) {
    && Takes(s, step, after)
    && (Queues(s, after, stream) ==> AllSettled(s.store.reports, s.work, s.limit, stream))
    && (step.Crash? ==> !Carries(s.store.reports, s.work, stream))
  }

  ghost predicate InTurnAt(states: seq<World>, steps: seq<Step>, i: nat, stream: Stream)
    requires |states| == |steps| + 1 && i < |steps|
  {
    TakesInTurn(states[i], steps[i], states[i + 1], stream)
  }

  ghost predicate IsRunInTurn(states: seq<World>, steps: seq<Step>, stream: Stream) {
    && IsRun(states, steps)
    && forall i :: 0 <= i < |steps| ==> InTurnAt(states, steps, i, stream)
  }

  /** The time of the field that a pipeline message is about to change is still unset. */
  predicate Unset(records: seq<Record>, stream: Stream) {
    stream.recordId < |records| ==> RelevantTime(records[stream.recordId], stream.rtype).None?
  }

  /** The pipeline, which names no flow to delete, queues for the stream only while the time is unset and all
      its reports succeeded. */
  ghost predicate ReportsFirst(s: World, step: Step, after: World, stream: Stream) {
    step.Message? && Queues(s, after, stream) ==> AllDone(s.store.reports, stream) && Unset(s.store.records, stream)
  }

  ghost predicate ReportsFirstAt(states: seq<World>, steps: seq<Step>, i: nat, stream: Stream)
    requires |states| == |steps| + 1 && i < |steps|
  {
    ReportsFirst(states[i], steps[i], states[i + 1], stream)
  }

  /** In the first `n` steps. */
  ghost predicate PipelineReportsFirst(states: seq<World>, steps: seq<Step>, n: nat, stream: Stream)
    requires |states| == |steps| + 1 && n <= |steps|
  {
    forall i :: 0 <= i < n ==> ReportsFirstAt(states, steps, i, stream)
  }

  // ----- the invariant of one stream -----

  ghost predicate EarlierAreSettled(rows: seq<Report>, work: seq<Job>, limit: nat, stream: Stream) {
    forall i, j :: 0 <= i < j < |rows| && InStream(rows[i], stream) && InStream(rows[j], stream) ==>
                     Settled(rows[i], work, limit)
  }

  /** The highest-id successful report of the stream, clear or not. */
  ghost predicate NewestDone(rows: seq<Report>, n: nat, stream: Stream) {
    && n < |rows| && InStream(rows[n], stream) && rows[n].status == Done
    && forall j :: n < j < |rows| && InStream(rows[j], stream) ==> rows[j].status != Done
  }

  ghost predicate NamedByNewest(rows: seq<Report>, stream: Stream, flow: FlowId) {
    exists n: nat :: NewestDone(rows, n, stream) && rows[n].external == Some(flow)
  }

  /** What an unsettled report, and the job that works on it, are about to delete. */
  ghost predicate DeletedByRest(rows: seq<Report>, work: seq<Job>, limit: nat, stream: Stream, flow: FlowId) {
    forall k :: 0 <= k < |rows| && InStream(rows[k], stream) && !Settled(rows[k], work, limit) ==>
                  && rows[k].deleteId == Some(flow)
                  && (work != [] && work[0].report.key == rows[k].key ==> work[0].report.deleteId == Some(flow))
  }

  /** A live flow is the carried one, or else what the newest success created and any unsettled report deletes. */
  ghost predicate FlowExplained(rows: seq<Report>, work: seq<Job>, limit: nat, stream: Stream, flow: FlowId) {
    if Carries(rows, work, stream) then work[0].report.external == Some(flow)
    else NamedByNewest(rows, stream, flow) && DeletedByRest(rows, work, limit, stream, flow)
  }

  ghost predicate SingleOk(rows: seq<Report>, remote: Remote, work: seq<Job>, limit: nat, stream: Stream) {
    && EarlierAreSettled(rows, work, limit, stream)
    && forall flow :: LiveFor(remote, stream, flow) ==> FlowExplained(rows, work, limit, stream, flow)
  }

  ghost predicate StreamOk(s: World, stream: Stream) {
    SingleOk(s.store.reports, s.remote, s.work, s.limit, stream)
  }

  lemma NewestIsUnique(rows: seq<Report>, stream: Stream, a: nat, b: nat)
    ensures NewestDone(rows, a, stream) && NewestDone(rows, b, stream) ==> a == b
  {
  }

  lemma StreamOkMeansOne(s: World, stream: Stream, a: FlowId, b: FlowId)
    requires StreamOk(s, stream) && LiveFor(s.remote, stream, a) && LiveFor(s.remote, stream, b)
    ensures a == b
  {
    var rows := s.store.reports;
    assert FlowExplained(rows, s.work, s.limit, stream, a) && FlowExplained(rows, s.work, s.limit, stream, b);
    if !Carries(rows, s.work, stream) {
      var i: nat :| NewestDone(rows, i, stream) && rows[i].external == Some(a);
      var j: nat :| NewestDone(rows, j, stream) && rows[j].external == Some(b);
      NewestIsUnique(rows, stream, i, j);
    }
  }

  /** A flow in the making belongs to an unsettled report. */
  lemma SettledCarriesNothing(rows: seq<Report>, work: seq<Job>, limit: nat, stream: Stream)
    requires AllSettled(rows, work, limit, stream)
    ensures !Carries(rows, work, stream)
  {
    forall k | 0 <= k < |rows| && work != [] && rows[k].key == work[0].report.key ensures InWork(rows[k], work) {
    }
  }
}
