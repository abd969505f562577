/**
  Flows that nobody will ever delete.  Each condition of the single-flow results is met from the
  other side: whenever a run violates it, the remote service is left with a flow that no report
  names for deletion, and holds two flows once the newest report of the stream is delivered.
 */
module StrandedFlows {
  import opened Wrappers
  import opened Domain
  import opened Tables
  import opened AttendanceAdmin
  import opened DebugAdmin
  import opened ReportDispatcher
  import opened Outbox
  import opened OutboxInvariant
  import opened OutboxProducers
  import opened OutboxDispatch
  import opened OutboxSafety
  import opened FlowStreams
  import opened SingleFlowSteps
  import opened SingleFlow

  // ----- flows that no report names for deletion -----

  ghost predicate DeletedByNone(rows: seq<Report>, flow: FlowId) {
    forall k :: 0 <= k < |rows| ==> rows[k].deleteId != Some(flow)
  }

  ghost predicate CreatedByNone(rows: seq<Report>, flow: FlowId) {
    forall k :: 0 <= k < |rows| ==> rows[k].external != Some(flow)
  }

  ghost predicate CarriedByNone(work: seq<Job>, flow: FlowId) {
    forall i :: 0 <= i < |work| ==> work[i].report.external != Some(flow)
  }

  ghost predicate Spared(rows: seq<Report>, remote: Remote, flow: FlowId) {
    flow in remote.live && DeletedByNone(rows, flow)
  }

  /** The new reports of a step do not name the flow either. */
  ghost predicate SparedByNew(rows: seq<Report>, rows': seq<Report>, flow: FlowId) {
    forall k :: |rows| <= k < |rows'| ==> rows'[k].deleteId != Some(flow)
  }

  /** The dispatcher's copy of a row deletes what the row names, or nothing. */
  lemma JobDeletesItsRow(rows: seq<Report>, remote: Remote, limit: nat, row: Report, job: Job, answer: Answer)
    requires JobMatches(rows, remote, limit, row, job)
    ensures job.report.deleteId.None? || job.report.deleteId == row.deleteId
    ensures var effect := StepJob(job, answer).effect; effect.DeleteFlow? ==> row.deleteId == Some(effect.id)
  {
  }

  lemma AdvanceSpares(s: World, answer: Answer, flow: FlowId)
    requires Inv(s) && Enabled(s, Advance(answer)) && Spared(s.store.reports, s.remote, flow)
    ensures var s' := Apply(s, Advance(answer));
            Spared(s'.store.reports, s'.remote, flow) && s'.remote.live[flow] == s.remote.live[flow]
  {
    var rows := s.store.reports;
    var k: nat := HeadRow(s);
    JobDeletesItsRow(rows, s.remote, s.limit, rows[k], s.work[0], answer);
    AdvanceWrites(s, answer, k);
    EffectIsOwn(s, answer);
    OwnRowSpares(rows, k, s.work[0].report, flow);
  }

  lemma OwnRowSpares(rows: seq<Report>, k: nat, report: Report, flow: FlowId)
    requires k < |rows| && (report.deleteId.None? || report.deleteId == rows[k].deleteId)
    requires DeletedByNone(rows, flow)
    ensures DeletedByNone(rows[k := report], flow)
  {
  }

  /** Only a creation adds a flow, under a fresh id. */
  lemma EffectIsOwn(s: World, answer: Answer)
    requires Inv(s) && Enabled(s, Advance(answer))
    ensures Apply(s, Advance(answer)).remote == ApplyEffect(s.remote, StepJob(s.work[0], answer).effect)
    ensures var effect := StepJob(s.work[0], answer).effect; effect.CreateFlow? ==> effect.id !in s.remote.live
  {
  }

  /** Every step leaves a spared flow alone, unless it queues a report that names it. */
  lemma StepSpares(s: World, step: Step, flow: FlowId)
    requires Inv(s) && Enabled(s, step) && Spared(s.store.reports, s.remote, flow)
    requires SparedByNew(s.store.reports, Apply(s, step).store.reports, flow)
    ensures var s' := Apply(s, step);
            Spared(s'.store.reports, s'.remote, flow) && s'.remote.live[flow] == s.remote.live[flow]
  {
    if step.Advance? {
      AdvanceSpares(s, step.answer, flow);
    } else {
      var s' := Apply(s, step);
      forall k | 0 <= k < |s'.store.reports| ensures s'.store.reports[k].deleteId != Some(flow) {
        if k < |s.store.reports| {
          StepKeepsReports(s, step, k);
        }
      }
      OthersLeaveRemote(s, step);
    }
  }

  lemma OthersLeaveRemote(s: World, step: Step)
    requires Enabled(s, step) && !step.Advance?
    ensures Apply(s, step).remote == s.remote
  {
  }

  /** A new report names nothing, or what the latest success of its stream created. */
  lemma NewRowDeletes(s: World, step: Step, j: nat)
    requires Inv(s) && Enabled(s, step) && |s.store.reports| <= j < |Apply(s, step).store.reports|
    ensures var row := Apply(s, step).store.reports[j];
            && row.status == Pending && row.external.None?
            && (row.deleteId.None? || CopiesLatest(s.store.reports, row))
  {
    match step
    case Message(devices, event) =>
      if event.Some? && event.value.mac in devices {
        HandleEventAppends(s.store, s.limit, devices[event.value.mac], event.value);
      }
    case Correct(id, input, now) =>
      if CorrectAttendance(s.store, id, input, now).Success? {
        CorrectAttendanceOk(s.store, s.limit, id, input, now);
      }
    case FinalizeOne(id, now) => FinalizeRecordOk(s.store, s.limit, id, now);
    case DebugDispatch(id, rtype, requestedAt) =>
      if ManualReport(s.store, id, rtype, requestedAt).Success? {
        ManualReportOk(s.store, s.limit, s.debugClock, id, rtype, requestedAt);
      }
    case Advance(answer) =>
      var k: nat := HeadRow(s);
      AdvanceWrites(s, answer, k);
    case _ =>
  }

  /** So a new report can name a flow only if it is the latest success of the report's own stream. */
  lemma NewRowNames(s: World, step: Step, j: nat, e: nat)
    requires Inv(s) && Enabled(s, step) && |s.store.reports| <= j < |Apply(s, step).store.reports|
    requires e < |s.store.reports| && s.store.reports[e].external.Some?
    ensures var rows, row := s.store.reports, Apply(s, step).store.reports[j];
            row.deleteId == rows[e].external ==>
              SameStream(rows[e], row) && LatestSuccessful(rows, row.recordId, row.rtype) == Some(e)
  {
    var rows, row := s.store.reports, Apply(s, step).store.reports[j];
    if row.deleteId == rows[e].external {
      NewRowDeletes(s, step, j);
      var latest := LatestSuccessful(rows, row.recordId, row.rtype).value;
      assert rows[latest].external == rows[e].external;
      assert latest == e;
    }
  }

  predicate DeliveredTime(row: Report) {
    row.status == Done && row.body != Clear
  }

  /** The newest report, once it is delivered, has a live flow of its own. */
  lemma AnotherIsLive(states: seq<World>, steps: seq<Step>, i: nat, stream: Stream, n: nat, flow: FlowId)
    requires IsRun(states, steps) && i < |states| && LiveFor(states[i].remote, stream, flow)
    requires IsNewest(states[i].store.reports, n, stream.recordId, stream.rtype)
    requires DeliveredTime(states[i].store.reports[n])
    requires states[i].store.reports[n].external != Some(flow)
    ensures TwoFlows(states[i].remote, stream)
  {
    NewestFlowIsLive(states, steps, i, stream.recordId, stream.rtype, n);
    assert LiveFor(states[i].remote, stream, states[i].store.reports[n].external.value);
  }

  // ----- a crash between a creation and its save -----

  /** No report and no job knows the flow, and it is live. */
  ghost predicate Orphaned(s: World, flow: FlowId) {
    && Spared(s.store.reports, s.remote, flow)
    && CreatedByNone(s.store.reports, flow)
    && CarriedByNone(s.work, flow)
  }

  lemma CarriedIsUnknown(s: World, stream: Stream)
    requires Inv(s) && Carries(s.store.reports, s.work, stream)
    ensures var flow := s.work[0].report.external.value;
            LiveFor(s.remote, stream, flow) && Orphaned(Apply(s, Crash), flow)
  {
    var rows := s.store.reports;
    var k: nat := HeadRow(s);
    CarriesIff(rows, s.work, k, stream);
    assert RowOk(s.store.records, rows[k], s.limit);
    InFlightIsUnnamed(rows, s.remote, rows[k], s.work[0].report);
  }

  lemma OrphanIsNotCopied(s: World, step: Step, flow: FlowId)
    requires Inv(s) && Enabled(s, step) && Orphaned(s, flow)
    ensures SparedByNew(s.store.reports, Apply(s, step).store.reports, flow)
  {
    var rows' := Apply(s, step).store.reports;
    forall j | |s.store.reports| <= j < |rows'| ensures rows'[j].deleteId != Some(flow) {
      NewRowDeletes(s, step, j);
    }
  }

  /** What a step adds to rows and jobs is fresh, or was there before. */
  lemma OrphanStaysUnknown(s: World, step: Step, flow: FlowId)
    requires Inv(s) && Enabled(s, step) && Orphaned(s, flow)
    ensures var s' := Apply(s, step);
            CreatedByNone(s'.store.reports, flow) && CarriedByNone(s'.work, flow)
  {
    var s' := Apply(s, step);
    if step.Advance? {
      AdvanceLeavesUnknown(s, step.answer, flow);
    } else {
      forall k | 0 <= k < |s'.store.reports| ensures s'.store.reports[k].external != Some(flow) {
        if k < |s.store.reports| {
          StepKeepsReports(s, step, k);
        } else {
          NewRowDeletes(s, step, k);
        }
      }
      OthersWorkFromRows(s, step);
    }
  }

  lemma AdvanceLeavesUnknown(s: World, answer: Answer, flow: FlowId)
    requires Inv(s) && Enabled(s, Advance(answer)) && Orphaned(s, flow)
    ensures var s' := Apply(s, Advance(answer));
            CreatedByNone(s'.store.reports, flow) && CarriedByNone(s'.work, flow)
  {
    var k: nat := HeadRow(s);
    AdvanceWrites(s, answer, k);
    OwnRowUnknown(s.store.reports, k, s.work[0].report, flow);
    EffectIsOwn(s, answer);
    assert CarriedByNone(RemainingWork(s.work, StepJob(s.work[0], answer).after), flow) by {
      NextJobNames(s.work[0], answer);
    }
  }

  lemma OwnRowUnknown(rows: seq<Report>, k: nat, report: Report, flow: FlowId)
    requires k < |rows| && report.external != Some(flow) && CreatedByNone(rows, flow)
    ensures CreatedByNone(rows[k := report], flow)
  {
  }

  lemma NextJobNames(job: Job, answer: Answer)
    ensures var step := StepJob(job, answer);
            step.after.Continue? ==>
              || step.after.job.report.external == job.report.external
              || (step.effect.CreateFlow? && step.after.job.report.external == Some(step.effect.id))
  {
  }

  /** Apart from the dispatcher's own steps, jobs start from stored rows. */
  lemma OthersWorkFromRows(s: World, step: Step)
    requires Inv(s) && Enabled(s, step) && !step.Advance?
    ensures var s' := Apply(s, step);
            s'.work == s.work || forall i :: 0 <= i < |s'.work| ==> s'.work[i].report in s'.store.reports
  {
    match step
    case StartRun =>
      var rows, work := s.store.reports, ListedWork(s.store.reports, s.limit);
      forall i | 0 <= i < |work| ensures work[i].report in rows {
        var k: nat := ListedJob(rows, s.limit, i);
      }
    case DebugDispatch(id, rtype, requestedAt) =>
      if ManualReport(s.store, id, rtype, requestedAt).Success? {
        ManualReportOk(s.store, s.limit, s.debugClock, id, rtype, requestedAt);
      }
    case _ =>
  }

  lemma {:induction false} OrphanForever(states: seq<World>, steps: seq<Step>, i: nat, j: nat, flow: FlowId)
    requires IsRun(states, steps) && i <= j < |states| && Orphaned(states[i], flow)
    ensures Orphaned(states[j], flow) && states[j].remote.live[flow] == states[i].remote.live[flow]
  {
    if i < j {
      OrphanForever(states, steps, i, j - 1, flow);
      StepAt(states, steps, j - 1);
      OrphanIsNotCopied(states[j - 1], steps[j - 1], flow);
      StepSpares(states[j - 1], steps[j - 1], flow);
      OrphanStaysUnknown(states[j - 1], steps[j - 1], flow);
    }
  }

  /** A crash between a creation and its save, in any run: the created flow stays live in every later state, and
      there are two flows whenever the newest report of the stream is delivered. */
  lemma CrashStrands(states: seq<World>, steps: seq<Step>, i: nat, j: nat, stream: Stream)
    requires IsRun(states, steps) && i < j < |states| && steps[i].Crash?
    requires Carries(states[i].store.reports, states[i].work, stream)
    ensures LiveFor(states[j].remote, stream, states[i].work[0].report.external.value)
    ensures forall n: nat :: IsNewest(states[j].store.reports, n, stream.recordId, stream.rtype)
                             && DeliveredTime(states[j].store.reports[n])
                             ==> TwoFlows(states[j].remote, stream)
  {
    var flow := states[i].work[0].report.external.value;
    StepAt(states, steps, i);
    CarriedIsUnknown(states[i], stream);
    OrphanForever(states, steps, i + 1, j, flow);
    forall n: nat | IsNewest(states[j].store.reports, n, stream.recordId, stream.rtype)
                    && DeliveredTime(states[j].store.reports[n])
      ensures TwoFlows(states[j].remote, stream)
    {
      AnotherIsLive(states, steps, j, stream, n, flow);
    }
  }

  // ----- a report queued before an earlier one is delivered -----

  /** If the report at `a` was delivered, its flow is live and nobody is going to delete it. */
  ghost predicate Unnamed(s: World, a: nat)
    requires a < |s.store.reports|
  {
    var row := s.store.reports[a];
    row.external.Some? ==>
      Spared(s.store.reports, s.remote, row.external.value) && HeldFor(s.remote, row, row.external.value)
  }

  /** The step queues nothing for the stream of the report at `a`. */
  ghost predicate QueuesElsewhere(s: World, s': World, a: nat)
    requires a < |s.store.reports|
  {
    forall j :: |s.store.reports| <= j < |s'.store.reports| ==> !SameStream(s.store.reports[a], s'.store.reports[j])
  }

  lemma ElsewhereSpares(s: World, step: Step, a: nat)
    requires Inv(s) && Enabled(s, step) && a < |s.store.reports| && s.store.reports[a].external.Some?
    requires QueuesElsewhere(s, Apply(s, step), a)
    ensures SparedByNew(s.store.reports, Apply(s, step).store.reports, s.store.reports[a].external.value)
  {
    var rows' := Apply(s, step).store.reports;
    forall j | |s.store.reports| <= j < |rows'| ensures rows'[j].deleteId != s.store.reports[a].external {
      if rows'[j].deleteId == s.store.reports[a].external {
        NewRowNames(s, step, j, a);
      }
    }
  }

  /** When a delivery is recorded, nobody names its flow yet. */
  lemma RecordedIsUnnamed(s: World, answer: Answer, a: nat)
    requires Inv(s) && Enabled(s, Advance(answer)) && a < |s.store.reports| && s.store.reports[a].external.None?
    ensures a < |Apply(s, Advance(answer)).store.reports| && Unnamed(Apply(s, Advance(answer)), a)
  {
    var rows := s.store.reports;
    var k: nat := HeadRow(s);
    AdvanceWrites(s, answer, k);
    if Apply(s, Advance(answer)).store.reports[a].external.Some? {
      assert RowOk(s.store.records, rows[k], s.limit);
      RecordsInFlight(rows, s.remote, s.limit, rows[k], s.work[0]);
      FinishHasNoEffect(s, answer);
      InFlightIsUnnamed(rows, s.remote, rows[k], s.work[0].report);
    }
  }

  lemma FinishHasNoEffect(s: World, answer: Answer)
    requires Enabled(s, Advance(answer)) && s.work[0].phase == Finish
    ensures Apply(s, Advance(answer)).remote == s.remote
  {
  }

  lemma InFlightIsUnnamed(rows: seq<Report>, remote: Remote, row: Report, report: Report)
    requires (forall j :: 0 <= j < |rows| ==> DeletesEarlier(rows, j)) && InFlight(rows, remote, row, report)
    ensures DeletedByNone(rows, report.external.value)
  {
    forall j | 0 <= j < |rows| ensures rows[j].deleteId != report.external {
      assert DeletesEarlier(rows, j);
    }
  }

  lemma RecordsInFlight(rows: seq<Report>, remote: Remote, limit: nat, row: Report, job: Job)
    requires JobMatches(rows, remote, limit, row, job) && job.phase in {Deleted, Finish}
    requires row.external.None? && job.report.external.Some?
    requires row.status == Done ==> row.external == job.report.external || row.body.Clear?
    ensures InFlight(rows, remote, row, job.report) && job.phase == Finish
  {
  }

  lemma StepKeepsUnnamed(s: World, step: Step, a: nat)
    requires Inv(s) && Enabled(s, step) && a < |s.store.reports| && Unnamed(s, a)
    requires QueuesElsewhere(s, Apply(s, step), a)
    ensures a < |Apply(s, step).store.reports| && Unnamed(Apply(s, step), a)
  {
    StepKeepsReports(s, step, a);
    if s.store.reports[a].external.Some? {
      assert RowOk(s.store.records, s.store.reports[a], s.limit);
      ElsewhereSpares(s, step, a);
      StepSpares(s, step, s.store.reports[a].external.value);
    } else if step.Advance? {
      RecordedIsUnnamed(s, step.answer, a);
    }
  }

  /** Reports keep their place, so what is newest in the end was newest as long as it was there. */
  lemma NewestBefore(states: seq<World>, steps: seq<Step>, i: nat, j: nat, stream: Stream, b: nat)
    requires IsRun(states, steps) && i <= j < |states| && b < |states[i].store.reports|
    requires IsNewest(states[j].store.reports, b, stream.recordId, stream.rtype)
    ensures IsNewest(states[i].store.reports, b, stream.recordId, stream.rtype)
    ensures |states[i].store.reports| <= |states[j].store.reports|
  {
    if |states[i].store.reports| > 0 {
      SuccessIsFinal(states, steps, i, j, |states[i].store.reports| - 1);
    }
    forall k | b <= k < |states[i].store.reports|
      ensures SameStream(states[i].store.reports[k], states[j].store.reports[k])
    {
      SuccessIsFinal(states, steps, i, j, k);
    }
  }

  lemma {:induction false} UnnamedWhileNewest(
    states: seq<World>, steps: seq<Step>, i: nat, j: nat, stream: Stream, a: nat, b: nat)
    requires IsRun(states, steps) && i <= j < |states| && a < b < |states[i].store.reports|
    requires IsNewest(states[j].store.reports, b, stream.recordId, stream.rtype)
    requires InStream(states[i].store.reports[a], stream) && Unnamed(states[i], a)
    ensures a < |states[j].store.reports| && Unnamed(states[j], a)
    decreases j - i
  {
    if i < j {
      assert QueuesElsewhere(states[i], states[i + 1], a) by {
        NewestBefore(states, steps, i, j, stream, b);
        SuccessIsFinal(states, steps, i, i + 1, b);
        NewestBefore(states, steps, i + 1, j, stream, b);
      }
      StepAt(states, steps, i);
      StepKeepsUnnamed(states[i], steps[i], a);
      SuccessIsFinal(states, steps, i, i + 1, a);
      SuccessIsFinal(states, steps, i, i + 1, b);
      UnnamedWhileNewest(states, steps, i + 1, j, stream, a, b);
    }
  }

  lemma EarlyIsUnnamed(states: seq<World>, steps: seq<Step>, i: nat, j: nat, stream: Stream, a: nat, b: nat)
    requires IsRun(states, steps) && i < j < |states|
    requires a < |states[i].store.reports| <= b < |states[i + 1].store.reports|
    requires InStream(states[i].store.reports[a], stream) && states[i].store.reports[a].status != Done
    requires IsNewest(states[j].store.reports, b, stream.recordId, stream.rtype)
    ensures a < |states[j].store.reports| && InStream(states[j].store.reports[a], stream) && Unnamed(states[j], a)
  {
    assert Unnamed(states[i + 1], a) && SameStream(states[i].store.reports[a], states[i + 1].store.reports[a]) by {
      StepAt(states, steps, i);
      assert RowOk(states[i].store.records, states[i].store.reports[a], states[i].limit);
      StepKeepsReports(states[i], steps[i], a);
      if steps[i].Advance? {
        RecordedIsUnnamed(states[i], steps[i].answer, a);
      }
    }
    UnnamedWhileNewest(states, steps, i + 1, j, stream, a, b);
    SuccessIsFinal(states, steps, i, j, a);
  }

  /** A report queued while an earlier one of its stream was not delivered, in any run: while it is the newest and
      the earlier one has been delivered, that flow is live; once both are delivered, there are two flows. */
  lemma EarlyQueueStrands(states: seq<World>, steps: seq<Step>, i: nat, j: nat, stream: Stream, a: nat, b: nat)
    requires IsRun(states, steps) && i < j < |states|
    requires a < |states[i].store.reports| <= b < |states[i + 1].store.reports|
    requires InStream(states[i].store.reports[a], stream) && states[i].store.reports[a].status != Done
    requires IsNewest(states[j].store.reports, b, stream.recordId, stream.rtype)
    ensures a < |states[j].store.reports|
    ensures var rows := states[j].store.reports;
            DeliveredTime(rows[a]) ==>
              && rows[a].external.Some? && LiveFor(states[j].remote, stream, rows[a].external.value)
              && (DeliveredTime(rows[b]) ==> TwoFlows(states[j].remote, stream))
  {
    EarlyIsUnnamed(states, steps, i, j, stream, a, b);
    var rows := states[j].store.reports;
    if DeliveredTime(rows[a]) {
      ReachableInv(states, steps, j);
      assert RowOk(states[j].store.records, rows[a], states[j].limit);
      if DeliveredTime(rows[b]) {
        AnotherIsLive(states, steps, j, stream, b, rows[a].external.value);
      }
    }
  }

  // ----- a pipeline report for a field whose time is set -----

  /** What is queued for the stream waits until the earlier reports succeeded. */
  ghost predicate WaitsAt(states: seq<World>, steps: seq<Step>, i: nat, stream: Stream)
    requires |states| == |steps| + 1 && i < |steps|
  {
    Queues(states[i], states[i + 1], stream) ==> AllDone(states[i].store.reports, stream)
  }

  ghost predicate WaitsForSuccess(states: seq<World>, steps: seq<Step>, stream: Stream)
    requires |states| == |steps| + 1
  {
    forall i :: 0 <= i < |steps| ==> WaitsAt(states, steps, i, stream)
  }

  /** The pipeline queues a report although the time of the field is already set. */
  ghost predicate Bypasses(s: World, step: Step, after: World, stream: Stream) {
    step.Message? && Queues(s, after, stream) && !Unset(s.store.records, stream)
  }

  ghost predicate BypassesAt(states: seq<World>, steps: seq<Step>, i: nat, stream: Stream)
    requires |states| == |steps| + 1 && i < |steps|
  {
    Bypasses(states[i], steps[i], states[i + 1], stream)
  }

  /** The delivered report at `e` has a later report of a time in its stream, and nobody deletes its flow. */
  ghost predicate Bypassed(s: World, stream: Stream, e: nat, m: nat) {
    && e < m < |s.store.reports|
    && InStream(s.store.reports[e], stream) && InStream(s.store.reports[m], stream)
    && s.store.reports[e].external.Some? && Unnamed(s, e)
    && s.store.reports[m].body.At?
  }

  /** Whoever queues next for the stream takes over a later flow. */
  lemma LaterIsTakenOver(s: World, step: Step, stream: Stream, e: nat, m: nat)
    requires Inv(s) && Enabled(s, step) && Bypassed(s, stream, e, m)
    requires Queues(s, Apply(s, step), stream) ==> AllDone(s.store.reports, stream)
    ensures SparedByNew(s.store.reports, Apply(s, step).store.reports, s.store.reports[e].external.value)
  {
    var rows, rows' := s.store.reports, Apply(s, step).store.reports;
    forall j | |rows| <= j < |rows'| ensures rows'[j].deleteId != rows[e].external {
      if rows'[j].deleteId == rows[e].external {
        NewRowNames(s, step, j, e);
        assert RowOk(s.store.records, rows[m], s.limit);
        assert InStream(rows'[j], stream);
        assert Succeeded(rows[m], stream.recordId, stream.rtype);
      }
    }
  }

  lemma StepKeepsBypassed(s: World, step: Step, stream: Stream, e: nat, m: nat)
    requires Inv(s) && Enabled(s, step) && Bypassed(s, stream, e, m)
    requires Queues(s, Apply(s, step), stream) ==> AllDone(s.store.reports, stream)
    ensures Bypassed(Apply(s, step), stream, e, m)
    ensures Apply(s, step).store.reports[e].external == s.store.reports[e].external
  {
    assert RowOk(s.store.records, s.store.reports[e], s.limit);
    StepKeepsReports(s, step, e);
    StepKeepsReports(s, step, m);
    LaterIsTakenOver(s, step, stream, e, m);
    StepSpares(s, step, s.store.reports[e].external.value);
  }

  /** The newest report of a set and delivered first connect, and its flow. */
  lemma SetHasFlow(s: World, stream: Stream) returns (e: nat)
    requires Inv(s) && stream.rtype == ClockIn && AllDone(s.store.reports, stream) && !Unset(s.store.records, stream)
    ensures IsNewest(s.store.reports, e, stream.recordId, ClockIn)
    ensures s.store.reports[e].external.Some? && Unnamed(s, e)
  {
    var rows := s.store.reports;
    assert RecordOk(s.store.records[stream.recordId], stream.recordId, rows);
    e := ReplayNamesNewest(rows, stream.recordId, ClockIn);
    assert InStream(rows[e], stream);
    assert RowOk(s.store.records, rows[e], s.limit);
    assert FlowOk(rows, s.remote, e);
    forall k | 0 <= k < |rows| ensures rows[k].deleteId != rows[e].external {
      assert DeletesEarlier(rows, k);
    }
  }

  lemma BypassStarts(s: World, step: Step, stream: Stream) returns (e: nat, m: nat)
    requires Inv(s) && Enabled(s, step) && Bypasses(s, step, Apply(s, step), stream)
    requires AllDone(s.store.reports, stream)
    ensures Bypassed(Apply(s, step), stream, e, m)
  {
    var event := step.event.value;
    var employee := step.devices[event.mac];
    OnlyClockInIsQueued(s, employee, event, stream);
    e := SetHasFlow(s, stream);
    m := |s.store.reports|;
    HandleEventAppends(s.store, s.limit, employee, event);
    StepKeepsReports(s, step, e);
    StepSpares(s, step, s.store.reports[e].external.value);
  }

  lemma BypassedSurvives(states: seq<World>, steps: seq<Step>, i: nat, stream: Stream, e: nat, m: nat)
    requires IsRun(states, steps) && WaitsForSuccess(states, steps, stream) && i < |steps|
    requires Bypassed(states[i], stream, e, m)
    ensures Bypassed(states[i + 1], stream, e, m)
  {
    StepAt(states, steps, i);
    assert WaitsAt(states, steps, i, stream);
    StepKeepsBypassed(states[i], steps[i], stream, e, m);
  }

  lemma {:induction false} BypassedForever(
    states: seq<World>, steps: seq<Step>, i: nat, j: nat, stream: Stream, e: nat, m: nat)
    requires IsRun(states, steps) && WaitsForSuccess(states, steps, stream) && i <= j < |states|
    requires Bypassed(states[i], stream, e, m)
    ensures Bypassed(states[j], stream, e, m)
  {
    if i < j {
      BypassedForever(states, steps, i, j - 1, stream, e, m);
      BypassedSurvives(states, steps, j - 1, stream, e, m);
    }
  }

  /** A connect earlier than a delivered one, in any run that waits for success: from then on an old flow is live that
      is not the newest report's, in every state. */
  lemma BypassStrands(states: seq<World>, steps: seq<Step>, i: nat, j: nat, stream: Stream, n: nat)
    returns (flow: FlowId)
    requires IsRun(states, steps) && WaitsForSuccess(states, steps, stream) && i < j < |states|
    requires BypassesAt(states, steps, i, stream)
    requires IsNewest(states[j].store.reports, n, stream.recordId, stream.rtype)
    ensures LiveFor(states[j].remote, stream, flow) && states[j].store.reports[n].external != Some(flow)
  {
    StepAt(states, steps, i);
    assert WaitsAt(states, steps, i, stream);
    var e, m := BypassStarts(states[i], steps[i], stream);
    BypassedForever(states, steps, i + 1, j, stream, e, m);
    ReachableInv(states, steps, j);
    flow := states[j].store.reports[e].external.value;
  }

  lemma NoBypassReportsFirst(states: seq<World>, steps: seq<Step>, n: nat, stream: Stream)
    requires IsRun(states, steps) && WaitsForSuccess(states, steps, stream) && n <= |steps|
    requires forall i :: 0 <= i < n ==> !BypassesAt(states, steps, i, stream)
    ensures PipelineReportsFirst(states, steps, n, stream)
  {
    forall i | 0 <= i < n ensures ReportsFirstAt(states, steps, i, stream) {
      assert WaitsAt(states, steps, i, stream);
      assert !BypassesAt(states, steps, i, stream);
    }
  }

  /** Exactly when the remote service holds what the newest delivered report created and nothing else: if and only if
      the pipeline never queued a report for the field while its time was set. */
  lemma HoldsExactlyIff(states: seq<World>, steps: seq<Step>, j: nat, stream: Stream, n: nat)
    requires IsRunInTurn(states, steps, stream) && WaitsForSuccess(states, steps, stream) && j < |states|
    requires IsNewest(states[j].store.reports, n, stream.recordId, stream.rtype)
    requires states[j].store.reports[n].status == Done
    ensures HoldsExactly(states[j], stream, n) <==> forall i :: 0 <= i < j ==> !BypassesAt(states, steps, i, stream)
  {
    if i :| 0 <= i < j && BypassesAt(states, steps, i, stream) {
      var flow := BypassStrands(states, steps, i, j, stream, n);
    } else {
      NoBypassReportsFirst(states, steps, j, stream);
      RemoteHoldsExactlyNewest(states, steps, j, stream, n);
    }
  }

  /** Exactly when there are two flows of a field whose newest report is delivered: if and only if the pipeline queued
      a report for it while its time was set. */
  lemma TwoFlowsIff(states: seq<World>, steps: seq<Step>, j: nat, stream: Stream, n: nat)
    requires IsRunInTurn(states, steps, stream) && WaitsForSuccess(states, steps, stream) && j < |states|
    requires IsNewest(states[j].store.reports, n, stream.recordId, stream.rtype)
    requires DeliveredTime(states[j].store.reports[n])
    ensures TwoFlows(states[j].remote, stream) <==> exists i :: 0 <= i < j && BypassesAt(states, steps, i, stream)
  {
    if i :| 0 <= i < j && BypassesAt(states, steps, i, stream) {
      var flow := BypassStrands(states, steps, i, j, stream, n);
      AnotherIsLive(states, steps, j, stream, n, flow);
    } else {
      NoBypassReportsFirst(states, steps, j, stream);
      AtMostOneFlow(states, steps, j, stream);
    }
  }
}
