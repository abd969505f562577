/** Every protocol step of the dispatcher keeps the invariant. */
module OutboxDispatch {
  import opened Wrappers
  import opened Domain
  import opened Tables
  import opened ReportDispatcher
  import opened Outbox
  import opened OutboxInvariant

  // ----- saving the dispatcher's copy over its row -----

  /** What a save of the dispatcher may change in row `k`. */
  ghost predicate UpdateOk(rows: seq<Report>, k: nat, report: Report)
    requires k < |rows|
  {
    && SameCore(rows[k], report)
    && (report.deleteId.None? || report.deleteId == rows[k].deleteId)
    && (report.external == rows[k].external
        || (rows[k].external.None? && forall i :: 0 <= i < |rows| ==> rows[i].external != report.external))
  }

  lemma {:induction false} UpdateKeepsReplay(rows: seq<Report>, k: nat, report: Report, id: nat, rtype: ReportType)
    requires k < |rows| && SameCore(rows[k], report)
    ensures Replay(rows[k := report], id, rtype) == Replay(rows, id, rtype)
  {
    var n := |rows| - 1;
    if k < n {
      assert rows[k := report][..n] == rows[..n][k := report];
      UpdateKeepsReplay(rows[..n], k, report, id, rtype);
    } else {
      assert rows[k := report][..n] == rows[..n];
    }
  }

  lemma UpdateKeepsRecordOk(record: Record, id: nat, rows: seq<Report>, k: nat, report: Report)
    requires k < |rows| && SameCore(rows[k], report) && RecordOk(record, id, rows)
    ensures RecordOk(record, id, rows[k := report])
  {
    UpdateKeepsReplay(rows, k, report, id, ClockIn);
    UpdateKeepsReplay(rows, k, report, id, ClockOut);
    forall i | 0 <= i < |rows| ensures SameCore(rows[i], rows[k := report][i]) {
    }
  }

  lemma UpdateKeepsReports(records: seq<Record>, rows: seq<Report>, limit: nat, k: nat, report: Report)
    requires ReportsOk(records, rows, limit) && k < |rows|
    requires UpdateOk(rows, k, report) && RowOk(records, report, limit)
    ensures ReportsOk(records, rows[k := report], limit)
  {
    var rows' := rows[k := report];
    forall i | 0 <= i < |rows'| ensures RowOk(records, rows'[i], limit) {
      assert RowOk(records, rows[i], limit);
    }
    forall j | 0 <= j < |rows'| && rows'[j].deleteId.Some? ensures DeletesEarlier(rows', j) {
      assert DeletesEarlier(rows, j);
      var i :| 0 <= i < j && SameStream(rows[i], rows[j]) && rows[i].external == rows[j].deleteId;
      assert SameStream(rows'[i], rows'[j]) && rows'[i].external == rows'[j].deleteId;
    }
  }

  lemma UpdateKeepsStore(store: Store, limit: nat, k: nat, report: Report)
    requires StoreOk(store, limit) && k < |store.reports|
    requires UpdateOk(store.reports, k, report) && RowOk(store.records, report, limit)
    ensures StoreOk(store.(reports := store.reports[k := report]), limit)
  {
    UpdateKeepsReports(store.records, store.reports, limit, k, report);
    forall id | 0 <= id < |store.records|
      ensures RecordOk(store.records[id], id, store.reports[k := report])
    {
      UpdateKeepsRecordOk(store.records[id], id, store.reports, k, report);
    }
  }

  lemma UpdateKeepsRemote(rows: seq<Report>, remote: Remote, k: nat, report: Report)
    requires RemoteOk(rows, remote) && k < |rows| && UpdateOk(rows, k, report)
    requires report.external.Some? && rows[k].external.None? ==>
               report.external.value in remote.issued && HeldFor(remote, report, report.external.value)
    ensures RemoteOk(rows[k := report], remote)
  {
    var rows' := rows[k := report];
    forall i | 0 <= i < |rows'| ensures FlowOk(rows', remote, i) {
      assert FlowOk(rows, remote, i);
      if Superseded(rows, i) {
        var j :| i < j < |rows| && SameStream(rows[i], rows[j]);
        assert SameStream(rows'[i], rows'[j]);
      }
    }
  }

  /** Jobs taken from a list but not started do not depend on the remote service. */
  lemma WaitingJobOk(rows: seq<Report>, rows': seq<Report>, remote: Remote, remote': Remote, limit: nat, job: Job)
    requires JobOk(rows, remote, limit, job) && job.phase in {Begin, NotifyBegin}
    requires |rows'| == |rows|
    requires forall i :: 0 <= i < |rows| && rows[i].key == job.report.key ==> rows'[i] == rows[i]
    ensures JobOk(rows', remote', limit, job)
  {
    var k :| 0 <= k < |rows| && JobMatches(rows, remote, limit, rows[k], job);
    assert JobMatches(rows', remote', limit, rows'[k], job);
  }

  lemma RemainingOk(
    rows: seq<Report>, rows': seq<Report>, remote: Remote, remote': Remote, limit: nat, work: seq<Job>, after: After)
    requires work != [] && WorkOk(rows, remote, limit, work) && |rows'| == |rows|
    requires forall i :: 0 <= i < |rows| && rows[i].key != work[0].report.key ==> rows'[i] == rows[i]
    requires after.Continue? ==> after.job.report.key == work[0].report.key && JobOk(rows', remote', limit, after.job)
    ensures WorkOk(rows', remote', limit, RemainingWork(work, after))
  {
    var rest := RemainingWork(work, after);
    var shift := if after.Continue? then 0 else 1;
    forall i | 0 <= i < |rest| ensures JobOk(rows', remote', limit, rest[i]) {
      if !(after.Continue? && i == 0) {
        assert rest[i] == work[i + shift];
        WaitingJobOk(rows, rows', remote, remote', limit, work[i + shift]);
      }
    }
  }

  // ----- remote effects -----

  /** Deleting what row `k` names only removes a flow that row `k` supersedes. */
  lemma DeleteKeepsRemote(records: seq<Record>, rows: seq<Report>, limit: nat, remote: Remote, k: nat)
    requires ReportsOk(records, rows, limit) && RemoteOk(rows, remote)
    requires k < |rows| && rows[k].deleteId.Some?
    ensures RemoteOk(rows, ApplyEffect(remote, DeleteFlow(rows[k].deleteId.value)))
  {
    var remote' := ApplyEffect(remote, DeleteFlow(rows[k].deleteId.value));
    assert DeletesEarlier(rows, k);
    var e :| 0 <= e < k && SameStream(rows[e], rows[k]) && rows[e].external == rows[k].deleteId;
    forall i | 0 <= i < |rows| ensures FlowOk(rows, remote', i) {
      assert FlowOk(rows, remote, i);
      if rows[i].external == rows[k].deleteId {
        assert i == e;
        assert Superseded(rows, i);
      }
    }
  }

  lemma CreateKeepsRemote(rows: seq<Report>, remote: Remote, id: FlowId, flow: Flow)
    requires RemoteOk(rows, remote) && id !in remote.issued
    ensures RemoteOk(rows, ApplyEffect(remote, CreateFlow(id, flow)))
    ensures forall i :: 0 <= i < |rows| ==> rows[i].external != Some(id)
  {
    var remote' := ApplyEffect(remote, CreateFlow(id, flow));
    forall i | 0 <= i < |rows| ensures FlowOk(rows, remote', i) && rows[i].external != Some(id) {
      assert FlowOk(rows, remote, i);
    }
  }

  // ----- the phases -----

  /** What an unsaved step hands on: a job that still fits its row. */
  ghost predicate MovesOn(rows: seq<Report>, remote: Remote, limit: nat, row: Report, job: Job, step: StepResult) {
    && step.save.None? && step.after.Continue?
    && step.after.job.report.key == job.report.key
    && (step.effect.DeleteFlow? ==> row.deleteId == Some(step.effect.id))
    && JobMatches(rows, ApplyEffect(remote, step.effect), limit, row, step.after.job)
  }

  lemma BeginMovesOn(
    records: seq<Record>, rows: seq<Report>, remote: Remote, limit: nat, row: Report, job: Job, answer: Answer)
    requires RowOk(records, row, limit) && limit < U32
    requires JobMatches(rows, remote, limit, row, job) && job.phase == Begin
    ensures MovesOn(rows, remote, limit, row, job, StepJob(job, answer))
  {
  }

  lemma CreateMovesOn(
    records: seq<Record>, rows: seq<Report>, remote: Remote, limit: nat, row: Report, job: Job, answer: Answer)
    requires RowOk(records, row, limit) && limit < U32
    requires JobMatches(rows, remote, limit, row, job) && job.phase == ReadyToCreate
    requires answer.create.Some? ==> forall i :: 0 <= i < |rows| ==> rows[i].external != answer.create
    ensures MovesOn(rows, remote, limit, row, job, StepJob(job, answer))
  {
  }

  lemma NotifyMovesOn(
    records: seq<Record>, rows: seq<Report>, remote: Remote, limit: nat, row: Report, job: Job, answer: Answer)
    requires RowOk(records, row, limit) && limit < U32
    requires JobMatches(rows, remote, limit, row, job) && job.phase in {Created, NotifyBegin}
    ensures MovesOn(rows, remote, limit, row, job, StepJob(job, answer))
  {
  }

  /** A step without a save: only the remote service and the job move on. */
  lemma UnsavedStep(s: World, answer: Answer, k: nat)
    requires Inv(s) && Enabled(s, Advance(answer))
    requires k < |s.store.reports|
    requires JobMatches(s.store.reports, s.remote, s.limit, s.store.reports[k], s.work[0])
    requires s.work[0].phase in {Begin, ReadyToCreate, Created, NotifyBegin}
    ensures var step := StepJob(s.work[0], answer);
            var remote' := ApplyEffect(s.remote, step.effect);
            && step.save.None? && step.after.Continue?
            && RemoteOk(s.store.reports, remote')
            && step.after.job.report.key == s.work[0].report.key
            && JobMatches(s.store.reports, remote', s.limit, s.store.reports[k], step.after.job)
  {
    var rows, job := s.store.reports, s.work[0];
    var step := StepJob(job, answer);
    if step.effect.CreateFlow? {
      CreateKeepsRemote(rows, s.remote, step.effect.id, step.effect.flow);
    }
    if job.phase == Begin {
      BeginMovesOn(s.store.records, rows, s.remote, s.limit, rows[k], job, answer);
    } else if job.phase == ReadyToCreate {
      CreateMovesOn(s.store.records, rows, s.remote, s.limit, rows[k], job, answer);
    } else {
      NotifyMovesOn(s.store.records, rows, s.remote, s.limit, rows[k], job, answer);
    }
    if step.effect.DeleteFlow? {
      DeleteKeepsRemote(s.store.records, rows, s.limit, s.remote, k);
    }
  }

  lemma SavedStep(s: World, answer: Answer, k: nat)
    requires Inv(s) && s.work != [] && k < |s.store.reports|
    requires JobMatches(s.store.reports, s.remote, s.limit, s.store.reports[k], s.work[0])
    requires s.work[0].phase in {Deleted, Finish}
    ensures var rows := s.store.reports;
            var step := StepJob(s.work[0], answer);
            var rows' := ApplySave(rows, step.save);
            && step.effect == NoEffect
            && rows' == rows[k := s.work[0].report]
            && StoreOk(s.store.(reports := rows'), s.limit)
            && RemoteOk(rows', s.remote)
            && (step.after.Continue? ==>
                  && step.after.job.report.key == s.work[0].report.key
                  && JobMatches(rows', s.remote, s.limit, rows'[k], step.after.job))
  {
    var rows, job := s.store.reports, s.work[0];
    assert RowOk(s.store.records, rows[k], s.limit);
    SaveReportAt(rows, k, job.report);
    assert UpdateOk(rows, k, job.report);
    assert RowOk(s.store.records, job.report, s.limit);
    UpdateKeepsStore(s.store, s.limit, k, job.report);
    UpdateKeepsRemote(rows, s.remote, k, job.report);
  }

  lemma UpdateKeepsClock(rows: seq<Report>, k: nat, report: Report, clock: Nanos)
    requires ClockOk(rows, clock) && k < |rows| && report.key == rows[k].key
    ensures ClockOk(rows[k := report], clock)
  {
  }

  lemma RemainingAfterSave(
    rows: seq<Report>, k: nat, report: Report, remote: Remote, limit: nat, work: seq<Job>, after: After)
    requires work != [] && WorkOk(rows, remote, limit, work) && k < |rows|
    requires report.key == rows[k].key == work[0].report.key
    requires after.Continue? ==>
               after.job.report.key == report.key && JobMatches(rows[k := report], remote, limit, report, after.job)
    ensures WorkOk(rows[k := report], remote, limit, RemainingWork(work, after))
  {
    var rows' := rows[k := report];
    if after.Continue? {
      assert JobMatches(rows', remote, limit, rows'[k], after.job);
    }
    RemainingOk(rows, rows', remote, remote, limit, work, after);
  }

  lemma AdvanceSaved(s: World, answer: Answer, k: nat)
    requires Inv(s) && Enabled(s, Advance(answer)) && k < |s.store.reports|
    requires JobMatches(s.store.reports, s.remote, s.limit, s.store.reports[k], s.work[0])
    requires s.work[0].phase in {Deleted, Finish}
    ensures Inv(Apply(s, Advance(answer)))
  {
    var rows, report := s.store.reports, s.work[0].report;
    var step := StepJob(s.work[0], answer);
    SavedStep(s, answer, k);
    UpdateKeepsClock(rows, k, report, s.debugClock);
    RemainingAfterSave(rows, k, report, s.remote, s.limit, s.work, step.after);
  }

  lemma AdvanceUnsaved(s: World, answer: Answer, k: nat)
    requires Inv(s) && Enabled(s, Advance(answer)) && k < |s.store.reports|
    requires JobMatches(s.store.reports, s.remote, s.limit, s.store.reports[k], s.work[0])
    requires s.work[0].phase in {Begin, ReadyToCreate, Created, NotifyBegin}
    ensures Inv(Apply(s, Advance(answer)))
  {
    var rows := s.store.reports;
    var step := StepJob(s.work[0], answer);
    var remote' := ApplyEffect(s.remote, step.effect);
    UnsavedStep(s, answer, k);
    assert JobOk(rows, remote', s.limit, step.after.job);
    RemainingOk(rows, rows, s.remote, remote', s.limit, s.work, step.after);
    assert Apply(s, Advance(answer)).store == s.store;
  }

  lemma AdvanceKeepsInv(s: World, answer: Answer)
    requires Inv(s) && Enabled(s, Advance(answer))
    ensures Inv(Apply(s, Advance(answer)))
  {
    var k: nat := HeadRow(s);
    if s.work[0].phase in {Deleted, Finish} {
      AdvanceSaved(s, answer, k);
    } else {
      AdvanceUnsaved(s, answer, k);
    }
  }

  lemma HeadRow(s: World) returns (k: nat)
    requires Inv(s) && s.work != []
    ensures k < |s.store.reports|
    ensures JobMatches(s.store.reports, s.remote, s.limit, s.store.reports[k], s.work[0])
  {
    assert JobOk(s.store.reports, s.remote, s.limit, s.work[0]);
    k :| 0 <= k < |s.store.reports| && JobMatches(s.store.reports, s.remote, s.limit, s.store.reports[k], s.work[0]);
  }
}
