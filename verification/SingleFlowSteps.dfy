/** Every step in turn keeps at most one live flow per stream. */
module SingleFlowSteps {
  import opened Wrappers
  import opened Domain
  import opened Tables
  import opened SyslogPipeline
  import opened DebugAdmin
  import opened AttendanceAdmin
  import opened ReportDispatcher
  import opened Outbox
  import opened OutboxInvariant
  import opened OutboxProducers
  import opened OutboxDispatch
  import opened OutboxSafety
  import opened FlowStreams

  // ----- queueing -----

  /** The rows and the work that a step other than the dispatcher's leaves behind. */
  ghost predicate Appends(
    records: seq<Record>, rows: seq<Report>, rows': seq<Report>, owner: nat, work: seq<Job>, work': seq<Job>)
  {
    && rows <= rows' && UniqueKeys(rows')
    && (forall i :: |rows| <= i < |rows'| ==> QueuedRow(records, rows, owner, rows'[i]))
    && (forall i, j :: |rows| <= i < j < |rows'| ==> rows'[i].rtype != rows'[j].rtype)
    && (work' == work || (work == [] && |rows| < |rows'| && work' == [Job(rows'[|rows'| - 1], Begin)]))
    && (forall i, k :: 0 <= i < |work| && |rows| <= k < |rows'| ==> work[i].report.key != rows'[k].key)
  }

  lemma AppendKeepsSettled(
    records: seq<Record>, rows: seq<Report>, rows': seq<Report>, owner: nat, work: seq<Job>, work': seq<Job>,
    limit: nat, k: nat)
    requires Appends(records, rows, rows', owner, work, work') && k < |rows|
    ensures rows'[k] == rows[k] && (Settled(rows'[k], work', limit) <==> Settled(rows[k], work, limit))
  {
  }

  lemma AppendKeepsCarried(
    records: seq<Record>, rows: seq<Report>, rows': seq<Report>, owner: nat, work: seq<Job>, work': seq<Job>,
    stream: Stream)
    requires Appends(records, rows, rows', owner, work, work')
    ensures Carries(rows', work', stream) <==> Carries(rows, work, stream)
  {
    if Carries(rows, work, stream) {
      var k :| 0 <= k < |rows| && InStream(rows[k], stream) && rows[k].key == work[0].report.key && rows[k].status != Done;
      assert rows'[k] == rows[k];
    }
  }

  lemma AppendKeepsNewest(
    records: seq<Record>, rows: seq<Report>, rows': seq<Report>, owner: nat, work: seq<Job>, work': seq<Job>,
    stream: Stream, flow: FlowId)
    requires Appends(records, rows, rows', owner, work, work') && NamedByNewest(rows, stream, flow)
    ensures NamedByNewest(rows', stream, flow)
  {
    var n: nat :| NewestDone(rows, n, stream) && rows[n].external == Some(flow);
    assert NewestDone(rows', n, stream);
  }

  /** The newest success is also the latest that a query for a flow to delete finds. */
  lemma NewestIsLatest(rows: seq<Report>, stream: Stream, flow: FlowId)
    requires NamedByNewest(rows, stream, flow)
    ensures var latest := LatestSuccessful(rows, stream.recordId, stream.rtype);
            latest.Some? && rows[latest.value].external == Some(flow)
  {
    var n: nat :| NewestDone(rows, n, stream) && rows[n].external == Some(flow);
    assert Succeeded(rows[n], stream.recordId, stream.rtype);
  }

  /** New reports of the stream replace what the newest success created. */
  ghost predicate TakesOverStream(before: seq<Report>, after: seq<Report>, stream: Stream) {
    forall j :: |before| <= j < |after| && InStream(after[j], stream) ==> CopiesLatest(before, after[j])
  }

  lemma AppendExplains(
    records: seq<Record>, rows: seq<Report>, rows': seq<Report>, owner: nat, work: seq<Job>, work': seq<Job>,
    limit: nat, stream: Stream, flow: FlowId)
    requires Appends(records, rows, rows', owner, work, work') && FlowExplained(rows, work, limit, stream, flow)
    requires (exists j :: |rows| <= j < |rows'| && InStream(rows'[j], stream)) ==> AllSettled(rows, work, limit, stream)
    requires TakesOverStream(rows, rows', stream)
    ensures FlowExplained(rows', work', limit, stream, flow)
  {
    AppendKeepsCarried(records, rows, rows', owner, work, work', stream);
    if !Carries(rows, work, stream) {
      AppendKeepsNewest(records, rows, rows', owner, work, work', stream, flow);
      forall k | 0 <= k < |rows'| && InStream(rows'[k], stream) && !Settled(rows'[k], work', limit)
        ensures rows'[k].deleteId == Some(flow)
        ensures work' != [] && work'[0].report.key == rows'[k].key ==> work'[0].report.deleteId == Some(flow)
      {
        if k < |rows| {
          AppendKeepsSettled(records, rows, rows', owner, work, work', limit, k);
        } else {
          NewestIsLatest(rows, stream, flow);
          assert CopiesLatest(rows, rows'[k]);
        }
      }
    } else if exists j :: |rows| <= j < |rows'| && InStream(rows'[j], stream) {
      SettledCarriesNothing(rows, work, limit, stream);
      assert false;
    }
  }

  /** At most one report of the stream is new, and it takes over what is live; or nothing is live. */
  lemma AppendKeepsSingle(
    records: seq<Record>, rows: seq<Report>, rows': seq<Report>, owner: nat, work: seq<Job>, work': seq<Job>,
    remote: Remote, limit: nat, stream: Stream)
    requires Appends(records, rows, rows', owner, work, work') && SingleOk(rows, remote, work, limit, stream)
    requires (exists j :: |rows| <= j < |rows'| && InStream(rows'[j], stream)) ==> AllSettled(rows, work, limit, stream)
    requires TakesOverStream(rows, rows', stream) || forall flow :: !LiveFor(remote, stream, flow)
    ensures SingleOk(rows', remote, work', limit, stream)
  {
    forall i, j | 0 <= i < j < |rows'| && InStream(rows'[i], stream) && InStream(rows'[j], stream)
      ensures Settled(rows'[i], work', limit)
    {
      assert i < |rows|;
      AppendKeepsSettled(records, rows, rows', owner, work, work', limit, i);
      if j < |rows| {
        assert rows'[j] == rows[j];
      }
    }
    forall flow | LiveFor(remote, stream, flow) ensures FlowExplained(rows', work', limit, stream, flow) {
      AppendExplains(records, rows, rows', owner, work, work', limit, stream, flow);
    }
  }

  // ----- the dispatcher -----

  /** The row of the first job decides whether it carries an unsaved flow. */
  lemma CarriesIff(rows: seq<Report>, work: seq<Job>, k: nat, stream: Stream)
    requires UniqueKeys(rows) && work != [] && k < |rows| && SameCore(rows[k], work[0].report)
    ensures Carries(rows, work, stream) <==>
            InStream(rows[k], stream) && rows[k].status != Done && work[0].report.external.Some?
  {
    if Carries(rows, work, stream) {
      var c :| 0 <= c < |rows| && InStream(rows[c], stream) && rows[c].key == work[0].report.key && rows[c].status != Done;
      assert c == k;
    }
  }

  lemma SameKeysSameWork(work: seq<Job>, job: Job, row: Report)
    requires work != [] && job.report.key == work[0].report.key
    ensures InWork(row, [job] + work[1..]) <==> InWork(row, work)
  {
    var work' := [job] + work[1..];
    if i :| 0 <= i < |work| && work[i].report.key == row.key {
      assert work'[i].report.key == row.key;
    }
    if i :| 0 <= i < |work'| && work'[i].report.key == row.key {
      assert work[i].report.key == row.key;
    }
  }

  /** A flow that was live before stays explained while the job keeps both remote ids, or is about another stream. */
  lemma QuietExplains(rows: seq<Report>, work: seq<Job>, limit: nat, job: Job, k: nat, stream: Stream, flow: FlowId)
    requires UniqueKeys(rows) && work != [] && k < |rows|
    requires SameCore(rows[k], work[0].report) && SameCore(rows[k], job.report)
    requires FlowExplained(rows, work, limit, stream, flow)
    requires InStream(rows[k], stream) && rows[k].status != Done ==>
               job.report.external == work[0].report.external && job.report.deleteId == work[0].report.deleteId
    ensures FlowExplained(rows, [job] + work[1..], limit, stream, flow)
  {
    CarriesIff(rows, work, k, stream);
    CarriesIff(rows, [job] + work[1..], k, stream);
    forall i | 0 <= i < |rows|
      ensures Settled(rows[i], [job] + work[1..], limit) <==> Settled(rows[i], work, limit)
    {
      SameKeysSameWork(work, job, rows[i]);
    }
  }

  lemma HeadIsUnsettled(rows: seq<Report>, work: seq<Job>, limit: nat, k: nat)
    requires work != [] && k < |rows| && work[0].report.key == rows[k].key && rows[k].status != Done
    ensures !Settled(rows[k], work, limit)
  {
    assert InWork(rows[k], work);
  }

  /** Before a creation nothing else is live for the stream, so the new flow is the only one. */
  lemma CreateExplains(
    rows: seq<Report>, remote: Remote, work: seq<Job>, limit: nat, job: Job, k: nat, stream: Stream,
    flow: FlowId, created: FlowId)
    requires UniqueKeys(rows) && work != [] && k < |rows| && SingleOk(rows, remote, work, limit, stream)
    requires work[0].report == rows[k] && SameCore(rows[k], job.report) && job.report.external == Some(created)
    requires rows[k].status != Done && rows[k].external.None? && rows[k].deleteId.None?
    requires flow == created || LiveFor(remote, stream, flow)
    requires flow == created ==> InStream(rows[k], stream)
    ensures FlowExplained(rows, [job] + work[1..], limit, stream, flow)
  {
    CarriesIff(rows, work, k, stream);
    CarriesIff(rows, [job] + work[1..], k, stream);
    HeadIsUnsettled(rows, work, limit, k);
    if flow != created {
      assert FlowExplained(rows, work, limit, stream, flow);
      QuietExplains(rows, work, limit, job, k, stream, flow);
    }
  }

  /** What survives a delete was not the flow to be deleted. */
  lemma DeleteExplains(rows: seq<Report>, work: seq<Job>, limit: nat, job: Job, k: nat, stream: Stream, flow: FlowId)
    requires UniqueKeys(rows) && work != [] && k < |rows| && FlowExplained(rows, work, limit, stream, flow)
    requires work[0].report == rows[k] && SameCore(rows[k], job.report)
    requires rows[k].status != Done && rows[k].external.None? && rows[k].deleteId != Some(flow)
    ensures FlowExplained(rows, [job] + work[1..], limit, stream, flow)
  {
    CarriesIff(rows, work, k, stream);
    HeadIsUnsettled(rows, work, limit, k);
    QuietExplains(rows, work, limit, job, k, stream, flow);
  }

  /** An unsaved step without a remote effect leaves the two remote ids of the job alone. */
  lemma QuietStep(rows: seq<Report>, remote: Remote, limit: nat, row: Report, job: Job, answer: Answer)
    requires JobMatches(rows, remote, limit, row, job) && job.phase in {Begin, ReadyToCreate, Created, NotifyBegin}
    requires StepJob(job, answer).effect == NoEffect && StepJob(job, answer).after.Continue?
    ensures var next := StepJob(job, answer).after.job.report;
            next.external == job.report.external && next.deleteId == job.report.deleteId
  {
  }

  lemma EffectStep(rows: seq<Report>, remote: Remote, limit: nat, row: Report, job: Job, answer: Answer)
    requires JobMatches(rows, remote, limit, row, job) && job.phase in {Begin, ReadyToCreate, Created, NotifyBegin}
    requires StepJob(job, answer).effect != NoEffect
    ensures job.report == row && row.status != Done
    ensures var step := StepJob(job, answer);
            match step.effect
            case DeleteFlow(gone) => row.deleteId == Some(gone)
            case CreateFlow(created, flow) =>
              && row.deleteId.None? && step.after.Continue? && step.after.job.report.external == Some(created)
              && flow.recordId == row.recordId && flow.rtype == row.rtype
            case NoEffect => true
  {
  }

  lemma UnsavedKeepsSingle(s: World, answer: Answer, k: nat, stream: Stream, flow: FlowId)
    requires Inv(s) && Enabled(s, Advance(answer)) && k < |s.store.reports|
    requires JobMatches(s.store.reports, s.remote, s.limit, s.store.reports[k], s.work[0])
    requires s.work[0].phase in {Begin, ReadyToCreate, Created, NotifyBegin}
    requires StreamOk(s, stream)
    requires LiveFor(ApplyEffect(s.remote, StepJob(s.work[0], answer).effect), stream, flow)
    ensures StepJob(s.work[0], answer).after.Continue?
    ensures FlowExplained(
              s.store.reports, [StepJob(s.work[0], answer).after.job] + s.work[1..], s.limit, stream, flow)
  {
    var rows := s.store.reports;
    var step := StepJob(s.work[0], answer);
    UnsavedStep(s, answer, k);
    var job := step.after.job;
    assert rows[k].status != Done ==> rows[k].external.None? by {
      assert RowOk(s.store.records, rows[k], s.limit);
    }
    match step.effect
    case NoEffect =>
      QuietStep(rows, s.remote, s.limit, rows[k], s.work[0], answer);
      QuietExplains(rows, s.work, s.limit, job, k, stream, flow);
    case DeleteFlow(_) =>
      EffectStep(rows, s.remote, s.limit, rows[k], s.work[0], answer);
      DeleteExplains(rows, s.work, s.limit, job, k, stream, flow);
    case CreateFlow(created, _) =>
      EffectStep(rows, s.remote, s.limit, rows[k], s.work[0], answer);
      CreateExplains(rows, s.remote, s.work, s.limit, job, k, stream, flow, created);
  }

  lemma UnsavedKeepsOrder(rows: seq<Report>, work: seq<Job>, limit: nat, job: Job, stream: Stream)
    requires EarlierAreSettled(rows, work, limit, stream) && work != [] && job.report.key == work[0].report.key
    ensures EarlierAreSettled(rows, [job] + work[1..], limit, stream)
  {
    forall i | 0 <= i < |rows|
      ensures Settled(rows[i], [job] + work[1..], limit) <==> Settled(rows[i], work, limit)
    {
      SameKeysSameWork(work, job, rows[i]);
    }
  }

  // ----- saves -----

  /** The work after a save of row `k`: the same reports or fewer, started from what the rows say. */
  ghost predicate SavedWork(rows': seq<Report>, work: seq<Job>, work': seq<Job>) {
    && HeadIsStored(rows', work')
    && forall i :: 0 <= i < |work'| ==> exists j :: 0 <= j < |work| && work[j].report.key == work'[i].report.key
  }

  lemma StoredHeadCarriesNothing(rows: seq<Report>, work: seq<Job>, stream: Stream)
    ensures UniqueKeys(rows) && HeadIsStored(rows, work) ==> !Carries(rows, work, stream)
  {
  }

  /** What a save of row `k` may write. */
  ghost predicate SavesRow(row: Report, report: Report) {
    && SameCore(row, report)
    && (row.status != Done ==> row.external.None?)
    && (if row.status == Done then report.status == Done && report.external == row.external
        else report.external.Some? ==> report.status == Done)
    && (row.status != Done && report.status == Done && report.external.None? ==> report.deleteId.None?)
  }

  lemma SettledStays(row: Report, work: seq<Job>, work': seq<Job>, limit: nat)
    requires forall i :: 0 <= i < |work'| ==> exists j :: 0 <= j < |work| && work[j].report.key == work'[i].report.key
    requires Settled(row, work, limit)
    ensures Settled(row, work', limit)
  {
    if InWork(row, work') {
      var i :| 0 <= i < |work'| && work'[i].report.key == row.key;
      var j :| 0 <= j < |work| && work[j].report.key == work'[i].report.key;
      assert InWork(row, work);
    }
  }

  lemma SavedKeepsOrder(
    rows: seq<Report>, k: nat, report: Report, work: seq<Job>, work': seq<Job>, limit: nat, stream: Stream)
    requires k < |rows| && SavesRow(rows[k], report) && EarlierAreSettled(rows, work, limit, stream)
    requires work != [] && work[0].report.key == rows[k].key && SavedWork(rows[k := report], work, work')
    ensures EarlierAreSettled(rows[k := report], work', limit, stream)
  {
    var rows' := rows[k := report];
    forall i, j | 0 <= i < j < |rows'| && InStream(rows'[i], stream) && InStream(rows'[j], stream)
      ensures Settled(rows'[i], work', limit)
    {
      assert InStream(rows[i], stream) && InStream(rows[j], stream);
      if i == k {
        assert InWork(rows[k], work);
      } else {
        SettledStays(rows[i], work, work', limit);
      }
    }
  }

  /** A save of a row that brings no new success leaves the newest success as it is. */
  lemma SameNewest(rows: seq<Report>, k: nat, report: Report, stream: Stream, flow: FlowId)
    requires k < |rows| && SameCore(rows[k], report) && NamedByNewest(rows, stream, flow)
    requires InStream(rows[k], stream) ==> report.external == rows[k].external && (report.status == Done <==> rows[k].status == Done)
    ensures NamedByNewest(rows[k := report], stream, flow)
  {
    var rows' := rows[k := report];
    var n: nat :| NewestDone(rows, n, stream) && rows[n].external == Some(flow);
    assert NewestDone(rows', n, stream) && rows'[n].external == Some(flow);
  }

  /** The save that records a created flow makes its row the newest success. */
  lemma SaveExplains(
    rows: seq<Report>, k: nat, report: Report, work: seq<Job>, work': seq<Job>, limit: nat, stream: Stream, flow: FlowId)
    requires k < |rows| && UniqueKeys(rows) && SavesRow(rows[k], report) && EarlierAreSettled(rows, work, limit, stream)
    requires work != [] && work[0].report == report && FlowExplained(rows, work, limit, stream, flow)
    requires SavedWork(rows[k := report], work, work')
    ensures FlowExplained(rows[k := report], work', limit, stream, flow)
  {
    var rows' := rows[k := report];
    assert UniqueKeys(rows');
    StoredHeadCarriesNothing(rows', work', stream);
    CarriesIff(rows, work, k, stream);
    if InStream(rows[k], stream) && rows[k].status != Done {
      HeadIsUnsettled(rows, work, limit, k);
    }
    if Carries(rows, work, stream) {
      assert NewestDone(rows[k := report], k, stream);
    } else {
      SameNewest(rows, k, report, stream, flow);
    }
    forall i | 0 <= i < |rows'| && InStream(rows'[i], stream) && !Settled(rows'[i], work', limit)
      ensures rows'[i].deleteId == Some(flow)
    {
      UnsettledAfterSave(rows, k, report, work, work', limit, stream, flow, i);
    }
  }

  lemma OneUnsettled(rows: seq<Report>, work: seq<Job>, limit: nat, stream: Stream, i: nat, k: nat)
    requires EarlierAreSettled(rows, work, limit, stream) && i < |rows| && k < |rows| && i != k
    requires InStream(rows[i], stream) && InStream(rows[k], stream)
    ensures Settled(rows[i], work, limit) || Settled(rows[k], work, limit)
  {
  }

  lemma UnsettledAfterSave(
    rows: seq<Report>, k: nat, report: Report, work: seq<Job>, work': seq<Job>, limit: nat, stream: Stream,
    flow: FlowId, i: nat)
    requires k < |rows| && UniqueKeys(rows) && SavesRow(rows[k], report) && EarlierAreSettled(rows, work, limit, stream)
    requires work != [] && work[0].report == report && FlowExplained(rows, work, limit, stream, flow)
    requires SavedWork(rows[k := report], work, work') && i < |rows|
    requires InStream(rows[k := report][i], stream) && !Settled(rows[k := report][i], work', limit)
    ensures rows[k := report][i].deleteId == Some(flow)
  {
    CarriesIff(rows, work, k, stream);
    if rows[k].status != Done {
      HeadIsUnsettled(rows, work, limit, k);
    }
    if i != k {
      if InStream(rows[k], stream) {
        OneUnsettled(rows, work, limit, stream, i, k);
      }
      if Settled(rows[i], work, limit) {
        SettledStays(rows[i], work, work', limit);
      }
    }
  }

  lemma PhaseAfterSave(work: seq<Job>, answer: Answer)
    requires work != [] && work[0].phase in {Deleted, Finish}
    requires forall i :: 1 <= i < |work| ==> work[i].phase in {Begin, NotifyBegin}
    ensures var rest := RemainingWork(work, StepJob(work[0], answer).after);
            && (rest != [] ==> rest[0].phase in {Begin, NotifyBegin, ReadyToCreate})
            && (forall i :: 0 <= i < |rest| ==> exists j :: 0 <= j < |work| && work[j].report.key == rest[i].report.key)
  {
    var rest := RemainingWork(work, StepJob(work[0], answer).after);
    forall i | 0 <= i < |rest| ensures exists j :: 0 <= j < |work| && work[j].report.key == rest[i].report.key {
      var j := if work[0].phase == Deleted then i else i + 1;
      assert work[j].report.key == rest[i].report.key;
    }
  }

  lemma HeadFromRow(s: World)
    requires Inv(s) && s.work != [] && s.work[0].phase in {Begin, NotifyBegin, ReadyToCreate}
    ensures s.work[0].report in s.store.reports && (s.work[0].report.status != Done ==> s.work[0].report.external.None?)
  {
    var c: nat := HeadRow(s);
    assert RowOk(s.store.records, s.store.reports[c], s.limit);
  }

  /** After a save the next job starts from a stored row. */
  lemma SavedWorkIsStored(s: World, answer: Answer)
    requires Inv(s) && Enabled(s, Advance(answer)) && s.work[0].phase in {Deleted, Finish}
    ensures var s' := Apply(s, Advance(answer)); SavedWork(s'.store.reports, s.work, s'.work)
  {
    PhaseAfterSave(s.work, answer);
    AdvanceKeepsInv(s, answer);
    if Apply(s, Advance(answer)).work != [] {
      HeadFromRow(Apply(s, Advance(answer)));
    }
  }

  lemma SavedRowIsAllowed(rows: seq<Report>, remote: Remote, limit: nat, row: Report, job: Job)
    requires JobMatches(rows, remote, limit, row, job) && job.phase in {Deleted, Finish}
    requires row.external.Some? <==> row.status == Done && row.body.At?
    ensures SavesRow(row, job.report)
  {
  }

  lemma SavedKeepsSingle(s: World, answer: Answer, k: nat, stream: Stream)
    requires Inv(s) && Enabled(s, Advance(answer)) && k < |s.store.reports|
    requires JobMatches(s.store.reports, s.remote, s.limit, s.store.reports[k], s.work[0])
    requires s.work[0].phase in {Deleted, Finish} && StreamOk(s, stream)
    ensures StreamOk(Apply(s, Advance(answer)), stream)
  {
    var s' := Apply(s, Advance(answer));
    var rows, report := s.store.reports, s.work[0].report;
    SavedStep(s, answer, k);
    SavedWorkIsStored(s, answer);
    assert SavesRow(rows[k], report) by {
      assert RowOk(s.store.records, rows[k], s.limit);
      SavedRowIsAllowed(rows, s.remote, s.limit, rows[k], s.work[0]);
    }
    SavedKeepsOrder(rows, k, report, s.work, s'.work, s.limit, stream);
    forall flow | LiveFor(s'.remote, stream, flow)
      ensures FlowExplained(s'.store.reports, s'.work, s.limit, stream, flow)
    {
      SaveExplains(rows, k, report, s.work, s'.work, s.limit, stream, flow);
    }
  }

  lemma AdvanceKeepsSingle(s: World, answer: Answer, stream: Stream)
    requires Inv(s) && Enabled(s, Advance(answer)) && StreamOk(s, stream)
    ensures StreamOk(Apply(s, Advance(answer)), stream)
  {
    var k: nat := HeadRow(s);
    if s.work[0].phase in {Deleted, Finish} {
      SavedKeepsSingle(s, answer, k, stream);
    } else {
      var s' := Apply(s, Advance(answer));
      UnsavedStep(s, answer, k);
      UnsavedKeepsOrder(s.store.reports, s.work, s.limit, StepJob(s.work[0], answer).after.job, stream);
      forall flow | LiveFor(s'.remote, stream, flow)
        ensures FlowExplained(s'.store.reports, s'.work, s.limit, stream, flow)
      {
        UnsavedKeepsSingle(s, answer, k, stream, flow);
      }
    }
  }

  // ----- starting and crashing -----

  lemma ListedHasRetries(rows: seq<Report>, limit: nat, k: nat)
    requires UniqueKeys(rows) && k < |rows| && InWork(rows[k], ListedWork(rows, limit))
    ensures rows[k].status == Done || rows[k].retries < limit
  {
    var work := ListedWork(rows, limit);
    var i :| 0 <= i < |work| && work[i].report.key == rows[k].key;
    var l: nat := ListedJob(rows, limit, i);
    assert l == k;
  }

  /** A list never takes up a report that the dispatcher is through with. */
  ghost predicate HeadIsStored(rows: seq<Report>, work: seq<Job>) {
    work != [] ==> work[0].report in rows && (work[0].report.status != Done ==> work[0].report.external.None?)
  }

  lemma ListedHeadIsStored(records: seq<Record>, rows: seq<Report>, limit: nat)
    requires ReportsOk(records, rows, limit)
    ensures HeadIsStored(rows, ListedWork(rows, limit))
  {
    if ListedWork(rows, limit) != [] {
      var c: nat := ListedJob(rows, limit, 0);
      assert RowOk(records, rows[c], limit);
    }
  }

  /** Work that starts from stored rows and takes up no settled report explains the same flows. */
  lemma OtherWorkKeepsSingle(rows: seq<Report>, remote: Remote, limit: nat, work: seq<Job>, stream: Stream)
    requires UniqueKeys(rows) && SingleOk(rows, remote, [], limit, stream) && HeadIsStored(rows, work)
    requires forall k :: 0 <= k < |rows| && Settled(rows[k], [], limit) ==> Settled(rows[k], work, limit)
    ensures SingleOk(rows, remote, work, limit, stream)
  {
    StoredHeadCarriesNothing(rows, work, stream);
    forall flow | LiveFor(remote, stream, flow) ensures FlowExplained(rows, work, limit, stream, flow) {
      assert FlowExplained(rows, [], limit, stream, flow);
    }
  }

  lemma ListedKeepsSingle(records: seq<Record>, rows: seq<Report>, remote: Remote, limit: nat, stream: Stream)
    requires ReportsOk(records, rows, limit) && SingleOk(rows, remote, [], limit, stream)
    ensures SingleOk(rows, remote, ListedWork(rows, limit), limit, stream)
  {
    forall k | 0 <= k < |rows| && Settled(rows[k], [], limit) ensures Settled(rows[k], ListedWork(rows, limit), limit) {
      if InWork(rows[k], ListedWork(rows, limit)) {
        ListedHasRetries(rows, limit, k);
      }
    }
    ListedHeadIsStored(records, rows, limit);
    OtherWorkKeepsSingle(rows, remote, limit, ListedWork(rows, limit), stream);
  }

  lemma CrashKeepsSingle(s: World, stream: Stream)
    requires StreamOk(s, stream) && !Carries(s.store.reports, s.work, stream)
    ensures StreamOk(Apply(s, Crash), stream)
  {
    var rows := s.store.reports;
    forall k | 0 <= k < |rows| && Settled(rows[k], s.work, s.limit) ensures Settled(rows[k], [], s.limit) {
      SettledStays(rows[k], s.work, [], s.limit);
    }
    forall flow | LiveFor(s.remote, stream, flow) ensures FlowExplained(rows, [], s.limit, stream, flow) {
      assert FlowExplained(rows, s.work, s.limit, stream, flow);
    }
  }

  // ----- every step in turn -----

  /** A job's key is the key of a stored row, so a fresh report is not in the work. */
  lemma FreshIsNotInWork(s: World, rows': seq<Report>)
    requires Inv(s) && s.store.reports <= rows' && UniqueKeys(rows')
    ensures forall i, k :: 0 <= i < |s.work| && |s.store.reports| <= k < |rows'| ==> s.work[i].report.key != rows'[k].key
  {
    var rows := s.store.reports;
    forall i, k | 0 <= i < |s.work| && |rows| <= k < |rows'| ensures s.work[i].report.key != rows'[k].key {
      assert JobOk(rows, s.remote, s.limit, s.work[i]);
      var l :| 0 <= l < |rows| && JobMatches(rows, s.remote, s.limit, rows[l], s.work[i]);
      assert rows'[l] == rows[l];
    }
  }

  lemma ProducedKeepsSingle(s: World, after: Store, owner: nat, stream: Stream)
    requires Inv(s) && StreamOk(s, stream) && ProducerShape(s.store, after, owner)
    requires Queues(s, s.(store := after), stream) ==> AllSettled(s.store.reports, s.work, s.limit, stream)
    requires TakesOverStream(s.store.reports, after.reports, stream) || forall flow :: !LiveFor(s.remote, stream, flow)
    ensures StreamOk(s.(store := after), stream)
  {
    FreshIsNotInWork(s, after.reports);
    AppendKeepsSingle(
      after.records, s.store.reports, after.reports, owner, s.work, s.work, s.remote, s.limit, stream);
  }

  /** When every clock-in report of a record succeeded and the newest one has a flow, its first connect is set. */
  lemma NamedIsSet(store: Store, limit: nat, stream: Stream, flow: FlowId)
    requires StoreOk(store, limit) && stream.rtype == ClockIn
    requires AllDone(store.reports, stream) && NamedByNewest(store.reports, stream, flow)
    ensures !Unset(store.records, stream)
  {
    var n: nat :| NewestDone(store.reports, n, stream) && store.reports[n].external == Some(flow);
    assert RowOk(store.records, store.reports[n], limit);
    NewestDecidesReplay(store.reports, n, stream.recordId, ClockIn);
    assert RecordOk(store.records[stream.recordId], stream.recordId, store.reports);
  }

  /** With every report of the field successful and its first connect unset, nothing is live for it. */
  lemma UnsetHoldsNothing(s: World, stream: Stream, flow: FlowId)
    requires Inv(s) && StreamOk(s, stream) && stream.rtype == ClockIn
    requires AllDone(s.store.reports, stream) && Unset(s.store.records, stream)
    ensures !LiveFor(s.remote, stream, flow)
  {
    var rows := s.store.reports;
    if LiveFor(s.remote, stream, flow) {
      SettledCarriesNothing(rows, s.work, s.limit, stream);
      assert FlowExplained(rows, s.work, s.limit, stream, flow);
      NamedIsSet(s.store, s.limit, stream, flow);
    }
  }

  /** The pipeline's report names no flow, and rightly so while nothing is live. */
  lemma MessageKeepsSingle(s: World, devices: map<string, nat>, event: Event, s': World, stream: Stream)
    requires Inv(s) && TakesInTurn(s, Message(devices, Some(event)), s', stream) && StreamOk(s, stream)
    requires ReportsFirst(s, Message(devices, Some(event)), s', stream)
    ensures StreamOk(s', stream)
  {
    if event.mac in devices {
      var employee := devices[event.mac];
      HandleEventOk(s.store, s.limit, employee, event);
      if Queues(s, s', stream) {
        OnlyClockInIsQueued(s, employee, event, stream);
        forall flow: FlowId | true ensures !LiveFor(s.remote, stream, flow) {
          UnsetHoldsNothing(s, stream, flow);
        }
      }
      ProducedKeepsSingle(s, s'.store, TargetId(s.store.records, employee, event.date), stream);
    }
  }

  lemma OnlyClockInIsQueued(s: World, employee: nat, event: Event, stream: Stream)
    requires Inv(s) && Queues(s, s.(store := HandleEvent(s.store, employee, event)), stream)
    ensures stream.rtype == ClockIn
  {
    HandleEventAppends(s.store, s.limit, employee, event);
  }

  lemma DebugKeepsSingle(s: World, owner: nat, rtype: ReportType, requestedAt: Nanos, s': World, stream: Stream)
    requires Inv(s) && TakesInTurn(s, DebugDispatch(owner, rtype, requestedAt), s', stream) && StreamOk(s, stream)
    ensures StreamOk(s', stream)
  {
    if ManualReport(s.store, owner, rtype, requestedAt).Success? {
      ManualReportOk(s.store, s.limit, s.debugClock, owner, rtype, requestedAt);
      AppendKeepsSingle(
        s.store.records, s.store.reports, s'.store.reports, owner, s.work, s'.work, s.remote, s.limit, stream);
    }
  }

  lemma CorrectKeepsSingle(s: World, owner: nat, input: CorrectionInput, now: Seconds, s': World, stream: Stream)
    requires Inv(s) && TakesInTurn(s, Correct(owner, input, now), s', stream) && StreamOk(s, stream)
    ensures StreamOk(s', stream)
  {
    if CorrectAttendance(s.store, owner, input, now).Success? {
      CorrectAttendanceOk(s.store, s.limit, owner, input, now);
      if !KeepsTimes(s.store.records[owner], input) {
        ProducedKeepsSingle(s, s'.store, owner, stream);
      }
    }
  }

  lemma StepKeepsSingle(s: World, step: Step, s': World, stream: Stream)
    requires Inv(s) && TakesInTurn(s, step, s', stream) && ReportsFirst(s, step, s', stream) && StreamOk(s, stream)
    ensures StreamOk(s', stream)
  {
    match step
    case Message(devices, event) =>
      if event.Some? {
        MessageKeepsSingle(s, devices, event.value, s', stream);
      }
    case Correct(owner, input, now) => CorrectKeepsSingle(s, owner, input, now, s', stream);
    case FinalizeOne(owner, now) =>
      FinalizeRecordOk(s.store, s.limit, owner, now);
      ProducedKeepsSingle(s, s'.store, owner, stream);
    case DebugDispatch(owner, rtype, requestedAt) => DebugKeepsSingle(s, owner, rtype, requestedAt, s', stream);
    case StartRun => ListedKeepsSingle(s.store.records, s.store.reports, s.remote, s.limit, stream);
    case Advance(answer) => AdvanceKeepsSingle(s, answer, stream);
    case RecordRun(_) =>
    case Crash => CrashKeepsSingle(s, stream);
  }
}
