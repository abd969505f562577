/** What one uninterrupted job leaves behind, column by column, for every answer of the environment. */
module DispatchOutcome {
  import opened Wrappers
  import opened Domain
  import opened Tables
  import opened ReportDispatcher
  import opened Drain

  /** The report can be read, and the flow it is to replace, if any, is gone. */
  predicate WayIsFree(row: Report, answer: Answer) {
    && answer.ready && row.body != Malformed
    && (row.deleteId.Some? ==> answer.delete == DeleteOk)
  }

  /** Everything that the report asks of the remote service is accepted. */
  predicate Accepted(row: Report, answer: Answer) {
    && WayIsFree(row, answer)
    && (row.body == Clear || (row.body.At? && answer.create.Some?))
  }

  /** The flow that the job takes away from the remote service, even when the delete reports an error. */
  function TakenAway(row: Report, answer: Answer): set<FlowId> {
    if answer.ready && row.body != Malformed && row.deleteId.Some? && answer.delete != DeleteError(false)
    then {row.deleteId.value} else {}
  }

  /** How a notification that was due is recorded. */
  predicate RecordsNotice(before: Report, after: Report, sent: bool) {
    && (after.notification == NotifySent && after.notifyRetries == 0 <==> sent)
    && (!sent ==> after.notification == NotifyFailed && after.notifyRetries == before.notifyRetries + 1)
  }

  /** The columns that a notification may change. */
  predicate SameButNotice(before: Report, after: Report) {
    after.(notification := before.notification, notifyRetries := before.notifyRetries) == before
  }

  /** The row of an accepted time. */
  predicate TimeDelivered(before: Report, after: Report, answer: Answer) {
    && before.body.At?
    && SameButNotice(before.(status := Done, external := answer.create, deleteId := None), after)
    && RecordsNotice(before, after, answer.sent)
  }

  /** The row of an accepted clear. */
  predicate ClearDelivered(before: Report, after: Report) {
    after == before.(status := Done, deleteId := None, notification := NotifySkipped)
  }

  /** The row of a dispatch that did not go through: it costs a retry, and an accepted delete is not repeated. */
  predicate DispatchFailed(before: Report, after: Report, answer: Answer) {
    after == before.(status := Failed, retries := before.retries + 1,
                     deleteId := if WayIsFree(before, answer) then None else before.deleteId)
  }

  predicate RowOutcome(before: Report, after: Report, answer: Answer) {
    if !Accepted(before, answer) then DispatchFailed(before, after, answer)
    else if before.body == Clear then ClearDelivered(before, after)
    else TimeDelivered(before, after, answer)
  }

  predicate RemoteOutcome(before: Report, remote: Remote, after: Remote, answer: Answer) {
    if Accepted(before, answer) && before.body.At? then
      && after.live == (remote.live - TakenAway(before, answer))[
                         answer.create.value := Flow(before.recordId, before.rtype, before.employee, before.body.time)]
      && after.issued == remote.issued + {answer.create.value}
    else after.live == remote.live - TakenAway(before, answer) && after.issued == remote.issued
  }

  lemma CreateOutcome(rows: seq<Report>, remote: Remote, k: nat, report: Report, answer: Answer)
    requires UniqueKeys(rows) && k < |rows| && report.key == rows[k].key
    requires report.deleteId.None? && report.body != Clear && report.body != Malformed && answer.ready
    requires report.retries + 1 < U32 && report.notifyRetries + 1 < U32
    ensures var run := RunJob(rows, remote, Job(report, ReadyToCreate), answer);
            && !run.aborted && run.rows == rows[k := run.final]
            && RowOutcome(report, run.final, answer)
            && RemoteOutcome(report, remote, run.remote, answer)
            && run.creates == if report.body.At? then 1 else 0
  {
    var step := StepCreate(report, answer);
    var next := step.after.job;
    var remote' := ApplyEffect(remote, step.effect);
    if next.phase == Created {
      var notified := Notify(next.report, answer.sent).value;
      FinishJob(rows, remote', k, notified, answer);
    } else {
      FinishJob(rows, remote', k, next.report, answer);
    }
  }

  /** The flow is gone: the row is saved without it before anything is created. */
  lemma DeletedOutcome(rows: seq<Report>, remote: Remote, k: nat, report: Report, answer: Answer)
    requires UniqueKeys(rows) && k < |rows| && report.key == rows[k].key
    requires report.deleteId.None? && report.body != Clear && report.body != Malformed && answer.ready
    requires report.retries + 1 < U32 && report.notifyRetries + 1 < U32
    ensures var run := RunJob(rows, remote, Job(report, Deleted), answer);
            && !run.aborted && run.rows == rows[k := run.final]
            && RowOutcome(report, run.final, answer)
            && RemoteOutcome(report, remote, run.remote, answer)
            && run.creates == if report.body.At? then 1 else 0
  {
    SaveReportAt(rows, k, report);
    CreateOutcome(rows[k := report], remote, k, report, answer);
  }

  /** The whole effect of dispatching a stored report: its row, the remote service and the calls of CreateFlow. */
  lemma DispatchIsExact(rows: seq<Report>, remote: Remote, k: nat, answer: Answer)
    requires UniqueKeys(rows) && k < |rows|
    requires rows[k].retries + 1 < U32 && rows[k].notifyRetries + 1 < U32
    ensures var run := RunJob(rows, remote, Job(rows[k], Begin), answer);
            && !run.aborted && run.rows == rows[k := run.final]
            && RowOutcome(rows[k], run.final, answer)
            && RemoteOutcome(rows[k], remote, run.remote, answer)
            && run.creates == if WayIsFree(rows[k], answer) && rows[k].body.At? then 1 else 0
  {
    var step := StepBegin(rows[k], answer);
    var next := step.after.job;
    var remote' := ApplyEffect(remote, step.effect);
    match next.phase
    case Finish => FinishJob(rows, remote', k, next.report, answer);
    case ReadyToCreate => CreateOutcome(rows, remote', k, next.report, answer);
    case Deleted => DeletedOutcome(rows, remote', k, next.report, answer);
    case _ =>
  }

  /** A dispatch succeeds iff every answer it needs is positive, and then the report names what the remote service holds. */
  lemma DispatchSucceedsIff(rows: seq<Report>, remote: Remote, k: nat, answer: Answer)
    requires UniqueKeys(rows) && k < |rows|
    requires rows[k].retries + 1 < U32 && rows[k].notifyRetries + 1 < U32
    ensures var row, run := rows[k], RunJob(rows, remote, Job(rows[k], Begin), answer);
            && |run.rows| == |rows|
            && (run.rows[k].status == Done
                <==> && answer.ready
                     && (row.deleteId.Some? ==> answer.delete == DeleteOk)
                     && (row.body == Clear || (row.body.At? && answer.create.Some?)))
            && (run.rows[k].status == Done ==> run.rows[k].deleteId.None?)
            && (run.rows[k].status == Done && row.body.At? ==>
                  && run.rows[k].external == answer.create && answer.create.value in run.remote.live
                  && run.remote.live[answer.create.value] == Flow(row.recordId, row.rtype, row.employee, row.body.time)
                  && run.creates == 1)
            && (run.rows[k].status == Done && row.body == Clear ==>
                  run.rows[k].external == row.external && run.creates == 0)
            && (run.rows[k].status != Done ==> run.rows[k].status == Failed && run.rows[k].retries == row.retries + 1)
            && (!answer.ready || row.body == Malformed ==> run.remote == remote && run.creates == 0)
  {
    DispatchIsExact(rows, remote, k, answer);
  }

  /** A job of the notification list: sent or failed by the answer alone, on exactly the rows that are due. */
  lemma NotificationIsExact(rows: seq<Report>, remote: Remote, k: nat, answer: Answer)
    requires UniqueKeys(rows) && k < |rows| && rows[k].notifyRetries + 1 < U32
    ensures var row, run := rows[k], RunJob(rows, remote, Job(rows[k], NotifyBegin), answer);
            var due := row.status == Done && (row.notification == NotifyPending || row.notification == NotifyFailed);
            && run.remote == remote && run.creates == 0 && run.rows == rows[k := run.final]
            && (run.aborted <==> due && (row.body == BadTimestamp || row.body == Malformed))
            && (if due && row.body.At?
                then SameButNotice(row, run.final) && RecordsNotice(row, run.final, answer.sent)
                else run.final == if due && row.body == Clear then row.(notification := NotifySkipped) else row)
  {
    var row := rows[k];
    var notified := Notify(row, answer.sent);
    if row.status == Done && row.notification in {NotifyPending, NotifyFailed} && notified.Some? {
      FinishJob(rows, remote, k, notified.value, answer);
    }
  }

  /** A batch may be cut anywhere: the second part runs on what the first one leaves, unless an error ended it. */
  lemma {:induction false} BatchSplits(d: Delivery, a: seq<Job>, b: seq<Job>, answers: Key -> Answer)
    ensures RunBatch(d, a + b, answers)
            == if BatchAborts(d, a, answers) then RunBatch(d, a, answers) else RunBatch(RunBatch(d, a, answers), b, answers)
    ensures BatchAborts(d, a + b, answers) <==> BatchAborts(d, a, answers) || BatchAborts(RunBatch(d, a, answers), b, answers)
    decreases |a|
  {
    if a == [] {
      assert a + b == b;
    } else {
      assert (a + b)[0] == a[0] && (a + b)[1..] == a[1..] + b;
      BatchSplits(Deliver(d, a[0], answers(a[0].report.key)), a[1..], b, answers);
    }
  }

  // ----- which reports a run takes up -----

  predicate AwaitsDispatch(row: Report, limit: nat) {
    (row.status == Pending || row.status == Failed) && row.retries < limit
  }

  predicate AwaitsNotice(row: Report, limit: nat) {
    && row.status == Done && (row.notification == NotifyPending || row.notification == NotifyFailed)
    && row.notifyRetries < limit
  }

  /** A run's jobs are the listed rows. */
  lemma ListedIff(rows: seq<Report>, limit: nat, k: nat)
    requires UniqueKeys(rows) && k < |rows|
    ensures Job(rows[k], Begin) in ListedWork(rows, limit) <==> k in ListDispatchable(rows, DispatchBatch, limit)
    ensures Job(rows[k], NotifyBegin) in ListedWork(rows, limit) <==> k in ListNotificationDispatchable(rows, DispatchBatch, limit)
  {
    var work, ids := ListedWork(rows, limit), ListDispatchable(rows, DispatchBatch, limit);
    var notifyIds := ListNotificationDispatchable(rows, DispatchBatch, limit);
    if p :| 0 <= p < |ids| && ids[p] == k {
      assert work[p] == Job(rows[k], Begin);
    }
    if p :| 0 <= p < |notifyIds| && notifyIds[p] == k {
      assert work[|ids| + p] == Job(rows[k], NotifyBegin);
    }
    if p :| 0 <= p < |work| && work[p] == Job(rows[k], Begin) {
      var l: nat := ListedJob(rows, limit, p);
      assert l == k;
    }
    if p :| 0 <= p < |work| && work[p] == Job(rows[k], NotifyBegin) {
      var l: nat := ListedJob(rows, limit, p);
      assert l == k;
    }
  }

  lemma SameCount(rows: seq<Report>, a: Report -> bool, b: Report -> bool, k: nat)
    requires k < |rows| && forall row :: a(row) <==> b(row)
    ensures EligibleBelow(rows, a, k) == EligibleBelow(rows, b, k)
  {
  }

  /** A run dispatches a report iff it is pending or failed with retries left and fewer than twenty such have lower ids. */
  lemma DispatchedIff(rows: seq<Report>, limit: nat, k: nat)
    requires UniqueKeys(rows) && k < |rows|
    ensures Job(rows[k], Begin) in ListedWork(rows, limit)
            <==> AwaitsDispatch(rows[k], limit) && |EligibleBelow(rows, row => AwaitsDispatch(row, limit), k)| < 20
  {
    ListedIff(rows, limit, k);
    BatchIff(rows, row => Dispatchable(row, limit), DispatchBatch, k);
    SameCount(rows, row => Dispatchable(row, limit), row => AwaitsDispatch(row, limit), k);
  }

  /** The same for the notification of a delivered report. */
  lemma NotifiedIff(rows: seq<Report>, limit: nat, k: nat)
    requires UniqueKeys(rows) && k < |rows|
    ensures Job(rows[k], NotifyBegin) in ListedWork(rows, limit)
            <==> AwaitsNotice(rows[k], limit) && |EligibleBelow(rows, row => AwaitsNotice(row, limit), k)| < 20
  {
    ListedIff(rows, limit, k);
    BatchIff(rows, row => Notifiable(row, limit), DispatchBatch, k);
    SameCount(rows, row => Notifiable(row, limit), row => AwaitsNotice(row, limit), k);
  }
}
