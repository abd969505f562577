/**
  With no new reports, repeated runs of the dispatcher empty both queues whatever the client
  answers, and no report gets more CreateFlow calls than the retry limit.
 */
module Drain {
  import opened Domain
  import opened Tables
  import opened ReportDispatcher

  /** What a report can still cost: dispatch attempts first, then notification attempts. */
  function Weight(row: Report, limit: nat): nat {
    if Dispatchable(row, limit) then (limit - row.retries) + limit + 1
    else if Notifiable(row, limit) then limit - row.notifyRetries
    else 0
  }

  function TotalWeight(rows: seq<Report>, limit: nat): nat {
    if rows == [] then 0
    else TotalWeight(rows[..|rows| - 1], limit) + Weight(rows[|rows| - 1], limit)
  }

  lemma {:induction false} UpdateWeight(rows: seq<Report>, k: nat, row: Report, limit: nat)
    requires k < |rows|
    ensures TotalWeight(rows[k := row], limit) == TotalWeight(rows, limit) - Weight(rows[k], limit) + Weight(row, limit)
  {
    var n := |rows| - 1;
    if k < n {
      assert rows[k := row][..n] == rows[..n][k := row];
      UpdateWeight(rows[..n], k, row, limit);
    } else {
      assert rows[k := row][..n] == rows[..n];
    }
  }

  /** A delivered report has a payload that the notification text can be built from. */
  predicate Deliverable(row: Report) {
    row.status == Done ==> row.body.At? || row.body.Clear?
  }

  // ----- one job -----

  predicate JobReady(row: Report, job: Job, limit: nat) {
    && job.report == row
    && match job.phase
       case Begin => Dispatchable(row, limit)
       case NotifyBegin => Notifiable(row, limit)
       case _ => false
  }

  /** What one job does to its row: it costs weight, and a call of CreateFlow is a retry or the success. */
  ghost predicate JobEffect(before: Report, after: Report, creates: nat, limit: nat) {
    && SameCore(before, after)
    && Deliverable(after)
    && Weight(after, limit) < Weight(before, limit)
    && (before.status == Done ==> after.status == Done && creates == 0)
    && (before.status != Done ==> before.retries < limit && creates <= 1)
    && (before.status != Done && after.status != Done ==> after.retries == before.retries + 1)
  }

  lemma FinishJob(rows: seq<Report>, remote: Remote, k: nat, report: Report, answer: Answer)
    requires UniqueKeys(rows) && k < |rows| && report.key == rows[k].key
    ensures RunJob(rows, remote, Job(report, Finish), answer) == JobRun(rows[k := report], remote, 0, false, report)
  {
    SaveReportAt(rows, k, report);
  }

  lemma CreateJob(rows: seq<Report>, remote: Remote, k: nat, report: Report, answer: Answer, limit: nat)
    requires UniqueKeys(rows) && k < |rows| && limit < U32
    requires SameCore(rows[k], report) && report.status != Done && report.retries < limit
    requires report.body != Clear
    ensures var run := RunJob(rows, remote, Job(report, ReadyToCreate), answer);
            && !run.aborted && |run.rows| == |rows| && run.rows == rows[k := run.rows[k]]
            && JobEffect(report, run.rows[k], run.creates, limit)
  {
    var step := StepCreate(report, answer);
    var next := step.after.job;
    var remote' := ApplyEffect(remote, step.effect);
    if next.phase == Created {
      var notified := Notify(next.report, answer.sent).value;
      FinishJob(rows, remote', k, notified, answer);
    } else {
      FinishJob(rows, remote', k, next.report, answer);
    }
  }

  lemma DeletedJob(rows: seq<Report>, remote: Remote, k: nat, report: Report, answer: Answer, limit: nat)
    requires UniqueKeys(rows) && k < |rows| && limit < U32
    requires SameCore(rows[k], report) && report.status != Done && report.retries < limit
    requires report.body != Clear
    ensures var run := RunJob(rows, remote, Job(report, Deleted), answer);
            && !run.aborted && |run.rows| == |rows| && run.rows == rows[k := run.rows[k]]
            && JobEffect(report, run.rows[k], run.creates, limit)
  {
    SaveReportAt(rows, k, report);
    CreateJob(rows[k := report], remote, k, report, answer, limit);
  }

  lemma DispatchJob(rows: seq<Report>, remote: Remote, k: nat, answer: Answer, limit: nat)
    requires UniqueKeys(rows) && k < |rows| && limit < U32 && Dispatchable(rows[k], limit)
    ensures var run := RunJob(rows, remote, Job(rows[k], Begin), answer);
            && !run.aborted && |run.rows| == |rows| && run.rows == rows[k := run.rows[k]]
            && JobEffect(rows[k], run.rows[k], run.creates, limit)
  {
    var step := StepBegin(rows[k], answer);
    var next := step.after.job;
    var remote' := ApplyEffect(remote, step.effect);
    match next.phase
    case Finish => FinishJob(rows, remote', k, next.report, answer);
    case ReadyToCreate => CreateJob(rows, remote', k, next.report, answer, limit);
    case Deleted => DeletedJob(rows, remote', k, next.report, answer, limit);
    case _ =>
  }

  lemma NotifyJob(rows: seq<Report>, remote: Remote, k: nat, answer: Answer, limit: nat)
    requires UniqueKeys(rows) && k < |rows| && limit < U32 && Notifiable(rows[k], limit) && Deliverable(rows[k])
    ensures var run := RunJob(rows, remote, Job(rows[k], NotifyBegin), answer);
            && !run.aborted && |run.rows| == |rows| && run.rows == rows[k := run.rows[k]]
            && JobEffect(rows[k], run.rows[k], run.creates, limit)
  {
    var notified := Notify(rows[k], answer.sent).value;
    FinishJob(rows, remote, k, notified, answer);
  }

  // ----- one batch -----

  ghost predicate CallsOk(row: Report, calls: nat, limit: nat) {
    calls <= limit && (row.status != Done ==> calls <= row.retries)
  }

  ghost predicate DeliveryOk(d: Delivery, limit: nat) {
    && UniqueKeys(d.rows)
    && |d.calls| == |d.rows|
    && (forall i :: 0 <= i < |d.rows| ==> Deliverable(d.rows[i]))
    && forall i :: 0 <= i < |d.rows| ==> CallsOk(d.rows[i], d.calls[i], limit)
  }

  /** The same reports, with the same content, in the same places. */
  ghost predicate SameCores(before: seq<Report>, after: seq<Report>) {
    |before| == |after| && forall i :: 0 <= i < |before| ==> SameCore(before[i], after[i])
  }

  ghost predicate HasRow(rows: seq<Report>, job: Job, limit: nat) {
    exists k :: 0 <= k < |rows| && JobReady(rows[k], job, limit)
  }

  ghost predicate BatchReady(rows: seq<Report>, jobs: seq<Job>, limit: nat) {
    && (forall i :: 0 <= i < |jobs| ==> HasRow(rows, jobs[i], limit))
    && forall i, j :: 0 <= i < j < |jobs| ==> jobs[i].report.key != jobs[j].report.key
  }

  lemma RowChangeKeepsDelivery(d: Delivery, remote: Remote, k: nat, row: Report, creates: nat, limit: nat)
    requires DeliveryOk(d, limit) && k < |d.rows| && JobEffect(d.rows[k], row, creates, limit)
    ensures DeliveryOk(Delivery(d.rows[k := row], remote, d.calls[k := d.calls[k] + creates]), limit)
    ensures TotalWeight(d.rows[k := row], limit) < TotalWeight(d.rows, limit)
  {
    UpdateWeight(d.rows, k, row, limit);
    assert CallsOk(d.rows[k], d.calls[k], limit);
  }

  /** One job changes its own row, and that row costs less afterwards. */
  lemma DeliverEffect(d: Delivery, job: Job, answer: Answer, k: nat, limit: nat) returns (row: Report, creates: nat)
    requires DeliveryOk(d, limit) && limit < U32 && k < |d.rows| && JobReady(d.rows[k], job, limit)
    ensures JobEffect(d.rows[k], row, creates, limit)
    ensures var run := RunJob(d.rows, d.remote, job, answer);
            && !run.aborted
            && Deliver(d, job, answer) == Delivery(d.rows[k := row], run.remote, d.calls[k := d.calls[k] + creates])
  {
    if job.phase == Begin {
      DispatchJob(d.rows, d.remote, k, answer, limit);
    } else {
      NotifyJob(d.rows, d.remote, k, answer, limit);
    }
    FindKeyAt(d.rows, k);
    var run := RunJob(d.rows, d.remote, job, answer);
    row, creates := run.rows[k], run.creates;
  }

  lemma OwnRowChanges(rows: seq<Report>, k: nat, row: Report)
    requires k < |rows| && SameCore(rows[k], row)
    ensures SameCores(rows, rows[k := row])
  {
  }

  /** The first job of a batch changes its own row only and leaves the rest of the batch ready. */
  lemma FirstJob(d: Delivery, jobs: seq<Job>, answer: Answer, limit: nat)
    requires DeliveryOk(d, limit) && limit < U32 && jobs != [] && BatchReady(d.rows, jobs, limit)
    ensures var next := Deliver(d, jobs[0], answer);
            && !RunJob(d.rows, d.remote, jobs[0], answer).aborted
            && DeliveryOk(next, limit)
            && TotalWeight(next.rows, limit) < TotalWeight(d.rows, limit)
            && BatchReady(next.rows, jobs[1..], limit)
            && SameCores(d.rows, next.rows)
  {
    assert HasRow(d.rows, jobs[0], limit);
    var k :| 0 <= k < |d.rows| && JobReady(d.rows[k], jobs[0], limit);
    var row, creates := DeliverEffect(d, jobs[0], answer, k, limit);
    RowChangeKeepsDelivery(d, Deliver(d, jobs[0], answer).remote, k, row, creates, limit);
    OwnRowChanges(d.rows, k, row);
    RestReady(d.rows, k, row, jobs, limit);
  }

  lemma RestReady(rows: seq<Report>, k: nat, row: Report, jobs: seq<Job>, limit: nat)
    requires k < |rows| && jobs != [] && BatchReady(rows, jobs, limit)
    requires rows[k].key == jobs[0].report.key
    ensures BatchReady(rows[k := row], jobs[1..], limit)
  {
    var rest := jobs[1..];
    forall i | 0 <= i < |rest| ensures HasRow(rows[k := row], rest[i], limit) {
      assert rest[i] == jobs[i + 1];
      assert HasRow(rows, jobs[i + 1], limit);
      var l :| 0 <= l < |rows| && JobReady(rows[l], jobs[i + 1], limit);
      assert JobReady(rows[k := row][l], rest[i], limit);
    }
  }

  lemma {:induction false} BatchDrains(d: Delivery, jobs: seq<Job>, answers: Key -> Answer, limit: nat)
    requires DeliveryOk(d, limit) && limit < U32 && BatchReady(d.rows, jobs, limit)
    ensures var after := RunBatch(d, jobs, answers);
            && DeliveryOk(after, limit)
            && SameCores(d.rows, after.rows)
            && TotalWeight(after.rows, limit) + |jobs| <= TotalWeight(d.rows, limit)
            && !BatchAborts(d, jobs, answers)
    decreases |jobs|
  {
    if jobs != [] {
      var answer := answers(jobs[0].report.key);
      var next := Deliver(d, jobs[0], answer);
      FirstJob(d, jobs, answer, limit);
      BatchDrains(next, jobs[1..], answers, limit);
      SameCoresTwice(d.rows, next.rows, RunBatch(d, jobs, answers).rows);
    }
  }

  lemma SameCoresTwice(a: seq<Report>, b: seq<Report>, c: seq<Report>)
    ensures SameCores(a, b) && SameCores(b, c) ==> SameCores(a, c)
  {
    if SameCores(a, b) && SameCores(b, c) {
      forall i | 0 <= i < |a| ensures SameCore(a[i], c[i]) {
        assert SameCore(a[i], b[i]) && SameCore(b[i], c[i]);
      }
    }
  }

  // ----- one run -----

  lemma ListedWorkReady(rows: seq<Report>, limit: nat)
    requires UniqueKeys(rows)
    ensures BatchReady(rows, ListedWork(rows, limit), limit)
  {
    var work := ListedWork(rows, limit);
    forall i | 0 <= i < |work| ensures HasRow(rows, work[i], limit) {
      var k: nat := ListedJob(rows, limit, i);
      assert JobReady(rows[k], work[i], limit);
    }
    forall i, j | 0 <= i < j < |work| ensures work[i].report.key != work[j].report.key {
      ListedJobsDistinct(rows, limit, i, j);
    }
  }

  /** A run that finds work makes progress, and keeps every report's identity and payload. */
  lemma RunOnceProgress(d: Delivery, limit: nat, answers: Key -> Answer)
    requires DeliveryOk(d, limit) && limit < U32
    ensures var after := RunLists(d, limit, answers);
            && DeliveryOk(after, limit)
            && SameCores(d.rows, after.rows)
            && !BatchAborts(d, ListedWork(d.rows, limit), answers)
            && (if ListedWork(d.rows, limit) == [] then after == d
                else TotalWeight(after.rows, limit) < TotalWeight(d.rows, limit))
  {
    ListedWorkReady(d.rows, limit);
    BatchDrains(d, ListedWork(d.rows, limit), answers, limit);
  }

  // ----- many runs -----

  ghost predicate RanOnce(before: Delivery, after: Delivery, limit: nat, answers: Key -> Answer) {
    after == RunLists(before, limit, answers)
  }

  /** Run `i` is answered by `answers[i]`. */
  ghost predicate RanAt(states: seq<Delivery>, limit: nat, answers: seq<Key -> Answer>, i: nat)
    requires |states| == |answers| + 1 && i < |answers|
  {
    RanOnce(states[i], states[i + 1], limit, answers[i])
  }

  /** Runs one after the other, with nothing queued in between. */
  ghost predicate Runs(states: seq<Delivery>, limit: nat, answers: seq<Key -> Answer>) {
    && |states| == |answers| + 1
    && forall i :: 0 <= i < |answers| ==> RanAt(states, limit, answers, i)
  }

  ghost predicate Drained(rows: seq<Report>, limit: nat) {
    forall k :: 0 <= k < |rows| ==> !Dispatchable(rows[k], limit) && !Notifiable(rows[k], limit)
  }

  /** After `n` runs: still well formed, and either drained or `n` lighter than `weight`. */
  ghost predicate Progressed(after: Delivery, limit: nat, rows: nat, weight: nat, n: nat) {
    && DeliveryOk(after, limit)
    && |after.rows| == rows
    && (Drained(after.rows, limit) || TotalWeight(after.rows, limit) + n <= weight)
  }

  lemma OneMoreRun(
    before: Delivery, after: Delivery, limit: nat, answers: Key -> Answer, rows: nat, weight: nat, n: nat)
    requires Progressed(before, limit, rows, weight, n) && limit < U32
    requires RanOnce(before, after, limit, answers)
    ensures Progressed(after, limit, rows, weight, n + 1)
  {
    RunOnceProgress(before, limit, answers);
    NoWorkIff(before.rows, limit);
  }

  lemma {:induction false} RunsProgress(
    states: seq<Delivery>, limit: nat, answers: seq<Key -> Answer>, n: nat, rows: nat, weight: nat)
    requires Runs(states, limit, answers) && n < |states| && limit < U32
    requires Progressed(states[0], limit, rows, weight, 0)
    ensures Progressed(states[n], limit, rows, weight, n)
  {
    if n > 0 {
      RunsProgress(states, limit, answers, n - 1, rows, weight);
      assert RanAt(states, limit, answers, n - 1);
      OneMoreRun(states[n - 1], states[n], limit, answers[n - 1], rows, weight, n - 1);
    }
  }

  /** Both queues are empty after more runs than `TotalWeight`, whatever the environment answers. */
  lemma QueuesDrain(states: seq<Delivery>, limit: nat, answers: seq<Key -> Answer>, n: nat)
    requires Runs(states, limit, answers) && TotalWeight(states[0].rows, limit) < n < |states|
    requires DeliveryOk(states[0], limit) && limit < U32
    ensures Drained(states[n].rows, limit)
  {
    RunsProgress(states, limit, answers, n, |states[0].rows|, TotalWeight(states[0].rows, limit));
  }

  /** No report gets more CreateFlow calls than the retry limit, however many runs there are. */
  lemma CreateCallsBounded(states: seq<Delivery>, limit: nat, answers: seq<Key -> Answer>, n: nat, i: nat)
    requires Runs(states, limit, answers) && n < |states| && limit < U32
    requires DeliveryOk(states[0], limit) && i < |states[0].rows|
    ensures |states[n].calls| == |states[0].rows| && states[n].calls[i] <= limit
  {
    RunsProgress(states, limit, answers, n, |states[0].rows|, TotalWeight(states[0].rows, limit));
    assert CallsOk(states[n].rows[i], states[n].calls[i], limit);
  }
}
