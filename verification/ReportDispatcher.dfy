/**
  The delete / create / notify protocol of one report, split at every client call and
  at every save.  A crash may fall between two steps: the in-memory job is then lost
  and only the saved row and the remote flows remain.
 */
module ReportDispatcher {
  import opened Wrappers
  import opened Domain
  import opened Tables
  import opened Repositories

  /** A failed delete may or may not have removed the flow. */
  datatype DeleteAnswer = DeleteOk | DeleteError(removed: bool)

  /**
    What the environment answers while one report is dispatched: whether configuration
    and employee are usable, and the results of the three client calls.
   */
  datatype Answer = Answer(ready: bool, delete: DeleteAnswer, create: Option<FlowId>, sent: bool)

  datatype Phase =
    | Begin          // a report taken from the dispatch list
    | Deleted        // the old flow is gone, the row is not saved yet
    | ReadyToCreate  // no old flow is left
    | Created        // the new flow exists, nobody is notified yet
    | Finish         // only the final save is left
    | NotifyBegin    // a report taken from the notification list

  /** The dispatcher's own copy of a row, and how far it got with it. */
  datatype Job = Job(report: Report, phase: Phase)

  datatype Effect = NoEffect | DeleteFlow(id: FlowId) | CreateFlow(id: FlowId, flow: Flow)

  /** The job goes on, ends, or returns an error that ends the whole run. */
  datatype After = Continue(job: Job) | Ended | Aborted

  datatype StepResult = StepResult(save: Option<Report>, effect: Effect, after: After)

  function MarkFailed(report: Report): Report {
    report.(status := Failed, retries := (report.retries + 1) % U32)
  }

  function ClearSucceeded(report: Report): Report {
    report.(status := Done, notification := NotifySkipped)
  }

  function CreateSucceeded(report: Report, id: FlowId): Report {
    report.(
    external := Some(id),
    status := Done,
    notification := if report.notification == NotifyBlank then NotifyPending else report.notification)
  }

  /** None when the notification text cannot be built, which ends the run with an error. */
  function Notify(report: Report, sent: bool): Option<Report> {
    match report.body
    case Clear => Some(report.(notification := NotifySkipped))
    case At(_) =>
      if sent then Some(report.(notification := NotifySent, notifyRetries := 0))
      else Some(report.(notification := NotifyFailed, notifyRetries := (report.notifyRetries + 1) % U32))
    case _ => None
  }

  function Silent(report: Report, phase: Phase): StepResult {
    StepResult(None, NoEffect, Continue(Job(report, phase)))
  }

  function StepBegin(report: Report, answer: Answer): StepResult {
    if report.body.Malformed? || !answer.ready then Silent(MarkFailed(report), Finish)
    else if report.deleteId.Some? then
      var id := report.deleteId.value;
      var deleted := report.(deleteId := None);
      match answer.delete
      case DeleteError(removed) =>
        StepResult(None, if removed then DeleteFlow(id) else NoEffect, Continue(Job(MarkFailed(report), Finish)))
      case DeleteOk =>
        StepResult(None, DeleteFlow(id),
                   Continue(if report.body.Clear? then Job(ClearSucceeded(deleted), Finish) else Job(deleted, Deleted)))
    else if report.body.Clear? then Silent(ClearSucceeded(report), Finish)
    else Silent(report, ReadyToCreate)
  }

  function StepCreate(report: Report, answer: Answer): StepResult {
    if !report.body.At? || answer.create.None? then Silent(MarkFailed(report), Finish)
    else
      var id := answer.create.value;
      StepResult(None, CreateFlow(id, FlowFor(report, report.body.time)),
                 Continue(Job(CreateSucceeded(report, id), Created)))
  }

  function StepNotify(report: Report, answer: Answer): StepResult {
    match Notify(report, answer.sent)
    case Some(notified) => Silent(notified, Finish)
    case None => StepResult(None, NoEffect, Aborted)
  }

  function StepJob(job: Job, answer: Answer): StepResult {
    match job.phase
    case Begin => StepBegin(job.report, answer)
    case Deleted => StepResult(Some(job.report), NoEffect, Continue(Job(job.report, ReadyToCreate)))
    case ReadyToCreate => StepCreate(job.report, answer)
    case Created => StepNotify(job.report, answer)
    case Finish => StepResult(Some(job.report), NoEffect, Ended)
    case NotifyBegin =>
      if job.report.status == Done && job.report.notification in {NotifyPending, NotifyFailed}
      then StepNotify(job.report, answer)
      else StepResult(None, NoEffect, Ended)
  }

  function ApplySave(rows: seq<Report>, save: Option<Report>): seq<Report> {
    match save
    case None => rows
    case Some(report) => SaveReport(rows, report)
  }

  function ApplyEffect(remote: Remote, effect: Effect): Remote {
    match effect
    case NoEffect => remote
    case DeleteFlow(id) => remote.(live := remote.live - {id})
    case CreateFlow(id, flow) => Remote(remote.live[id := flow], remote.issued + {id})
  }

  // ----- one whole job -----

  function Rank(phase: Phase): nat {
    match phase
    case Begin => 5
    case Deleted => 4
    case ReadyToCreate => 3
    case Created => 2
    case NotifyBegin => 2
    case Finish => 1
  }

  datatype JobRun = JobRun(rows: seq<Report>, remote: Remote, creates: nat, aborted: bool, final: Report)

  /** All steps of a job without a crash: `creates` counts its CreateFlow calls, `final` is its copy of the row at the end. */
  function RunJob(rows: seq<Report>, remote: Remote, job: Job, answer: Answer): JobRun
    decreases Rank(job.phase)
  {
    var step := StepJob(job, answer);
    var rows' := ApplySave(rows, step.save);
    var remote' := ApplyEffect(remote, step.effect);
    match step.after
    case Ended => JobRun(rows', remote', 0, false, job.report)
    case Aborted => JobRun(rows', remote', 0, true, job.report)
    case Continue(next) =>
      var rest := RunJob(rows', remote', next, answer);
      rest.(creates := rest.creates + CreateCalls(job))
  }

  /** The calls of CreateFlow that the next step of the job makes, successful or not. */
  function CreateCalls(job: Job): nat {
    if job.phase == ReadyToCreate && job.report.body.At? then 1 else 0
  }

  predicate FreshAnswer(remote: Remote, answer: Answer) {
    answer.create.Some? ==> answer.create.value !in remote.issued
  }

  lemma {:induction false} JobIssuesItsId(rows: seq<Report>, remote: Remote, job: Job, answer: Answer)
    ensures var run := RunJob(rows, remote, job, answer);
            forall id :: id in run.remote.issued ==> id in remote.issued || answer.create == Some(id)
    decreases Rank(job.phase)
  {
    var step := StepJob(job, answer);
    if step.after.Continue? {
      JobIssuesItsId(ApplySave(rows, step.save), ApplyEffect(remote, step.effect), step.after.job, answer);
    }
  }

  /** Every job of the list gets an id that is fresh when its turn comes. */
  ghost predicate FreshAnswers(remote: Remote, jobs: seq<Job>, answers: Key -> Answer) {
    && (forall i :: 0 <= i < |jobs| ==> FreshAnswer(remote, answers(jobs[i].report.key)))
    && forall i, j :: 0 <= i < j < |jobs| && answers(jobs[i].report.key).create.Some? ==>
                        answers(jobs[i].report.key).create != answers(jobs[j].report.key).create
  }

  lemma FreshForTheRest(rows: seq<Report>, remote: Remote, jobs: seq<Job>, answers: Key -> Answer)
    requires jobs != [] && FreshAnswers(remote, jobs, answers)
    ensures FreshAnswers(RunJob(rows, remote, jobs[0], answers(jobs[0].report.key)).remote, jobs[1..], answers)
  {
    var answer := answers(jobs[0].report.key);
    var remote' := RunJob(rows, remote, jobs[0], answer).remote;
    JobIssuesItsId(rows, remote, jobs[0], answer);
    var rest := jobs[1..];
    forall i | 0 <= i < |rest| ensures FreshAnswer(remote', answers(rest[i].report.key)) {
      assert rest[i] == jobs[i + 1];
      assert FreshAnswer(remote, answers(jobs[i + 1].report.key));
    }
  }

  // ----- one run over both lists -----

  const DispatchBatch := 20

  function Jobs(rows: seq<Report>, ids: seq<nat>, phase: Phase): seq<Job>
    requires forall i :: 0 <= i < |ids| ==> ids[i] < |rows|
  {
    seq(|ids|, i requires 0 <= i < |ids| => Job(rows[ids[i]], phase))
  }

  /** Both lists are read before the first report is dispatched. */
  function ListedWork(rows: seq<Report>, limit: nat): seq<Job> {
    Jobs(rows, ListDispatchable(rows, DispatchBatch, limit), Begin)
    + Jobs(rows, ListNotificationDispatchable(rows, DispatchBatch, limit), NotifyBegin)
  }

  /** Every job of a run starts from the row that made it eligible. */
  lemma ListedJob(rows: seq<Report>, limit: nat, i: nat) returns (k: nat)
    requires i < |ListedWork(rows, limit)|
    ensures k < |rows|
    ensures ListedWork(rows, limit)[i].report == rows[k]
    ensures var dispatch := |ListDispatchable(rows, DispatchBatch, limit)|;
            if i < dispatch
            then
              && k == ListDispatchable(rows, DispatchBatch, limit)[i]
              && ListedWork(rows, limit)[i].phase == Begin && Dispatchable(rows[k], limit)
            else
              && i - dispatch < |ListNotificationDispatchable(rows, DispatchBatch, limit)|
              && k == ListNotificationDispatchable(rows, DispatchBatch, limit)[i - dispatch]
              && ListedWork(rows, limit)[i].phase == NotifyBegin && Notifiable(rows[k], limit)
  {
    var ids := ListDispatchable(rows, DispatchBatch, limit);
    var notifyIds := ListNotificationDispatchable(rows, DispatchBatch, limit);
    k := if i < |ids| then ids[i] else notifyIds[i - |ids|];
  }

  lemma ListedJobsDistinct(rows: seq<Report>, limit: nat, i: nat, j: nat)
    requires UniqueKeys(rows) && i < j < |ListedWork(rows, limit)|
    ensures ListedWork(rows, limit)[i].report.key != ListedWork(rows, limit)[j].report.key
  {
    var k: nat := ListedJob(rows, limit, i);
    var l: nat := ListedJob(rows, limit, j);
    assert k != l;
  }

  /** A run finds nothing to do exactly when no report is eligible for either list. */
  lemma NoWorkIff(rows: seq<Report>, limit: nat)
    ensures ListedWork(rows, limit) == [] <==>
            forall k :: 0 <= k < |rows| ==> !Dispatchable(rows[k], limit) && !Notifiable(rows[k], limit)
  {
    if k :| 0 <= k < |rows| && Dispatchable(rows[k], limit) {
      assert ListDispatchable(rows, DispatchBatch, limit) != [];
    } else if k :| 0 <= k < |rows| && Notifiable(rows[k], limit) {
      assert ListNotificationDispatchable(rows, DispatchBatch, limit) != [];
    } else if ListedWork(rows, limit) != [] {
      var k: nat := ListedJob(rows, limit, 0);
    }
  }

  /** `calls[i]` counts the CreateFlow calls made for the report with id `i`. */
  datatype Delivery = Delivery(rows: seq<Report>, remote: Remote, calls: seq<nat>)

  function CountCalls(calls: seq<nat>, row: Option<nat>, more: nat): seq<nat> {
    if row.Some? && row.value < |calls| then calls[row.value := calls[row.value] + more] else calls
  }

  /** One job of a batch, with its CreateFlow calls counted for its row. */
  function Deliver(d: Delivery, job: Job, answer: Answer): Delivery {
    var run := RunJob(d.rows, d.remote, job, answer);
    Delivery(run.rows, run.remote, CountCalls(d.calls, FindKey(d.rows, job.report.key), run.creates))
  }

  /** The jobs one after the other; a job that ends with an error ends the batch. */
  function RunBatch(d: Delivery, jobs: seq<Job>, answers: Key -> Answer): Delivery
    decreases |jobs|
  {
    if jobs == [] then d
    else
      var answer := answers(jobs[0].report.key);
      var next := Deliver(d, jobs[0], answer);
      if RunJob(d.rows, d.remote, jobs[0], answer).aborted then next else RunBatch(next, jobs[1..], answers)
  }

  /** Whether a job of the batch ends with an error. */
  predicate BatchAborts(d: Delivery, jobs: seq<Job>, answers: Key -> Answer)
    decreases |jobs|
  {
    if jobs == [] then false
    else
      var answer := answers(jobs[0].report.key);
      RunJob(d.rows, d.remote, jobs[0], answer).aborted || BatchAborts(Deliver(d, jobs[0], answer), jobs[1..], answers)
  }

  lemma BatchStep(d: Delivery, jobs: seq<Job>, i: nat, answers: Key -> Answer)
    requires i < |jobs| && FreshAnswers(d.remote, jobs[i..], answers)
    ensures var answer := answers(jobs[i].report.key);
            var next := Deliver(d, jobs[i], answer);
            var aborted := RunJob(d.rows, d.remote, jobs[i], answer).aborted;
            && RunBatch(d, jobs[i..], answers) == (if aborted then next else RunBatch(next, jobs[i + 1..], answers))
            && BatchAborts(d, jobs[i..], answers) == (aborted || BatchAborts(next, jobs[i + 1..], answers))
            && FreshAnswer(d.remote, answer) && FreshAnswers(next.remote, jobs[i + 1..], answers)
  {
    assert jobs[i..][0] == jobs[i] && jobs[i..][1..] == jobs[i + 1..];
    FreshForTheRest(d.rows, d.remote, jobs[i..], answers);
  }

  function RunLists(d: Delivery, limit: nat, answers: Key -> Answer): Delivery {
    RunBatch(d, ListedWork(d.rows, limit), answers)
  }

  // ----- the dispatcher as it runs -----

  /** The remote service; its answers come from the environment.  `creates` counts the calls of CreateFlow. */
  class FeishuClient {
    var remote: Remote
    ghost var creates: nat

    constructor ()
      ensures remote == Remote(map[], {}) && creates == 0
    {
      remote := Remote(map[], {});
      creates := 0;
    }

    method DeleteFlows(id: FlowId, answer: DeleteAnswer) returns (ok: bool)
      modifies this`remote
      ensures ok <==> answer == DeleteOk
      ensures remote == ApplyEffect(old(remote), if answer == DeleteError(false) then NoEffect else DeleteFlow(id))
    {
      ok := answer == DeleteOk;
      if answer != DeleteError(false) {
        remote := remote.(live := remote.live - {id});
      }
    }

    /** An accepted flow gets an id that was never issued before. */
    method CreateFlow(flow: Flow, answer: Option<FlowId>) returns (created: Option<FlowId>)
      requires answer.Some? ==> answer.value !in remote.issued
      modifies this
      ensures created == answer && creates == old(creates) + 1
      ensures remote == if answer.Some? then ApplyEffect(old(remote), Effect.CreateFlow(answer.value, flow)) else old(remote)
    {
      created, creates := answer, creates + 1;
      if answer.Some? {
        remote := Remote(remote.live[answer.value := flow], remote.issued + {answer.value});
      }
    }
  }

  class Dispatcher {
    const reports: ReportTable
    const client: FeishuClient

    constructor (reports: ReportTable, client: FeishuClient)
      ensures this.reports == reports && this.client == client
    {
      this.reports := reports;
      this.client := client;
    }

    /** What is left of a job, run from the current tables, with the CreateFlow calls made so far. */
    ghost function Rest(report: Report, phase: Phase, answer: Answer): JobRun
      reads reports, client
    {
      var run := RunJob(reports.rows, client.remote, Job(report, phase), answer);
      run.(creates := client.creates + run.creates)
    }

    ghost function Ending(aborted: bool, final: Report): JobRun
      reads reports, client
    {
      JobRun(reports.rows, client.remote, client.creates, aborted, final)
    }

    method SaveFailed(report: Report, ghost answer: Answer) returns (final: Report)
      modifies reports
      ensures final == MarkFailed(report)
      ensures Ending(false, final) == old(Rest(MarkFailed(report), Finish, answer))
    {
      final := report.(status := Failed, retries := (report.retries + 1) % U32);
      var _ := reports.Save(final);
    }

    /** Every return but the error of the notification text comes right after a save. */
    method DispatchReport(report: Report, answer: Answer) returns (final: Report, aborted: bool)
      requires FreshAnswer(client.remote, answer)
      modifies reports, client
      ensures Ending(aborted, final) == old(Rest(report, Begin, answer))
    {
      final, aborted := report, false;
      if final.body.Malformed? || !answer.ready {
        final := SaveFailed(final, answer);
        return;
      }
      if final.deleteId.Some? {
        var deleted := client.DeleteFlows(final.deleteId.value, answer.delete);
        if !deleted {
          final := SaveFailed(final, answer);
          return;
        }
        final := final.(deleteId := None);
        if final.body == Clear {
          final := final.(status := Done, notification := NotifySkipped);
          assert Rest(final, Finish, answer) == old(Rest(report, Begin, answer));
          var _ := reports.Save(final);
          return;
        }
        assert Rest(final, Deleted, answer) == old(Rest(report, Begin, answer));
        var _ := reports.Save(final);
        assert Rest(final, ReadyToCreate, answer) == old(Rest(report, Begin, answer));
      }
      if final.body == Clear {
        final := final.(status := Done, notification := NotifySkipped);
        assert Rest(final, Finish, answer) == old(Rest(report, Begin, answer));
        var _ := reports.Save(final);
        return;
      }
      assert Rest(final, ReadyToCreate, answer) == old(Rest(report, Begin, answer));
      final, aborted := CreateAndNotify(final, answer);
    }

    method CreateAndNotify(report: Report, answer: Answer) returns (final: Report, aborted: bool)
      requires FreshAnswer(client.remote, answer)
      modifies reports, client
      ensures Ending(aborted, final) == old(Rest(report, ReadyToCreate, answer))
    {
      final, aborted := report, false;
      if !final.body.At? {
        final := SaveFailed(final, answer);
        return;
      }
      var created := client.CreateFlow(FlowFor(final, final.body.time), answer.create);
      if created.None? {
        final := SaveFailed(final, answer);
        return;
      }
      final := final.(external := Some(created.value), status := Done);
      if final.notification == NotifyBlank {
        final := final.(notification := NotifyPending);
      }
      assert Rest(final, Created, answer) == old(Rest(report, ReadyToCreate, answer));
      final, aborted := SendNotification(final, answer.sent);
      if aborted {
        return;
      }
      assert Rest(final, Finish, answer) == old(Rest(report, ReadyToCreate, answer));
      var _ := reports.Save(final);
    }

    method SendNotification(report: Report, sent: bool) returns (final: Report, aborted: bool)
      ensures aborted <==> Notify(report, sent).None?
      ensures if aborted then final == report else Some(final) == Notify(report, sent)
      ensures aborted <==> report.body == BadTimestamp || report.body == Malformed
      ensures report.body == Clear ==> final == report.(notification := NotifySkipped)
      ensures report.body.At? ==>
                final == report.(
                         notification := if sent then NotifySent else NotifyFailed,
                         notifyRetries := if sent then 0 else (report.notifyRetries + 1) % U32)
    {
      final, aborted := report, false;
      match report.body {
        case Clear => final := final.(notification := NotifySkipped);
        case At(_) =>
          if sent {
            final := final.(notification := NotifySent, notifyRetries := 0);
          } else {
            final := final.(notification := NotifyFailed, notifyRetries := (final.notifyRetries + 1) % U32);
          }
        case _ => aborted := true;
      }
    }

    method DispatchNotification(report: Report, answer: Answer) returns (final: Report, aborted: bool)
      modifies reports
      ensures Ending(aborted, final) == old(Rest(report, NotifyBegin, answer))
    {
      final, aborted := report, false;
      if report.status != Done {
        return;
      }
      if report.notification != NotifyPending && report.notification != NotifyFailed {
        return;
      }
      final, aborted := SendNotification(report, answer.sent);
      if aborted {
        return;
      }
      assert Rest(final, Finish, answer) == old(Rest(report, NotifyBegin, answer));
      var _ := reports.Save(final);
    }

    ghost function Now(calls: seq<nat>): Delivery
      reads reports, client
    {
      Delivery(reports.rows, client.remote, calls)
    }

    /** One job of a list, started from the copy that was read with the list. */
    method RunListed(job: Job, answer: Answer, ghost calls: seq<nat>) returns (aborted: bool, ghost calls': seq<nat>)
      requires job.phase in {Begin, NotifyBegin} && FreshAnswer(client.remote, answer)
      modifies reports, client
      ensures Now(calls') == Deliver(old(Now(calls)), job, answer)
      ensures aborted <==> RunJob(old(reports.rows), old(client.remote), job, answer).aborted
    {
      ghost var row, before := FindKey(reports.rows, job.report.key), client.creates;
      var final;
      if job.phase == Begin {
        final, aborted := DispatchReport(job.report, answer);
      } else {
        final, aborted := DispatchNotification(job.report, answer);
      }
      calls' := CountCalls(calls, row, client.creates - before);
    }

    /** The jobs of both lists one after the other; an error ends the loop and is returned. */
    method RunJobs(jobs: seq<Job>, answers: Key -> Answer, ghost calls: seq<nat>)
      returns (aborted: bool, ghost calls': seq<nat>)
      requires forall j :: 0 <= j < |jobs| ==> jobs[j].phase in {Begin, NotifyBegin}
      requires FreshAnswers(client.remote, jobs, answers)
      modifies reports, client
      ensures Now(calls') == RunBatch(old(Now(calls)), jobs, answers)
      ensures aborted <==> BatchAborts(old(Now(calls)), jobs, answers)
    {
      aborted, calls' := false, calls;
      var i := 0;
      assert jobs[0..] == jobs;
      while i < |jobs|
        invariant i <= |jobs| && !aborted
        invariant FreshAnswers(client.remote, jobs[i..], answers)
        invariant RunBatch(Now(calls'), jobs[i..], answers) == RunBatch(old(Now(calls)), jobs, answers)
        invariant BatchAborts(Now(calls'), jobs[i..], answers) == BatchAborts(old(Now(calls)), jobs, answers)
      {
        BatchStep(Now(calls'), jobs, i, answers);
        aborted, calls' := RunListed(jobs[i], answers(jobs[i].report.key), calls');
        if aborted {
          return;
        }
        i := i + 1;
      }
    }

    /** Both lists are read first. */
    method RunOnce(limit: nat, answers: Key -> Answer, ghost calls: seq<nat>)
      returns (aborted: bool, ghost calls': seq<nat>)
      requires FreshAnswers(client.remote, ListedWork(reports.rows, limit), answers)
      modifies reports, client
      ensures Now(calls') == RunLists(old(Now(calls)), limit, answers)
      ensures aborted <==> BatchAborts(old(Now(calls)), ListedWork(old(reports.rows), limit), answers)
    {
      var rows := reports.rows;
      var ids := reports.ListDispatchable(DispatchBatch, limit);
      var notifyIds := reports.ListNotificationDispatchable(DispatchBatch, limit);
      var jobs := Jobs(rows, ids, Begin) + Jobs(rows, notifyIds, NotifyBegin);
      aborted, calls' := RunJobs(jobs, answers, calls);
    }
  }
}
