/**
  A dispatcher run that nobody interrupts is a path of the state machine: the small steps of
  the machine, one after the other, do what the dispatcher's methods do in one call.
 */
module DispatchRuns {
  import opened Wrappers
  import opened Domain
  import opened Tables
  import opened ReportDispatcher
  import opened Outbox
  import opened OutboxInvariant
  import opened OutboxDispatch
  import opened OutboxSafety
  import opened Drain
  import opened DispatchOutcome

  ghost predicate Moves(s: World, after: World) {
    exists answer :: Takes(s, Advance(answer), after)
  }

  /** Dispatcher steps, and nothing else, lead through `path` from `s` to `after`. */
  ghost predicate Leads(path: seq<World>, s: World, after: World) {
    && path != [] && path[0] == s && path[|path| - 1] == after
    && forall i :: 0 <= i < |path| - 1 ==> Moves(path[i], path[i + 1])
  }

  lemma LeadsOn(p: seq<World>, q: seq<World>, a: World, b: World, c: World)
    requires Leads(p, a, b) && Leads(q, b, c)
    ensures Leads(p + q[1..], a, c)
  {
    var path := p + q[1..];
    forall i | 0 <= i < |path| - 1 ensures Moves(path[i], path[i + 1]) {
      if i < |p| - 1 {
        assert Moves(p[i], p[i + 1]);
      } else {
        assert path[i] == q[i - |p| + 1] && path[i + 1] == q[i - |p| + 2];
        assert Moves(q[i - |p| + 1], q[i - |p| + 1 + 1]);
      }
    }
  }

  lemma {:induction false} LeadsToReachable(path: seq<World>, s: World, after: World)
    requires Leads(path, s, after) && Reachable(s)
    ensures Reachable(after)
    decreases |path|
  {
    if |path| > 1 {
      assert Moves(path[0], path[0 + 1]);
      var answer :| Takes(path[0], Advance(answer), path[1]);
      ReachableStep(s, Advance(answer));
      forall i | 0 <= i < |path[1..]| - 1 ensures Moves(path[1..][i], path[1..][i + 1]) {
        assert Moves(path[i + 1], path[i + 1 + 1]);
      }
      LeadsToReachable(path[1..], path[1], after);
    }
  }

  function AfterJob(s: World, answer: Answer): World
    requires s.work != []
  {
    var run := RunJob(s.store.reports, s.remote, s.work[0], answer);
    s.(store := s.store.(reports := run.rows), remote := run.remote, work := s.work[1..])
  }

  /** One machine step is one step of the job as a whole. */
  lemma StepOfJob(s: World, answer: Answer)
    requires s.work != []
    ensures var step := StepJob(s.work[0], answer);
            var mid := s.(store := s.store.(reports := ApplySave(s.store.reports, step.save)),
                          remote := ApplyEffect(s.remote, step.effect),
                          work := RemainingWork(s.work, step.after));
            var run := RunJob(s.store.reports, s.remote, s.work[0], answer);
            && (step.after.Ended? ==> mid == AfterJob(s, answer) && !run.aborted)
            && (step.after.Continue? ==>
                  && AfterJob(mid, answer) == AfterJob(s, answer)
                  && (RunJob(mid.store.reports, mid.remote, mid.work[0], answer).aborted <==> run.aborted))
  {
    var step := StepJob(s.work[0], answer);
    if step.after.Continue? {
      assert RemainingWork(s.work, step.after)[1..] == s.work[1..];
    }
  }

  /** Later phases come closer to the end, and only the creation issues an id. */
  lemma StepRanks(job: Job, answer: Answer)
    ensures var step := StepJob(job, answer);
            && (step.after.Continue? ==> Rank(step.after.job.phase) < Rank(job.phase))
            && (step.after.Continue? && Rank(step.after.job.phase) >= 3 ==> !step.effect.CreateFlow?)
  {
  }

  /** The steps of one job, taken without a crash, do what the job does as a whole. */
  lemma {:induction false} JobIsAPath(s: World, answer: Answer) returns (path: seq<World>)
    requires Inv(s) && s.work != []
    requires Rank(s.work[0].phase) >= 3 ==> FreshAnswer(s.remote, answer)
    ensures !RunJob(s.store.reports, s.remote, s.work[0], answer).aborted
    ensures Inv(AfterJob(s, answer)) && Leads(path, s, AfterJob(s, answer))
    decreases Rank(s.work[0].phase)
  {
    var mid := Apply(s, Advance(answer));
    AdvanceKeepsInv(s, answer);
    NoAbort(s, answer);
    StepOfJob(s, answer);
    StepRanks(s.work[0], answer);
    path := [s, mid];
    assert Leads(path, s, mid) by {
      assert Moves(s, mid);
    }
    if StepJob(s.work[0], answer).after.Continue? {
      var rest := JobIsAPath(mid, answer);
      LeadsOn(path, rest, s, mid, AfterJob(s, answer));
      path := path + rest[1..];
    }
  }

  function AfterBatch(s: World, answers: Key -> Answer, calls: seq<nat>): World {
    var d := RunBatch(Delivery(s.store.reports, s.remote, calls), s.work, answers);
    s.(store := s.store.(reports := d.rows), remote := d.remote, work := [])
  }

  function NextCalls(s: World, answer: Answer, calls: seq<nat>): seq<nat>
    requires s.work != []
  {
    Deliver(Delivery(s.store.reports, s.remote, calls), s.work[0], answer).calls
  }

  /** A batch is its first job and then the rest of it. */
  lemma FirstOfBatch(s: World, answers: Key -> Answer, calls: seq<nat>)
    requires s.work != [] && FreshAnswers(s.remote, s.work, answers)
    requires !RunJob(s.store.reports, s.remote, s.work[0], answers(s.work[0].report.key)).aborted
    ensures var answer := answers(s.work[0].report.key);
            var mid := AfterJob(s, answer);
            && AfterBatch(mid, answers, NextCalls(s, answer, calls)) == AfterBatch(s, answers, calls)
            && FreshAnswers(mid.remote, mid.work, answers)
  {
    var answer := answers(s.work[0].report.key);
    FreshForTheRest(s.store.reports, s.remote, s.work, answers);
  }

  /** An uninterrupted run over both lists is a path of the machine. */
  lemma {:induction false} BatchIsAPath(s: World, answers: Key -> Answer, calls: seq<nat>)
    returns (path: seq<World>)
    requires Inv(s) && FreshAnswers(s.remote, s.work, answers)
    ensures Inv(AfterBatch(s, answers, calls)) && Leads(path, s, AfterBatch(s, answers, calls))
    decreases |s.work|
  {
    if s.work == [] {
      path := [s];
      assert AfterBatch(s, answers, calls) == s;
    } else {
      var answer := answers(s.work[0].report.key);
      var first := JobIsAPath(s, answer);
      var mid := AfterJob(s, answer);
      FirstOfBatch(s, answers, calls);
      var rest := BatchIsAPath(mid, answers, NextCalls(s, answer, calls));
      LeadsOn(first, rest, s, mid, AfterBatch(s, answers, calls));
      path := first + rest[1..];
    }
  }

  /** A run of the dispatcher that nobody interrupts: both lists are read, then every job is done. */
  lemma RunOnceIsAPath(s: World, answers: Key -> Answer, calls: seq<nat>) returns (path: seq<World>)
    requires Inv(s) && s.work == [] && FreshAnswers(s.remote, ListedWork(s.store.reports, s.limit), answers)
    ensures var after := RunLists(Delivery(s.store.reports, s.remote, calls), s.limit, answers);
            var listed := s.(work := ListedWork(s.store.reports, s.limit));
            && Takes(s, StartRun, listed)
            && Leads(path, listed, s.(store := s.store.(reports := after.rows), remote := after.remote))
  {
    var listed := s.(work := ListedWork(s.store.reports, s.limit));
    StartRunKeepsInv(s);
    path := BatchIsAPath(listed, answers, calls);
  }

  /** What the dispatcher's loop computes from a reachable state is a reachable state. */
  lemma RunOnceFromReachable(s: World, answers: Key -> Answer, calls: seq<nat>)
    requires Reachable(s) && s.work == [] && FreshAnswers(s.remote, ListedWork(s.store.reports, s.limit), answers)
    ensures var after := RunLists(Delivery(s.store.reports, s.remote, calls), s.limit, answers);
            Reachable(s.(store := s.store.(reports := after.rows), remote := after.remote))
  {
    ReachableStateInv(s);
    var path := RunOnceIsAPath(s, answers, calls);
    var after := RunLists(Delivery(s.store.reports, s.remote, calls), s.limit, answers);
    ReachableStep(s, StartRun);
    LeadsToReachable(path, s.(work := ListedWork(s.store.reports, s.limit)),
                     s.(store := s.store.(reports := after.rows), remote := after.remote));
  }

  /** Reachable tables meet what the drain results ask of them. */
  lemma ReachableTablesDrain(states: seq<World>, steps: seq<Step>, i: nat)
    requires IsRun(states, steps) && i < |states|
    ensures var s := states[i];
            DeliveryOk(Delivery(s.store.reports, s.remote, seq(|s.store.reports|, _ => 0)), s.limit) && s.limit < U32
  {
    ReachableInv(states, steps, i);
    var s := states[i];
    forall k | 0 <= k < |s.store.reports| ensures Deliverable(s.store.reports[k]) {
      assert RowOk(s.store.records, s.store.reports[k], s.limit);
    }
  }

  /** Dispatching a report of a reachable table succeeds iff every answer it needs is positive.  Then a time is held by
      the remote service under the id that the row names, and a cleared report names none. */
  lemma DispatchFromReachable(s: World, k: nat, answer: Answer)
    requires Reachable(s) && k < |s.store.reports| && Dispatchable(s.store.reports[k], s.limit)
    ensures var row := s.store.reports[k];
            var run := RunJob(s.store.reports, s.remote, Job(row, Begin), answer);
            && |run.rows| == |s.store.reports|
            && (run.rows[k].status == Done
                <==> && answer.ready && (row.deleteId.Some? ==> answer.delete == DeleteOk)
                     && (row.body == Clear || answer.create.Some?))
            && (run.rows[k].status == Done && row.body == Clear ==> run.rows[k].external.None?)
            && (run.rows[k].status == Done && row.body != Clear ==>
                  && row.body.At? && run.rows[k].external.Some? && run.rows[k].external.value in run.remote.live
                  && run.remote.live[run.rows[k].external.value] == Flow(row.recordId, row.rtype, row.employee, row.body.time))
  {
    ReachableStateInv(s);
    assert RowOk(s.store.records, s.store.reports[k], s.limit);
    DispatchSucceedsIff(s.store.reports, s.remote, k, answer);
  }
}
