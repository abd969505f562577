/**
  The attendance outbox as one state machine: the two shared tables, the day-end runs,
  the remote service and the dispatcher's in-memory work.  Each producer is one atomic
  step; the dispatcher moves by single protocol steps and may crash between any two.
 */
module Outbox {
  import opened Wrappers
  import opened Domain
  import opened Tables
  import opened SyslogPipeline
  import opened AttendanceAdmin
  import opened DayEndDispatcher
  import opened DebugAdmin
  import opened ReportDispatcher

  datatype World = World(
    store: Store,
    runs: seq<DayEndRun>,
    remote: Remote,
    work: seq<Job>,
    debugClock: Nanos,
    limit: nat)

  datatype Step =
    | Message(devices: map<string, nat>, event: Option<Event>)
    | Correct(id: nat, input: CorrectionInput, now: Seconds)
    | FinalizeOne(id: nat, now: Seconds)
    | RecordRun(run: DayEndRun)
    | DebugDispatch(id: nat, rtype: ReportType, requestedAt: Nanos)
    | StartRun
    | Advance(answer: Answer)
    | Crash

  /** What a JSON body can hold: a field marked valid carries a time. */
  predicate FromJson(field: OptionalTimeField) {
    field.valid ==> field.provided && field.value.Some?
  }

  ghost predicate Enabled(s: World, step: Step) {
    match step
    case Correct(id, input, _) =>
      && FromJson(input.first) && FromJson(input.last)
      && (id < |s.store.records| ==> s.store.records[id].version + 1 < U32)
    case FinalizeOne(id, _) => id < |s.store.records|
    case DebugDispatch(_, _, requestedAt) => s.work == [] && s.debugClock < requestedAt
    case RecordRun(run) => !HasRun(s.runs, run.date)
    case StartRun => s.work == []
    case Advance(answer) =>
      && s.work != []
      && (s.work[0].phase == ReadyToCreate && answer.create.Some? ==> answer.create.value !in s.remote.issued)
    case _ => true
  }

  function RemainingWork(work: seq<Job>, after: After): seq<Job>
    requires work != []
  {
    match after
    case Continue(job) => [job] + work[1..]
    case Ended => work[1..]
    case Aborted => []
  }

  function Apply(s: World, step: Step): World
    requires Enabled(s, step)
  {
    match step
    case Message(devices, event) => s.(store := HandleMessage(s.store, devices, event))
    case Correct(id, input, now) =>
      (match CorrectAttendance(s.store, id, input, now)
       case Success(correction) => s.(store := correction.store)
       case Failure(_) => s)
    case FinalizeOne(id, now) => s.(store := FinalizeRecord(s.store, id, now))
    case RecordRun(run) => s.(runs := SaveRun(s.runs, run).rows)
    case DebugDispatch(id, rtype, requestedAt) =>
      (match ManualReport(s.store, id, rtype, requestedAt)
       case Success(report) =>
         s.(store := s.store.(reports := SaveReport(s.store.reports, report)),
         work := [Job(report, Begin)],
         debugClock := requestedAt)
       case Failure(_) => s)
    case StartRun => s.(work := ListedWork(s.store.reports, s.limit))
    case Advance(answer) =>
      var step := StepJob(s.work[0], answer);
      s.(store := s.store.(reports := ApplySave(s.store.reports, step.save)),
      remote := ApplyEffect(s.remote, step.effect),
      work := RemainingWork(s.work, step.after))
    case Crash => s.(work := [])
  }

  ghost predicate Init(s: World) {
    && s.store == Store([], [])
    && s.runs == []
    && s.remote == Remote(map[], {})
    && s.work == []
    && 0 < s.limit < U32
  }

  ghost predicate Takes(s: World, step: Step, after: World) {
    Enabled(s, step) && after == Apply(s, step)
  }

  ghost predicate TakesAt(states: seq<World>, steps: seq<Step>, i: nat)
    requires |states| == |steps| + 1 && i < |steps|
  {
    Takes(states[i], steps[i], states[i + 1])
  }

  /** A run: the states it passes through, one more than the steps it takes. */
  ghost predicate IsRun(states: seq<World>, steps: seq<Step>) {
    && |states| == |steps| + 1
    && Init(states[0])
    && forall i :: 0 <= i < |steps| ==> TakesAt(states, steps, i)
  }
}
