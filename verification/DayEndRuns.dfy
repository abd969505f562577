/**
  The day-end worker inside the outbox machine: its run is a sequence of machine steps, and
  what it queued is what the remote service holds once the dispatcher delivered it.
 */
module DayEndRuns {
  import opened Wrappers
  import opened Domain
  import opened Tables
  import opened AttendanceProcessor
  import opened ReportService
  import opened SyslogPipeline
  import opened AttendanceAdmin
  import opened DayEndDispatcher
  import opened DebugAdmin
  import opened ReportDispatcher
  import opened Outbox
  import opened OutboxInvariant
  import opened OutboxProducers
  import opened OutboxDispatch
  import opened OutboxSafety
  import opened DayEndProofs

  lemma {:induction false} FinalizeAllReachable(s: World, ids: seq<nat>, now: Seconds)
    requires Reachable(s) && Indices(s.store.records, ids)
    ensures Reachable(s.(store := FinalizeAll(s.store, ids, now)))
    decreases |ids|
  {
    if ids != [] {
      ReachableStateInv(s);
      ReachableStep(s, FinalizeOne(ids[0], now));
      FinalizedInPlace(s.store, ids[0], now);
      FinalizeAllReachable(s.(store := FinalizeRecord(s.store, ids[0], now)), ids[1..], now);
    }
  }

  /** The world after a run of the day-end worker. */
  function AfterDayEnd(s: World, date: Day, cutoff: Seconds, text: string, now: Seconds): World {
    var after := RunDayEnd(DayEndState(s.store, s.runs), date, cutoff, text, now);
    s.(store := after.store, runs := after.runs)
  }

  /** A run of the day-end worker from a reachable state leads to a reachable state, in which every
      record of the date is final. */
  lemma DayEndFromReachable(s: World, date: Day, cutoff: Seconds, text: string, now: Seconds)
    requires Reachable(s)
    ensures var after := AfterDayEnd(s, date, cutoff, text, now);
            && Reachable(after)
            && |after.store.records| == |s.store.records|
            && (cutoff <= now && !HasRun(s.runs, date) ==>
                  forall id :: 0 <= id < |s.store.records| && s.store.records[id].date == date ==>
                                 FinalOk(after.store.records[id], id, after.store.reports, now))
  {
    ReachableStateInv(s);
    DayEndFrame(DayEndState(s.store, s.runs), date, cutoff, text, now);
    if cutoff <= now && !HasRun(s.runs, date) {
      var ids := ListByDate(s.store.records, date);
      var finalized := s.(store := FinalizeAll(s.store, ids, now));
      FinalizeAllReachable(s, ids, now);
      ReachableStep(finalized, RecordRun(DayEndRun(date, text, now)));
      forall id | 0 <= id < |s.store.records| && s.store.records[id].date == date
        ensures FinalOk(finalized.store.records[id], id, finalized.store.reports, now)
      {
        FinalizeAllSettles(s.store, s.limit, ids, now, id);
      }
    }
  }

  /** A date that has its run keeps that very run through every later step of every actor, and any further
      day-end run of the date, whenever it comes and whatever the cutoff is by then, changes nothing at all. */
  lemma {:induction false} FinishedDateIsFinal(
    states: seq<World>, steps: seq<Step>, i: nat, j: nat, date: Day, cutoff: Seconds, text: string, now: Seconds)
    requires IsRun(states, steps) && i <= j < |states| && HasRun(states[i].runs, date)
    ensures RunOf(states[j].runs, date) == RunOf(states[i].runs, date)
    ensures AfterDayEnd(states[j], date, cutoff, text, now) == states[j]
  {
    if i < j {
      FinishedDateIsFinal(states, steps, i, j - 1, date, cutoff, text, now);
      StepAt(states, steps, j - 1);
      if steps[j - 1].RecordRun? {
        SavedRunIsFound(states[j - 1].runs, steps[j - 1].run);
      }
    }
  }

  // ----- a record that changed after it was listed -----

  /** The copy that was read with the list differs from its finalization, or queues a report. */
  predicate Writes(store: Store, id: nat, read: Record, now: Seconds) {
    Finalized(read, now) != read || ClockOutReport(store.reports, id, Finalized(read, now)).Some?
  }

  /** Finalizing a copy that was read earlier puts the copy's times back; so the table keeps its times, and the
      clock-in reports still replay to the first connect, exactly if nothing is written or nobody changed them. */
  lemma StaleCopyIff(store: Store, limit: nat, id: nat, read: Record, now: Seconds)
    requires StoreOk(store, limit) && id < |store.records|
    requires read.employee == store.records[id].employee && read.date == store.records[id].date
    ensures var current, after := store.records[id], FinalizeRead(store, id, read, now);
            && |after.records| == |store.records|
            && (after.records[id].first == current.first && after.records[id].last == current.last
                <==> !Writes(store, id, read, now) || (read.first == current.first && read.last == current.last))
            && (Replay(after.reports, id, ClockIn) == after.records[id].first
                <==> !Writes(store, id, read, now) || read.first == current.first)
  {
    var finalized := Finalized(read, now);
    var queued := ClockOutReport(store.reports, id, finalized);
    SaveRecordInPlace(store.records, id, finalized);
    ClockOutReportOk(store.records[id := finalized], store.reports, id, finalized);
    ReplayAppendOptional(store.reports, queued, id, ClockIn);
    assert store.reports + [] == store.reports;
    assert RecordOk(store.records[id], id, store.reports);
  }

  // ----- what the newest clock-out report says, in any run -----

  /** The last disconnect is not what the newest clock-out report says. */
  ghost predicate Lags(s: World, id: nat)
    requires id < |s.store.records|
  {
    Replay(s.store.reports, id, ClockOut) != s.store.records[id].last
  }

  /** The newest clock-out report may be behind the record, but it is never ahead of it. */
  ghost predicate Trails(s: World, id: nat) {
    && id < |s.store.records|
    && (Lags(s, id) ==>
          && s.store.records[id].last.Some?
          && (Replay(s.store.reports, id, ClockOut).None?
              || Replay(s.store.reports, id, ClockOut).value < s.store.records[id].last.value))
  }

  /** A message brings a later disconnect of the record's employee on its date. */
  predicate Raises(s: World, step: Step, id: nat) {
    && step.Message? && step.event.Some? && step.event.value.mac in step.devices
    && step.event.value.kind == Disconnect
    && id < |s.store.records|
    && s.store.records[id].employee == step.devices[step.event.value.mac]
    && s.store.records[id].date == step.event.value.date
    && (s.store.records[id].last.None? || s.store.records[id].last.value < step.event.value.time)
  }

  /** A finalization of the record, a correction that changes its last disconnect, or a manual re-send of it. */
  predicate Settles(s: World, step: Step, id: nat) {
    match step
    case FinalizeOne(other, _) => other == id
    case Correct(other, input, _) =>
      other == id && id < |s.store.records| && input.last.Apply(s.store.records[id].last) != s.store.records[id].last
    case DebugDispatch(other, rtype, _) => other == id && rtype == ClockOut
    case _ => false
  }

  /** What a step does to the relation between the record and its newest clock-out report. */
  ghost predicate StepsOn(s: World, step: Step, id: nat)
    requires Enabled(s, step) && id < |s.store.records|
  {
    var s' := Apply(s, step);
    Trails(s', id) && (Lags(s', id) <==> Raises(s, step, id) || (Lags(s, id) && !Settles(s, step, id)))
  }

  /** Steps that leave the record and its clock-out reports alone. */
  lemma UntouchedStepsOn(s: World, step: Step, id: nat)
    requires Enabled(s, step) && Trails(s, id) && !Raises(s, step, id) && !Settles(s, step, id)
    requires var s' := Apply(s, step);
             && id < |s'.store.records| && s'.store.records[id].last == s.store.records[id].last
             && Replay(s'.store.reports, id, ClockOut) == Replay(s.store.reports, id, ClockOut)
    ensures StepsOn(s, step, id)
  {
  }

  /** A producer's step about another record. */
  lemma OtherRecordStepsOn(s: World, step: Step, id: nat, owner: nat)
    requires Enabled(s, step) && Trails(s, id) && !Raises(s, step, id) && !Settles(s, step, id) && owner != id
    requires ProducerShape(s.store, Apply(s, step).store, owner)
    ensures StepsOn(s, step, id)
  {
    ReplayOthers(s.store.reports, Apply(s, step).store.reports, id, ClockOut);
    UntouchedStepsOn(s, step, id);
  }

  lemma MessageStepsOn(s: World, devices: map<string, nat>, event: Event, id: nat)
    requires Inv(s) && Trails(s, id) && event.mac in devices
    ensures StepsOn(s, Message(devices, Some(event)), id)
  {
    var step := Message(devices, Some(event));
    var employee := devices[event.mac];
    var owner := TargetId(s.store.records, employee, event.date);
    FindRecordAt(s.store.records, id);
    if owner == id {
      OwnMessage(s.store, s.limit, employee, event, id);
    } else {
      HandleEventOk(s.store, s.limit, employee, event);
      OtherRecordStepsOn(s, step, id, owner);
    }
  }

  /** A message changes the last disconnect of its own record only to raise it, and queues no clock-out report. */
  lemma OwnMessage(store: Store, limit: nat, employee: nat, event: Event, id: nat)
    requires StoreOk(store, limit) && id < |store.records| && TargetId(store.records, employee, event.date) == id
    ensures var after := HandleEvent(store, employee, event);
            var last := store.records[id].last;
            && id < |after.records|
            && after.records[id].last
               == (if event.kind == Disconnect && (last.None? || last.value < event.time) then Some(event.time) else last)
            && Replay(after.reports, id, ClockOut) == Replay(store.reports, id, ClockOut)
  {
    HandleEventAppends(store, limit, employee, event);
    var result := ApplyEvent(LoadRecord(store.records, employee, event.date), event);
    ClockInKeepsClockOut(store.reports, id, result, event, id);
  }

  lemma ClockInKeepsClockOut(rows: seq<Report>, owner: nat, result: Processed, event: Event, id: nat)
    ensures Replay(rows + EventReports(owner, result, event), id, ClockOut) == Replay(rows, id, ClockOut)
  {
    if result.clockInNeedsReport {
      ReplayAppendOther(rows, CreatePendingReport(owner, result.record, ClockIn, event.time), id, ClockOut);
    } else {
      assert rows + [] == rows;
    }
  }

  lemma CorrectStepsOn(s: World, owner: nat, input: CorrectionInput, now: Seconds, id: nat)
    requires Inv(s) && Trails(s, id) && Enabled(s, Correct(owner, input, now))
    ensures StepsOn(s, Correct(owner, input, now), id)
  {
    var step := Correct(owner, input, now);
    var result := CorrectAttendance(s.store, owner, input, now);
    if result.Failure? || KeepsTimes(s.store.records[owner], input) {
      UntouchedStepsOn(s, step, id);
    } else if owner == id {
      CorrectedStore(s.store, s.limit, id, input, now);
    } else {
      CorrectAttendanceOk(s.store, s.limit, owner, input, now);
      OtherRecordStepsOn(s, step, id, owner);
    }
  }

  /** A correction that changes the last disconnect reports it, and any other one leaves its reports alone. */
  lemma CorrectedReplay(rows: seq<Report>, id: nat, clockIn: Option<Report>, clockOut: Option<Report>,
                        before: Option<Seconds>, after: Option<Seconds>)
    requires clockIn.Some? ==> clockIn.value.rtype == ClockIn
    requires ReportsField(clockOut, id, ClockOut, before, after)
    ensures Replay(rows + OptionalSeq(clockIn) + OptionalSeq(clockOut), id, ClockOut)
            == if clockOut.Some? then after else Replay(rows, id, ClockOut)
  {
    ReplayAppendOptional(rows, clockIn, id, ClockOut);
    ReplayAppendOptional(rows + OptionalSeq(clockIn), clockOut, id, ClockOut);
  }

  lemma CorrectedStore(store: Store, limit: nat, id: nat, input: CorrectionInput, now: Seconds)
    requires StoreOk(store, limit) && id < |store.records| && store.records[id].version + 1 < U32
    requires FromJson(input.first) && FromJson(input.last) && !KeepsTimes(store.records[id], input)
    requires input.first.provided || input.last.provided
    ensures CorrectAttendance(store, id, input, now).Success?
    ensures var after := CorrectAttendance(store, id, input, now).value.store;
            && |after.records| == |store.records|
            && after.records[id].last == input.last.Apply(store.records[id].last)
            && Replay(after.reports, id, ClockOut)
               == if after.records[id].last != store.records[id].last then after.records[id].last
                  else Replay(store.reports, id, ClockOut)
  {
    var record := CorrectedRecord(store.records[id], input, now);
    RaisedVersionIsNew(store, limit, id, record);
    var clockIn, clockOut := CorrectionStore(store, id, input, now);
    CorrectedReplay(store.reports, id, clockIn, clockOut, store.records[id].last, record.last);
  }

  lemma FinalizeStepsOn(s: World, owner: nat, now: Seconds, id: nat)
    requires Inv(s) && Trails(s, id) && Enabled(s, FinalizeOne(owner, now))
    ensures StepsOn(s, FinalizeOne(owner, now), id)
  {
    FinalizeRecordOk(s.store, s.limit, owner, now);
    if owner == id {
      FinalizeSettles(s.store, s.limit, id, now);
    } else {
      OtherRecordStepsOn(s, FinalizeOne(owner, now), id, owner);
    }
  }

  /** A manual re-send repeats the current time of its field. */
  lemma ResentReplay(
    store: Store, limit: nat, clock: Nanos, owner: nat, rtype: ReportType, requestedAt: Nanos, id: nat)
    requires StoreOk(store, limit) && ClockOk(store.reports, clock) && clock < requestedAt
    requires id < |store.records| && ManualReport(store, owner, rtype, requestedAt).Success?
    ensures Replay(SaveReport(store.reports, ManualReport(store, owner, rtype, requestedAt).value), id, ClockOut)
            == if owner == id && rtype == ClockOut then store.records[id].last else Replay(store.reports, id, ClockOut)
  {
    var report := ManualReport(store, owner, rtype, requestedAt).value;
    ManualReportOk(store, limit, clock, owner, rtype, requestedAt);
    ReplayAppendOther(store.reports, report, id, ClockOut);
  }

  lemma AdvanceStepsOn(s: World, answer: Answer, id: nat)
    requires Inv(s) && Trails(s, id) && Enabled(s, Advance(answer))
    ensures StepsOn(s, Advance(answer), id)
  {
    var k: nat := HeadRow(s);
    AdvanceWrites(s, answer, k);
    if s.work[0].phase in {Deleted, Finish} {
      UpdateKeepsReplay(s.store.reports, k, s.work[0].report, id, ClockOut);
    }
  }

  lemma EveryStepsOn(s: World, step: Step, id: nat)
    requires Inv(s) && Enabled(s, step) && Trails(s, id)
    ensures StepsOn(s, step, id)
  {
    match step
    case Message(devices, event) =>
      if event.Some? && event.value.mac in devices {
        MessageStepsOn(s, devices, event.value, id);
      }
    case Correct(owner, input, now) => CorrectStepsOn(s, owner, input, now, id);
    case FinalizeOne(owner, now) => FinalizeStepsOn(s, owner, now, id);
    case DebugDispatch(owner, rtype, requestedAt) =>
      if ManualReport(s.store, owner, rtype, requestedAt).Success? {
        ResentReplay(s.store, s.limit, s.debugClock, owner, rtype, requestedAt, id);
      }
    case Advance(answer) => AdvanceStepsOn(s, answer, id);
    case _ =>
  }

  ghost predicate RaisesAt(states: seq<World>, steps: seq<Step>, k: nat, id: nat)
    requires |states| == |steps| + 1 && k < |steps|
  {
    Raises(states[k], steps[k], id)
  }

  ghost predicate SettlesAt(states: seq<World>, steps: seq<Step>, k: nat, id: nat)
    requires |states| == |steps| + 1 && k < |steps|
  {
    Settles(states[k], steps[k], id)
  }

  /** Between states `i` and `j` a disconnect was raised that no later step reported. */
  ghost predicate Unreported(states: seq<World>, steps: seq<Step>, i: nat, j: nat, id: nat)
    requires |states| == |steps| + 1 && j <= |steps|
  {
    exists k :: i <= k < j && RaisesAt(states, steps, k, id)
                && forall l :: k < l < j ==> !SettlesAt(states, steps, l, id)
  }

  lemma UnreportedGrows(states: seq<World>, steps: seq<Step>, i: nat, j: nat, id: nat)
    requires |states| == |steps| + 1 && i <= j < |steps|
    ensures Unreported(states, steps, i, j + 1, id)
            <==> RaisesAt(states, steps, j, id) || (Unreported(states, steps, i, j, id) && !SettlesAt(states, steps, j, id))
  {
    if Unreported(states, steps, i, j, id) && !SettlesAt(states, steps, j, id) {
      var k :| i <= k < j && RaisesAt(states, steps, k, id)
               && forall l :: k < l < j ==> !SettlesAt(states, steps, l, id);
      assert forall l :: k < l < j + 1 ==> !SettlesAt(states, steps, l, id);
    }
  }

  lemma {:induction false} LagsIff(states: seq<World>, steps: seq<Step>, i: nat, j: nat, id: nat)
    requires IsRun(states, steps) && i <= j < |states|
    requires id < |states[i].store.records| && !Lags(states[i], id)
    ensures Trails(states[j], id) && (Lags(states[j], id) <==> Unreported(states, steps, i, j, id))
  {
    if i < j {
      LagsIff(states, steps, i, j - 1, id);
      StepAt(states, steps, j - 1);
      EveryStepsOn(states[j - 1], steps[j - 1], id);
      UnreportedGrows(states, steps, i, j - 1, id);
    }
  }

  /** After a day-end run, through any steps of any actor: once the newest clock-out report is delivered, the remote
      service holds its time, and that is the record's last disconnect if and only if no later disconnect was raised
      and left unreported.  Otherwise it is an earlier time. */
  lemma ClockOutDelivery(states: seq<World>, steps: seq<Step>, i: nat, j: nat, id: nat, now: Seconds, n: nat)
    requires IsRun(states, steps) && i <= j < |states|
    requires id < |states[i].store.records| && FinalOk(states[i].store.records[id], id, states[i].store.reports, now)
    requires IsNewest(states[j].store.reports, n, id, ClockOut)
    requires states[j].store.reports[n].status == Done && states[j].store.reports[n].body != Clear
    ensures id < |states[j].store.records| && states[j].store.records[id].last.Some?
    ensures var record, report := states[j].store.records[id], states[j].store.reports[n];
            && report.body.At? && report.external.Some? && report.external.value in states[j].remote.live
            && states[j].remote.live[report.external.value] == Flow(id, ClockOut, record.employee, report.body.time)
            && report.body.time <= record.last.value
            && (report.body.time == record.last.value <==> !Unreported(states, steps, i, j, id))
  {
    LagsIff(states, steps, i, j, id);
    NewestFlowIsLive(states, steps, j, id, ClockOut, n);
    NewestDecidesReplay(states[j].store.reports, n, id, ClockOut);
  }
}
