/** What a completed day-end run leaves behind, and that an interrupted run resumes exactly. */
module DayEndProofs {
  import opened Wrappers
  import opened Domain
  import opened Tables
  import opened ReportService
  import opened AttendanceAdmin
  import opened DayEndService
  import opened DayEndDispatcher
  import opened OutboxInvariant
  import opened OutboxProducers
  import opened OutboxSafety

  // ----- the result of a run -----

  /** The statuses follow the last disconnect, and the newest clock-out report carries it. */
  ghost predicate FinalOk(record: Record, id: nat, rows: seq<Report>, now: Seconds) {
    && record.calculatedAt == Some(now)
    && (if record.last.Some? then record.clockOut == OutDone && record.exception == NoException
        else record.clockOut == OutMissing && record.exception == MissingDisconnect)
    && Replay(rows, id, ClockOut) == record.last
  }

  /** A clock-out key that exists already belongs to a report that still decides the replay. */
  lemma ExistingKeyDecides(store: Store, limit: nat, id: nat, now: Seconds)
    requires StoreOk(store, limit) && id < |store.records| && store.records[id].last.Some?
    requires ClockOutReport(store.reports, id, Finalized(store.records[id], now)).None?
    ensures Replay(store.reports, id, ClockOut) == store.records[id].last
  {
    var record := store.records[id];
    var i := FindKey(store.reports, BuildKey(Finalized(record, now), ClockOut, record.last.value)).value;
    KeyOwner(store, limit, i, id);
    assert RowOk(store.records, store.reports[i], limit);
    assert RecordOk(record, id, store.reports);
    assert TimedNow(store.reports[i], id, ClockOut, record.version);
  }

  lemma FinalizeSettles(store: Store, limit: nat, id: nat, now: Seconds)
    requires StoreOk(store, limit) && 0 < limit && id < |store.records|
    ensures var after := FinalizeRecord(store, id, now);
            StoreOk(after, limit) && FinalOk(after.records[id], id, after.reports, now)
  {
    var after := FinalizeRecord(store, id, now);
    var record := store.records[id];
    FinalizeRecordOk(store, limit, id, now);
    ShapeKeepsStore(store, after, id, limit);
    assert StatusOk(record) && ClockOutOk(after.records[id], id, after.reports) by {
      assert RecordOk(record, id, store.reports);
    }
    var queued := ClockOutReport(store.reports, id, Finalized(record, now));
    if queued.Some? {
      ReplayAppendOther(store.reports, queued.value, id, ClockOut);
    } else if record.last.Some? {
      ExistingKeyDecides(store, limit, id, now);
      assert after.reports == store.reports;
    }
  }

  lemma FinalizeKeepsFinal(store: Store, limit: nat, id: nat, now: Seconds, other: nat)
    requires StoreOk(store, limit) && id < |store.records| && other < |store.records| && other != id
    requires FinalOk(store.records[other], other, store.reports, now)
    ensures var after := FinalizeRecord(store, id, now); FinalOk(after.records[other], other, after.reports, now)
  {
    var after := FinalizeRecord(store, id, now);
    FinalizeRecordOk(store, limit, id, now);
    ReplayOthers(store.reports, after.reports, other, ClockOut);
  }

  lemma {:induction false} FinalizeAllSettles(store: Store, limit: nat, ids: seq<nat>, now: Seconds, id: nat)
    requires StoreOk(store, limit) && 0 < limit && Indices(store.records, ids)
    requires id in ids || (id < |store.records| && FinalOk(store.records[id], id, store.reports, now))
    ensures var after := FinalizeAll(store, ids, now);
            && StoreOk(after, limit) && |after.records| == |store.records|
            && id < |after.records| && FinalOk(after.records[id], id, after.reports, now)
    decreases |ids|
  {
    if ids != [] {
      var next := FinalizeRecord(store, ids[0], now);
      FinalizeSettles(store, limit, ids[0], now);
      FinalizedInPlace(store, ids[0], now);
      if id != ids[0] && id !in ids[1..] {
        FinalizeKeepsFinal(store, limit, ids[0], now, id);
      }
      FinalizeAllSettles(next, limit, ids[1..], now, id);
    }
  }

  /** When a run completes, each record of the date is done iff it has a last disconnect and missing
      otherwise, and its newest clock-out report carries exactly that time, or is a clear or absent. */
  lemma DayEndPostcondition(
    s: DayEndState, limit: nat, date: Day, cutoff: Seconds, text: string, now: Seconds, id: nat)
    requires StoreOk(s.store, limit) && 0 < limit && cutoff <= now && !HasRun(s.runs, date)
    requires id < |s.store.records| && s.store.records[id].date == date
    ensures var after := RunDayEnd(s, date, cutoff, text, now).store;
            && id < |after.records| && after.records[id].calculatedAt == Some(now)
            && (after.records[id].clockOut == OutDone <==> after.records[id].last.Some?)
            && (after.records[id].clockOut == OutMissing <==> after.records[id].last.None?)
            && (after.records[id].exception == NoException <==> after.records[id].last.Some?)
            && (after.records[id].exception == MissingDisconnect <==> after.records[id].last.None?)
            && (forall n: nat :: IsNewest(after.reports, n, id, ClockOut) ==>
                              BodyTime(after.reports[n].body) == after.records[id].last)
            && (after.records[id].last.Some? ==> exists n: nat :: IsNewest(after.reports, n, id, ClockOut))
  {
    var ids := ListByDate(s.store.records, date);
    FinalizeAllSettles(s.store, limit, ids, now, id);
    var after := FinalizeAll(s.store, ids, now);
    forall n: nat | IsNewest(after.reports, n, id, ClockOut)
      ensures BodyTime(after.reports[n].body) == after.records[id].last
    {
      NewestDecidesReplay(after.reports, n, id, ClockOut);
    }
    if after.records[id].last.Some? {
      var n: nat := ReplayNamesNewest(after.reports, id, ClockOut);
    }
  }

  /** Finalization keeps the times, the version and the identity of a record. */
  ghost predicate OnlyStatuses(before: Record, after: Record) {
    after.(clockOut := before.clockOut, exception := before.exception, calculatedAt := before.calculatedAt) == before
  }

  lemma {:induction false} FinalizeAllFrame(store: Store, ids: seq<nat>, now: Seconds)
    requires UniqueRecords(store.records) && Indices(store.records, ids)
    ensures var after := FinalizeAll(store, ids, now);
            && |after.records| == |store.records| && UniqueRecords(after.records)
            && (forall i :: 0 <= i < |store.records| ==> OnlyStatuses(store.records[i], after.records[i]))
            && (forall i: nat :: i < |store.records| && i !in ids ==> after.records[i] == store.records[i])
    decreases |ids|
  {
    if ids != [] {
      FinalizedInPlace(store, ids[0], now);
      var next := FinalizeRecord(store, ids[0], now);
      assert forall i :: 0 <= i < |store.records| ==> OnlyStatuses(store.records[i], next.records[i]);
      FinalizeAllFrame(next, ids[1..], now);
    }
  }

  /** The run of a date, if it has one. */
  function RunOf(runs: seq<DayEndRun>, date: Day): Option<DayEndRun> {
    match FindRun(runs, date)
    case Some(i) => Some(runs[i])
    case None => None
  }

  /** A run leaves the records of other dates alone, and of its own date it changes the statuses only. */
  lemma DayEndFrame(s: DayEndState, date: Day, cutoff: Seconds, text: string, now: Seconds)
    requires UniqueRecords(s.store.records) && UniqueRunDates(s.runs)
    ensures var after := RunDayEnd(s, date, cutoff, text, now);
            && |after.store.records| == |s.store.records|
            && (forall i :: 0 <= i < |s.store.records| ==> OnlyStatuses(s.store.records[i], after.store.records[i]))
            && (forall i :: 0 <= i < |s.store.records| && s.store.records[i].date != date ==>
                              after.store.records[i] == s.store.records[i])
            && UniqueRunDates(after.runs)
            && forall other: Day :: other != date ==> RunOf(after.runs, other) == RunOf(s.runs, other)
  {
    if !(now < cutoff || HasRun(s.runs, date)) {
      SavedRunIsFound(s.runs, DayEndRun(date, text, now));
      FinalizeAllFrame(s.store, ListByDate(s.store.records, date), now);
    }
  }

  /** A run happens iff the cutoff is past and the date has no run yet; otherwise it changes nothing at all. */
  lemma RunHappensIff(s: DayEndState, date: Day, cutoff: Seconds, text: string, now: Seconds)
    requires UniqueRecords(s.store.records) && UniqueRunDates(s.runs)
    ensures var after := RunDayEnd(s, date, cutoff, text, now);
            && (now < cutoff ==> after == s)
            && (RunOf(s.runs, date).Some? ==> after == s)
            && (RunOf(after.runs, date).Some? <==> RunOf(s.runs, date).Some? || cutoff <= now)
            && (RunOf(s.runs, date).None? && cutoff <= now ==> RunOf(after.runs, date) == Some(DayEndRun(date, text, now)))
  {
    SavedRunIsFound(s.runs, DayEndRun(date, text, now));
  }

  /** Finalizing one record: its statuses say whether it has a last disconnect, and a clock-out report for that time
      is appended exactly when none is stored for this version of the record. */
  lemma FinalizationIsExact(store: Store, id: nat, now: Seconds)
    requires UniqueRecords(store.records) && id < |store.records|
    ensures var after, record := FinalizeRecord(store, id, now), store.records[id];
            var missing := record.last.None?;
            && after.records
               == store.records[id := record.(
                                clockOut := if missing then OutMissing else OutDone,
                                exception := if missing then MissingDisconnect else NoException,
                                calculatedAt := Some(now))]
            && (if missing || HasKey(store.reports, ClockOutKey(record))
                then after.reports == store.reports
                else && |after.reports| == |store.reports| + 1 && after.reports[..|store.reports|] == store.reports
                     && ClockOutQueued(store.reports, after.reports[|store.reports|], id, record))
  {
    var record := store.records[id];
    FinalizeEffect(store, id, now);
    FinalizedStatuses(record, now);
    var queued := ClockOutReport(store.reports, id, Finalized(record, now));
    if queued.Some? {
      assert ClockOutQueued(store.reports, queued.value, id, record);
      assert !HasKey(store.reports, ClockOutKey(record));
    } else if record.last.Some? {
      var i := FindKey(store.reports, ClockOutKey(record)).value;
      assert store.reports[i].key == ClockOutKey(record);
      assert HasKey(store.reports, ClockOutKey(record));
    }
  }

  lemma FinalizedStatuses(record: Record, now: Seconds)
    ensures Finalized(record, now)
            == record.(
               clockOut := if record.last.None? then OutMissing else OutDone,
               exception := if record.last.None? then MissingDisconnect else NoException,
               calculatedAt := Some(now))
  {
    assert record.clockOut in {OutBlank, OutPending, OutMissing} || record.clockOut == OutDone;
    assert record.exception in {ExceptionBlank, MissingDisconnect} || record.exception == NoException;
  }

  predicate HasKey(rows: seq<Report>, key: Key) {
    exists i :: 0 <= i < |rows| && rows[i].key == key
  }

  function ClockOutKey(record: Record): Key {
    match record.last
    case Some(time) => TimedKey(record.employee, record.date, ClockOut, time, record.version)
    case None => ClearKey(record.employee, record.date, ClockOut, record.version)
  }

  /** A pending clock-out report of the last disconnect, which takes over the latest delivered flow. */
  ghost predicate ClockOutQueued(before: seq<Report>, report: Report, id: nat, record: Record) {
    && record.last.Some? && CopiesLatest(before, report)
    && report == Report(id, ClockOut, ClockOutKey(record), record.employee, At(record.last.value),
                        None, report.deleteId, Pending, 0, NotifyPending, 0)
  }

  // ----- interrupted runs -----

  function Erased(record: Record): Record {
    record.(calculatedAt := None)
  }

  /** Equal but for the time of the last calculation. */
  ghost predicate Equivalent(a: Store, b: Store) {
    && a.reports == b.reports && |a.records| == |b.records|
    && forall i :: 0 <= i < |a.records| ==> Erased(a.records[i]) == Erased(b.records[i])
  }

  /** Finalizing the record again would only touch the time of the last calculation. */
  ghost predicate Settled(store: Store, id: nat)
    requires id < |store.records|
  {
    var record := store.records[id];
    && FinalizeForDay(record) == record
    && (record.last.Some? ==> FindKey(store.reports, BuildKey(record, ClockOut, record.last.value)).Some?)
  }

  lemma FinalizeEffect(store: Store, id: nat, now: Seconds)
    requires UniqueRecords(store.records) && id < |store.records|
    ensures var after := FinalizeRecord(store, id, now);
            && after.records == store.records[id := Finalized(store.records[id], now)]
            && UniqueRecords(after.records)
            && after.reports == store.reports
                                + OptionalSeq(ClockOutReport(store.reports, id, Finalized(store.records[id], now)))
            && Settled(after, id)
  {
    FinalizedInPlace(store, id, now);
    FindRecordAt(store.records, id);
    var after := FinalizeRecord(store, id, now);
    var finalized := Finalized(store.records[id], now);
    var queued := ClockOutReport(store.reports, id, finalized);
    if queued.Some? {
      assert after.reports[|store.reports|].key == BuildKey(finalized, ClockOut, finalized.last.value);
    }
  }

  lemma SettledStays(store: Store, id: nat, now: Seconds, other: nat)
    requires UniqueRecords(store.records) && id < |store.records| && other < |store.records|
    requires Settled(store, other)
    ensures Settled(FinalizeRecord(store, id, now), other)
  {
    FinalizeEffect(store, id, now);
    var after := FinalizeRecord(store, id, now);
    var record := store.records[other];
    if record.last.Some? {
      var i := FindKey(store.reports, BuildKey(record, ClockOut, record.last.value)).value;
      assert after.reports[i].key == store.reports[i].key;
    }
  }

  lemma SettledFinalize(store: Store, id: nat, now: Seconds)
    requires UniqueRecords(store.records) && id < |store.records| && Settled(store, id)
    ensures Equivalent(FinalizeRecord(store, id, now), store)
  {
    FinalizeEffect(store, id, now);
    assert store.reports + [] == store.reports;
  }

  /** Finalization does not look at the time of the last calculation. */
  lemma FinalizeRespects(a: Store, b: Store, id: nat, nowA: Seconds, nowB: Seconds)
    requires UniqueRecords(a.records) && UniqueRecords(b.records) && Equivalent(a, b) && id < |a.records|
    ensures Equivalent(FinalizeRecord(a, id, nowA), FinalizeRecord(b, id, nowB))
  {
    FinalizeEffect(a, id, nowA);
    FinalizeEffect(b, id, nowB);
    assert Erased(a.records[id]) == Erased(b.records[id]);
  }

  lemma {:induction false} FinalizeAllRespects(a: Store, b: Store, ids: seq<nat>, nowA: Seconds, nowB: Seconds)
    requires UniqueRecords(a.records) && UniqueRecords(b.records) && Equivalent(a, b) && Indices(a.records, ids)
    ensures Equivalent(FinalizeAll(a, ids, nowA), FinalizeAll(b, ids, nowB))
    decreases |ids|
  {
    if ids != [] {
      FinalizeRespects(a, b, ids[0], nowA, nowB);
      FinalizeEffect(a, ids[0], nowA);
      FinalizeEffect(b, ids[0], nowB);
      FinalizeAllRespects(FinalizeRecord(a, ids[0], nowA), FinalizeRecord(b, ids[0], nowB), ids[1..], nowA, nowB);
    }
  }

  /** Every record of the list is settled afterwards, and settled records stay so. */
  lemma {:induction false} FinalizeAllSettled(store: Store, ids: seq<nat>, now: Seconds, id: nat)
    requires UniqueRecords(store.records) && Indices(store.records, ids)
    requires id in ids || (id < |store.records| && Settled(store, id))
    ensures var after := FinalizeAll(store, ids, now);
            UniqueRecords(after.records) && |after.records| == |store.records|
            && id < |after.records| && Settled(after, id)
    decreases |ids|
  {
    if ids != [] {
      FinalizeEffect(store, ids[0], now);
      if id != ids[0] && id !in ids[1..] {
        SettledStays(store, ids[0], now, id);
      }
      FinalizeAllSettled(FinalizeRecord(store, ids[0], now), ids[1..], now, id);
    }
  }

  lemma {:induction false} RefinalizeSettled(store: Store, ids: seq<nat>, now: Seconds)
    requires UniqueRecords(store.records) && Indices(store.records, ids)
    requires forall i :: 0 <= i < |ids| ==> Settled(store, ids[i])
    ensures Equivalent(FinalizeAll(store, ids, now), store)
    ensures UniqueRecords(FinalizeAll(store, ids, now).records)
    decreases |ids|
  {
    if ids != [] {
      var next := FinalizeRecord(store, ids[0], now);
      FinalizeEffect(store, ids[0], now);
      SettledFinalize(store, ids[0], now);
      forall i | 0 <= i < |ids[1..]| ensures Settled(next, ids[1..][i]) {
        SettledStays(store, ids[0], now, ids[i + 1]);
      }
      RefinalizeSettled(next, ids[1..], now);
    }
  }

  lemma {:induction false} FinalizeAllSplit(store: Store, a: seq<nat>, b: seq<nat>, now: Seconds)
    requires UniqueRecords(store.records) && Indices(store.records, a) && Indices(store.records, b)
    ensures FinalizeAll(store, a + b, now) == FinalizeAll(FinalizeAll(store, a, now), b, now)
    decreases |a|
  {
    if a == [] {
      assert a + b == b;
    } else {
      assert (a + b)[1..] == a[1..] + b;
      FinalizeEffect(store, a[0], now);
      FinalizeAllSplit(FinalizeRecord(store, a[0], now), a[1..], b, now);
    }
  }

  lemma {:induction false} SameInsert(a: seq<Record>, b: seq<Record>, ids: seq<nat>, id: nat)
    requires |a| <= |b| && id < |a| && Indices(a, ids)
    requires forall i :: 0 <= i < |a| ==> a[i].employee == b[i].employee
    ensures Indices(b, ids) && InsertByEmployee(a, ids, id) == InsertByEmployee(b, ids, id)
  {
    if ids != [] {
      SameInsert(a, b, ids[1..], id);
    }
  }

  lemma {:induction false} SameDayList(a: seq<Record>, b: seq<Record>, date: Day)
    requires |a| == |b|
    requires forall i :: 0 <= i < |a| ==> a[i].employee == b[i].employee && a[i].date == b[i].date
    ensures ListByDate(a, date) == ListByDate(b, date)
  {
    if a != [] {
      var last := |a| - 1;
      SameDayList(a[..last], b[..last], date);
      SameInsert(a, b, ListByDate(a[..last], date), last);
    }
  }

  /** A run that stopped after `k` records and a later run leave what one uninterrupted run leaves. */
  lemma ResumesExactly(store: Store, date: Day, k: nat, stopped: Seconds, resumed: Seconds, straight: Seconds)
    requires UniqueRecords(store.records) && k <= |ListByDate(store.records, date)|
    ensures var ids := ListByDate(store.records, date);
            var partial := FinalizeAll(store, ids[..k], stopped);
            && ListByDate(partial.records, date) == ids
            && Indices(partial.records, ids)
            && Equivalent(FinalizeAll(partial, ids, resumed), FinalizeAll(store, ids, straight))
  {
    var ids := ListByDate(store.records, date);
    var done, rest := ids[..k], ids[k..];
    assert done + rest == ids;
    assert Indices(store.records, done) && Indices(store.records, rest);
    var partial := FinalizeAll(store, done, stopped);
    FinalizeAllFrame(store, done, stopped);
    FinalizeAllFrame(store, done, straight);
    assert forall i :: 0 <= i < |store.records| ==> OnlyStatuses(store.records[i], partial.records[i]);
    SameDayList(store.records, partial.records, date);
    forall i | 0 <= i < |done| ensures Settled(partial, done[i]) {
      FinalizeAllSettled(store, done, stopped, done[i]);
    }
    RefinalizeSettled(partial, done, resumed);
    FinalizeAllSplit(partial, done, rest, resumed);
    FinalizeAllRespects(store, store, done, stopped, straight);
    FinalizeAllSplit(store, done, rest, straight);
    EquivalentTail(FinalizeAll(partial, done, resumed), partial, FinalizeAll(store, done, straight), rest, resumed, straight);
  }

  lemma EquivalentTail(a: Store, b: Store, c: Store, ids: seq<nat>, nowA: Seconds, nowC: Seconds)
    requires UniqueRecords(a.records) && UniqueRecords(b.records) && UniqueRecords(c.records)
    requires Equivalent(a, b) && Equivalent(b, c) && Indices(a.records, ids)
    ensures Equivalent(FinalizeAll(a, ids, nowA), FinalizeAll(c, ids, nowC))
  {
    forall i | 0 <= i < |a.records| ensures Erased(a.records[i]) == Erased(c.records[i]) {
      assert Erased(a.records[i]) == Erased(b.records[i]);
    }
    FinalizeAllRespects(a, c, ids, nowA, nowC);
  }

  /** The whole state: stop after `k` records without a run row, then run past the cutoff. */
  lemma RunResumesExactly(
    s: DayEndState, date: Day, k: nat, stopped: Seconds, cutoff: Seconds, text: string, resumed: Seconds, straight: Seconds)
    requires UniqueRecords(s.store.records) && UniqueRunDates(s.runs) && !HasRun(s.runs, date)
    requires k <= |ListByDate(s.store.records, date)|
    requires cutoff <= resumed && cutoff <= straight
    ensures var ids := ListByDate(s.store.records, date);
            var partial := s.(store := FinalizeAll(s.store, ids[..k], stopped));
            var after := RunDayEnd(partial, date, cutoff, text, resumed);
            var reference := RunDayEnd(s, date, cutoff, text, straight);
            && Equivalent(after.store, reference.store)
            && after.runs == s.runs + [DayEndRun(date, text, resumed)]
            && reference.runs == s.runs + [DayEndRun(date, text, straight)]
  {
    ResumesExactly(s.store, date, k, stopped, resumed, straight);
  }

  /** Once the run row exists, no later run of that date changes anything. */
  lemma LaterRunsChangeNothing(
    s: DayEndState, date: Day, cutoff: Seconds, text: string, now: Seconds,
    laterCutoff: Seconds, laterText: string, later: Seconds)
    requires cutoff <= now
    ensures var after := RunDayEnd(s, date, cutoff, text, now);
            RunDayEnd(after, date, laterCutoff, laterText, later) == after
  {
    var saved := SaveRun(s.runs, DayEndRun(date, text, now));
    assert saved.rows[saved.id].date == date;
  }
}
