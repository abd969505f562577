/** A correction queues reports for exactly the fields whose stored time changed, once. */
module CorrectionProofs {
  import opened Wrappers
  import opened Domain
  import opened Tables
  import opened ReportService
  import opened AttendanceAdmin
  import opened Outbox
  import opened OutboxInvariant
  import opened OutboxProducers

  /** A decoded request field never claims a time that it does not carry. */
  lemma DecodedFields(json: JsonTime)
    ensures UnmarshalJson(json).Success? ==> FromJson(UnmarshalJson(json).value) && UnmarshalJson(json).value.provided
    ensures FromJson(Absent)
    ensures UnmarshalJson(json).Failure? <==> json.JsonOther?
    ensures forall stored :: Absent.Apply(stored) == stored
    ensures forall stored :: json.JsonNull? ==> UnmarshalJson(json).value.Apply(stored) == None
    ensures forall stored :: json.JsonTime? ==> UnmarshalJson(json).value.Apply(stored) == Some(json.time)
  {
  }

  /** The report that a changed field must get. */
  ghost predicate ReportsChange(report: Report, id: nat, record: Record, rtype: ReportType, time: Option<Seconds>) {
    && report.recordId == id && report.rtype == rtype && report.status == Pending
    && report.key.version == record.version
    && report.body == (match time case Some(t) => At(t) case None => Clear)
    && report.notification == (if time.Some? then NotifyPending else NotifySkipped)
  }

  /** The queued reports are those of the changed fields, clock-in first. */
  ghost predicate QueuedForChanges(original: Record, record: Record, id: nat, queued: seq<Report>) {
    var firstChanged := record.first != original.first;
    var lastChanged := record.last != original.last;
    && |queued| == (if firstChanged then 1 else 0) + (if lastChanged then 1 else 0)
    && (firstChanged ==> ReportsChange(queued[0], id, record, ClockIn, record.first))
    && (lastChanged ==> ReportsChange(queued[|queued| - 1], id, record, ClockOut, record.last))
  }

  lemma ChangingCorrection(store: Store, id: nat, input: CorrectionInput, record: Record)
    requires id < |store.records| && UniqueKeys(store.reports)
    requires record.employee == store.records[id].employee && record.date == store.records[id].date
    requires KeysBelow(store.reports, record)
    requires FromJson(input.first) && FromJson(input.last)
    requires record.first == input.first.Apply(store.records[id].first)
    requires record.last == input.last.Apply(store.records[id].last)
    ensures var original := store.records[id];
            var clockIn := CorrectionReportForField(store.reports, id, record, ClockIn, original.first, input.first);
            var rows1 := SaveOptional(store.reports, clockIn);
            var clockOut := CorrectionReportForField(rows1, id, record, ClockOut, original.last, input.last);
            var queued := OptionalSeq(clockIn) + OptionalSeq(clockOut);
            && SaveOptional(rows1, clockOut) == store.reports + queued
            && QueuedForChanges(original, record, id, queued)
  {
    var original := store.records[id];
    CorrectionAppends(store.reports, store.records[id := record], id, input, original);
    var clockIn := CorrectionReportForField(store.reports, id, record, ClockIn, original.first, input.first);
  }

  /** A corrected record shows what its two times say. */
  predicate StatusesFollow(record: Record) {
    && record.source == FromManual
    && (record.clockIn == InDone <==> record.first.Some?)
    && (record.clockOut == OutDone <==> record.last.Some?)
    && (record.clockOut == OutMissing <==> record.last.None?)
    && (record.exception == MissingDisconnect <==> record.last.None?)
    && (record.exception == NoException <==> record.last.Some?)
  }

  /** Only the record changes, its fields as asked; nothing else is written unless a time changes. */
  ghost predicate CorrectionEffect(store: Store, correction: Correction, id: nat, input: CorrectionInput, now: Seconds)
    requires id < |store.records|
  {
    var original, after := store.records[id], correction.store;
    && |after.records| == |store.records|
    && (forall i :: 0 <= i < |store.records| && i != id ==> after.records[i] == store.records[i])
    && after.records[id].first == input.first.Apply(original.first)
    && after.records[id].last == input.last.Apply(original.last)
    && after.reports == store.reports + correction.reports
    && QueuedForChanges(original, after.records[id], id, correction.reports)
    && (if after.records[id].first == original.first && after.records[id].last == original.last then after == store
        else && after.records[id].version == original.version + 1 && StatusesFollow(after.records[id])
             && after.records[id].calculatedAt == Some(now)
             && after.records[id].employee == original.employee && after.records[id].date == original.date)
  }

  lemma ChangedEffect(store: Store, id: nat, input: CorrectionInput, now: Seconds)
    requires id < |store.records| && UniqueRecords(store.records) && UniqueKeys(store.reports)
    requires KeysBelow(store.reports, CorrectedRecord(store.records[id], input, now))
    requires store.records[id].version + 1 < U32 && !KeepsTimes(store.records[id], input)
    requires FromJson(input.first) && FromJson(input.last)
    ensures CorrectAttendance(store, id, input, now).Success?
    ensures CorrectionEffect(store, CorrectAttendance(store, id, input, now).value, id, input, now)
  {
    var record := CorrectedRecord(store.records[id], input, now);
    SaveRecordInPlace(store.records, id, record);
    ChangingCorrection(store, id, input, record);
  }

  /** A correction reports exactly the changed fields and raises the version iff some field changed. */
  lemma CorrectionIsExact(store: Store, limit: nat, id: nat, input: CorrectionInput, now: Seconds)
    requires StoreOk(store, limit) && id < |store.records| && store.records[id].version + 1 < U32
    requires FromJson(input.first) && FromJson(input.last)
    requires input.first.provided || input.last.provided
    ensures CorrectAttendance(store, id, input, now).Success?
    ensures CorrectionEffect(store, CorrectAttendance(store, id, input, now).value, id, input, now)
  {
    if KeepsTimes(store.records[id], input) {
      assert store.reports + [] == store.reports;
    } else {
      RaisedVersionIsNew(store, limit, id, CorrectedRecord(store.records[id], input, now));
      ChangedEffect(store, id, input, now);
    }
  }

  /** The two errors: no field is given, or fields are given for a record that does not exist. */
  lemma CorrectionFailsIff(store: Store, id: nat, input: CorrectionInput, now: Seconds)
    ensures var result, given := CorrectAttendance(store, id, input, now), input.first.provided || input.last.provided;
            && (result == Failure(CorrectionError.TimestampRequired) <==> !given)
            && (result == Failure(RecordNotFound) <==> given && id >= |store.records|)
            && (result.Success? <==> given && id < |store.records|)
  {
  }

  /** Repeating a correction is a no-op. */
  lemma CorrectionIsIdempotent(
    store: Store, limit: nat, id: nat, input: CorrectionInput, now: Seconds, later: Seconds)
    requires StoreOk(store, limit) && id < |store.records| && store.records[id].version + 1 < U32
    requires FromJson(input.first) && FromJson(input.last)
    requires CorrectAttendance(store, id, input, now).Success?
    ensures var after := CorrectAttendance(store, id, input, now).value.store;
            CorrectAttendance(after, id, input, later) == Success(Correction(after, []))
  {
    CorrectionIsExact(store, limit, id, input, now);
  }

  /** Exactly when one field is reported faithfully: all inputs but a valid field without a time over a stored time. */
  lemma FieldIsReportedIff(
    rows: seq<Report>, id: nat, record: Record, rtype: ReportType, original: Option<Seconds>, input: OptionalTimeField)
    ensures (CorrectionReportForField(rows, id, record, rtype, original, input).Some? <==> input.Apply(original) != original)
            <==> !(input.provided && input.valid && input.value.None? && original.Some?)
  {
  }

  /** The excluded input is a real one: the stored time disappears and no report says so. */
  lemma SilentRemoval()
    ensures exists store: Store, input: CorrectionInput ::
              && StoreOk(store, 1) && |store.records| == 1 && store.records[0].first.Some?
              && var result := CorrectAttendance(store, 0, input, 0);
              && result.Success? && result.value.reports == []
              && |result.value.store.records| == 1 && result.value.store.records[0].first.None?
  {
    var record := Record(1, 0, Some(100), None, InPending, OutPending, NoException, FromSyslog, 1, None);
    var report := CreatePendingReport(0, record, ClockIn, 100);
    var store := Store([record], [report]);
    var input := CorrectionInput(OptionalTimeField(true, true, None), Absent);
    assert Replay(store.reports[..0], 0, ClockOut).None?;
    assert Replay(store.reports, 0, ClockOut).None?;
    assert RecordOk(record, 0, store.reports);
    assert StoreOk(store, 1);
    SaveRecordInPlace(store.records, 0, CorrectedRecord(record, input, 0));
    assert CorrectAttendance(store, 0, input, 0).value.reports == [];
  }
}
