/** The producers keep the invariant: they only append fresh reports and change one record. */
module OutboxProducers {
  import opened Wrappers
  import opened Domain
  import opened Tables
  import opened AttendanceProcessor
  import opened ReportService
  import opened SyslogPipeline
  import opened AttendanceAdmin
  import opened DayEndDispatcher
  import opened DebugAdmin
  import opened ReportDispatcher
  import opened Outbox
  import opened OutboxInvariant

  // ----- the common shape of a producer step -----

  /** The report takes over the flow of the latest successful report of its stream. */
  ghost predicate CopiesLatest(before: seq<Report>, row: Report) {
    match LatestSuccessful(before, row.recordId, row.rtype)
    case Some(k) => row.deleteId == before[k].external
    case None => row.deleteId.None?
  }

  /** A report as the producers queue it for the record at `id`. */
  ghost predicate QueuedRow(records: seq<Record>, before: seq<Report>, id: nat, row: Report) {
    && id < |records| && row.recordId == id
    && KeyMatches(records[id], row)
    && BodyMatches(row)
    && row.status == Pending && row.external.None? && row.retries == 0 && NotificationOk(row, 1)
    && (row.deleteId.Some? ==>
          exists k :: 0 <= k < |before| && SameStream(before[k], row) && before[k].external == row.deleteId)
  }

  /** A queued report that also replaces what the latest successful report of its stream created. */
  ghost predicate SuccessorRow(records: seq<Record>, before: seq<Report>, id: nat, row: Report) {
    QueuedRow(records, before, id, row) && CopiesLatest(before, row)
  }

  /** Every new report is to delete the flow of the latest successful report of its stream. */
  ghost predicate TakesOver(before: seq<Report>, after: seq<Report>) {
    forall i :: |before| <= i < |after| ==> CopiesLatest(before, after[i])
  }

  /** Only the record at `id` changes or appears; it keeps its identity and its version never falls. */
  ghost predicate RecordsShape(before: seq<Record>, after: seq<Record>, id: nat) {
    && |before| <= |after| && id < |after|
    && (|after| == |before| || (|after| == |before| + 1 && id == |before|))
    && (forall i :: 0 <= i < |before| && i != id ==> after[i] == before[i])
    && (id < |before| ==>
          && after[id].employee == before[id].employee && after[id].date == before[id].date
          && before[id].version <= after[id].version)
    && (id == |before| ==>
          forall i :: 0 <= i < |before| ==> before[i].employee != after[id].employee || before[i].date != after[id].date)
  }

  /** Existing reports are never overwritten; new ones are appended with fresh keys. */
  ghost predicate ProducerShape(before: Store, after: Store, id: nat) {
    && RecordsShape(before.records, after.records, id)
    && before.reports <= after.reports
    && UniqueKeys(after.reports)
    && (forall i :: |before.reports| <= i < |after.reports| ==>
                      QueuedRow(after.records, before.reports, id, after.reports[i]))
    && forall i, j :: |before.reports| <= i < j < |after.reports| ==>
                        after.reports[i].rtype != after.reports[j].rtype
  }

  lemma SaveRecordInPlace(rows: seq<Record>, id: nat, record: Record)
    requires UniqueRecords(rows) && id < |rows|
    requires record.employee == rows[id].employee && record.date == rows[id].date
    ensures SaveRecord(rows, record) == SavedRecord(rows[id := record], id)
  {
    FindRecordAt(rows, id);
  }

  lemma SaveFreshReport(rows: seq<Report>, report: Report)
    requires UniqueKeys(rows)
    requires forall i :: 0 <= i < |rows| ==> rows[i].key != report.key
    ensures SaveReport(rows, report) == rows + [report]
    ensures UniqueKeys(rows + [report])
  {
  }

  lemma CopiedDeleteId(rows: seq<Report>, report: Report)
    requires report.deleteId.None?
    ensures var copied := CopyLatestDeleteId(rows, report);
            && copied == report.(deleteId := copied.deleteId)
            && (copied.deleteId.Some? ==>
                  exists k :: 0 <= k < |rows| && SameStream(rows[k], report) && rows[k].external == copied.deleteId)
  {
  }

  /** A report as the constructors build it, before it takes over a flow. */
  predicate Built(record: Record, id: nat, report: Report) {
    && report.recordId == id && KeyMatches(record, report) && BodyMatches(report)
    && report.status == Pending && report.external.None? && report.deleteId.None? && report.retries == 0
    && NotificationOk(report, 1)
  }

  /** Copying the latest delete id and saving appends a well-formed row, provided the key is new. */
  lemma QueueFresh(records: seq<Record>, before: seq<Report>, rows: seq<Report>, id: nat, report: Report)
    requires id < |records| && Built(records[id], id, report) && before <= rows && UniqueKeys(rows)
    requires forall i :: |before| <= i < |rows| ==> rows[i].external.None?
    requires forall i :: 0 <= i < |rows| ==> rows[i].key != report.key
    ensures var copied := CopyLatestDeleteId(rows, report);
            && copied == report.(deleteId := copied.deleteId)
            && SuccessorRow(records, before, id, copied)
            && SaveReport(rows, copied) == rows + [copied]
            && UniqueKeys(rows + [copied])
  {
    var copied := CopyLatestDeleteId(rows, report);
    CopiedDeleteId(rows, report);
    SaveFreshReport(rows, copied);
    assert CopiesLatest(before, copied) by {
      LatestIgnoresUndelivered(before, rows, id, report.rtype);
    }
    if copied.deleteId.Some? {
      var k :| 0 <= k < |rows| && SameStream(rows[k], report) && rows[k].external == copied.deleteId;
      assert before[k] == rows[k];
    }
  }

  lemma LatestIgnoresUndelivered(before: seq<Report>, rows: seq<Report>, id: nat, rtype: ReportType)
    requires before <= rows && forall i :: |before| <= i < |rows| ==> rows[i].external.None?
    ensures LatestSuccessful(rows, id, rtype) == LatestSuccessful(before, id, rtype)
  {
    var latest := LatestSuccessful(before, id, rtype);
    if latest.Some? {
      assert Succeeded(rows[latest.value], id, rtype);
    }
  }

  // ----- what the shape alone keeps -----

  lemma ShapeKeepsReports(before: Store, after: Store, id: nat, limit: nat)
    requires ProducerShape(before, after, id) && 0 < limit
    requires ReportsOk(before.records, before.reports, limit)
    ensures ReportsOk(after.records, after.reports, limit)
  {
    var rows, rows' := before.reports, after.reports;
    forall i | 0 <= i < |rows'| ensures RowOk(after.records, rows'[i], limit) {
      if i < |rows| {
        assert RowOk(before.records, rows[i], limit);
      }
    }
    forall i, j | 0 <= i < j < |rows'| && rows'[i].external.Some?
      ensures rows'[i].external != rows'[j].external
    {
      assert i < |rows|;
    }
    forall j | 0 <= j < |rows'| ensures DeletesEarlier(rows', j) {
      if j < |rows| {
        assert DeletesEarlier(rows, j);
      }
    }
  }

  lemma ShapeKeepsRecords(before: Store, after: Store, id: nat)
    ensures ProducerShape(before, after, id) && UniqueRecords(before.records) ==> UniqueRecords(after.records)
  {
  }

  lemma ShapeKeepsRemote(before: Store, after: Store, id: nat, remote: Remote)
    requires ProducerShape(before, after, id) && RemoteOk(before.reports, remote)
    ensures RemoteOk(after.reports, remote)
  {
    var rows, rows' := before.reports, after.reports;
    forall i | 0 <= i < |rows'| ensures FlowOk(rows', remote, i) {
      if i < |rows| {
        assert FlowOk(rows, remote, i);
        if Superseded(rows, i) {
          var j :| i < j < |rows| && SameStream(rows[i], rows[j]);
          assert SameStream(rows'[i], rows'[j]);
        }
      }
    }
  }

  lemma ShapeKeepsWork(before: Store, after: Store, id: nat, remote: Remote, limit: nat, work: seq<Job>)
    requires ProducerShape(before, after, id)
    requires WorkOk(before.reports, remote, limit, work)
    ensures WorkOk(after.reports, remote, limit, work)
  {
    var rows, rows' := before.reports, after.reports;
    forall i | 0 <= i < |work| ensures JobOk(rows', remote, limit, work[i]) {
      assert JobOk(rows, remote, limit, work[i]);
      var k :| 0 <= k < |rows| && JobMatches(rows, remote, limit, rows[k], work[i]);
      assert rows'[k] == rows[k];
      assert JobMatches(rows', remote, limit, rows'[k], work[i]);
    }
  }

  // ----- replay -----

  lemma {:induction false} ReplayAppendOther(rows: seq<Report>, row: Report, id: nat, rtype: ReportType)
    ensures Replay(rows + [row], id, rtype) ==
            if row.recordId == id && row.rtype == rtype then BodyTime(row.body) else Replay(rows, id, rtype)
  {
    assert (rows + [row])[..|rows|] == rows;
  }

  /** Reports of other records do not disturb a record. */
  lemma {:induction false} ReplayOthers(rows: seq<Report>, more: seq<Report>, id: nat, rtype: ReportType)
    requires rows <= more
    requires forall i :: |rows| <= i < |more| ==> more[i].recordId != id
    ensures Replay(more, id, rtype) == Replay(rows, id, rtype)
    decreases |more|
  {
    if |rows| == |more| {
      assert rows == more;
    } else {
      ReplayOthers(rows, more[..|more| - 1], id, rtype);
    }
  }

  lemma OtherRecordOk(record: Record, id: nat, rows: seq<Report>, more: seq<Report>)
    requires RecordOk(record, id, rows) && rows <= more
    requires forall i :: |rows| <= i < |more| ==> more[i].recordId != id
    ensures RecordOk(record, id, more)
  {
    ReplayOthers(rows, more, id, ClockIn);
    ReplayOthers(rows, more, id, ClockOut);
    forall i | 0 <= i < |more| && more[i].recordId == id ensures i < |rows| && more[i] == rows[i] {
    }
  }

  /** A producer step keeps the store invariant once the record it touched is shown to be fine. */
  lemma ShapeKeepsStore(before: Store, after: Store, id: nat, limit: nat)
    requires StoreOk(before, limit) && ProducerShape(before, after, id) && 0 < limit
    requires RecordOk(after.records[id], id, after.reports)
    ensures StoreOk(after, limit)
  {
    ShapeKeepsRecords(before, after, id);
    ShapeKeepsReports(before, after, id, limit);
    forall other | 0 <= other < |after.records| ensures RecordOk(after.records[other], other, after.reports) {
      if other != id {
        OtherRecordOk(before.records[other], other, before.reports, after.reports);
      }
    }
  }

  // ----- the syslog pipeline -----

  /** A key names the record that its report belongs to. */
  lemma KeyOwner(store: Store, limit: nat, i: nat, id: nat)
    requires StoreOk(store, limit) && i < |store.reports| && id < |store.records|
    requires store.reports[i].key.employee == store.records[id].employee
    requires store.reports[i].key.date == store.records[id].date
    ensures store.reports[i].recordId == id
  {
    assert RowOk(store.records, store.reports[i], limit);
  }

  /** The record an event applies to, and the id it has or is going to get. */
  function TargetId(records: seq<Record>, employee: nat, date: Day): nat {
    match FindRecord(records, employee, date)
    case Some(i) => i
    case None => |records|
  }

  lemma {:induction false} ReplayNothing(rows: seq<Report>, id: nat, rtype: ReportType)
    requires forall i :: 0 <= i < |rows| ==> rows[i].recordId != id
    ensures Replay(rows, id, rtype).None?
  {
    if rows != [] {
      ReplayNothing(rows[..|rows| - 1], id, rtype);
    }
  }

  lemma LoadedRecordOk(store: Store, limit: nat, employee: nat, date: Day)
    requires StoreOk(store, limit)
    ensures var record := LoadRecord(store.records, employee, date);
            && record.employee == employee && record.date == date
            && RecordOk(record, TargetId(store.records, employee, date), store.reports)
  {
    var id := TargetId(store.records, employee, date);
    if id == |store.records| {
      forall i | 0 <= i < |store.reports| ensures store.reports[i].recordId != id {
        assert RowOk(store.records, store.reports[i], limit);
      }
      ReplayNothing(store.reports, id, ClockIn);
      ReplayNothing(store.reports, id, ClockOut);
    }
  }

  /** The key of an earlier connect was never used, so the pipeline always queues its report. */
  lemma ClockInKeyIsFresh(store: Store, limit: nat, employee: nat, event: Event)
    requires StoreOk(store, limit)
    requires ApplyEvent(LoadRecord(store.records, employee, event.date), event).clockInNeedsReport
    ensures var record := ApplyEvent(LoadRecord(store.records, employee, event.date), event).record;
            FindKey(store.reports, BuildKey(record, ClockIn, event.time)).None?
  {
    var record := ApplyEvent(LoadRecord(store.records, employee, event.date), event).record;
    LoadedRecordOk(store, limit, employee, event.date);
    var key := BuildKey(record, ClockIn, event.time);
    var found := FindKey(store.reports, key);
    if found.Some? {
      var row := store.reports[found.value];
      assert RowOk(store.records, row, limit);
      var id := TargetId(store.records, employee, event.date);
      if id < |store.records| {
        KeyOwner(store, limit, found.value, id);
        assert TimedNow(row, id, ClockIn, record.version);
      }
    }
  }

  lemma HandleRecordShape(store: Store, limit: nat, record: Record)
    requires StoreOk(store, limit)
    requires var id := TargetId(store.records, record.employee, record.date);
             id < |store.records| ==> store.records[id].version <= record.version
    ensures var id := TargetId(store.records, record.employee, record.date);
            var saved := SaveRecord(store.records, record);
            saved.id == id && id < |saved.rows| && saved.rows[id] == record
            && RecordsShape(store.records, saved.rows, id)
  {
  }

  /** What an event queues: the report of an earlier connect, or nothing. */
  function EventReports(id: nat, result: Processed, event: Event): seq<Report> {
    if result.clockInNeedsReport then [CreatePendingReport(id, result.record, ClockIn, event.time)] else []
  }

  lemma HandleEventAppends(store: Store, limit: nat, employee: nat, event: Event)
    requires StoreOk(store, limit)
    ensures var after := HandleEvent(store, employee, event);
            var id := TargetId(store.records, employee, event.date);
            var result := ApplyEvent(LoadRecord(store.records, employee, event.date), event);
            && after.records == SaveRecord(store.records, result.record).rows
            && id < |after.records| && after.records[id] == result.record
            && RecordsShape(store.records, after.records, id)
            && after.reports == store.reports + EventReports(id, result, event)
            && UniqueKeys(after.reports)
  {
    var id := TargetId(store.records, employee, event.date);
    var result := ApplyEvent(LoadRecord(store.records, employee, event.date), event);
    LoadedRecordOk(store, limit, employee, event.date);
    HandleRecordShape(store, limit, result.record);
    if result.clockInNeedsReport {
      ClockInKeyIsFresh(store, limit, employee, event);
      SaveFreshReport(store.reports, CreatePendingReport(id, result.record, ClockIn, event.time));
    } else {
      assert store.reports + [] == store.reports;
    }
  }

  /** The report of an earlier connect keeps replay and record in step. */
  lemma EventKeepsRecordOk(record: Record, id: nat, rows: seq<Report>, event: Event)
    requires RecordOk(record, id, rows)
    ensures var result := ApplyEvent(record, event);
            RecordOk(result.record, id, rows + EventReports(id, result, event))
  {
    var result := ApplyEvent(record, event);
    if result.clockInNeedsReport {
      var report := CreatePendingReport(id, result.record, ClockIn, event.time);
      ReplayAppendOther(rows, report, id, ClockIn);
      ReplayAppendOther(rows, report, id, ClockOut);
    } else {
      assert rows + EventReports(id, result, event) == rows;
    }
  }

  lemma EventShape(before: Store, after: Store, id: nat, result: Processed, event: Event)
    requires RecordsShape(before.records, after.records, id) && after.records[id] == result.record
    requires after.reports == before.reports + EventReports(id, result, event) && UniqueKeys(after.reports)
    ensures ProducerShape(before, after, id)
  {
  }

  lemma HandleEventOk(store: Store, limit: nat, employee: nat, event: Event)
    requires StoreOk(store, limit)
    ensures var after := HandleEvent(store, employee, event);
            var id := TargetId(store.records, employee, event.date);
            ProducerShape(store, after, id) && RecordOk(after.records[id], id, after.reports)
  {
    var after := HandleEvent(store, employee, event);
    var id := TargetId(store.records, employee, event.date);
    var loaded := LoadRecord(store.records, employee, event.date);
    HandleEventAppends(store, limit, employee, event);
    EventShape(store, after, id, ApplyEvent(loaded, event), event);
    LoadedRecordOk(store, limit, employee, event.date);
    EventKeepsRecordOk(loaded, id, store.reports, event);
  }

  // ----- manual correction -----

  /** What one corrected field queues, before it takes over a flow. */
  function CorrectionBuilt(id: nat, record: Record, rtype: ReportType, input: OptionalTimeField): Report
    requires input.valid ==> input.value.Some?
  {
    if input.valid then CreatePendingReport(id, record, rtype, input.value.value)
    else CreateClearReport(id, record, rtype)
  }

  /** One corrected field: a report is appended exactly when the stored time changes. */
  lemma CorrectionFieldOk(
    rows: seq<Report>, before: seq<Report>, records: seq<Record>, id: nat, rtype: ReportType,
    original: Option<Seconds>, input: OptionalTimeField)
    requires FromJson(input) && UniqueKeys(rows) && before <= rows && id < |records|
    requires forall i :: |before| <= i < |rows| ==> rows[i].external.None?
    requires forall i :: 0 <= i < |rows| ==>
                           rows[i].key.employee != records[id].employee || rows[i].key.date != records[id].date
                           || rows[i].key.rtype != rtype || rows[i].key.version < records[id].version
    ensures var queued := CorrectionReportForField(rows, id, records[id], rtype, original, input);
            var after := SaveOptional(rows, queued);
            && (queued.Some? <==> input.Apply(original) != original)
            && (queued.None? ==> after == rows)
            && (queued.Some? ==>
                  && after == rows + [queued.value]
                  && SuccessorRow(records, before, id, queued.value)
                  && queued.value.rtype == rtype
                  && BodyTime(queued.value.body) == input.Apply(original)
                  && queued.value.key.version == records[id].version
                  && !queued.value.key.ManualKey?)
            && UniqueKeys(after)
  {
    if CorrectionReportForField(rows, id, records[id], rtype, original, input).Some? {
      QueueFresh(records, before, rows, id, CorrectionBuilt(id, records[id], rtype, input));
    }
  }

  /** No key carries the identity of the record together with its version or a later one. */
  ghost predicate KeysBelow(rows: seq<Report>, record: Record) {
    forall i :: 0 <= i < |rows| && rows[i].key.employee == record.employee && rows[i].key.date == record.date ==>
                  rows[i].key.version < record.version
  }

  /** A raised version is new to the report table. */
  lemma RaisedVersionIsNew(store: Store, limit: nat, id: nat, record: Record)
    requires StoreOk(store, limit) && id < |store.records|
    requires record.employee == store.records[id].employee && record.date == store.records[id].date
    requires store.records[id].version < record.version
    ensures KeysBelow(store.reports, record)
  {
    forall i | 0 <= i < |store.reports|
      && store.reports[i].key.employee == record.employee && store.reports[i].key.date == record.date
      ensures store.reports[i].key.version < record.version
    {
      assert RowOk(store.records, store.reports[i], limit);
      KeyOwner(store, limit, i, id);
    }
  }

  /** The two saves of a correction append what the two fields queue. */
  lemma CorrectionAppends(rows0: seq<Report>, records: seq<Record>, id: nat, input: CorrectionInput, original: Record)
    requires id < |records| && UniqueKeys(rows0)
    requires FromJson(input.first) && FromJson(input.last)
    requires KeysBelow(rows0, records[id])
    ensures var record := records[id];
            var clockIn := CorrectionReportForField(rows0, id, record, ClockIn, original.first, input.first);
            var rows1 := SaveOptional(rows0, clockIn);
            var clockOut := CorrectionReportForField(rows1, id, record, ClockOut, original.last, input.last);
            var rows2 := SaveOptional(rows1, clockOut);
            && (clockIn.Some? <==> input.first.Apply(original.first) != original.first)
            && (clockOut.Some? <==> input.last.Apply(original.last) != original.last)
            && (clockIn.Some? ==>
                  && SuccessorRow(records, rows0, id, clockIn.value) && clockIn.value.rtype == ClockIn
                  && BodyTime(clockIn.value.body) == input.first.Apply(original.first))
            && (clockOut.Some? ==>
                  && SuccessorRow(records, rows0, id, clockOut.value) && clockOut.value.rtype == ClockOut
                  && BodyTime(clockOut.value.body) == input.last.Apply(original.last))
            && rows2 == rows0 + OptionalSeq(clockIn) + OptionalSeq(clockOut)
            && UniqueKeys(rows2)
            && (forall i :: |rows0| <= i < |rows2| ==> !rows2[i].key.ManualKey?)
  {
    var record := records[id];
    var clockIn := CorrectionReportForField(rows0, id, record, ClockIn, original.first, input.first);
    CorrectionFieldOk(rows0, rows0, records, id, ClockIn, original.first, input.first);
    var rows1 := SaveOptional(rows0, clockIn);
    assert rows1 == rows0 + OptionalSeq(clockIn);
    CorrectionFieldOk(rows1, rows0, records, id, ClockOut, original.last, input.last);
  }

  /** The shape of a step that changes one record in place and queues at most one report per field. */
  lemma InPlaceShape(store: Store, id: nat, record: Record, clockIn: Option<Report>, clockOut: Option<Report>)
    requires id < |store.records|
    requires record.employee == store.records[id].employee && record.date == store.records[id].date
    requires record.version >= store.records[id].version
    requires UniqueKeys(store.reports + OptionalSeq(clockIn) + OptionalSeq(clockOut))
    requires clockIn.Some? ==>
               SuccessorRow(store.records[id := record], store.reports, id, clockIn.value) && clockIn.value.rtype == ClockIn
    requires clockOut.Some? ==>
               SuccessorRow(store.records[id := record], store.reports, id, clockOut.value) && clockOut.value.rtype == ClockOut
    ensures ProducerShape(
              store, Store(store.records[id := record], store.reports + OptionalSeq(clockIn) + OptionalSeq(clockOut)), id)
    ensures TakesOver(store.reports, store.reports + OptionalSeq(clockIn) + OptionalSeq(clockOut))
  {
  }

  /** Every report of the record is older than the given version. */
  ghost predicate AllOlder(rows: seq<Report>, id: nat, version: nat) {
    forall i :: 0 <= i < |rows| && rows[i].recordId == id ==> rows[i].key.version < version
  }

  lemma ReplayAppendOptional(rows: seq<Report>, queued: Option<Report>, id: nat, rtype: ReportType)
    ensures Replay(rows + OptionalSeq(queued), id, rtype) ==
            if queued.Some? && queued.value.recordId == id && queued.value.rtype == rtype
            then BodyTime(queued.value.body) else Replay(rows, id, rtype)
  {
    if queued.Some? {
      ReplayAppendOther(rows, queued.value, id, rtype);
    } else {
      assert rows + [] == rows;
    }
  }

  /** The report of one field, if the field changed, carries its new time. */
  predicate ReportsField(
    queued: Option<Report>, id: nat, rtype: ReportType, before: Option<Seconds>, after: Option<Seconds>)
  {
    if queued.None? then after == before
    else queued.value.recordId == id && queued.value.rtype == rtype
         && BodyMatches(queued.value) && BodyTime(queued.value.body) == after
  }

  lemma CorrectedRecordOk(
    original: Record, rows: seq<Report>, id: nat, record: Record, clockIn: Option<Report>, clockOut: Option<Report>)
    requires RecordOk(original, id, rows) && AllOlder(rows, id, record.version) && StatusOk(record)
    requires ReportsField(clockIn, id, ClockIn, original.first, record.first)
    requires ReportsField(clockOut, id, ClockOut, original.last, record.last)
    ensures RecordOk(record, id, rows + OptionalSeq(clockIn) + OptionalSeq(clockOut))
  {
    var rows1 := rows + OptionalSeq(clockIn);
    var rows2 := rows1 + OptionalSeq(clockOut);
    ReplayAppendOptional(rows, clockIn, id, ClockIn);
    ReplayAppendOptional(rows, clockIn, id, ClockOut);
    ReplayAppendOptional(rows1, clockOut, id, ClockIn);
    ReplayAppendOptional(rows1, clockOut, id, ClockOut);
    forall i | 0 <= i < |rows2|
      ensures TimedNow(rows2[i], id, ClockIn, record.version) ==> clockIn.Some? && rows2[i] == clockIn.value
      ensures TimedNow(rows2[i], id, ClockOut, record.version) ==> clockOut.Some? && rows2[i] == clockOut.value
    {
      if i < |rows| {
        assert rows2[i] == rows[i];
      }
    }
  }

  lemma ReportsAreOlder(store: Store, limit: nat, id: nat, version: nat)
    requires StoreOk(store, limit) && id < |store.records| && store.records[id].version < version
    ensures AllOlder(store.reports, id, version)
  {
    forall i | 0 <= i < |store.reports| && store.reports[i].recordId == id
      ensures store.reports[i].key.version < version
    {
      assert RowOk(store.records, store.reports[i], limit);
    }
  }

  /** The reports of the fields of a corrected record: well formed, fresh, and carrying the new times. */
  ghost predicate Corrects(store: Store, id: nat, record: Record, clockIn: Option<Report>, clockOut: Option<Report>) {
    && id < |store.records|
    && record.employee == store.records[id].employee && record.date == store.records[id].date
    && record.version > store.records[id].version && StatusOk(record)
    && UniqueKeys(store.reports + OptionalSeq(clockIn) + OptionalSeq(clockOut))
    && (clockIn.Some? ==>
          && SuccessorRow(store.records[id := record], store.reports, id, clockIn.value)
          && clockIn.value.rtype == ClockIn && !clockIn.value.key.ManualKey?)
    && (clockOut.Some? ==>
          && SuccessorRow(store.records[id := record], store.reports, id, clockOut.value)
          && clockOut.value.rtype == ClockOut && !clockOut.value.key.ManualKey?)
    && (clockIn.Some? <==> record.first != store.records[id].first)
    && (clockOut.Some? <==> record.last != store.records[id].last)
    && ReportsField(clockIn, id, ClockIn, store.records[id].first, record.first)
    && ReportsField(clockOut, id, ClockOut, store.records[id].last, record.last)
  }

  /** The store after a correction that changes a time, in terms of what the two fields queue. */
  lemma CorrectionStore(store: Store, id: nat, input: CorrectionInput, now: Seconds)
    returns (clockIn: Option<Report>, clockOut: Option<Report>)
    requires id < |store.records| && store.records[id].version + 1 < U32
    requires UniqueRecords(store.records) && UniqueKeys(store.reports)
    requires KeysBelow(store.reports, CorrectedRecord(store.records[id], input, now))
    requires FromJson(input.first) && FromJson(input.last) && !KeepsTimes(store.records[id], input)
    requires input.first.provided || input.last.provided
    ensures var record := CorrectedRecord(store.records[id], input, now);
            && CorrectAttendance(store, id, input, now)
               == Success(Correction(Store(store.records[id := record],
                                           store.reports + OptionalSeq(clockIn) + OptionalSeq(clockOut)),
                                     OptionalSeq(clockIn) + OptionalSeq(clockOut)))
            && Corrects(store, id, record, clockIn, clockOut)
  {
    var original := store.records[id];
    var record := CorrectedRecord(original, input, now);
    SaveRecordInPlace(store.records, id, record);
    CorrectionAppends(store.reports, store.records[id := record], id, input, original);
    clockIn := CorrectionReportForField(store.reports, id, record, ClockIn, original.first, input.first);
    var rows1 := SaveOptional(store.reports, clockIn);
    clockOut := CorrectionReportForField(rows1, id, record, ClockOut, original.last, input.last);
  }

  /** What a producer has to show for a store: its shape, the record it touched, and the flows it takes over. */
  ghost predicate ProducedOk(before: Store, after: Store, id: nat) {
    && ProducerShape(before, after, id) && RecordOk(after.records[id], id, after.reports)
    && TakesOver(before.reports, after.reports)
  }

  ghost predicate NoNewManualKey(before: seq<Report>, after: seq<Report>) {
    forall i :: |before| <= i < |after| ==> !after[i].key.ManualKey?
  }

  lemma CorrectedOk(store: Store, id: nat, record: Record, clockIn: Option<Report>, clockOut: Option<Report>)
    requires Corrects(store, id, record, clockIn, clockOut)
    requires RecordOk(store.records[id], id, store.reports) && AllOlder(store.reports, id, record.version)
    ensures var after := Store(store.records[id := record], store.reports + OptionalSeq(clockIn) + OptionalSeq(clockOut));
            ProducedOk(store, after, id) && NoNewManualKey(store.reports, after.reports)
  {
    InPlaceShape(store, id, record, clockIn, clockOut);
    CorrectedRecordOk(store.records[id], store.reports, id, record, clockIn, clockOut);
  }

  lemma CorrectAttendanceOk(store: Store, limit: nat, id: nat, input: CorrectionInput, now: Seconds)
    requires StoreOk(store, limit) && id < |store.records| && store.records[id].version + 1 < U32
    requires FromJson(input.first) && FromJson(input.last)
    requires CorrectAttendance(store, id, input, now).Success?
    ensures var after := CorrectAttendance(store, id, input, now).value.store;
            if KeepsTimes(store.records[id], input) then after == store
            else ProducedOk(store, after, id) && NoNewManualKey(store.reports, after.reports)
  {
    if !KeepsTimes(store.records[id], input) {
      var record := CorrectedRecord(store.records[id], input, now);
      RaisedVersionIsNew(store, limit, id, record);
      var clockIn, clockOut := CorrectionStore(store, id, input, now);
      ReportsAreOlder(store, limit, id, record.version);
      CorrectedOk(store, id, record, clockIn, clockOut);
    }
  }

  // ----- day-end finalization -----

  lemma FinalizedRecordOk(record: Record, id: nat, rows: seq<Report>, queued: Option<Report>)
    requires RecordOk(record, id, rows)
    requires queued.Some? ==>
               && record.last.Some? && queued.value.recordId == id && queued.value.rtype == ClockOut
               && queued.value.body == At(record.last.value) && queued.value.key.TimedKey?
               && queued.value.key.time == record.last.value
    ensures forall now: Seconds :: RecordOk(Finalized(record, now), id, rows + OptionalSeq(queued))
  {
    if queued.Some? {
      ReplayAppendOther(rows, queued.value, id, ClockIn);
      ReplayAppendOther(rows, queued.value, id, ClockOut);
    } else {
      assert rows + OptionalSeq(queued) == rows;
    }
  }

  /** What finalization queues follows the last disconnect and copies the latest successful flow. */
  lemma ClockOutReportOk(records: seq<Record>, rows: seq<Report>, id: nat, record: Record)
    requires id < |records| && records[id] == record && UniqueKeys(rows)
    ensures var queued := ClockOutReport(rows, id, record);
            && UniqueKeys(rows + OptionalSeq(queued))
            && (queued.Some? ==>
                  && SuccessorRow(records, rows, id, queued.value) && queued.value.rtype == ClockOut
                  && queued.value.key == BuildKey(record, ClockOut, record.last.value)
                  && SaveReport(rows, queued.value) == rows + OptionalSeq(queued))
  {
    if ClockOutReport(rows, id, record).Some? {
      QueueFresh(records, rows, rows, id, CreatePendingReport(id, record, ClockOut, record.last.value));
    } else {
      assert rows + [] == rows;
    }
  }

  lemma FinalizeAppends(store: Store, id: nat, now: Seconds)
    requires UniqueRecords(store.records) && UniqueKeys(store.reports) && id < |store.records|
    ensures var finalized := Finalized(store.records[id], now);
            var queued := ClockOutReport(store.reports, id, finalized);
            FinalizeRecord(store, id, now)
            == Store(store.records[id := finalized], store.reports + OptionalSeq(queued))
  {
    var finalized := Finalized(store.records[id], now);
    SaveRecordInPlace(store.records, id, finalized);
    ClockOutReportOk(store.records[id := finalized], store.reports, id, finalized);
    assert store.reports + [] == store.reports;
  }

  lemma FinalizeRecordOk(store: Store, limit: nat, id: nat, now: Seconds)
    requires StoreOk(store, limit) && id < |store.records|
    ensures var after := FinalizeRecord(store, id, now);
            var queued := ClockOutReport(store.reports, id, Finalized(store.records[id], now));
            && after.records == store.records[id := Finalized(store.records[id], now)]
            && after.reports == store.reports + OptionalSeq(queued)
            && ProducedOk(store, after, id)
            && (queued.Some? ==> !queued.value.key.ManualKey?)
  {
    var finalized := Finalized(store.records[id], now);
    var queued := ClockOutReport(store.reports, id, finalized);
    FinalizeAppends(store, id, now);
    ClockOutReportOk(store.records[id := finalized], store.reports, id, finalized);
    assert store.reports + [] == store.reports;
    InPlaceShape(store, id, finalized, None, queued);
    assert RecordOk(store.records[id], id, store.reports);
    FinalizedRecordOk(store.records[id], id, store.reports, queued);
  }

  // ----- debug re-send -----

  /** A fresh report that repeats the current time of its field leaves the record fine. */
  lemma ResendKeepsRecordOk(record: Record, id: nat, rows: seq<Report>, report: Report)
    requires RecordOk(record, id, rows)
    requires report.recordId == id && report.key.ManualKey? && BodyMatches(report)
    requires RelevantTime(record, report.rtype) == Some(report.key.time)
    ensures RecordOk(record, id, rows + [report])
  {
    ReplayAppendOther(rows, report, id, ClockIn);
    ReplayAppendOther(rows, report, id, ClockOut);
  }

  lemma ManualReportOk(store: Store, limit: nat, clock: Nanos, id: nat, rtype: ReportType, requestedAt: Nanos)
    requires StoreOk(store, limit) && ClockOk(store.reports, clock) && clock < requestedAt
    requires ManualReport(store, id, rtype, requestedAt).Success?
    ensures var report := ManualReport(store, id, rtype, requestedAt).value;
            var after := store.(reports := SaveReport(store.reports, report));
            && after.reports == store.reports + [report]
            && ProducedOk(store, after, id)
            && report.key.ManualKey? && report.key.requestedAt == requestedAt
  {
    var record := store.records[id];
    var time := RelevantTime(record, rtype).value;
    var report := ManualReport(store, id, rtype, requestedAt).value;
    QueueFresh(store.records, store.reports, store.reports, id,
               CreateManualPendingReport(id, record, rtype, time, requestedAt));
    ResendKeepsRecordOk(record, id, store.reports, report);
  }
}
