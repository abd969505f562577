/** Manual correction of an attendance record. */
module AttendanceAdmin {
  import opened Wrappers
  import opened Domain
  import opened Tables
  import opened ReportService
  import opened Repositories

  /** An optional field of a request body: absent, null or a time. */
  datatype OptionalTimeField = OptionalTimeField(provided: bool, valid: bool, value: Option<Seconds>) {
    function Apply(existing: Option<Seconds>): Option<Seconds> {
      if !provided then existing
      else if !valid then None
      else value
    }
  }

  const Absent := OptionalTimeField(false, false, None)

  /** A JSON value given for a time field. */
  datatype JsonTime = JsonNull | JsonTime(time: Seconds) | JsonOther

  function UnmarshalJson(json: JsonTime): Result<OptionalTimeField, ()> {
    match json
    case JsonNull => Success(OptionalTimeField(true, false, None))
    case JsonTime(t) => Success(OptionalTimeField(true, true, Some(t)))
    case JsonOther => Failure(())
  }

  datatype CorrectionInput = CorrectionInput(first: OptionalTimeField, last: OptionalTimeField)

  datatype CorrectionError = TimestampRequired | RecordNotFound

  datatype Correction = Correction(store: Store, reports: seq<Report>)

  function CorrectedRecord(record: Record, input: CorrectionInput, now: Seconds): Record {
    var first := input.first.Apply(record.first);
    var last := input.last.Apply(record.last);
    record.(
    first := first,
    last := last,
    source := FromManual,
    version := (record.version + 1) % U32,
    calculatedAt := Some(now),
    clockIn := if first.Some? then InDone else InPending,
    clockOut := if last.Some? then OutDone else OutMissing,
    exception := if last.Some? then NoException else MissingDisconnect)
  }

  function CorrectionReportForField(
    reports: seq<Report>, id: nat, record: Record, rtype: ReportType,
    original: Option<Seconds>, input: OptionalTimeField): Option<Report>
  {
    if !input.provided then None
    else if input.valid then
      if input.value.None? || original == input.value then None
      else Some(CopyLatestDeleteId(reports, CreatePendingReport(id, record, rtype, input.value.value)))
    else if original.None? then None
    else Some(CopyLatestDeleteId(reports, CreateClearReport(id, record, rtype)))
  }

  function SaveOptional(reports: seq<Report>, report: Option<Report>): seq<Report> {
    match report
    case None => reports
    case Some(r) => SaveReport(reports, r)
  }

  function OptionalSeq(report: Option<Report>): seq<Report> {
    match report
    case None => []
    case Some(r) => [r]
  }

  /** The record is unchanged when both fields keep their times. */
  predicate KeepsTimes(record: Record, input: CorrectionInput) {
    input.first.Apply(record.first) == record.first && input.last.Apply(record.last) == record.last
  }

  function CorrectAttendance(store: Store, id: nat, input: CorrectionInput, now: Seconds)
    : Result<Correction, CorrectionError>
  {
    if !input.first.provided && !input.last.provided then Failure(TimestampRequired)
    else if id >= |store.records| then Failure(RecordNotFound)
    else
      var original := store.records[id];
      if KeepsTimes(original, input) then Success(Correction(store, []))
      else
        var record := CorrectedRecord(original, input, now);
        var saved := SaveRecord(store.records, record);
        var clockIn := CorrectionReportForField(store.reports, saved.id, record, ClockIn, original.first, input.first);
        var reports1 := SaveOptional(store.reports, clockIn);
        var clockOut := CorrectionReportForField(reports1, saved.id, record, ClockOut, original.last, input.last);
        var reports2 := SaveOptional(reports1, clockOut);
        Success(Correction(Store(saved.rows, reports2), OptionalSeq(clockIn) + OptionalSeq(clockOut)))
  }

  class AdminService {
    const attendance: AttendanceTable
    const reports: ReportTable

    constructor (attendance: AttendanceTable, reports: ReportTable)
      ensures this.attendance == attendance && this.reports == reports
    {
      this.attendance := attendance;
      this.reports := reports;
    }

    function Contents(): Store
      reads attendance, reports
    {
      Store(attendance.rows, reports.rows)
    }

    /** Queues the report of one corrected field; the deleted flow comes from the reports read before the call. */
    method QueueCorrection(id: nat, record: Record, rtype: ReportType, original: Option<Seconds>, input: OptionalTimeField)
      returns (queued: Option<Report>)
      modifies reports
      ensures queued == CorrectionReportForField(old(reports.rows), id, record, rtype, original, input)
      ensures reports.rows == SaveOptional(old(reports.rows), queued)
    {
      queued := CorrectionReportForField(reports.rows, id, record, rtype, original, input);
      if queued.Some? {
        var _ := reports.Save(queued.value);
      }
    }

    /** Both times are replaced, and the statuses and the version are recalculated from them. */
    static method Recalculate(record: Record, first: Option<Seconds>, last: Option<Seconds>, now: Seconds)
      returns (r: Record)
      ensures r == record.(
                   first := first, last := last, source := FromManual, version := (record.version + 1) % U32,
                   calculatedAt := Some(now),
                   clockIn := if first.Some? then InDone else InPending,
                   clockOut := if last.Some? then OutDone else OutMissing,
                   exception := if last.Some? then NoException else MissingDisconnect)
    {
      r := record.(first := first, last := last, source := FromManual);
      r := r.(version := (r.version + 1) % U32, calculatedAt := Some(now));
      r := r.(clockIn := InPending);
      if r.first.Some? {
        r := r.(clockIn := InDone);
      }
      r := r.(clockOut := OutMissing, exception := MissingDisconnect);
      if r.last.Some? {
        r := r.(clockOut := OutDone, exception := NoException);
      }
    }

    method Correct(id: nat, input: CorrectionInput, now: Seconds)
      returns (error: Option<CorrectionError>, queued: seq<Report>)
      modifies attendance, reports
      ensures match CorrectAttendance(old(Contents()), id, input, now)
              case Failure(e) => error == Some(e) && queued == [] && Contents() == old(Contents())
              case Success(correction) =>
                error == None && queued == correction.reports && Contents() == correction.store
    {
      error, queued := None, [];
      if !input.first.provided && !input.last.provided {
        error := Some(TimestampRequired);
        return;
      }
      if id >= |attendance.rows| {
        error := Some(RecordNotFound);
        return;
      }
      var record := attendance.rows[id];
      var originalFirst, originalLast := record.first, record.last;
      var nextFirst := input.first.Apply(originalFirst);
      var nextLast := input.last.Apply(originalLast);
      if originalFirst == nextFirst && originalLast == nextLast {
        return;
      }
      record := Recalculate(record, nextFirst, nextLast, now);
      assert record == CorrectedRecord(old(attendance.rows)[id], input, now);
      var savedId := attendance.Save(record);
      var clockIn := QueueCorrection(savedId, record, ClockIn, originalFirst, input.first);
      var clockOut := QueueCorrection(savedId, record, ClockOut, originalLast, input.last);
      queued := OptionalSeq(clockIn) + OptionalSeq(clockOut);
    }
  }
}
