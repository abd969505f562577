/** Aggregation of connect and disconnect events into one attendance record. */
module AttendanceProcessor {
  import opened Wrappers
  import opened Domain

  datatype Processed = Processed(record: Record, clockInNeedsReport: bool)

  /** Earliest connect, latest disconnect. */
  function ApplyEvent(record: Record, event: Event): Processed {
    match event.kind
    case Connect =>
      if record.first.None? || event.time < record.first.value
      then Processed(record.(first := Some(event.time)), true)
      else Processed(record, false)
    case Disconnect =>
      if record.last.None? || record.last.value < event.time
      then Processed(record.(last := Some(event.time)), false)
      else Processed(record, false)
    case OtherKind => Processed(record, false)
  }
}

/** Finalization of a record after the cutoff. */
module DayEndService {
  import opened Domain

  function FinalizeForDay(record: Record): Record {
    if record.last.None? then
      record.(clockOut := OutMissing, exception := MissingDisconnect)
    else
      record.(
      clockOut :=
        if record.clockOut in {OutBlank, OutPending, OutMissing} then OutDone else record.clockOut,
      exception :=
        if record.exception in {ExceptionBlank, MissingDisconnect} then NoException else record.exception)
  }
}

/** Construction of reports. */
module ReportService {
  import opened Wrappers
  import opened Domain
  import opened Tables

  function BuildKey(record: Record, rtype: ReportType, time: Seconds): Key {
    TimedKey(record.employee, record.date, rtype, time, record.version)
  }

  function CreatePendingReport(id: nat, record: Record, rtype: ReportType, time: Seconds): Report {
    Report(id, rtype, BuildKey(record, rtype, time), record.employee, At(time),
           None, None, Pending, 0, NotifyPending, 0)
  }

  function CreateManualPendingReport(
    id: nat, record: Record, rtype: ReportType, time: Seconds, requestedAt: Nanos): Report
  {
    CreatePendingReport(id, record, rtype, time).(
    key := ManualKey(record.employee, record.date, rtype, time, record.version, requestedAt))
  }

  function CreateClearReport(id: nat, record: Record, rtype: ReportType): Report {
    Report(id, rtype, ClearKey(record.employee, record.date, rtype, record.version), record.employee, Clear,
           None, None, Pending, 0, NotifySkipped, 0)
  }

  /** The new report takes over the flow of the latest successful report of its stream. */
  function CopyLatestDeleteId(reports: seq<Report>, report: Report): Report {
    match LatestSuccessful(reports, report.recordId, report.rtype)
    case Some(i) => report.(deleteId := reports[i].external)
    case None => report
  }
}
