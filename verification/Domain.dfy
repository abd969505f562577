/**
  The entities of the attendance outbox.  A row of a table is identified by its
  position in the table, so row ids grow in insertion order as AUTO_INCREMENT ids do.
  Times are whole Unix seconds and dates are day numbers counted from 0000-01-01.
 */
module Domain {
  import opened Wrappers

  type Seconds = int
  type Nanos = int
  type Day = int
  type FlowId = nat

  /** The width of the unsigned counters `Version`, `RetryCount` and `NotificationRetryCount`. */
  const U32 := 0x1_0000_0000

  datatype ReportType = ClockIn | ClockOut

  datatype EventKind = Connect | Disconnect | OtherKind

  /** What a syslog rule extracts from a message. */
  datatype Event = Event(mac: string, date: Day, time: Seconds, kind: EventKind)

  datatype ClockInStatus = InPending | InDone

  datatype ClockOutStatus = OutBlank | OutPending | OutMissing | OutDone

  datatype ExceptionStatus = ExceptionBlank | NoException | MissingDisconnect

  datatype SourceMode = FromSyslog | FromManual

  datatype Record = Record(
    employee: nat,
    date: Day,
    first: Option<Seconds>,
    last: Option<Seconds>,
    clockIn: ClockInStatus,
    clockOut: ClockOutStatus,
    exception: ExceptionStatus,
    source: SourceMode,
    version: nat,
    calculatedAt: Option<Seconds>)

  /** The parts of an idempotency key; module ReportKeys prints it as text. */
  datatype Key =
    | TimedKey(employee: nat, date: Day, rtype: ReportType, time: Seconds, version: nat)
    | ClearKey(employee: nat, date: Day, rtype: ReportType, version: nat)
    | ManualKey(employee: nat, date: Day, rtype: ReportType, time: Seconds, version: nat, requestedAt: Nanos)

  /** What the dispatcher decodes from a stored payload; module Timestamps defines the decoding. */
  datatype Body = Clear | At(time: Seconds) | BadTimestamp | Malformed

  datatype ReportStatus = Pending | Failed | Done

  datatype NotificationStatus = NotifyBlank | NotifyPending | NotifySkipped | NotifyFailed | NotifySent

  datatype Report = Report(
    recordId: nat,
    rtype: ReportType,
    key: Key,
    employee: nat,
    body: Body,
    external: Option<FlowId>,
    deleteId: Option<FlowId>,
    status: ReportStatus,
    retries: nat,
    notification: NotificationStatus,
    notifyRetries: nat)

  /** A completed finalization of one business date. */
  datatype DayEndRun = DayEndRun(date: Day, cutoffText: string, executedAt: Seconds)

  /** Two reports about the same field of the same attendance record. */
  predicate SameStream(a: Report, b: Report) {
    a.recordId == b.recordId && a.rtype == b.rtype
  }

  /** The columns that are written once, when a report is queued. */
  predicate SameCore(a: Report, b: Report) {
    && SameStream(a, b)
    && a.key == b.key
    && a.employee == b.employee
    && a.body == b.body
  }

  /** An attendance flow held by the remote service, with the stream it was created for. */
  datatype Flow = Flow(recordId: nat, rtype: ReportType, employee: nat, checkTime: Seconds)

  datatype Remote = Remote(live: map<FlowId, Flow>, issued: set<FlowId>)

  function FlowFor(report: Report, checkTime: Seconds): Flow {
    Flow(report.recordId, report.rtype, report.employee, checkTime)
  }
}
