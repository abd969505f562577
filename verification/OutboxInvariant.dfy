/** What holds of the outbox in every reachable state. */
module OutboxInvariant {
  import opened Wrappers
  import opened Domain
  import opened Tables
  import opened ReportDispatcher
  import opened Outbox

  function BodyTime(body: Body): Option<Seconds> {
    match body
    case At(time) => Some(time)
    case _ => None
  }

  /** Replays the reports of one stream in id order: a timestamp sets the value, a clear unsets it. */
  function Replay(rows: seq<Report>, recordId: nat, rtype: ReportType): Option<Seconds> {
    if rows == [] then None
    else
      var last := rows[|rows| - 1];
      if last.recordId == recordId && last.rtype == rtype then BodyTime(last.body)
      else Replay(rows[..|rows| - 1], recordId, rtype)
  }

  // ----- single rows -----

  predicate BodyMatches(row: Report) {
    match row.key
    case TimedKey(_, _, _, time, _) => row.body == At(time)
    case ManualKey(_, _, _, time, _, _) => row.body == At(time)
    case ClearKey(_, _, _, _) => row.body == Clear
  }

  predicate KeyMatches(record: Record, row: Report) {
    && row.employee == record.employee
    && row.key.employee == record.employee
    && row.key.date == record.date
    && row.key.rtype == row.rtype
    && row.key.version <= record.version
  }

  predicate RowOk(records: seq<Record>, row: Report, limit: nat) {
    && row.recordId < |records|
    && KeyMatches(records[row.recordId], row)
    && BodyMatches(row)
    && (row.external.Some? <==> row.status == Done && row.body.At?)
    && (row.status == Done ==> row.deleteId.None? && row.retries < limit)
    && RetriesOk(row, limit)
    && NotificationOk(row, limit)
  }

  /** A report is pending before its first attempt and failed after an unsuccessful one. */
  predicate RetriesOk(row: Report, limit: nat) {
    && row.retries <= limit
    && (row.status == Pending ==> row.retries == 0)
    && (row.status == Failed ==> row.retries > 0)
  }

  /** Nobody is notified of a clear; a delivered time is notified of at once, successfully or not. */
  predicate NotificationOk(row: Report, limit: nat) {
    if row.body == Clear then row.notification == NotifySkipped && row.notifyRetries == 0
    else if row.status != Done then row.notification == NotifyPending && row.notifyRetries == 0
    else
      || (row.notification == NotifySent && row.notifyRetries == 0)
      || (row.notification == NotifyFailed && 0 < row.notifyRetries <= limit)
  }

  // ----- the report table -----

  /** The flow that row `j` deletes was created by an earlier report of its stream. */
  ghost predicate DeletesEarlier(rows: seq<Report>, j: nat)
    requires j < |rows|
  {
    rows[j].deleteId.Some? ==>
      exists i :: 0 <= i < j && SameStream(rows[i], rows[j]) && rows[i].external == rows[j].deleteId
  }

  ghost predicate DistinctFlows(rows: seq<Report>) {
    forall i, j :: 0 <= i < j < |rows| && rows[i].external.Some? ==> rows[i].external != rows[j].external
  }

  ghost predicate ReportsOk(records: seq<Record>, rows: seq<Report>, limit: nat) {
    && UniqueKeys(rows)
    && DistinctFlows(rows)
    && (forall i :: 0 <= i < |rows| ==> RowOk(records, rows[i], limit))
    && (forall j :: 0 <= j < |rows| ==> DeletesEarlier(rows, j))
  }

  // ----- a record and its reports -----

  predicate TimedNow(row: Report, id: nat, rtype: ReportType, version: nat) {
    row.recordId == id && row.rtype == rtype && row.key.TimedKey? && row.key.version == version
  }

  predicate StatusOk(record: Record) {
    && (record.clockOut, record.exception)
       in {(OutPending, NoException), (OutMissing, MissingDisconnect), (OutDone, NoException)}
    && (record.clockOut == OutDone ==> record.last.Some?)
    && (record.clockIn == InDone ==> record.first.Some?)
  }

  /** Within one version the queued clock-in times never fall below the current first connect. */
  ghost predicate ClockInOk(record: Record, id: nat, rows: seq<Report>) {
    && Replay(rows, id, ClockIn) == record.first
    && forall i :: 0 <= i < |rows| && TimedNow(rows[i], id, ClockIn, record.version) ==>
                     record.first.Some? && record.first.value <= rows[i].key.time
  }

  /** Within one version the queued clock-out times never exceed the current last disconnect. */
  ghost predicate ClockOutOk(record: Record, id: nat, rows: seq<Report>) {
    && (record.last.None? ==> Replay(rows, id, ClockOut).None?)
    && forall i :: 0 <= i < |rows| && TimedNow(rows[i], id, ClockOut, record.version) ==>
                     && record.last.Some? && rows[i].key.time <= record.last.value
                     && (rows[i].key.time == record.last.value ==> Replay(rows, id, ClockOut) == record.last)
  }

  ghost predicate RecordOk(record: Record, id: nat, rows: seq<Report>) {
    StatusOk(record) && ClockInOk(record, id, rows) && ClockOutOk(record, id, rows)
  }

  ghost predicate StoreOk(store: Store, limit: nat) {
    && UniqueRecords(store.records)
    && ReportsOk(store.records, store.reports, limit)
    && forall id :: 0 <= id < |store.records| ==> RecordOk(store.records[id], id, store.reports)
  }

  // ----- the remote service -----

  ghost predicate Superseded(rows: seq<Report>, i: nat)
    requires i < |rows|
  {
    exists j :: i < j < |rows| && SameStream(rows[i], rows[j])
  }

  ghost predicate HeldFor(remote: Remote, report: Report, id: FlowId) {
    report.body.At? && id in remote.live && remote.live[id] == FlowFor(report, report.body.time)
  }

  /** The flow of a successful report is live, unless a later report of its stream exists. */
  ghost predicate FlowOk(rows: seq<Report>, remote: Remote, i: nat)
    requires i < |rows|
  {
    rows[i].external.Some? ==>
      && rows[i].external.value in remote.issued
      && (HeldFor(remote, rows[i], rows[i].external.value) || Superseded(rows, i))
  }

  ghost predicate RemoteOk(rows: seq<Report>, remote: Remote) {
    && (forall id :: id in remote.live ==> id in remote.issued)
    && forall i :: 0 <= i < |rows| ==> FlowOk(rows, remote, i)
  }

  // ----- the dispatcher's work -----

  /** The job carries a flow that exists remotely and that no row names yet. */
  ghost predicate InFlight(rows: seq<Report>, remote: Remote, row: Report, report: Report) {
    && row.status != Done && row.deleteId.None?
    && report.status == Done && report.external.Some? && report.deleteId.None?
    && report.external.value in remote.issued
    && HeldFor(remote, report, report.external.value)
    && forall i :: 0 <= i < |rows| ==> rows[i].external != report.external
  }

  ghost predicate JobMatches(rows: seq<Report>, remote: Remote, limit: nat, row: Report, job: Job) {
    var report := job.report;
    && SameCore(row, report)
    && match job.phase
       case Begin => report == row && row.status != Done && row.retries < limit
       case Deleted =>
         report == row.(deleteId := None) && row.status != Done && row.retries < limit && row.body.At?
       case ReadyToCreate =>
         report == row && row.status != Done && row.retries < limit && row.body.At? && row.deleteId.None?
       case Created =>
         && InFlight(rows, remote, row, report)
         && report.retries == row.retries < limit
         && report.notification == NotifyPending && report.notifyRetries == 0
       case Finish =>
         && NotificationOk(report, limit)
         && (|| (report.status == Failed && row.status != Done && report.external == row.external
                 && report.deleteId == row.deleteId && 0 < report.retries <= limit)
             || (report.status == Done && row.status != Done && report.body == Clear && report.external.None?
                 && report.deleteId.None? && report.retries < limit)
             || (InFlight(rows, remote, row, report) && report.retries < limit)
             || (row.status == Done
                 && report == row.(notification := report.notification, notifyRetries := report.notifyRetries)))
       case NotifyBegin => report == row && Notifiable(row, limit)
  }

  ghost predicate JobOk(rows: seq<Report>, remote: Remote, limit: nat, job: Job) {
    exists k :: 0 <= k < |rows| && JobMatches(rows, remote, limit, rows[k], job)
  }

  ghost predicate WorkOk(rows: seq<Report>, remote: Remote, limit: nat, work: seq<Job>) {
    && (forall i :: 0 <= i < |work| ==> JobOk(rows, remote, limit, work[i]))
    && (forall i :: 1 <= i < |work| ==> work[i].phase in {Begin, NotifyBegin})
    && (forall i, j :: 0 <= i < j < |work| ==> work[i].report.key != work[j].report.key)
  }

  ghost predicate ClockOk(rows: seq<Report>, clock: Nanos) {
    forall i :: 0 <= i < |rows| && rows[i].key.ManualKey? ==> rows[i].key.requestedAt <= clock
  }

  ghost predicate Inv(s: World) {
    && 0 < s.limit < U32
    && StoreOk(s.store, s.limit)
    && RemoteOk(s.store.reports, s.remote)
    && WorkOk(s.store.reports, s.remote, s.limit, s.work)
    && ClockOk(s.store.reports, s.debugClock)
    && UniqueRunDates(s.runs)
  }
}
