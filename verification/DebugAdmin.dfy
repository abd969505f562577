/** Manual re-send of the stored time of one record. */
module DebugAdmin {
  import opened Wrappers
  import opened Domain
  import opened Text
  import opened Tables
  import opened ReportService
  import opened Repositories
  import opened ReportDispatcher

  function RelevantTime(record: Record, rtype: ReportType): Option<Seconds> {
    match rtype
    case ClockIn => record.first
    case ClockOut => record.last
  }

  datatype DebugError = UnsupportedReportType | AttendanceNotFound | TimeRequired

  /** The report that a debug dispatch saves and then hands to the dispatcher. */
  function ManualReport(store: Store, id: nat, rtype: ReportType, now: Nanos): Result<Report, DebugError> {
    if id >= |store.records| then Failure(AttendanceNotFound)
    else
      match RelevantTime(store.records[id], rtype)
      case None => Failure(TimeRequired)
      case Some(time) =>
        Success(CopyLatestDeleteId(store.reports,
                                   CreateManualPendingReport(id, store.records[id], rtype, time, now)))
  }

  /** The two report types that a request may name, with white space around the name. */
  function ParseReportType(text: string): Option<ReportType> {
    var trimmed := TrimSpace(text);
    if trimmed == "clock_in" then Some(ClockIn)
    else if trimmed == "clock_out" then Some(ClockOut)
    else None
  }

  /** What a request asks for, or why it is refused. */
  function Requested(store: Store, id: nat, typeText: string, now: Nanos): (r: Result<Report, DebugError>)
    ensures r.Success? ==> id < |store.records|
  {
    match ParseReportType(typeText)
    case None => Failure(UnsupportedReportType)
    case Some(rtype) => ManualReport(store, id, rtype, now)
  }

  /** The report of a re-send: a manual key of its own, the stored time, and the latest delivered flow to delete. */
  ghost predicate Resends(report: Report, store: Store, id: nat, rtype: ReportType, time: Seconds, now: Nanos)
    requires id < |store.records|
  {
    var record := store.records[id];
    && report == Report(id, rtype, ManualKey(record.employee, record.date, rtype, time, record.version, now),
                        record.employee, At(time), None, report.deleteId, Pending, 0, NotifyPending, 0)
    && match report.deleteId
       case None => forall i :: 0 <= i < |store.reports| ==> !Succeeded(store.reports[i], id, rtype)
       case Some(_) =>
         exists i ::
           && 0 <= i < |store.reports| && Succeeded(store.reports[i], id, rtype)
           && store.reports[i].external == report.deleteId
           && forall j :: i < j < |store.reports| ==> !Succeeded(store.reports[j], id, rtype)
  }

  /** A request is refused for an unknown type, an unknown record or an unset time, in this order; else it re-sends the
      first connect for "clock_in" and the last disconnect for "clock_out". */
  lemma RequestIsExact(store: Store, id: nat, typeText: string, now: Nanos)
    ensures var asked, request := TrimSpace(typeText), Requested(store, id, typeText, now);
            if asked != "clock_in" && asked != "clock_out" then request == Failure(UnsupportedReportType)
            else if id >= |store.records| then request == Failure(AttendanceNotFound)
            else
              var time := if asked == "clock_in" then store.records[id].first else store.records[id].last;
              if time.None? then request == Failure(TimeRequired)
              else request.Success?
                   && Resends(request.value, store, id, if asked == "clock_in" then ClockIn else ClockOut, time.value, now)
  {
  }

  /** What a successful request returns. */
  datatype Resend = Resend(record: Record, report: Report)

  class AdminService {
    const attendance: AttendanceTable
    const reports: ReportTable
    const dispatcher: Dispatcher

    constructor (attendance: AttendanceTable, dispatcher: Dispatcher)
      ensures this.attendance == attendance && this.reports == dispatcher.reports && this.dispatcher == dispatcher
    {
      this.attendance := attendance;
      this.reports := dispatcher.reports;
      this.dispatcher := dispatcher;
    }

    /** The manual report is saved first and then dispatched at once; both are returned unless that fails. */
    method DispatchAttendanceReport(id: nat, typeText: string, now: Nanos, answer: Answer)
      returns (error: Option<DebugError>, aborted: bool, sent: Option<Resend>)
      requires reports == dispatcher.reports && FreshAnswer(dispatcher.client.remote, answer)
      modifies reports, dispatcher.client
      ensures match Requested(old(Store(attendance.rows, reports.rows)), id, typeText, now)
              case Failure(e) =>
                && error == Some(e) && !aborted && sent == None
                && reports.rows == old(reports.rows) && dispatcher.client.remote == old(dispatcher.client.remote)
                && dispatcher.client.creates == old(dispatcher.client.creates)
              case Success(report) =>
                var run := RunJob(SaveReport(old(reports.rows), report), old(dispatcher.client.remote),
                                  Job(report, Begin), answer);
                && error == None && aborted == run.aborted
                && reports.rows == run.rows && dispatcher.client.remote == run.remote
                && dispatcher.client.creates == old(dispatcher.client.creates) + run.creates
                && sent == if run.aborted then None else Some(Resend(attendance.rows[id], run.final))
    {
      error, aborted, sent := None, false, None;
      var rtype := ParseReportType(typeText);
      if rtype.None? {
        error := Some(UnsupportedReportType);
        return;
      }
      if id >= |attendance.rows| {
        error := Some(AttendanceNotFound);
        return;
      }
      var record := attendance.rows[id];
      var time := RelevantTime(record, rtype.value);
      if time.None? {
        error := Some(TimeRequired);
        return;
      }
      var report := CreateManualPendingReport(id, record, rtype.value, time.value, now);
      report := CopyLatestDeleteId(reports.rows, report);
      var _ := reports.Save(report);
      var final, failed := dispatcher.DispatchReport(report, answer);
      aborted := failed;
      if !aborted {
        sent := Some(Resend(record, final));
      }
    }
  }
}
