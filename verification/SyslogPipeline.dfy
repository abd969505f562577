/** From a matched syslog event to the attendance record and its clock-in report. */
module SyslogPipeline {
  import opened Wrappers
  import opened Domain
  import opened Tables
  import opened AttendanceProcessor
  import opened ReportService
  import opened Repositories
  import opened SyslogRules

  function NewRecord(employee: nat, date: Day): Record {
    Record(employee, date, None, None, InPending, OutPending, NoException, FromSyslog, 1, None)
  }

  function LoadRecord(records: seq<Record>, employee: nat, date: Day): Record {
    match FindRecord(records, employee, date)
    case Some(i) => records[i]
    case None => NewRecord(employee, date)
  }

  /** The effect of one event whose station belongs to `employee`. */
  function HandleEvent(store: Store, employee: nat, event: Event): Store {
    var record := LoadRecord(store.records, employee, event.date);
    var result := ApplyEvent(record, event);
    var saved := SaveRecord(store.records, result.record);
    if !result.clockInNeedsReport then
      Store(saved.rows, store.reports)
    else if FindKey(store.reports, BuildKey(result.record, ClockIn, event.time)).Some? then
      Store(saved.rows, store.reports)
    else
      Store(saved.rows, SaveReport(store.reports, CreatePendingReport(saved.id, result.record, ClockIn, event.time)))
  }

  /** The employee whose device sent the event, if any. */
  function MatchEmployee(devices: map<string, nat>, mac: string): Option<nat> {
    if mac in devices then Some(devices[mac]) else None
  }

  /** A message that no rule matched, or whose station is unknown, leaves both tables alone. */
  function HandleMessage(store: Store, devices: map<string, nat>, event: Option<Event>): Store {
    if event.None? then store
    else
      match MatchEmployee(devices, event.value.mac)
      case None => store
      case Some(employee) => HandleEvent(store, employee, event.value)
  }

  function EventOf(result: MatchResult): Option<Event> {
    if result.RuleHit? then Some(result.event) else None
  }

  /** A raw message under the stored rules; a rule that errors stops the message before anything is written. */
  function HandleRaw(
    store: Store, devices: map<string, nat>, rules: seq<Rule>, matcher: Matcher, raw: string, receivedAt: Seconds)
    : Result<Store, nat>
  {
    var result := FirstMatch(ListEnabled(rules), matcher, raw, receivedAt);
    if result.RuleError? then Failure(result.ruleId)
    else Success(HandleMessage(store, devices, EventOf(result)))
  }

  class Pipeline {
    const attendance: AttendanceTable
    const reports: ReportTable

    constructor (attendance: AttendanceTable, reports: ReportTable)
      ensures this.attendance == attendance && this.reports == reports
    {
      this.attendance := attendance;
      this.reports := reports;
    }

    function Contents(): Store
      reads attendance, reports
    {
      Store(attendance.rows, reports.rows)
    }

    method Handle(devices: map<string, nat>, event: Option<Event>)
      modifies attendance, reports
      ensures Contents() == HandleMessage(old(Contents()), devices, event)
    {
      if event.None? {
        return;
      }
      var employee := MatchEmployee(devices, event.value.mac);
      if employee.None? {
        return;
      }
      var record := LoadRecord(attendance.rows, employee.value, event.value.date);
      var result := ApplyEvent(record, event.value);
      if !result.clockInNeedsReport {
        var _ := attendance.Save(result.record);
        return;
      }
      var key := BuildKey(result.record, ClockIn, event.value.time);
      var existing := FindKey(reports.rows, key);
      if existing.Some? {
        var _ := attendance.Save(result.record);
        return;
      }
      var id := attendance.Save(result.record);
      var report := CreatePendingReport(id, result.record, ClockIn, event.value.time);
      var _ := reports.Save(report);
    }

    method HandleDatagram(
      devices: map<string, nat>, rules: RuleTable, matcher: Matcher, raw: string, receivedAt: Seconds)
      returns (failedRule: Option<nat>)
      modifies attendance, reports
      ensures match HandleRaw(old(Contents()), devices, rules.rows, matcher, raw, receivedAt)
              case Failure(id) => failedRule == Some(id) && Contents() == old(Contents())
              case Success(store) => failedRule == None && Contents() == store
    {
      var result := MatchSyslogRule(ListEnabled(rules.rows), matcher, raw, receivedAt);
      if result.RuleError? {
        return Some(result.ruleId);
      }
      Handle(devices, EventOf(result));
      return None;
    }
  }
}
