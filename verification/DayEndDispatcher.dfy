/** Once-per-date finalization that queues the clock-out reports. */
module DayEndDispatcher {
  import opened Wrappers
  import opened Domain
  import opened Tables
  import opened ReportService
  import opened DayEndService
  import opened Repositories

  function Finalized(record: Record, now: Seconds): Record {
    FinalizeForDay(record).(calculatedAt := Some(now))
  }

  /** The clock-out report that finalization queues, unless its key exists already. */
  function ClockOutReport(reports: seq<Report>, id: nat, record: Record): Option<Report> {
    if record.last.None? then None
    else if FindKey(reports, BuildKey(record, ClockOut, record.last.value)).Some? then None
    else Some(CopyLatestDeleteId(reports, CreatePendingReport(id, record, ClockOut, record.last.value)))
  }

  /** Finalization of a record that was read as `original`. */
  function FinalizeRead(store: Store, id: nat, original: Record, now: Seconds): Store {
    var finalized := Finalized(original, now);
    match ClockOutReport(store.reports, id, finalized)
    case None =>
      if finalized == original then store
      else Store(SaveRecord(store.records, finalized).rows, store.reports)
    case Some(report) =>
      var saved := SaveRecord(store.records, finalized);
      Store(saved.rows, SaveReport(store.reports, report.(recordId := saved.id)))
  }

  function FinalizeRecord(store: Store, id: nat, now: Seconds): Store
    requires id < |store.records|
  {
    FinalizeRead(store, id, store.records[id], now)
  }

  /** Finalization changes only the record it read. */
  lemma FinalizedInPlace(store: Store, id: nat, now: Seconds)
    requires UniqueRecords(store.records) && id < |store.records|
    ensures FinalizeRecord(store, id, now).records == store.records[id := Finalized(store.records[id], now)]
  {
    FindRecordAt(store.records, id);
  }

  /** The records of a day list, one after the other. */
  function FinalizeAll(store: Store, ids: seq<nat>, now: Seconds): (after: Store)
    requires Indices(store.records, ids)
    ensures |after.records| >= |store.records|
    decreases |ids|
  {
    if ids == [] then store
    else FinalizeAll(FinalizeRecord(store, ids[0], now), ids[1..], now)
  }

  /** Finalizing a record leaves the records that come later in the list as they were read. */
  lemma LaterStayAsRead(store: Store, records: seq<Record>, ids: seq<nat>, i: nat, now: Seconds)
    requires UniqueRecords(store.records) && |store.records| == |records| && Indices(records, ids) && i < |ids|
    requires forall j, k :: 0 <= j < k < |ids| ==> ids[j] != ids[k]
    requires forall j :: i <= j < |ids| ==> store.records[ids[j]] == records[ids[j]]
    ensures var next := FinalizeRead(store, ids[i], records[ids[i]], now);
            && UniqueRecords(next.records) && |next.records| == |records|
            && (forall j :: i + 1 <= j < |ids| ==> next.records[ids[j]] == records[ids[j]])
            && FinalizeAll(store, ids[i..], now) == FinalizeAll(next, ids[i + 1..], now)
  {
    assert ids[i..][0] == ids[i] && ids[i..][1..] == ids[i + 1..];
    FinalizedInPlace(store, ids[i], now);
  }

  datatype DayEndState = DayEndState(store: Store, runs: seq<DayEndRun>)

  /** Nothing happens before the cutoff or on a date that has its run. */
  function RunDayEnd(s: DayEndState, date: Day, cutoff: Seconds, cutoffText: string, now: Seconds): DayEndState {
    if now < cutoff || HasRun(s.runs, date) then s
    else
      DayEndState(
        FinalizeAll(s.store, ListByDate(s.store.records, date), now),
        SaveRun(s.runs, DayEndRun(date, cutoffText, now)).rows)
  }

  class Dispatcher {
    const attendance: AttendanceTable
    const reports: ReportTable
    const runs: DayEndRunTable

    constructor (attendance: AttendanceTable, reports: ReportTable, runs: DayEndRunTable)
      ensures this.attendance == attendance && this.reports == reports && this.runs == runs
    {
      this.attendance := attendance;
      this.reports := reports;
      this.runs := runs;
    }

    function Contents(): Store
      reads attendance, reports
    {
      Store(attendance.rows, reports.rows)
    }

    method FinalizeOne(id: nat, record: Record, now: Seconds)
      modifies attendance, reports
      ensures Contents() == FinalizeRead(old(Contents()), id, record, now)
    {
      var finalized := FinalizeForDay(record).(calculatedAt := Some(now));
      var report: Option<Report> := None;
      if finalized.last.Some? {
        var key := BuildKey(finalized, ClockOut, finalized.last.value);
        if FindKey(reports.rows, key).None? {
          var generated := CreatePendingReport(id, finalized, ClockOut, finalized.last.value);
          report := Some(CopyLatestDeleteId(reports.rows, generated));
        }
      }
      if finalized == record && report.None? {
        return;
      }
      var savedId := attendance.Save(finalized);
      if report.Some? {
        var _ := reports.Save(report.value.(recordId := savedId));
      }
    }

    /** The loop over the records as they were listed. */
    method FinalizeListed(ids: seq<nat>, records: seq<Record>, now: Seconds)
      requires UniqueRecords(attendance.rows) && records == attendance.rows && Indices(records, ids)
      requires forall i, j :: 0 <= i < j < |ids| ==> ids[i] != ids[j]
      modifies attendance, reports
      ensures Contents() == FinalizeAll(old(Contents()), ids, now)
    {
      assert ids[0..] == ids;
      var i := 0;
      while i < |ids|
        invariant i <= |ids| && |attendance.rows| == |records|
        invariant UniqueRecords(attendance.rows)
        invariant forall j :: i <= j < |ids| ==> attendance.rows[ids[j]] == records[ids[j]]
        invariant Indices(attendance.rows, ids[i..])
        invariant FinalizeAll(Contents(), ids[i..], now) == FinalizeAll(old(Contents()), ids, now)
      {
        LaterStayAsRead(Contents(), records, ids, i, now);
        FinalizeOne(ids[i], records[ids[i]], now);
        i := i + 1;
      }
    }

    /** The day's records are read once and then finalized in list order; the run row comes last. */
    method RunOnce(date: Day, cutoff: Seconds, cutoffText: string, now: Seconds)
      requires UniqueRecords(attendance.rows) && UniqueRunDates(runs.rows)
      modifies attendance, reports, runs
      ensures DayEndState(Contents(), runs.rows)
              == RunDayEnd(old(DayEndState(Contents(), runs.rows)), date, cutoff, cutoffText, now)
    {
      if now < cutoff || HasRun(runs.rows, date) {
        return;
      }
      var ids := ListByDate(attendance.rows, date);
      ListByDateIsDayList(attendance.rows, date);
      FinalizeListed(ids, attendance.rows, now);
      var _ := runs.Save(DayEndRun(date, cutoffText, now));
    }
  }
}
