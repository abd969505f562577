/**
  The queries and the upserts of the attendance tables, as functions on the rows.
  `on duplicate key update` is an in-place change of the row that holds the unique key.
 */
module Tables {
  import opened Wrappers
  import opened Domain

  /** The two tables that the producers and the dispatcher share. */
  datatype Store = Store(records: seq<Record>, reports: seq<Report>)

  // ----- attendance_records: unique on (employee, date) -----

  ghost predicate UniqueRecords(rows: seq<Record>) {
    forall i, j :: 0 <= i < j < |rows| ==> rows[i].employee != rows[j].employee || rows[i].date != rows[j].date
  }

  function FindRecord(rows: seq<Record>, employee: nat, date: Day): (found: Option<nat>)
    ensures found.Some? ==>
              && found.value < |rows|
              && rows[found.value].employee == employee && rows[found.value].date == date
    ensures found.None? ==>
              forall i :: 0 <= i < |rows| ==> rows[i].employee != employee || rows[i].date != date
  {
    if rows == [] then None
    else if rows[|rows| - 1].employee == employee && rows[|rows| - 1].date == date then Some(|rows| - 1)
    else FindRecord(rows[..|rows| - 1], employee, date)
  }

  datatype SavedRecord = SavedRecord(rows: seq<Record>, id: nat)

  function SaveRecord(rows: seq<Record>, record: Record): SavedRecord {
    match FindRecord(rows, record.employee, record.date)
    case Some(i) => SavedRecord(rows[i := record], i)
    case None => SavedRecord(rows + [record], |rows|)
  }

  lemma FindRecordAt(rows: seq<Record>, i: nat)
    requires UniqueRecords(rows) && i < |rows|
    ensures FindRecord(rows, rows[i].employee, rows[i].date) == Some(i)
  {
  }

  // ----- attendance_reports: unique on the idempotency key -----

  ghost predicate UniqueKeys(rows: seq<Report>) {
    forall i, j :: 0 <= i < j < |rows| ==> rows[i].key != rows[j].key
  }

  function FindKey(rows: seq<Report>, key: Key): (found: Option<nat>)
    ensures found.Some? ==> found.value < |rows| && rows[found.value].key == key
    ensures found.None? ==> forall i :: 0 <= i < |rows| ==> rows[i].key != key
  {
    if rows == [] then None
    else if rows[|rows| - 1].key == key then Some(|rows| - 1)
    else FindKey(rows[..|rows| - 1], key)
  }

  function SaveReport(rows: seq<Report>, report: Report): seq<Report> {
    match FindKey(rows, report.key)
    case Some(i) => rows[i := report]
    case None => rows + [report]
  }

  lemma FindKeyAt(rows: seq<Report>, i: nat)
    requires UniqueKeys(rows) && i < |rows|
    ensures FindKey(rows, rows[i].key) == Some(i)
  {
  }

  /** Saving a report under a stored key rewrites that row in place. */
  lemma SaveReportAt(rows: seq<Report>, i: nat, report: Report)
    requires UniqueKeys(rows) && i < |rows| && report.key == rows[i].key
    ensures SaveReport(rows, report) == rows[i := report]
  {
    FindKeyAt(rows, i);
  }

  predicate Succeeded(row: Report, recordId: nat, rtype: ReportType) {
    row.recordId == recordId && row.rtype == rtype && row.status == Done && row.external.Some?
  }

  /** The highest-id successful report of a stream that named a remote flow. */
  function LatestSuccessful(rows: seq<Report>, recordId: nat, rtype: ReportType): (found: Option<nat>)
    ensures found.Some? ==>
              && found.value < |rows|
              && Succeeded(rows[found.value], recordId, rtype)
              && forall i :: found.value < i < |rows| ==> !Succeeded(rows[i], recordId, rtype)
    ensures found.None? ==> forall i :: 0 <= i < |rows| ==> !Succeeded(rows[i], recordId, rtype)
  {
    if rows == [] then None
    else if Succeeded(rows[|rows| - 1], recordId, rtype) then Some(|rows| - 1)
    else LatestSuccessful(rows[..|rows| - 1], recordId, rtype)
  }

  /** Eligible for a dispatch: pending or failed, with retries left. */
  predicate Dispatchable(row: Report, limit: nat) {
    row.status != Done && row.retries < limit
  }

  /** Eligible for a notification: delivered, not yet notified, with retries left. */
  predicate Notifiable(row: Report, limit: nat) {
    && row.status == Done
    && (row.notification == NotifyPending || row.notification == NotifyFailed)
    && row.notifyRetries < limit
  }

  /** `ids` are the lowest `batch` ids whose rows are eligible, in ascending order. */
  ghost predicate IsBatch(rows: seq<Report>, ids: seq<nat>, eligible: Report -> bool, batch: nat) {
    && |ids| <= batch
    && (forall i :: 0 <= i < |ids| ==> ids[i] < |rows| && eligible(rows[ids[i]]))
    && (forall i, j :: 0 <= i < j < |ids| ==> ids[i] < ids[j])
    && (forall k :: 0 <= k < |rows| && eligible(rows[k]) && k !in ids ==>
          |ids| == batch && forall i :: 0 <= i < |ids| ==> ids[i] < k)
  }

  function Batch(rows: seq<Report>, eligible: Report -> bool, batch: nat): (ids: seq<nat>)
    ensures IsBatch(rows, ids, eligible, batch)
  {
    if rows == [] then []
    else
      var last := |rows| - 1;
      var ids := Batch(rows[..last], eligible, batch);
      if |ids| < batch && eligible(rows[last]) then ids + [last] else ids
  }

  ghost function EligibleBelow(rows: seq<Report>, eligible: Report -> bool, k: nat): set<nat>
    requires k <= |rows|
  {
    set i: nat | i < k && eligible(rows[i])
  }

  ghost function Members(ids: seq<nat>): (members: set<nat>)
    ensures forall x :: x in members <==> x in ids
  {
    set x | x in ids
  }

  lemma {:induction false} CountAscending(ids: seq<nat>)
    requires forall i, j :: 0 <= i < j < |ids| ==> ids[i] < ids[j]
    ensures |Members(ids)| == |ids|
  {
    if ids != [] {
      var last := |ids| - 1;
      CountAscending(ids[..last]);
      assert ids == ids[..last] + [ids[last]];
      assert Members(ids) == Members(ids[..last]) + {ids[last]};
    }
  }

  lemma SubsetIsSmaller(a: set<nat>, b: set<nat>)
    ensures a <= b ==> |a| <= |b|
  {
    if a <= b {
      assert b == a + (b - a);
    }
  }

  /** The eligible rows below a listed one are those listed before it. */
  lemma ListedHasRoom(rows: seq<Report>, ids: seq<nat>, eligible: Report -> bool, batch: nat, p: nat)
    requires IsBatch(rows, ids, eligible, batch) && p < |ids|
    ensures |EligibleBelow(rows, eligible, ids[p])| < batch
  {
    CountAscending(ids[..p]);
    forall i: nat | i in EligibleBelow(rows, eligible, ids[p]) ensures i in Members(ids[..p]) {
      assert i in ids;
      var q :| 0 <= q < |ids| && ids[q] == i;
      assert ids[..p][q] == i;
    }
    SubsetIsSmaller(EligibleBelow(rows, eligible, ids[p]), Members(ids[..p]));
  }

  /** An eligible row that is left out has a whole batch below it. */
  lemma UnlistedHasNoRoom(rows: seq<Report>, ids: seq<nat>, eligible: Report -> bool, batch: nat, k: nat)
    requires IsBatch(rows, ids, eligible, batch) && k < |rows| && eligible(rows[k]) && k !in ids
    ensures |EligibleBelow(rows, eligible, k)| >= batch
  {
    CountAscending(ids);
    forall i: nat | i in Members(ids) ensures i in EligibleBelow(rows, eligible, k) {
      var q :| 0 <= q < |ids| && ids[q] == i;
    }
    SubsetIsSmaller(Members(ids), EligibleBelow(rows, eligible, k));
  }

  /** A row is listed iff it is eligible and fewer eligible rows than a batch have a lower id. */
  lemma BatchIff(rows: seq<Report>, eligible: Report -> bool, batch: nat, k: nat)
    requires k < |rows|
    ensures k in Batch(rows, eligible, batch) <==> eligible(rows[k]) && |EligibleBelow(rows, eligible, k)| < batch
  {
    var ids := Batch(rows, eligible, batch);
    if k in ids {
      var p :| 0 <= p < |ids| && ids[p] == k;
      ListedHasRoom(rows, ids, eligible, batch, p);
    } else if eligible(rows[k]) {
      UnlistedHasNoRoom(rows, ids, eligible, batch, k);
    }
  }

  function ListDispatchable(rows: seq<Report>, batch: nat, limit: nat): seq<nat> {
    Batch(rows, row => Dispatchable(row, limit), batch)
  }

  function ListNotificationDispatchable(rows: seq<Report>, batch: nat, limit: nat): seq<nat> {
    Batch(rows, row => Notifiable(row, limit), batch)
  }

  // ----- the records of one date, in employee order -----

  /** The ids of the records of a date, each once, by ascending employee. */
  ghost predicate IsDayList(rows: seq<Record>, date: Day, ids: seq<nat>) {
    && (forall i :: 0 <= i < |ids| ==> ids[i] < |rows| && rows[ids[i]].date == date)
    && (forall k :: 0 <= k < |rows| && rows[k].date == date ==> k in ids)
    && (forall i, j :: 0 <= i < j < |ids| ==> ids[i] < |rows| && ids[j] < |rows| && rows[ids[i]].employee < rows[ids[j]].employee)
  }

  ghost predicate Indices(rows: seq<Record>, ids: seq<nat>) {
    forall i :: 0 <= i < |ids| ==> ids[i] < |rows|
  }

  function InsertByEmployee(rows: seq<Record>, ids: seq<nat>, id: nat): (r: seq<nat>)
    requires id < |rows| && forall i :: 0 <= i < |ids| ==> ids[i] < |rows|
    ensures Indices(rows, r)
    ensures forall x: nat :: x in r <==> x in ids || x == id
  {
    if ids == [] then [id]
    else if rows[id].employee < rows[ids[0]].employee then [id] + ids
    else
      assert ids == [ids[0]] + ids[1..];
      [ids[0]] + InsertByEmployee(rows, ids[1..], id)
  }

  function ListByDate(rows: seq<Record>, date: Day): (ids: seq<nat>)
    ensures Indices(rows, ids)
    ensures forall x: nat :: x in ids <==> x < |rows| && rows[x].date == date
  {
    if rows == [] then []
    else
      var last := |rows| - 1;
      var ids := ListByDate(rows[..last], date);
      if rows[last].date == date then InsertByEmployee(rows, ids, last) else ids
  }

  ghost predicate ByEmployee(rows: seq<Record>, ids: seq<nat>)
    requires Indices(rows, ids)
  {
    forall i, j :: 0 <= i < j < |ids| ==> rows[ids[i]].employee < rows[ids[j]].employee
  }

  lemma {:induction false} InsertKeepsOrder(rows: seq<Record>, ids: seq<nat>, id: nat)
    requires id < |rows| && Indices(rows, ids) && ByEmployee(rows, ids)
    requires forall i :: 0 <= i < |ids| ==> rows[ids[i]].employee != rows[id].employee
    ensures ByEmployee(rows, InsertByEmployee(rows, ids, id))
  {
    if ids != [] && rows[id].employee > rows[ids[0]].employee {
      var rest := InsertByEmployee(rows, ids[1..], id);
      InsertKeepsOrder(rows, ids[1..], id);
      forall j | 0 <= j < |rest| ensures rows[ids[0]].employee < rows[rest[j]].employee {
        assert rest[j] in rest;
      }
    }
  }

  lemma {:induction false} ListByDateOrdered(rows: seq<Record>, date: Day)
    requires UniqueRecords(rows)
    ensures ByEmployee(rows, ListByDate(rows, date))
  {
    if rows != [] {
      var last := |rows| - 1;
      var ids := ListByDate(rows[..last], date);
      ListByDateOrdered(rows[..last], date);
      assert ByEmployee(rows, ids);
      if rows[last].date == date {
        forall i | 0 <= i < |ids| ensures rows[ids[i]].employee != rows[last].employee {
          assert ids[i] in ids;
        }
        InsertKeepsOrder(rows, ids, last);
      }
    }
  }

  /** The day list holds the records of the date, each exactly once, by ascending employee. */
  lemma ListByDateIsDayList(rows: seq<Record>, date: Day)
    requires UniqueRecords(rows)
    ensures IsDayList(rows, date, ListByDate(rows, date))
  {
    var ids := ListByDate(rows, date);
    ListByDateOrdered(rows, date);
    forall i | 0 <= i < |ids| ensures ids[i] < |rows| && rows[ids[i]].date == date {
      assert ids[i] in ids;
    }
  }

  // ----- day_end_runs: unique on the business date -----

  ghost predicate UniqueRunDates(rows: seq<DayEndRun>) {
    forall i, j :: 0 <= i < j < |rows| ==> rows[i].date != rows[j].date
  }

  function FindRun(rows: seq<DayEndRun>, date: Day): (found: Option<nat>)
    ensures found.Some? ==> found.value < |rows| && rows[found.value].date == date
    ensures found.None? ==> forall i :: 0 <= i < |rows| ==> rows[i].date != date
  {
    if rows == [] then None
    else if rows[|rows| - 1].date == date then Some(|rows| - 1)
    else FindRun(rows[..|rows| - 1], date)
  }

  predicate HasRun(rows: seq<DayEndRun>, date: Day) {
    FindRun(rows, date).Some?
  }

  datatype SavedRun = SavedRun(rows: seq<DayEndRun>, id: nat)

  function SaveRun(rows: seq<DayEndRun>, run: DayEndRun): SavedRun {
    match FindRun(rows, run.date)
    case Some(i) => SavedRun(rows[i := run], i)
    case None => SavedRun(rows + [run], |rows|)
  }

  /** After a save its date has exactly this run, and every other date has the run it had. */
  lemma SavedRunIsFound(rows: seq<DayEndRun>, run: DayEndRun)
    requires UniqueRunDates(rows)
    ensures var saved := SaveRun(rows, run);
            && UniqueRunDates(saved.rows)
            && FindRun(saved.rows, run.date) == Some(saved.id) && saved.rows[saved.id] == run
            && forall date: Day :: date != run.date ==>
                                     && FindRun(saved.rows, date) == FindRun(rows, date)
                                     && (HasRun(rows, date) ==>
                                           saved.rows[FindRun(rows, date).value] == rows[FindRun(rows, date).value])
  {
    var saved := SaveRun(rows, run);
    assert saved.rows[saved.id] == run;
    forall date: Day | date != run.date
      ensures FindRun(saved.rows, date) == FindRun(rows, date)
    {
      OtherRunStays(rows, run, date);
    }
  }

  lemma OtherRunStays(rows: seq<DayEndRun>, run: DayEndRun, date: Day)
    requires UniqueRunDates(rows) && date != run.date
    ensures FindRun(SaveRun(rows, run).rows, date) == FindRun(rows, date)
  {
    var saved := SaveRun(rows, run);
    var found, found' := FindRun(rows, date), FindRun(saved.rows, date);
    if found.Some? {
      assert saved.rows[found.value] == rows[found.value];
    }
    if found'.Some? {
      assert saved.rows[found'.value] == rows[found'.value];
    }
  }
}
