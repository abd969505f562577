/** The tables as objects whose rows change in place. */
module Repositories {
  import opened Wrappers
  import opened Domain
  import opened Tables

  class AttendanceTable {
    var rows: seq<Record>

    constructor ()
      ensures rows == []
    {
      rows := [];
    }

    /** `insert ... on duplicate key update`; the result is the id of the affected row. */
    method Save(record: Record) returns (id: nat)
      modifies this
      ensures SavedRecord(rows, id) == SaveRecord(old(rows), record)
      ensures id < |rows| && rows[id] == record
      ensures forall i :: 0 <= i < |old(rows)| && i != id ==> i < |rows| && rows[i] == old(rows)[i]
    {
      var found := FindRecord(rows, record.employee, record.date);
      if found.Some? {
        id := found.value;
        rows := rows[id := record];
      } else {
        id := |rows|;
        rows := rows + [record];
      }
    }
  }

  class ReportTable {
    var rows: seq<Report>

    constructor ()
      ensures rows == []
    {
      rows := [];
    }

    /** `insert ... on duplicate key update`; the result is the id of the affected row. */
    method Save(report: Report) returns (id: nat)
      modifies this
      ensures rows == SaveReport(old(rows), report)
      ensures id < |rows| && rows[id] == report
      ensures forall i :: 0 <= i < |old(rows)| && i != id ==> i < |rows| && rows[i] == old(rows)[i]
    {
      var found := FindKey(rows, report.key);
      if found.Some? {
        id := found.value;
        rows := rows[id := report];
      } else {
        id := |rows|;
        rows := rows + [report];
      }
    }

    /** The rows of the cursor are appended one by one until the batch is full. */
    method List(eligible: Report -> bool, batch: nat) returns (ids: seq<nat>)
      ensures ids == Batch(rows, eligible, batch)
      ensures IsBatch(rows, ids, eligible, batch)
    {
      ids := [];
      for i := 0 to |rows|
        invariant ids == Batch(rows[..i], eligible, batch)
      {
        assert rows[..i + 1][..i] == rows[..i];
        if |ids| < batch && eligible(rows[i]) {
          ids := ids + [i];
        }
      }
      assert rows[..|rows|] == rows;
    }

    method ListDispatchable(batch: nat, limit: nat) returns (ids: seq<nat>)
      ensures ids == Tables.ListDispatchable(rows, batch, limit)
      ensures IsBatch(rows, ids, row => Dispatchable(row, limit), batch)
    {
      ids := List(row => Dispatchable(row, limit), batch);
    }

    method ListNotificationDispatchable(batch: nat, limit: nat) returns (ids: seq<nat>)
      ensures ids == Tables.ListNotificationDispatchable(rows, batch, limit)
      ensures IsBatch(rows, ids, row => Notifiable(row, limit), batch)
    {
      ids := List(row => Notifiable(row, limit), batch);
    }
  }

  class DayEndRunTable {
    var rows: seq<DayEndRun>

    constructor ()
      ensures rows == []
    {
      rows := [];
    }

    /** `insert ... on duplicate key update`; the result is the id of the affected row. */
    method Save(run: DayEndRun) returns (id: nat)
      requires UniqueRunDates(rows)
      modifies this
      ensures SavedRun(rows, id) == SaveRun(old(rows), run)
      ensures UniqueRunDates(rows) && FindRun(rows, run.date) == Some(id) && rows[id] == run
      ensures forall i :: 0 <= i < |old(rows)| && i != id ==> i < |rows| && rows[i] == old(rows)[i]
    {
      SavedRunIsFound(rows, run);
      var found := FindRun(rows, run.date);
      if found.Some? {
        id := found.value;
        rows := rows[id := run];
      } else {
        id := |rows|;
        rows := rows + [run];
      }
    }
  }
}
