/**
  What the pipeline computes from any sequence of messages: per employee and date the earliest
  connect and the latest disconnect, and one clock-in report for every strictly earlier connect.
 */
module Aggregation {
  import opened Wrappers
  import opened Domain
  import opened Tables
  import opened AttendanceProcessor
  import opened ReportService
  import opened SyslogPipeline
  import opened OutboxInvariant
  import opened OutboxProducers

  /** A message: the event that a rule extracted from it, if any. */
  type Message = Option<Event>

  function HandleAll(devices: map<string, nat>, messages: seq<Message>): Store {
    if messages == [] then Store([], [])
    else HandleMessage(HandleAll(devices, messages[..|messages| - 1]), devices, messages[|messages| - 1])
  }

  // ----- the simple specification -----

  predicate Hits(devices: map<string, nat>, message: Message, employee: nat, date: Day) {
    message.Some? && MatchEmployee(devices, message.value.mac) == Some(employee) && message.value.date == date
  }

  predicate HitsWith(devices: map<string, nat>, message: Message, employee: nat, date: Day, kind: EventKind) {
    Hits(devices, message, employee, date) && message.value.kind == kind
  }

  ghost predicate AnyHit(devices: map<string, nat>, messages: seq<Message>, employee: nat, date: Day) {
    exists i :: 0 <= i < |messages| && Hits(devices, messages[i], employee, date)
  }

  /** The least time of the connects of one employee on one date, over all the employee's devices. */
  ghost predicate IsEarliest(
    devices: map<string, nat>, messages: seq<Message>, employee: nat, date: Day, first: Option<Seconds>)
  {
    match first
    case None => forall i :: 0 <= i < |messages| ==> !HitsWith(devices, messages[i], employee, date, Connect)
    case Some(time) =>
      && (exists i :: 0 <= i < |messages| && HitsWith(devices, messages[i], employee, date, Connect)
                      && messages[i].value.time == time)
      && forall i :: 0 <= i < |messages| && HitsWith(devices, messages[i], employee, date, Connect) ==>
                       time <= messages[i].value.time
  }

  /** The greatest time of the disconnects. */
  ghost predicate IsLatest(
    devices: map<string, nat>, messages: seq<Message>, employee: nat, date: Day, last: Option<Seconds>)
  {
    match last
    case None => forall i :: 0 <= i < |messages| ==> !HitsWith(devices, messages[i], employee, date, Disconnect)
    case Some(time) =>
      && (exists i :: 0 <= i < |messages| && HitsWith(devices, messages[i], employee, date, Disconnect)
                      && messages[i].value.time == time)
      && forall i :: 0 <= i < |messages| && HitsWith(devices, messages[i], employee, date, Disconnect) ==>
                       messages[i].value.time <= time
  }

  /** The message at `i` is a connect strictly earlier than every connect before it. */
  ghost predicate IsNewMinimum(devices: map<string, nat>, messages: seq<Message>, employee: nat, date: Day, i: nat)
    requires i < |messages|
  {
    && HitsWith(devices, messages[i], employee, date, Connect)
    && forall j :: 0 <= j < i && HitsWith(devices, messages[j], employee, date, Connect) ==>
                     messages[i].value.time < messages[j].value.time
  }

  /** The times of the strict new minima in arrival order. */
  ghost function NewMinima(devices: map<string, nat>, messages: seq<Message>, employee: nat, date: Day): seq<Seconds> {
    if messages == [] then []
    else
      var n := |messages| - 1;
      var before := NewMinima(devices, messages[..n], employee, date);
      if IsNewMinimum(devices, messages, employee, date, n) then before + [messages[n].value.time] else before
  }

  /** The times of the clock-in reports of a record, in id order. */
  function ReportedTimes(rows: seq<Report>, id: nat): seq<Seconds> {
    if rows == [] then []
    else
      var row := rows[|rows| - 1];
      var before := ReportedTimes(rows[..|rows| - 1], id);
      if row.recordId == id && row.rtype == ClockIn && row.body.At? then before + [row.body.time] else before
  }

  // ----- the refinement -----

  /** The record and the reports of one employee and date are what the messages say. */
  ghost predicate Refines(store: Store, devices: map<string, nat>, messages: seq<Message>, employee: nat, date: Day) {
    match FindRecord(store.records, employee, date)
    case None => !AnyHit(devices, messages, employee, date)
    case Some(id) =>
      && AnyHit(devices, messages, employee, date)
      && IsEarliest(devices, messages, employee, date, store.records[id].first)
      && IsLatest(devices, messages, employee, date, store.records[id].last)
      && ReportedTimes(store.reports, id) == NewMinima(devices, messages, employee, date)
  }

  lemma {:induction false} NothingReported(rows: seq<Report>, id: nat)
    requires forall i :: 0 <= i < |rows| ==> rows[i].recordId != id
    ensures ReportedTimes(rows, id) == []
  {
    if rows != [] {
      NothingReported(rows[..|rows| - 1], id);
    }
  }

  lemma {:induction false} NothingNew(devices: map<string, nat>, messages: seq<Message>, employee: nat, date: Day)
    requires !AnyHit(devices, messages, employee, date)
    ensures NewMinima(devices, messages, employee, date) == []
  {
    if messages != [] {
      var n := |messages| - 1;
      assert !Hits(devices, messages[n], employee, date);
      assert !AnyHit(devices, messages[..n], employee, date) by {
        forall i | 0 <= i < n ensures !Hits(devices, messages[..n][i], employee, date) {
          assert messages[..n][i] == messages[i];
        }
      }
      NothingNew(devices, messages[..n], employee, date);
    }
  }

  /** What the messages say about the record that an event is going to touch, existing or new. */
  ghost predicate LoadedRefines(
    store: Store, devices: map<string, nat>, messages: seq<Message>, employee: nat, date: Day)
  {
    var record := LoadRecord(store.records, employee, date);
    && IsEarliest(devices, messages, employee, date, record.first)
    && IsLatest(devices, messages, employee, date, record.last)
    && ReportedTimes(store.reports, TargetId(store.records, employee, date)) == NewMinima(devices, messages, employee, date)
  }

  lemma LoadedIsRefined(
    store: Store, limit: nat, devices: map<string, nat>, messages: seq<Message>, employee: nat, date: Day)
    requires StoreOk(store, limit) && Refines(store, devices, messages, employee, date)
    ensures LoadedRefines(store, devices, messages, employee, date)
  {
    var id := TargetId(store.records, employee, date);
    if id == |store.records| {
      forall i | 0 <= i < |store.reports| ensures store.reports[i].recordId != id {
        assert RowOk(store.records, store.reports[i], limit);
      }
      NothingReported(store.reports, id);
      NothingNew(devices, messages, employee, date);
    }
  }

  /** A message about somebody else, or about another day, changes nothing here. */
  lemma OtherMessage(
    devices: map<string, nat>, messages: seq<Message>, message: Message, employee: nat, date: Day,
    first: Option<Seconds>, last: Option<Seconds>)
    requires !Hits(devices, message, employee, date)
    ensures var more := messages + [message];
            && (AnyHit(devices, more, employee, date) <==> AnyHit(devices, messages, employee, date))
            && (IsEarliest(devices, messages, employee, date, first) ==> IsEarliest(devices, more, employee, date, first))
            && (IsLatest(devices, messages, employee, date, last) ==> IsLatest(devices, more, employee, date, last))
            && NewMinima(devices, more, employee, date) == NewMinima(devices, messages, employee, date)
  {
    var more := messages + [message];
    assert more[..|messages|] == messages;
    assert forall i :: 0 <= i < |messages| ==> more[i] == messages[i];
  }

  lemma HitMessage(
    devices: map<string, nat>, messages: seq<Message>, message: Message, employee: nat, date: Day, record: Record)
    requires Hits(devices, message, employee, date)
    requires IsEarliest(devices, messages, employee, date, record.first)
    requires IsLatest(devices, messages, employee, date, record.last)
    ensures var more := messages + [message];
            var result := ApplyEvent(record, message.value);
            && AnyHit(devices, more, employee, date)
            && IsEarliest(devices, more, employee, date, result.record.first)
            && IsLatest(devices, more, employee, date, result.record.last)
            && NewMinima(devices, more, employee, date)
               == NewMinima(devices, messages, employee, date)
                  + if result.clockInNeedsReport then [message.value.time] else []
  {
    var more := messages + [message];
    var n := |messages|;
    assert more[..n] == messages;
    assert forall i :: 0 <= i < n ==> more[i] == messages[i];
    assert more[n] == message;
    assert HitsWith(devices, more[n], employee, date, message.value.kind);
    var result := ApplyEvent(record, message.value);
    assert result.clockInNeedsReport <==> IsNewMinimum(devices, more, employee, date, n);
  }

  lemma ReportedAppend(rows: seq<Report>, row: Report, id: nat)
    ensures ReportedTimes(rows + [row], id) ==
            ReportedTimes(rows, id)
            + if row.recordId == id && row.rtype == ClockIn && row.body.At? then [row.body.time] else []
  {
    assert (rows + [row])[..|rows|] == rows;
  }

  /** Saving a record leaves the records of everybody else, and of every other date, where they are. */
  lemma SaveLeavesOthers(rows: seq<Record>, record: Record, employee: nat, date: Day)
    requires UniqueRecords(rows) && (employee, date) != (record.employee, record.date)
    ensures var saved := SaveRecord(rows, record);
            && FindRecord(saved.rows, employee, date) == FindRecord(rows, employee, date)
            && (FindRecord(rows, employee, date).Some? ==>
                  var other := FindRecord(rows, employee, date).value;
                  other != saved.id && saved.rows[other] == rows[other])
  {
    var saved := SaveRecord(rows, record);
    var found, found' := FindRecord(rows, employee, date), FindRecord(saved.rows, employee, date);
    if found.Some? {
      assert saved.rows[found.value] == rows[found.value];
      assert found'.Some?;
    }
    if found'.Some? {
      assert saved.rows[found'.value] == rows[found'.value];
    }
  }

  lemma SaveIsFound(rows: seq<Record>, record: Record)
    requires UniqueRecords(rows)
    ensures var saved := SaveRecord(rows, record);
            saved.id < |saved.rows| && saved.rows[saved.id] == record
            && FindRecord(saved.rows, record.employee, record.date) == Some(saved.id)
            && saved.id == TargetId(rows, record.employee, record.date)
  {
    var saved := SaveRecord(rows, record);
    assert UniqueRecords(saved.rows);
    FindRecordAt(saved.rows, saved.id);
  }

  /** One event: the touched record is what was loaded, with the event applied; the others stay. */
  lemma EventEffect(store: Store, limit: nat, employee: nat, event: Event, otherEmployee: nat, otherDate: Day)
    requires StoreOk(store, limit)
    ensures var after := HandleEvent(store, employee, event);
            var id := TargetId(store.records, employee, event.date);
            var result := ApplyEvent(LoadRecord(store.records, employee, event.date), event);
            && FindRecord(after.records, employee, event.date) == Some(id) && after.records[id] == result.record
            && ((otherEmployee, otherDate) != (employee, event.date) ==>
                  && FindRecord(after.records, otherEmployee, otherDate) == FindRecord(store.records, otherEmployee, otherDate)
                  && (FindRecord(store.records, otherEmployee, otherDate).Some? ==>
                        var other := FindRecord(store.records, otherEmployee, otherDate).value;
                        other != id && after.records[other] == store.records[other]))
            && after.reports == store.reports + EventReports(id, result, event)
  {
    var result := ApplyEvent(LoadRecord(store.records, employee, event.date), event);
    LoadedRecordOk(store, limit, employee, event.date);
    HandleEventAppends(store, limit, employee, event);
    SaveIsFound(store.records, result.record);
    if (otherEmployee, otherDate) != (employee, event.date) {
      SaveLeavesOthers(store.records, result.record, otherEmployee, otherDate);
    }
  }

  lemma MessageRefines(
    store: Store, limit: nat, devices: map<string, nat>, messages: seq<Message>, message: Message,
    employee: nat, date: Day)
    requires StoreOk(store, limit) && Refines(store, devices, messages, employee, date)
    ensures Refines(HandleMessage(store, devices, message), devices, messages + [message], employee, date)
  {
    var after := HandleMessage(store, devices, message);
    if message.Some? && MatchEmployee(devices, message.value.mac).Some? {
      var sender := MatchEmployee(devices, message.value.mac).value;
      var event := message.value;
      var id := TargetId(store.records, sender, event.date);
      var result := ApplyEvent(LoadRecord(store.records, sender, event.date), event);
      EventEffect(store, limit, sender, event, employee, date);
      if result.clockInNeedsReport {
        var report := CreatePendingReport(id, result.record, ClockIn, event.time);
        ReportedAppend(store.reports, report, TargetId(store.records, employee, date));
      } else {
        assert after.reports == store.reports;
      }
      if Hits(devices, message, employee, date) {
        LoadedIsRefined(store, limit, devices, messages, employee, date);
        HitMessage(devices, messages, message, employee, date, LoadRecord(store.records, employee, date));
      } else {
        var record := LoadRecord(store.records, employee, date);
        OtherMessage(devices, messages, message, employee, date, record.first, record.last);
      }
    } else {
      var record := LoadRecord(store.records, employee, date);
      OtherMessage(devices, messages, message, employee, date, record.first, record.last);
    }
  }

  lemma MessageKeepsStoreOk(store: Store, limit: nat, devices: map<string, nat>, message: Message)
    requires StoreOk(store, limit) && 0 < limit
    ensures StoreOk(HandleMessage(store, devices, message), limit)
  {
    if message.Some? && MatchEmployee(devices, message.value.mac).Some? {
      var sender := MatchEmployee(devices, message.value.mac).value;
      HandleEventOk(store, limit, sender, message.value);
      ShapeKeepsStore(store, HandleMessage(store, devices, message),
                      TargetId(store.records, sender, message.value.date), limit);
    }
  }

  lemma {:induction false} HandleAllOk(devices: map<string, nat>, messages: seq<Message>)
    ensures StoreOk(HandleAll(devices, messages), 1)
  {
    if messages != [] {
      var n := |messages| - 1;
      HandleAllOk(devices, messages[..n]);
      MessageKeepsStoreOk(HandleAll(devices, messages[..n]), 1, devices, messages[n]);
    }
  }

  /** After any messages: a record per employee and date that was hit, with the earliest connect,
      the latest disconnect, and one report for every strict new minimum in arrival order. */
  lemma {:induction false} PipelineAggregates(
    devices: map<string, nat>, messages: seq<Message>, employee: nat, date: Day)
    ensures Refines(HandleAll(devices, messages), devices, messages, employee, date)
  {
    if messages != [] {
      var n := |messages| - 1;
      PipelineAggregates(devices, messages[..n], employee, date);
      HandleAllOk(devices, messages[..n]);
      MessageRefines(HandleAll(devices, messages[..n]), 1, devices, messages[..n], messages[n], employee, date);
      assert messages[..n] + [messages[n]] == messages;
    }
  }

  // ----- arrival order -----

  lemma SameMembers(a: seq<Message>, b: seq<Message>, i: nat) returns (j: nat)
    requires multiset(a) == multiset(b) && i < |a|
    ensures j < |b| && b[j] == a[i]
  {
    assert a[i] in multiset(a);
    assert a[i] in multiset(b);
    j :| 0 <= j < |b| && b[j] == a[i];
  }

  lemma EarliestIgnoresOrder(
    devices: map<string, nat>, a: seq<Message>, b: seq<Message>, employee: nat, date: Day,
    first: Option<Seconds>, last: Option<Seconds>)
    requires multiset(a) == multiset(b)
    requires IsEarliest(devices, a, employee, date, first) && IsLatest(devices, a, employee, date, last)
    ensures IsEarliest(devices, b, employee, date, first) && IsLatest(devices, b, employee, date, last)
    ensures AnyHit(devices, a, employee, date) ==> AnyHit(devices, b, employee, date)
  {
    forall i | 0 <= i < |b| ensures b[i] in a {
      var j: nat := SameMembers(b, a, i);
    }
    forall i | 0 <= i < |a| ensures a[i] in b {
      var j: nat := SameMembers(a, b, i);
    }
  }

  lemma EarliestIsUnique(
    devices: map<string, nat>, messages: seq<Message>, employee: nat, date: Day, a: Option<Seconds>, b: Option<Seconds>)
    ensures IsEarliest(devices, messages, employee, date, a) && IsEarliest(devices, messages, employee, date, b) ==> a == b
  {
  }

  lemma LatestIsUnique(
    devices: map<string, nat>, messages: seq<Message>, employee: nat, date: Day, a: Option<Seconds>, b: Option<Seconds>)
    ensures IsLatest(devices, messages, employee, date, a) && IsLatest(devices, messages, employee, date, b) ==> a == b
  {
  }

  /** The same messages in another order give the same times for every employee and date. */
  lemma OrderDoesNotMatter(devices: map<string, nat>, a: seq<Message>, b: seq<Message>, employee: nat, date: Day)
    requires multiset(a) == multiset(b)
    ensures var recordsA, recordsB := HandleAll(devices, a).records, HandleAll(devices, b).records;
            var idA, idB := FindRecord(recordsA, employee, date), FindRecord(recordsB, employee, date);
            && (idA.Some? <==> idB.Some?)
            && (idA.Some? ==>
                  && recordsA[idA.value].first == recordsB[idB.value].first
                  && recordsA[idA.value].last == recordsB[idB.value].last)
  {
    PipelineAggregates(devices, a, employee, date);
    PipelineAggregates(devices, b, employee, date);
    var recordsA, recordsB := HandleAll(devices, a).records, HandleAll(devices, b).records;
    var idA, idB := FindRecord(recordsA, employee, date), FindRecord(recordsB, employee, date);
    if idA.Some? {
      var record := recordsA[idA.value];
      EarliestIgnoresOrder(devices, a, b, employee, date, record.first, record.last);
      EarliestIsUnique(devices, b, employee, date, record.first, recordsB[idB.value].first);
      LatestIsUnique(devices, b, employee, date, record.last, recordsB[idB.value].last);
    } else if idB.Some? {
      var record := recordsB[idB.value];
      EarliestIgnoresOrder(devices, b, a, employee, date, record.first, record.last);
    }
  }
}
