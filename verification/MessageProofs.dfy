/** What one datagram does to the tables, from the stored rules to the queued report. */
module MessageProofs {
  import opened Wrappers
  import opened Domain
  import opened Tables
  import opened SyslogPipeline
  import opened SyslogRules
  import opened RuleOrderProofs
  import opened OutboxInvariant
  import opened OutboxProducers

  // ----- which rule decides -----

  /** The first rule that is enabled and does not answer that it has no match decides, with its own answer. */
  lemma {:induction false} FirstPlaceDecides(l: seq<Rule>, i: nat, matcher: Matcher, raw: string, at: Seconds)
    requires i <= |l| && forall k :: 0 <= k < i ==> !Hits(l[k], matcher, raw, at)
    requires i < |l| ==> Hits(l[i], matcher, raw, at)
    ensures var result := FirstMatch(l, matcher, raw, at);
            if i == |l| then result == NoRule
            else match matcher(l[i].def, raw, at)
                 case Matched(event) => result == RuleHit(l[i].id, event)
                 case _ => result == RuleError(l[i].id)
  {
    if l != [] && i > 0 {
      assert !Hits(l[0], matcher, raw, at);
      assert forall k :: 0 <= k < |l[1..]| ==> l[1..][k] == l[k + 1];
      FirstPlaceDecides(l[1..], i - 1, matcher, raw, at);
    }
  }

  /** The rule at place `i` of the listing decides a datagram, by the matcher's own answer; without one nothing changes. */
  lemma ListedRuleDecides(
    store: Store, devices: map<string, nat>, rows: seq<Rule>, l: seq<Rule>, i: nat,
    matcher: Matcher, raw: string, at: Seconds)
    requires WellOrdered(rows) && IsListing(rows, l)
    requires i <= |l| && forall k :: 0 <= k < i ==> !l[k].enabled || matcher(l[k].def, raw, at) == NoMatch
    requires i < |l| ==> l[i].enabled && matcher(l[i].def, raw, at) != NoMatch
    ensures var after := HandleRaw(store, devices, rows, matcher, raw, at);
            if i == |l| then after == Success(store)
            else match matcher(l[i].def, raw, at)
                 case Matched(event) => after == Success(HandleMessage(store, devices, Some(event)))
                 case _ => after == Failure(l[i].id)
  {
    ListedIs(rows, l);
    ResultOfListing(rows, matcher, raw, at);
    FirstPlaceDecides(l, i, matcher, raw, at);
  }

  // ----- what the event does -----

  /** The earlier of a stored time, if any, and a new one. */
  function Earlier(stored: Option<Seconds>, time: Seconds): Option<Seconds> {
    if stored.Some? && stored.value <= time then stored else Some(time)
  }

  function Later(stored: Option<Seconds>, time: Seconds): Option<Seconds> {
    if stored.Some? && time <= stored.value then stored else Some(time)
  }

  /** The event moves at most one of the two times of a record, and no other field. */
  ghost predicate TimesFolded(before: Record, after: Record, event: Event) {
    after == match event.kind
             case Connect => before.(first := Earlier(before.first, event.time))
             case Disconnect => before.(last := Later(before.last, event.time))
             case OtherKind => before
  }

  /** A fresh clock-in report for the record's version, with nothing to delete. */
  ghost predicate ClockInQueued(report: Report, id: nat, record: Record, time: Seconds) {
    report == Report(id, ClockIn, TimedKey(record.employee, record.date, ClockIn, time, record.version), record.employee,
                     At(time), None, None, Pending, 0, NotifyPending, 0)
  }

  /** The whole effect of an event of one employee: its record, made when it is the first of its date, and a clock-in
      report exactly when the first connect moved. */
  lemma EventIsExact(store: Store, limit: nat, employee: nat, event: Event)
    requires StoreOk(store, limit)
    ensures var after := HandleEvent(store, employee, event);
            var found := FindRecord(store.records, employee, event.date);
            var id := if found.Some? then found.value else |store.records|;
            var loaded := if found.Some? then store.records[id]
                          else Record(employee, event.date, None, None, InPending, OutPending, NoException, FromSyslog, 1, None);
            && |after.records| == (if found.Some? then |store.records| else |store.records| + 1)
            && (forall i :: 0 <= i < |store.records| && i != id ==> after.records[i] == store.records[i])
            && TimesFolded(loaded, after.records[id], event)
            && (if after.records[id].first == loaded.first then after.reports == store.reports
                else && |after.reports| == |store.reports| + 1 && after.reports[..|store.reports|] == store.reports
                     && ClockInQueued(after.reports[|store.reports|], id, after.records[id], event.time))
  {
    HandleEventAppends(store, limit, employee, event);
    LoadedRecordOk(store, limit, employee, event.date);
  }

  /** Only an event whose station belongs to an employee touches the tables. */
  lemma MessageIsExact(store: Store, devices: map<string, nat>, event: Option<Event>)
    ensures HandleMessage(store, devices, event)
            == if event.Some? && event.value.mac in devices then HandleEvent(store, devices[event.value.mac], event.value)
               else store
  {
  }
}
