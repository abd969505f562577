/** Moving a rule: its effect on the listing, on the settings page and on the first match. */
module RuleOrderProofs {
  import opened Wrappers
  import opened Domain
  import opened SyslogRules
  import opened RulesPanel

  // ----- a listing is determined by its rows -----

  ghost predicate Increasing(l: seq<Rule>) {
    forall i, j :: 0 <= i < j < |l| ==> l[i].sortOrder < l[j].sortOrder
  }

  /** The rows in increasing sort order, each once. */
  ghost predicate IsListing(rows: seq<Rule>, l: seq<Rule>) {
    Increasing(l) && multiset(l) == multiset(rows)
  }

  lemma MemberOf(a: seq<Rule>, b: seq<Rule>, rule: Rule)
    requires multiset(a) == multiset(b) && rule in a
    ensures rule in b
  {
    assert rule in multiset(a);
  }

  /** The first rule of an increasing listing has the least sort order. */
  lemma SameFirst(a: seq<Rule>, b: seq<Rule>)
    requires Increasing(a) && Increasing(b) && multiset(a) == multiset(b) && a != []
    ensures b != [] && a[0] == b[0]
  {
    MemberOf(a, b, a[0]);
    MemberOf(b, a, b[0]);
  }

  lemma TailMultiset(a: seq<Rule>)
    requires a != []
    ensures multiset(a[1..]) == multiset(a) - multiset{a[0]}
  {
    assert a == [a[0]] + a[1..];
  }

  lemma {:induction false} ListingIsUnique(a: seq<Rule>, b: seq<Rule>)
    requires Increasing(a) && Increasing(b) && multiset(a) == multiset(b)
    ensures a == b
  {
    if a == [] {
      assert |multiset(b)| == |b|;
    } else {
      SameFirst(a, b);
      TailMultiset(a);
      TailMultiset(b);
      ListingIsUnique(a[1..], b[1..]);
      assert a == [a[0]] + a[1..] && b == [b[0]] + b[1..];
    }
  }

  lemma OrdersOfMembers(a: seq<Rule>, b: seq<Rule>)
    requires multiset(a) == multiset(b) && DistinctOrders(a)
    ensures DistinctOrders(b)
  {
    forall i, j | 0 <= i < j < |b| ensures b[i].sortOrder != b[j].sortOrder {
      if b[i].sortOrder == b[j].sortOrder {
        MemberOf(b, a, b[i]);
        MemberOf(b, a, b[j]);
        assert b[i] == b[j];
        assert b == b[..i] + [b[i]] + b[i + 1..j] + [b[j]] + b[j + 1..];
        assert multiset(b)[b[i]] >= 2;
        TwiceMeansTwoPlaces(a, b[i]);
      }
    }
  }

  lemma {:induction false} TwiceMeansTwoPlaces(a: seq<Rule>, rule: Rule)
    requires multiset(a)[rule] >= 2
    ensures exists i, j :: 0 <= i < j < |a| && a[i] == rule && a[j] == rule
  {
    assert rule in multiset(a);
    var i :| 0 <= i < |a| && a[i] == rule;
    var others := a[..i] + a[i + 1..];
    assert a == a[..i] + [a[i]] + a[i + 1..];
    assert multiset(others)[rule] >= 1;
    assert rule in multiset(others);
    var j :| 0 <= j < |others| && others[j] == rule;
    var k := if j < i then j else j + 1;
    assert a[k] == rule && k != i;
    if k < i {
      assert a[k] == rule && a[i] == rule;
    }
  }

  lemma {:induction false} InsertIncreasing(rule: Rule, sorted: seq<Rule>)
    requires Increasing(sorted)
    requires forall i :: 0 <= i < |sorted| ==> sorted[i].sortOrder != rule.sortOrder
    ensures Increasing(InsertRule(rule, sorted))
  {
    if sorted != [] && !Before(rule, sorted[0]) {
      InsertIncreasing(rule, sorted[1..]);
      var rest := InsertRule(rule, sorted[1..]);
      forall i | 0 <= i < |rest| ensures sorted[0].sortOrder < rest[i].sortOrder {
        assert rest[i] in multiset(rest);
        assert rest[i] in multiset(sorted[1..]) + multiset{rule};
      }
    }
  }

  lemma {:induction false} ListedIsListing(rows: seq<Rule>)
    requires DistinctOrders(rows)
    ensures IsListing(rows, Listed(rows))
  {
    if rows != [] {
      var rest := Listed(rows[1..]);
      ListedIsListing(rows[1..]);
      forall i | 0 <= i < |rest| ensures rest[i].sortOrder != rows[0].sortOrder {
        MemberOf(rest, rows[1..], rest[i]);
      }
      InsertIncreasing(rows[0], rest);
    }
  }

  lemma {:induction false} InsertSortedIncreasing(rule: Rule, sorted: seq<Rule>, tie: TieBreak)
    requires Increasing(sorted)
    requires forall i :: 0 <= i < |sorted| ==> sorted[i].sortOrder != rule.sortOrder
    ensures Increasing(InsertSorted(rule, sorted, tie))
  {
    if sorted != [] && rule.sortOrder > sorted[0].sortOrder {
      InsertSortedIncreasing(rule, sorted[1..], tie);
      var rest := InsertSorted(rule, sorted[1..], tie);
      forall i | 0 <= i < |rest| ensures sorted[0].sortOrder < rest[i].sortOrder {
        assert rest[i] in multiset(rest);
        assert rest[i] in multiset(sorted[1..]) + multiset{rule};
      }
    }
  }

  lemma {:induction false} SortRulesIsListing(items: seq<Rule>, tie: TieBreak)
    requires DistinctOrders(items)
    ensures IsListing(items, SortRules(items, tie))
  {
    if items != [] {
      var rest := SortRules(items[1..], tie);
      SortRulesIsListing(items[1..], tie);
      forall i | 0 <= i < |rest| ensures rest[i].sortOrder != items[0].sortOrder {
        MemberOf(rest, items[1..], rest[i]);
      }
      InsertSortedIncreasing(items[0], rest, tie);
    }
  }

  // ----- the effect of Create and Delete -----

  /** The query returns the one listing of the table. */
  lemma ListedIs(rows: seq<Rule>, l: seq<Rule>)
    requires IsListing(rows, l)
    ensures Listed(rows) == l
  {
    OrdersOfMembers(l, rows);
    ListedIsListing(rows);
    ListingIsUnique(Listed(rows), l);
  }

  lemma AppendToListing(rows: seq<Rule>, l: seq<Rule>, rule: Rule)
    requires IsListing(rows, l) && forall i :: 0 <= i < |rows| ==> rows[i].sortOrder < rule.sortOrder
    ensures IsListing(rows + [rule], l + [rule])
  {
    forall i | 0 <= i < |l| ensures l[i].sortOrder < rule.sortOrder {
      MemberOf(l, rows, l[i]);
    }
  }

  lemma WithoutOne(s: seq<Rule>, i: nat)
    requires i < |s|
    ensures multiset(s[..i] + s[i + 1..]) == multiset(s) - multiset{s[i]}
  {
    assert s == s[..i] + [s[i]] + s[i + 1..];
  }

  lemma RemoveFromListing(rows: seq<Rule>, p: nat, l: seq<Rule>, i: nat)
    requires IsListing(rows, l) && p < |rows| && i < |l| && rows[p] == l[i]
    ensures IsListing(rows[..p] + rows[p + 1..], l[..i] + l[i + 1..])
  {
    WithoutOne(rows, p);
    WithoutOne(l, i);
  }

  /** A new rule comes last in the listing, behind the others in their old order. */
  lemma CreateListsLast(rows: seq<Rule>, l: seq<Rule>, id: nat, enabled: bool, def: RuleDef)
    requires IsListing(rows, l)
    ensures var order := if l == [] then 1 else l[|l| - 1].sortOrder + 1;
            IsListing(Create(rows, id, enabled, def), l + [Rule(id, order, enabled, def)])
  {
    GreatestIsLast(rows, l);
    AppendToListing(rows, l, Rule(id, MaxOrder(rows) + 1, enabled, def));
  }

  lemma GreatestIsLast(rows: seq<Rule>, l: seq<Rule>)
    requires IsListing(rows, l)
    ensures MaxOrder(rows) == if l == [] then 0 else l[|l| - 1].sortOrder
  {
    if rows == [] {
      assert |multiset(l)| == |l|;
    } else {
      var p :| 0 <= p < |rows| && rows[p].sortOrder == MaxOrder(rows);
      var i: nat := PlaceOfRow(rows, l, p);
      MemberOf(l, rows, l[|l| - 1]);
    }
  }

  /** Deleting a rule takes it out of the listing and keeps the order of the others. */
  lemma DeleteFromListing(rows: seq<Rule>, l: seq<Rule>, id: nat)
    requires WellOrdered(rows) && l == Listed(rows)
    ensures match FindRule(rows, id)
            case None => Delete(rows, id) == rows
            case Some(_) => exists i: nat :: i < |l| && l[i].id == id && Listed(Delete(rows, id)) == l[..i] + l[i + 1..]
  {
    var found := FindRule(rows, id);
    if found.Some? {
      ListedIsListing(rows);
      var i: nat := PlaceOfRow(rows, l, found.value);
      RemoveFromListing(rows, found.value, l, i);
      ListedIs(Delete(rows, id), l[..i] + l[i + 1..]);
    }
  }

  // ----- the effect of Move -----

  lemma RowOfPlace(rows: seq<Rule>, l: seq<Rule>, i: nat) returns (p: nat)
    requires UniqueIds(rows) && IsListing(rows, l) && i < |l|
    ensures p < |rows| && rows[p] == l[i] && FindRule(rows, l[i].id) == Some(p)
  {
    MemberOf(l, rows, l[i]);
    p :| 0 <= p < |rows| && rows[p] == l[i];
    assert FindRule(rows, l[i].id).Some?;
  }

  lemma PlaceOfRow(rows: seq<Rule>, l: seq<Rule>, p: nat) returns (i: nat)
    requires IsListing(rows, l) && p < |rows|
    ensures i < |l| && l[i] == rows[p]
  {
    MemberOf(rows, l, rows[p]);
    i :| 0 <= i < |l| && l[i] == rows[p];
  }

  /** The place that a move leads to; outside the listing at either end. */
  function Target(i: nat, down: bool): int {
    if down then i + 1 else i - 1
  }

  /** The closest rule on one side stands next to the rule in the listing. */
  lemma NeighborIsAdjacent(rows: seq<Rule>, l: seq<Rule>, i: nat, down: bool)
    requires IsListing(rows, l) && i < |l|
    ensures var neighbor := Neighbor(rows, l[i].sortOrder, down);
            if 0 <= Target(i, down) < |l| then neighbor.Some? && rows[neighbor.value] == l[Target(i, down)]
            else neighbor.None?
  {
    var neighbor := Neighbor(rows, l[i].sortOrder, down);
    var target := Target(i, down);
    if 0 <= target < |l| {
      MemberOf(l, rows, l[target]);
      assert Beyond(l[target], l[i].sortOrder, down);
    }
    if neighbor.Some? {
      var k: nat := PlaceOfRow(rows, l, neighbor.value);
      assert if down then k > i else k < i;
      var adjacent, closest := l[target], l[k];
      assert k == target || Closer(adjacent, closest, down);
    }
  }

  lemma UpdateMultiset(s: seq<Rule>, i: nat, x: Rule, j: nat, y: Rule)
    requires i < |s| && j < |s| && i != j
    ensures multiset(s[i := x][j := y]) == multiset(s) - multiset{s[i]} + multiset{x} - multiset{s[j]} + multiset{y}
  {
  }

  lemma SameMultisets(m: multiset<Rule>, a: Rule, b: Rule, x: Rule, y: Rule)
    ensures a in m && b in m && a != b ==>
              m - multiset{a} + multiset{x} - multiset{b} + multiset{y}
              == m - multiset{a} + multiset{y} - multiset{b} + multiset{x}
  {
  }

  lemma TradedIncreasing(l: seq<Rule>, i: nat, j: nat)
    requires Increasing(l) && i < |l| && j < |l| && i != j
    ensures Increasing(TradePlaces(l, i, j))
  {
    var traded := TradePlaces(l, i, j);
    assert forall k :: 0 <= k < |l| ==> traded[k].sortOrder == l[k].sortOrder;
  }

  lemma SwappedMembers(rows: seq<Rule>, l: seq<Rule>, p: nat, q: nat, i: nat, j: nat, x: Rule, y: Rule)
    requires multiset(l) == multiset(rows) && p < |rows| && q < |rows| && p != q && i < |l| && j < |l| && i != j
    requires rows[p] == l[i] && rows[q] == l[j] && l[i] != l[j]
    ensures multiset(rows[p := x][q := y]) == multiset(l[i := y][j := x])
  {
    UpdateMultiset(rows, p, x, q, y);
    UpdateMultiset(l, i, y, j, x);
    assert l[i] in multiset(l) && l[j] in multiset(l);
    SameMultisets(multiset(l), l[i], l[j], x, y);
  }

  /** Exchanging the sort orders of two rows exchanges their places in the listing. */
  lemma SwappedListing(rows: seq<Rule>, l: seq<Rule>, p: nat, q: nat, i: nat, j: nat)
    requires IsListing(rows, l) && p < |rows| && q < |rows| && p != q && i < |l| && j < |l| && i != j
    requires rows[p] == l[i] && rows[q] == l[j]
    ensures IsListing(SetOrder(SetOrder(rows, p, rows[q].sortOrder), q, rows[p].sortOrder), TradePlaces(l, i, j))
  {
    var x, y := l[i].(sortOrder := l[j].sortOrder), l[j].(sortOrder := l[i].sortOrder);
    assert l[i] != l[j];
    TradedIncreasing(l, i, j);
    SwappedMembers(rows, l, p, q, i, j, x, y);
  }

  lemma SwapKeepsWellOrdered(rows: seq<Rule>, p: nat, q: nat)
    requires WellOrdered(rows) && p < |rows| && q < |rows| && p != q
    ensures WellOrdered(SetOrder(SetOrder(rows, p, rows[q].sortOrder), q, rows[p].sortOrder))
  {
  }

  /** `Move` exchanges a rule with its neighbor in the listing, and does nothing at the end. */
  lemma MoveTradesPlaces(rows: seq<Rule>, l: seq<Rule>, i: nat, down: bool)
    requires WellOrdered(rows) && IsListing(rows, l) && i < |l|
    ensures Move(rows, l[i].id, down).Success?
    ensures var moved := Move(rows, l[i].id, down).value;
            && WellOrdered(moved)
            && (if 0 <= Target(i, down) < |l| then IsListing(moved, TradePlaces(l, i, Target(i, down))) else moved == rows)
  {
    var p: nat := RowOfPlace(rows, l, i);
    NeighborIsAdjacent(rows, l, i, down);
    if 0 <= Target(i, down) < |l| {
      var q := Neighbor(rows, l[i].sortOrder, down).value;
      SwappedListing(rows, l, p, q, i, Target(i, down));
      SwapKeepsWellOrdered(rows, p, q);
    }
  }

  /** The listing after a move: two neighbors traded places, every other position is as before. */
  lemma MoveInListing(rows: seq<Rule>, id: nat, down: bool)
    requires WellOrdered(rows)
    ensures match Move(rows, id, down)
            case Failure(_) => forall rule :: rule in rows ==> rule.id != id
            case Success(moved) =>
              && WellOrdered(moved)
              && exists i: nat ::
                   && i < |Listed(rows)| && Listed(rows)[i].id == id
                   && (if 0 <= Target(i, down) < |Listed(rows)|
                       then Listed(moved) == TradePlaces(Listed(rows), i, Target(i, down))
                       else moved == rows)
  {
    var found := FindRule(rows, id);
    if found.Some? {
      var l := Listed(rows);
      ListedIsListing(rows);
      var i: nat := PlaceOfRow(rows, l, found.value);
      MoveTradesPlaces(rows, l, i, down);
      var moved := Move(rows, id, down).value;
      ListedIsListing(moved);
      if 0 <= Target(i, down) < |l| {
        ListingIsUnique(Listed(moved), TradePlaces(l, i, Target(i, down)));
      }
    }
  }

  lemma SwapBack(rows: seq<Rule>, p: nat, q: nat)
    requires p < |rows| && q < |rows| && p != q
    ensures var swapped := SetOrder(SetOrder(rows, p, rows[q].sortOrder), q, rows[p].sortOrder);
            SetOrder(SetOrder(swapped, p, swapped[q].sortOrder), q, swapped[p].sortOrder) == rows
  {
  }

  /** The two rows that a move exchanges. */
  lemma MovedRows(rows: seq<Rule>, l: seq<Rule>, i: nat, down: bool) returns (p: nat, q: nat)
    requires WellOrdered(rows) && IsListing(rows, l) && i < |l| && 0 <= Target(i, down) < |l|
    ensures p < |rows| && q < |rows| && p != q && rows[p] == l[i] && rows[q] == l[Target(i, down)]
    ensures Move(rows, l[i].id, down) == Success(SetOrder(SetOrder(rows, p, rows[q].sortOrder), q, rows[p].sortOrder))
  {
    p := RowOfPlace(rows, l, i);
    NeighborIsAdjacent(rows, l, i, down);
    q := Neighbor(rows, l[i].sortOrder, down).value;
  }

  lemma SameRow(rows: seq<Rule>, p: nat, q: nat)
    requires UniqueIds(rows) && p < |rows| && q < |rows| && rows[p].id == rows[q].id
    ensures p == q
  {
  }

  /** A move from place `i` is undone by the opposite move of the same rule. */
  lemma MoveBack(rows: seq<Rule>, l: seq<Rule>, i: nat, down: bool)
    requires WellOrdered(rows) && IsListing(rows, l) && i < |l| && 0 <= Target(i, down) < |l|
    ensures Move(rows, l[i].id, down).Success?
    ensures Move(Move(rows, l[i].id, down).value, l[i].id, !down) == Success(rows)
  {
    var target := Target(i, down);
    var traded := TradePlaces(l, i, target);
    MoveTradesPlaces(rows, l, i, down);
    var p, q := MovedRows(rows, l, i, down);
    var moved := Move(rows, l[i].id, down).value;
    var p', q' := MovedRows(moved, traded, target, !down);
    SameRow(moved, p', p);
    SameRow(moved, q', q);
    SwapBack(rows, p, q);
  }

  /** The opposite move undoes a move that changed something. */
  lemma OppositeMoveUndoes(rows: seq<Rule>, id: nat, down: bool)
    requires WellOrdered(rows) && Move(rows, id, down).Success? && Move(rows, id, down).value != rows
    ensures Move(Move(rows, id, down).value, id, !down) == Success(rows)
  {
    var l := Listed(rows);
    ListedIsListing(rows);
    var i: nat := PlaceOfRow(rows, l, FindRule(rows, id).value);
    MoveTradesPlaces(rows, l, i, down);
    MoveBack(rows, l, i, down);
  }

  /** The table after a move; an unknown id changes nothing. */
  function Moved(rows: seq<Rule>, id: nat, down: bool): seq<Rule> {
    match Move(rows, id, down)
    case Success(moved) => moved
    case Failure(_) => rows
  }

  /** The listing after a move of the rule at place `i`. */
  lemma MovedFromPlace(rows: seq<Rule>, l: seq<Rule>, i: nat, down: bool)
    requires WellOrdered(rows) && IsListing(rows, l) && i < |l|
    ensures Listed(Moved(rows, l[i].id, down))
            == if 0 <= Target(i, down) < |l| then TradePlaces(l, i, Target(i, down)) else l
  {
    MoveTradesPlaces(rows, l, i, down);
    var moved := Moved(rows, l[i].id, down);
    ListedIs(moved, if 0 <= Target(i, down) < |l| then TradePlaces(l, i, Target(i, down)) else l);
  }

  lemma PageSortsAsListed(rows: seq<Rule>, items: seq<Rule>, tie: TieBreak)
    requires WellOrdered(rows) && multiset(items) == multiset(rows)
    ensures SortRules(items, tie) == Listed(rows) && IsListing(rows, Listed(rows))
  {
    OrdersOfMembers(rows, items);
    SortRulesIsListing(items, tie);
    ListedIsListing(rows);
    ListingIsUnique(SortRules(items, tie), Listed(rows));
  }

  lemma UnlistedIsUnknown(rows: seq<Rule>, l: seq<Rule>, id: nat)
    requires IsListing(rows, l) && FindIndex(l, id).None?
    ensures Moved(rows, id, true) == rows && Moved(rows, id, false) == rows
  {
    if FindRule(rows, id).Some? {
      var i: nat := PlaceOfRow(rows, l, FindRule(rows, id).value);
    }
  }

  /** From equal starting lists the settings page predicts what the next listing shows. */
  lemma PanelPredictsListing(rows: seq<Rule>, items: seq<Rule>, id: nat, down: bool, tie: TieBreak)
    requires WellOrdered(rows) && multiset(items) == multiset(rows)
    ensures MoveRuleInList(items, id, down, tie) == Listed(Moved(rows, id, down))
  {
    var l := Listed(rows);
    PageSortsAsListed(rows, items, tie);
    match FindIndex(l, id)
    case None => UnlistedIsUnknown(rows, l, id);
    case Some(i) => MovedFromPlace(rows, l, i, down);
  }

  // ----- the effect on the first match -----

  predicate Hits(rule: Rule, matcher: Matcher, raw: string, at: Seconds) {
    rule.enabled && matcher(rule.def, raw, at) != NoMatch
  }

  lemma {:induction false} FirstMatchAppend(a: seq<Rule>, b: seq<Rule>, matcher: Matcher, raw: string, at: Seconds)
    ensures FirstMatch(a + b, matcher, raw, at)
            == if exists i :: 0 <= i < |a| && Hits(a[i], matcher, raw, at) then FirstMatch(a, matcher, raw, at)
               else FirstMatch(b, matcher, raw, at)
    ensures (exists i :: 0 <= i < |a| && Hits(a[i], matcher, raw, at)) <==> FirstMatch(a, matcher, raw, at) != NoRule
  {
    if a == [] {
      assert a + b == b;
    } else {
      assert (a + b)[1..] == a[1..] + b;
      FirstMatchAppend(a[1..], b, matcher, raw, at);
      if !Hits(a[0], matcher, raw, at) {
        assert forall i :: 0 <= i < |a[1..]| ==> a[1..][i] == a[i + 1];
        if i :| 0 <= i < |a| && Hits(a[i], matcher, raw, at) {
          assert Hits(a[1..][i - 1], matcher, raw, at);
        }
      }
    }
  }

  /** A rule that differs only in its sort order decides the same. */
  lemma OrderIsNotMatched(rule: Rule, order: nat, matcher: Matcher, raw: string, at: Seconds)
    ensures FirstMatch([rule.(sortOrder := order)], matcher, raw, at) == FirstMatch([rule], matcher, raw, at)
    ensures FirstMatch([rule], matcher, raw, at) != NoRule <==> Hits(rule, matcher, raw, at)
    ensures match FirstMatch([rule], matcher, raw, at)
            case NoRule => true
            case RuleError(id) => id == rule.id
            case RuleHit(id, _) => id == rule.id
  {
  }

  lemma {:induction false} EnabledInsert(rule: Rule, sorted: seq<Rule>)
    requires Increasing(sorted) && forall i :: 0 <= i < |sorted| ==> sorted[i].sortOrder != rule.sortOrder
    ensures EnabledOnly(InsertRule(rule, sorted))
            == if rule.enabled then InsertRule(rule, EnabledOnly(sorted)) else EnabledOnly(sorted)
  {
    if sorted == [] {
    } else if Before(rule, sorted[0]) {
      assert ([rule] + sorted)[1..] == sorted;
      if rule.enabled {
        InsertFirst(rule, sorted);
      }
    } else {
      var rest := InsertRule(rule, sorted[1..]);
      assert ([sorted[0]] + rest)[1..] == rest;
      EnabledInsert(rule, sorted[1..]);
      if rule.enabled && sorted[0].enabled {
        assert ([sorted[0]] + EnabledOnly(sorted[1..]))[1..] == EnabledOnly(sorted[1..]);
      }
    }
  }

  lemma {:induction false} EnabledMembers(sorted: seq<Rule>, rule: Rule)
    requires rule in EnabledOnly(sorted)
    ensures rule in sorted
  {
    if rule != sorted[0] {
      EnabledMembers(sorted[1..], rule);
    }
  }

  lemma InsertFirst(rule: Rule, sorted: seq<Rule>)
    requires Increasing(sorted) && sorted != [] && Before(rule, sorted[0])
    requires forall i :: 0 <= i < |sorted| ==> sorted[i].sortOrder != rule.sortOrder
    ensures InsertRule(rule, EnabledOnly(sorted)) == [rule] + EnabledOnly(sorted)
  {
    if EnabledOnly(sorted) != [] {
      EnabledMembers(sorted, EnabledOnly(sorted)[0]);
    }
  }

  lemma ListedCons(rule: Rule, rows: seq<Rule>)
    ensures Listed([rule] + rows) == InsertRule(rule, Listed(rows))
  {
    assert ([rule] + rows)[1..] == rows;
  }

  /** Filtering before sorting, as the query does, is filtering the listing. */
  lemma {:induction false} EnabledListing(rows: seq<Rule>)
    requires DistinctOrders(rows)
    ensures ListEnabled(rows) == EnabledOnly(Listed(rows))
  {
    if rows != [] {
      var rest := Listed(rows[1..]);
      EnabledListing(rows[1..]);
      ListedIsListing(rows[1..]);
      forall i | 0 <= i < |rest| ensures rest[i].sortOrder != rows[0].sortOrder {
        MemberOf(rest, rows[1..], rest[i]);
      }
      EnabledInsert(rows[0], rest);
      ListedCons(rows[0], EnabledOnly(rows[1..]));
    }
  }

  lemma {:induction false} DisabledAreSkipped(rules: seq<Rule>, matcher: Matcher, raw: string, at: Seconds)
    ensures FirstMatch(EnabledOnly(rules), matcher, raw, at) == FirstMatch(rules, matcher, raw, at)
  {
    if rules != [] {
      DisabledAreSkipped(rules[1..], matcher, raw, at);
      if rules[0].enabled {
        assert EnabledOnly(rules)[1..] == EnabledOnly(rules[1..]);
      }
    }
  }

  /** What the pipeline makes of a message under the stored rules. */
  function Result(rows: seq<Rule>, matcher: Matcher, raw: string, at: Seconds): MatchResult {
    FirstMatch(ListEnabled(rows), matcher, raw, at)
  }

  lemma ResultOfListing(rows: seq<Rule>, matcher: Matcher, raw: string, at: Seconds)
    requires DistinctOrders(rows)
    ensures Result(rows, matcher, raw, at) == FirstMatch(Listed(rows), matcher, raw, at)
  {
    EnabledListing(rows);
    DisabledAreSkipped(Listed(rows), matcher, raw, at);
  }

  /** Two adjacent rules trade places: the result changes exactly when both hit and nothing before them does. */
  lemma AdjacentSwap(
    before: seq<Rule>, a: Rule, b: Rule, after: seq<Rule>, orderA: nat, orderB: nat,
    matcher: Matcher, raw: string, at: Seconds)
    requires a.id != b.id
    ensures var x, y := a.(sortOrder := orderB), b.(sortOrder := orderA);
            FirstMatch(before + [a] + [b] + after, matcher, raw, at)
            != FirstMatch(before + [y] + [x] + after, matcher, raw, at)
            <==>
            && Hits(a, matcher, raw, at) && Hits(b, matcher, raw, at)
            && forall i :: 0 <= i < |before| ==> !Hits(before[i], matcher, raw, at)
  {
    var x, y := a.(sortOrder := orderB), b.(sortOrder := orderA);
    SwapParts(before, a, b, after, matcher, raw, at);
    SwapParts(before, y, x, after, matcher, raw, at);
    OrderIsNotMatched(a, orderB, matcher, raw, at);
    OrderIsNotMatched(b, orderA, matcher, raw, at);
  }

  lemma SwapParts(
    before: seq<Rule>, a: Rule, b: Rule, after: seq<Rule>, matcher: Matcher, raw: string, at: Seconds)
    ensures FirstMatch(before + [a] + [b] + after, matcher, raw, at)
            == if exists i :: 0 <= i < |before| && Hits(before[i], matcher, raw, at)
               then FirstMatch(before, matcher, raw, at)
               else if Hits(a, matcher, raw, at) then FirstMatch([a], matcher, raw, at)
               else if Hits(b, matcher, raw, at) then FirstMatch([b], matcher, raw, at)
               else FirstMatch(after, matcher, raw, at)
  {
    assert before + [a] + [b] + after == before + ([a] + ([b] + after));
    FirstMatchAppend(before, [a] + ([b] + after), matcher, raw, at);
    FirstMatchAppend([a], [b] + after, matcher, raw, at);
    FirstMatchAppend([b], after, matcher, raw, at);
    assert [a][0] == a && [b][0] == b;
  }

  /** The lower of the two places that a move exchanges. */
  function LowerPlace(i: nat, down: bool): int {
    if down then i else i - 1
  }

  lemma MovedListing(rows: seq<Rule>, l: seq<Rule>, i: nat, down: bool) returns (moved: seq<Rule>)
    requires WellOrdered(rows) && IsListing(rows, l) && i < |l| && 0 <= Target(i, down) < |l|
    ensures Move(rows, l[i].id, down) == Success(moved) && DistinctOrders(moved)
    ensures Listed(moved) == TradePlaces(l, i, Target(i, down))
  {
    MoveTradesPlaces(rows, l, i, down);
    moved := Move(rows, l[i].id, down).value;
    MovedFromPlace(rows, l, i, down);
  }

  lemma TradedResult(l: seq<Rule>, i: nat, down: bool, matcher: Matcher, raw: string, at: Seconds)
    requires i < |l| && 0 <= Target(i, down) < |l| && l[i].id != l[Target(i, down)].id
    ensures FirstMatch(TradePlaces(l, i, Target(i, down)), matcher, raw, at) != FirstMatch(l, matcher, raw, at)
            <==>
            && Hits(l[i], matcher, raw, at) && Hits(l[Target(i, down)], matcher, raw, at)
            && forall k :: 0 <= k < LowerPlace(i, down) ==> !Hits(l[k], matcher, raw, at)
  {
    var lo := LowerPlace(i, down);
    assert TradePlaces(l, i, Target(i, down)) == TradePlaces(l, lo, lo + 1);
    AdjacentInListing(l, TradePlaces(l, lo, lo + 1), lo, matcher, raw, at);
  }

  /** A move changes what becomes of a message exactly when both rules that trade places are enabled,
      each matches or errors on it, and no rule listed before them does. */
  lemma MoveChangesResultIff(
    rows: seq<Rule>, l: seq<Rule>, i: nat, down: bool, matcher: Matcher, raw: string, at: Seconds)
    requires WellOrdered(rows) && l == Listed(rows) && i < |l| && 0 <= Target(i, down) < |l|
    ensures Move(rows, l[i].id, down).Success?
    ensures Result(Move(rows, l[i].id, down).value, matcher, raw, at) != Result(rows, matcher, raw, at)
            <==>
            && Hits(l[i], matcher, raw, at) && Hits(l[Target(i, down)], matcher, raw, at)
            && forall k :: 0 <= k < LowerPlace(i, down) ==> !Hits(l[k], matcher, raw, at)
  {
    ListedIsListing(rows);
    var moved := MovedListing(rows, l, i, down);
    ResultOfListing(rows, matcher, raw, at);
    ResultOfListing(moved, matcher, raw, at);
    if down {
      IdsInListing(rows, l, i, i + 1);
    } else {
      IdsInListing(rows, l, i - 1, i);
    }
    TradedResult(l, i, down, matcher, raw, at);
  }

  lemma AdjacentInListing(l: seq<Rule>, traded: seq<Rule>, lo: nat, matcher: Matcher, raw: string, at: Seconds)
    requires lo + 1 < |l| && l[lo].id != l[lo + 1].id
    requires traded == TradePlaces(l, lo, lo + 1)
    ensures FirstMatch(traded, matcher, raw, at) != FirstMatch(l, matcher, raw, at)
            <==>
            && Hits(l[lo], matcher, raw, at) && Hits(l[lo + 1], matcher, raw, at)
            && forall k :: 0 <= k < lo ==> !Hits(l[k], matcher, raw, at)
  {
    var before, after := l[..lo], l[lo + 2..];
    var a, b := l[lo], l[lo + 1];
    assert l == before + [a] + [b] + after;
    assert traded == before + [b.(sortOrder := a.sortOrder)] + [a.(sortOrder := b.sortOrder)] + after;
    AdjacentSwap(before, a, b, after, a.sortOrder, b.sortOrder, matcher, raw, at);
    assert forall k :: 0 <= k < lo ==> before[k] == l[k];
  }

  lemma IdsInListing(rows: seq<Rule>, l: seq<Rule>, i: nat, j: nat)
    requires UniqueIds(rows) && IsListing(rows, l) && i < j < |l|
    ensures l[i].id != l[j].id
  {
    var p: nat := RowOfPlace(rows, l, i);
    var q: nat := RowOfPlace(rows, l, j);
  }
}
