/** The ordered receive rules: the table, the order of its listing, and the first match. */
module SyslogRules {
  import opened Wrappers
  import opened Domain

  /** Everything of a rule but its place in the order. */
  datatype RuleDef = RuleDef(name: string, pattern: string, groups: map<string, string>, timeLayout: string)

  datatype Rule = Rule(id: nat, sortOrder: nat, enabled: bool, def: RuleDef)

  /** What a rule makes of a message. */
  datatype Outcome = NoMatch | ApplyError | Matched(event: Event)

  type Matcher = (RuleDef, string, Seconds) -> Outcome

  // ----- listing -----

  predicate Before(a: Rule, b: Rule) {
    a.sortOrder < b.sortOrder || (a.sortOrder == b.sortOrder && a.id < b.id)
  }

  function InsertRule(rule: Rule, sorted: seq<Rule>): (r: seq<Rule>)
    ensures multiset(r) == multiset(sorted) + multiset{rule}
  {
    if sorted == [] then [rule]
    else if Before(rule, sorted[0]) then [rule] + sorted
    else
      assert sorted == [sorted[0]] + sorted[1..];
      [sorted[0]] + InsertRule(rule, sorted[1..])
  }

  /** `order by sort_order asc, id asc` */
  function Listed(rows: seq<Rule>): (r: seq<Rule>)
    ensures multiset(r) == multiset(rows)
  {
    if rows == [] then []
    else
      assert rows == [rows[0]] + rows[1..];
      InsertRule(rows[0], Listed(rows[1..]))
  }

  function EnabledOnly(rows: seq<Rule>): seq<Rule> {
    if rows == [] then []
    else if rows[0].enabled then [rows[0]] + EnabledOnly(rows[1..])
    else EnabledOnly(rows[1..])
  }

  /** `where enabled = 1 order by sort_order asc, id asc` */
  function ListEnabled(rows: seq<Rule>): seq<Rule> {
    Listed(EnabledOnly(rows))
  }

  ghost predicate DistinctOrders(rows: seq<Rule>) {
    forall i, j :: 0 <= i < j < |rows| ==> rows[i].sortOrder != rows[j].sortOrder
  }

  ghost predicate UniqueIds(rows: seq<Rule>) {
    forall i, j :: 0 <= i < j < |rows| ==> rows[i].id != rows[j].id
  }

  ghost predicate WellOrdered(rows: seq<Rule>) {
    DistinctOrders(rows) && UniqueIds(rows)
  }

  // ----- changes -----

  function FindRule(rows: seq<Rule>, id: nat): (found: Option<nat>)
    ensures found.Some? ==> found.value < |rows| && rows[found.value].id == id
    ensures found.None? ==> forall i :: 0 <= i < |rows| ==> rows[i].id != id
  {
    if rows == [] then None
    else if rows[|rows| - 1].id == id then Some(|rows| - 1)
    else FindRule(rows[..|rows| - 1], id)
  }

  function MaxOrder(rows: seq<Rule>): (max: nat)
    ensures forall i :: 0 <= i < |rows| ==> rows[i].sortOrder <= max
    ensures rows != [] ==> exists i :: 0 <= i < |rows| && rows[i].sortOrder == max
    ensures rows == [] ==> max == 0
  {
    if rows == [] then 0
    else
      var rest := MaxOrder(rows[..|rows| - 1]);
      var last := rows[|rows| - 1].sortOrder;
      if |rows| == 1 || last >= rest then last else rest
  }

  /** The rule that `Move` trades places with: the closest one on that side. */
  predicate Beyond(rule: Rule, order: nat, down: bool) {
    if down then rule.sortOrder > order else rule.sortOrder < order
  }

  predicate Closer(a: Rule, b: Rule, down: bool) {
    if down then Before(a, b) else Before(b, a)
  }

  function Neighbor(rows: seq<Rule>, order: nat, down: bool): (found: Option<nat>)
    ensures found.Some? ==>
              && found.value < |rows| && Beyond(rows[found.value], order, down)
              && forall i :: 0 <= i < |rows| && Beyond(rows[i], order, down) ==> !Closer(rows[i], rows[found.value], down)
    ensures found.None? ==> forall i :: 0 <= i < |rows| ==> !Beyond(rows[i], order, down)
  {
    if rows == [] then None
    else
      var last := |rows| - 1;
      var rest := Neighbor(rows[..last], order, down);
      if !Beyond(rows[last], order, down) then rest
      else if rest.None? || Closer(rows[last], rows[rest.value], down) then Some(last)
      else rest
  }

  function SetOrder(rows: seq<Rule>, i: nat, order: nat): seq<Rule>
    requires i < |rows|
  {
    rows[i := rows[i].(sortOrder := order)]
  }

  function Move(rows: seq<Rule>, id: nat, down: bool): Result<seq<Rule>, ()> {
    match FindRule(rows, id)
    case None => Failure(())
    case Some(current) =>
      var order := rows[current].sortOrder;
      match Neighbor(rows, order, down)
      case None => Success(rows)
      case Some(neighbor) =>
        Success(SetOrder(SetOrder(rows, current, rows[neighbor].sortOrder), neighbor, order))
  }

  function Create(rows: seq<Rule>, id: nat, enabled: bool, def: RuleDef): seq<Rule> {
    rows + [Rule(id, MaxOrder(rows) + 1, enabled, def)]
  }

  function Delete(rows: seq<Rule>, id: nat): seq<Rule> {
    match FindRule(rows, id)
    case None => rows
    case Some(i) => rows[..i] + rows[i + 1..]
  }

  // ----- matching -----

  datatype MatchResult = NoRule | RuleError(ruleId: nat) | RuleHit(ruleId: nat, event: Event)

  /** Disabled rules are skipped; the first rule that matches or errors decides. */
  function FirstMatch(rules: seq<Rule>, matcher: Matcher, raw: string, at: Seconds): MatchResult {
    if rules == [] then NoRule
    else if !rules[0].enabled then FirstMatch(rules[1..], matcher, raw, at)
    else
      match matcher(rules[0].def, raw, at)
      case NoMatch => FirstMatch(rules[1..], matcher, raw, at)
      case ApplyError => RuleError(rules[0].id)
      case Matched(event) => RuleHit(rules[0].id, event)
  }

  /** The loop over the rules, with its early returns. */
  method MatchSyslogRule(rules: seq<Rule>, matcher: Matcher, raw: string, at: Seconds) returns (result: MatchResult)
    ensures result == FirstMatch(rules, matcher, raw, at)
    ensures result == NoRule <==>
            forall i :: 0 <= i < |rules| && rules[i].enabled ==> matcher(rules[i].def, raw, at) == NoMatch
  {
    var i := 0;
    while i < |rules|
      invariant i <= |rules|
      invariant FirstMatch(rules, matcher, raw, at) == FirstMatch(rules[i..], matcher, raw, at)
      invariant forall j :: 0 <= j < i && rules[j].enabled ==> matcher(rules[j].def, raw, at) == NoMatch
    {
      assert rules[i..][0] == rules[i] && rules[i..][1..] == rules[i + 1..];
      if rules[i].enabled {
        match matcher(rules[i].def, raw, at) {
          case NoMatch =>
          case ApplyError =>
            return RuleError(rules[i].id);
          case Matched(event) =>
            return RuleHit(rules[i].id, event);
        }
      }
      i := i + 1;
    }
    return NoRule;
  }

  // ----- the table -----

  class RuleTable {
    var rows: seq<Rule>
    var nextId: nat

    ghost predicate Valid()
      reads this
    {
      WellOrdered(rows) && forall i :: 0 <= i < |rows| ==> rows[i].id < nextId
    }

    constructor ()
      ensures Valid() && rows == []
    {
      rows, nextId := [], 1;
    }

    method CreateRule(enabled: bool, def: RuleDef) returns (id: nat)
      requires Valid()
      modifies this
      ensures Valid() && id == old(nextId)
      ensures rows == Create(old(rows), id, enabled, def)
      ensures forall i :: 0 <= i < |old(rows)| ==> rows[i] == old(rows)[i] && rows[i].sortOrder < rows[|rows| - 1].sortOrder
    {
      id := nextId;
      rows := rows + [Rule(id, MaxOrder(rows) + 1, enabled, def)];
      nextId := nextId + 1;
    }

    method DeleteRule(id: nat)
      requires Valid()
      modifies this
      ensures Valid() && nextId == old(nextId)
      ensures rows == Delete(old(rows), id)
      ensures forall rule :: rule in rows <==> rule in old(rows) && rule.id != id
    {
      var found := FindRule(rows, id);
      if found.Some? {
        var i := found.value;
        assert rows == rows[..i] + [rows[i]] + rows[i + 1..];
        rows := rows[..i] + rows[i + 1..];
      }
    }

    /** Two updates in one transaction. */
    method MoveRule(id: nat, down: bool) returns (found: bool)
      requires Valid()
      modifies this
      ensures Valid() && nextId == old(nextId)
      ensures match Move(old(rows), id, down)
              case Failure(_) => !found && rows == old(rows)
              case Success(moved) => found && rows == moved
    {
      var current := FindRule(rows, id);
      if current.None? {
        return false;
      }
      var order := rows[current.value].sortOrder;
      var neighbor := Neighbor(rows, order, down);
      if neighbor.None? {
        return true;
      }
      var neighborOrder := rows[neighbor.value].sortOrder;
      rows := rows[current.value := rows[current.value].(sortOrder := neighborOrder)];
      rows := rows[neighbor.value := rows[neighbor.value].(sortOrder := order)];
      return true;
    }
  }
}

/** The order that the settings page predicts on its own. */
module RulesPanel {
  import opened Wrappers
  import opened SyslogRules

  /** How the page breaks ties between equal sort orders; ids are compared as localized text. */
  type TieBreak = (nat, nat) -> bool

  function InsertSorted(rule: Rule, sorted: seq<Rule>, tie: TieBreak): (r: seq<Rule>)
    ensures multiset(r) == multiset(sorted) + multiset{rule}
  {
    if sorted == [] then [rule]
    else if rule.sortOrder < sorted[0].sortOrder || (rule.sortOrder == sorted[0].sortOrder && tie(rule.id, sorted[0].id))
    then [rule] + sorted
    else
      assert sorted == [sorted[0]] + sorted[1..];
      [sorted[0]] + InsertSorted(rule, sorted[1..], tie)
  }

  function SortRules(items: seq<Rule>, tie: TieBreak): (r: seq<Rule>)
    ensures multiset(r) == multiset(items)
  {
    if items == [] then []
    else
      assert items == [items[0]] + items[1..];
      InsertSorted(items[0], SortRules(items[1..], tie), tie)
  }

  function FindIndex(items: seq<Rule>, id: nat): (found: Option<nat>)
    ensures found.Some? ==> found.value < |items| && items[found.value].id == id
    ensures found.None? ==> forall i :: 0 <= i < |items| ==> items[i].id != id
  {
    if items == [] then None
    else if items[0].id == id then Some(0)
    else
      match FindIndex(items[1..], id)
      case None => None
      case Some(i) => Some(i + 1)
  }

  /** The two rules at `i` and `j` trade places and keep the sort orders of the places. */
  function TradePlaces(items: seq<Rule>, i: nat, j: nat): seq<Rule>
    requires i < |items| && j < |items|
  {
    items[i := items[j].(sortOrder := items[i].sortOrder)][j := items[i].(sortOrder := items[j].sortOrder)]
  }

  function MoveRuleInList(items: seq<Rule>, id: nat, down: bool, tie: TieBreak): seq<Rule> {
    var sorted := SortRules(items, tie);
    match FindIndex(sorted, id)
    case None => sorted
    case Some(index) =>
      var target: int := if down then index + 1 else index - 1;
      if target < 0 || target >= |sorted| then sorted else TradePlaces(sorted, index, target)
  }
}
