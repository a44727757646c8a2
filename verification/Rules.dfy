// Automation rules: the store (src/automation/rule_repository.cpp), the conditions
// (src/automation/condition_evaluator.cpp) and the engine (src/automation/rule_engine.cpp).
module Rules {
  import opened Common

  datatype Op = GreaterThan | LessThan | Equal | NotEqual | GreaterOrEqual | LessOrEqual

  datatype Condition = Condition(sensorType: string, op: Op, threshold: real)

  datatype Action = Action(deviceId: string, command: string, parameters: string)

  datatype Rule = Rule(
    id: string, name: string, enabled: bool, conditions: seq<Condition>, actions: seq<Action>, createdBy: string)

  datatype Reading = Reading(sensor: string, value: real)

  type Store = map<string, Rule>

  // ── Conditions ─────────────────────────────────────────────────────────────

  predicate Compare(op: Op, v: real, t: real) {
    match op
    case GreaterThan => v > t
    case LessThan => v < t
    case Equal => v == t
    case NotEqual => v != t
    case GreaterOrEqual => v >= t
    case LessOrEqual => v <= t
  }

  predicate ConditionHolds(c: Condition, r: Reading) {
    r.sensor == c.sensorType && Compare(c.op, r.value, c.threshold)
  }

  // A rule without conditions never fires.
  predicate Fires(rule: Rule, r: Reading) {
    rule.conditions != [] && forall c | c in rule.conditions :: ConditionHolds(c, r)
  }

  // The six operators by order laws.
  lemma {:induction false} OperatorLaws(v: real, t: real, larger: real)
    ensures Compare(GreaterThan, t + 1.0, t) && Compare(Equal, t, t)
    ensures v == t <==> Compare(Equal, v, t)
    ensures Compare(GreaterThan, v, t) <==> !Compare(Equal, v, t) && !Compare(LessThan, v, t)
    ensures Compare(LessThan, v, t) <==> Compare(GreaterThan, t, v)
    ensures Compare(GreaterOrEqual, v, t) <==> !Compare(LessThan, v, t)
    ensures Compare(LessOrEqual, v, t) <==> !Compare(GreaterThan, v, t)
    ensures Compare(NotEqual, v, t) <==> !Compare(Equal, v, t)
    ensures larger >= v && Compare(GreaterThan, v, t) ==> Compare(GreaterThan, larger, t)
    ensures larger >= v && Compare(LessThan, larger, t) ==> Compare(LessThan, v, t)
  {
  }

  // A further condition never makes a rule fire that has conditions and does not; a rule
  // fires iff each of its conditions alone would make it fire, and there is one.
  lemma {:induction false} ConditionsNarrow(rule: Rule, c: Condition, r: Reading)
    ensures var more := rule.(conditions := rule.conditions + [c]);
      Fires(more, r) <==> (rule.conditions == [] || Fires(rule, r)) && Fires(rule.(conditions := [c]), r)
    ensures Fires(rule.(conditions := [c]), r) <==> c.sensorType == r.sensor && Compare(c.op, r.value, c.threshold)
    ensures !Fires(rule.(conditions := []), r)
  {
    var cs := rule.conditions + [c];
    assert forall x :: x in cs <==> x in rule.conditions || x == c;
    assert c in [c];
  }

  // ── The store ──────────────────────────────────────────────────────────────

  function AddResult(rules: Store, rule: Rule): (Store, Result<()>) {
    if rule.id in rules then (rules, Err(InvalidInput)) else (rules[rule.id := rule], Ok(()))
  }

  function UpdateResult(rules: Store, rule: Rule): (Store, Result<()>) {
    if rule.id in rules then (rules[rule.id := rule], Ok(())) else (rules, Err(DataNotFound))
  }

  function RemoveResult(rules: Store, id: string): (Store, Result<()>) {
    if id in rules then (rules - {id}, Ok(())) else (rules, Err(DataNotFound))
  }

  ghost predicate KeysAreIds(rules: Store) { forall id | id in rules :: rules[id].id == id }

  // ── Enabling and disabling among other callers ─────────────────────────────

  // The store, and the changed copies of callers between the two locked steps of
  // EnableRule or DisableRule.
  datatype State = State(rules: Store, copies: map<nat, Rule>)

  datatype Event =
    | Add(rule: Rule)
    | Update(rule: Rule)
    | Remove(id: string)
    | Read(caller: nat, id: string, flag: bool)    // GetById, then set the flag on the copy
    | WriteBack(caller: nat)                       // Update with the copy

  function Step(s: State, e: Event): State {
    match e
    case Add(rule) => s.(rules := AddResult(s.rules, rule).0)
    case Update(rule) => s.(rules := UpdateResult(s.rules, rule).0)
    case Remove(id) => s.(rules := RemoveResult(s.rules, id).0)
    case Read(caller, id, flag) =>
      if id in s.rules then s.(copies := s.copies[caller := s.rules[id].(enabled := flag)])
      else s.(copies := s.copies - {caller})
    case WriteBack(caller) =>
      if caller in s.copies
      then State(UpdateResult(s.rules, s.copies[caller]).0, s.copies - {caller})
      else s
  }

  function Exec(s: State, es: seq<Event>): State
    decreases |es|
  {
    if es == [] then s else Exec(Step(s, es[0]), es[1..])
  }

  // The ids that Add and Remove alone would leave.
  function IdsAfter(ids: set<string>, es: seq<Event>): set<string>
    decreases |es|
  {
    if es == [] then ids
    else
      var next := match es[0] case Add(rule) => ids + {rule.id} case Remove(id) => ids - {id} case _ => ids;
      IdsAfter(next, es[1..])
  }

  // In every interleaving, rules stay under their own ids, and which ids are stored depends
  // on the additions and removals only.
  lemma {:induction false} IdsChangeByAddAndRemove(s: State, es: seq<Event>)
    requires KeysAreIds(s.rules)
    ensures KeysAreIds(Exec(s, es).rules)
    ensures Exec(s, es).rules.Keys == IdsAfter(s.rules.Keys, es)
    decreases |es|
  {
    if es != [] {
      var t := Step(s, es[0]);
      assert t.rules.Keys == IdsAfter(s.rules.Keys, [es[0]]) by {
        assert [es[0]][1..] == [];
      }
      IdsChangeByAddAndRemove(t, es[1..]);
    }
  }

  predicate By(e: Event, caller: nat) { (e.Read? || e.WriteBack?) && e.caller == caller }

  lemma {:induction false} CopyIsKept(s: State, es: seq<Event>, caller: nat)
    requires caller in s.copies && forall i | 0 <= i < |es| :: !By(es[i], caller)
    ensures caller in Exec(s, es).copies && Exec(s, es).copies[caller] == s.copies[caller]
    decreases |es|
  {
    if es != [] {
      CopyIsKept(Step(s, es[0]), es[1..], caller);
    }
  }

  // EnableRule or DisableRule with anything in between leaves the rule that was read, with
  // only the flag set, if the id is still there, and nothing otherwise. An atomic step would
  // leave the same iff the rule still stored differs from the one read in the flag alone.
  lemma {:induction false} CompletedToggle(s: State, caller: nat, id: string, flag: bool, es: seq<Event>)
    requires KeysAreIds(s.rules) && id in s.rules
    requires forall i | 0 <= i < |es| :: !By(es[i], caller)
    ensures var before := Exec(Step(s, Read(caller, id, flag)), es);
      var after := Step(before, WriteBack(caller));
      && (id in before.rules ==>
            && after.rules == before.rules[id := s.rules[id].(enabled := flag)]
            && (after.rules[id] == before.rules[id].(enabled := flag) <==>
                  before.rules[id] == s.rules[id].(enabled := before.rules[id].enabled)))
      && (id !in before.rules ==> after.rules == before.rules)
  {
    var read := Step(s, Read(caller, id, flag));
    CopyIsKept(read, es, caller);
    assert read.copies[caller].id == id;
  }

  // Enabling or disabling a rule that is not there changes nothing, then or later.
  lemma {:induction false} UnknownToggle(s: State, caller: nat, id: string, flag: bool, es: seq<Event>)
    requires id !in s.rules && forall i | 0 <= i < |es| :: !By(es[i], caller)
    ensures var before := Exec(Step(s, Read(caller, id, flag)), es);
      Step(s, Read(caller, id, flag)).rules == s.rules && Step(before, WriteBack(caller)).rules == before.rules
  {
    NoCopyIsKept(Step(s, Read(caller, id, flag)), es, caller);
  }

  lemma {:induction false} NoCopyIsKept(s: State, es: seq<Event>, caller: nat)
    requires caller !in s.copies && forall i | 0 <= i < |es| :: !By(es[i], caller)
    ensures caller !in Exec(s, es).copies
    decreases |es|
  {
    if es != [] {
      NoCopyIsKept(Step(s, es[0]), es[1..], caller);
    }
  }

  predicate SameButFlag(a: Rule, b: Rule) { a == b.(enabled := a.enabled) }

  // The rule stored under an id, and every copy of it but one caller's, say what `r` says.
  ghost predicate Agrees(s: State, id: string, r: Rule, caller: nat) {
    && id in s.rules && s.rules[id].id == id && SameButFlag(s.rules[id], r)
    && forall c | c in s.copies && c != caller && s.copies[c].id == id :: SameButFlag(s.copies[c], r)
  }

  predicate Rewrites(e: Event, id: string) { (e.Update? && e.rule.id == id) || (e.Remove? && e.id == id) }

  // Toggles of any callers, and whatever befalls other rules, leave all but the flag alone.
  lemma {:induction false} AgreementIsKept(s: State, es: seq<Event>, id: string, r: Rule, caller: nat)
    requires KeysAreIds(s.rules) && Agrees(s, id, r, caller)
    requires forall i | 0 <= i < |es| :: !By(es[i], caller) && !Rewrites(es[i], id)
    ensures Agrees(Exec(s, es), id, r, caller)
    decreases |es|
  {
    if es != [] {
      assert !By(es[0], caller) && !Rewrites(es[0], id);
      AgreementIsKept(Step(s, es[0]), es[1..], id, r, caller);
    }
  }

  // When everyone agrees on a rule but for its flag, enabling or disabling it while others
  // do anything but update or remove it acts as one atomic step, however many toggles of the
  // same rule overlap.
  lemma {:induction false} ToggleIsAtomic(s: State, caller: nat, id: string, flag: bool, es: seq<Event>)
    requires KeysAreIds(s.rules) && id in s.rules && Agrees(s, id, s.rules[id], caller)
    requires forall i | 0 <= i < |es| :: !By(es[i], caller) && !Rewrites(es[i], id)
    ensures var before := Exec(Step(s, Read(caller, id, flag)), es);
      && id in before.rules
      && Step(before, WriteBack(caller)).rules == before.rules[id := before.rules[id].(enabled := flag)]
  {
    AgreementIsKept(Step(s, Read(caller, id, flag)), es, id, s.rules[id], caller);
    CompletedToggle(s, caller, id, flag, es);
  }

  // What a step writes under an id: an Add of a new id, an Update or a write-back of a known.
  function Written(s: State, e: Event, id: string): Option<Rule> {
    match e
    case Add(rule) => if rule.id == id && id !in s.rules then Some(rule) else None
    case Update(rule) => if rule.id == id && id in s.rules then Some(rule) else None
    case WriteBack(caller) =>
      if caller in s.copies && s.copies[caller].id == id && id in s.rules then Some(s.copies[caller]) else None
    case _ => None
  }

  function LastWritten(s: State, es: seq<Event>, id: string): Option<Rule>
    decreases |es|
  {
    if es == [] then None
    else
      var later := LastWritten(Step(s, es[0]), es[1..], id);
      if later.Some? then later else Written(s, es[0], id)
  }

  // The rule at the end is the one written last.
  lemma {:induction false} LastWrittenStays(s: State, es: seq<Event>, id: string)
    requires id in Exec(s, es).rules
    ensures LastWritten(s, es, id).Some? ==> Exec(s, es).rules[id] == LastWritten(s, es, id).value
    ensures LastWritten(s, es, id).None? ==> id in s.rules && Exec(s, es).rules[id] == s.rules[id]
    decreases |es|
  {
    if es != [] {
      LastWrittenStays(Step(s, es[0]), es[1..], id);
    }
  }

  lemma {:induction false} FlagAlgebra(seen: Rule, now: Rule, flag: bool)
    ensures seen.(enabled := flag) == now.(enabled := flag) <==> SameButFlag(now, seen)
    ensures SameButFlag(seen.(enabled := flag), now) <==> SameButFlag(now, seen)
  {
  }

  // In general, whatever is added, updated, removed or toggled in between: on a rule that is
  // still there, the toggle is atomic iff the last write of the rule, if any, has the content
  // that was read; else it undoes that write. On a rule that is gone it changes nothing.
  lemma {:induction false} ToggleIsAtomicIff(s: State, caller: nat, id: string, flag: bool, es: seq<Event>)
    requires KeysAreIds(s.rules) && id in s.rules
    requires forall i | 0 <= i < |es| :: !By(es[i], caller)
    ensures var read := Step(s, Read(caller, id, flag));
      var before := Exec(read, es);
      var after := Step(before, WriteBack(caller));
      var last := LastWritten(read, es, id);
      && (id !in before.rules ==> after.rules == before.rules)
      && (id in before.rules ==>
            && (after.rules == before.rules[id := before.rules[id].(enabled := flag)] <==>
                last == None || SameButFlag(last.value, s.rules[id]))
            && (last.Some? ==> before.rules[id] == last.value && after.rules[id] == s.rules[id].(enabled := flag))
            && (last.Some? && !SameButFlag(last.value, s.rules[id]) ==> !SameButFlag(after.rules[id], last.value)))
  {
    hide LastWritten, SameButFlag;
    var read := Step(s, Read(caller, id, flag));
    var before := Exec(read, es);
    CompletedToggle(s, caller, id, flag, es);
    if id in before.rules {
      LastWrittenStays(read, es, id);
      FlagAlgebra(s.rules[id], before.rules[id], flag);
      FlagAlgebra(s.rules[id], s.rules[id], flag);
      var after := Step(before, WriteBack(caller));
      assert after.rules[id] == s.rules[id].(enabled := flag);
    }
  }

  // Removed and added anew in between, a rule gets its old content back.
  lemma {:induction false} ReAddedRuleIsLost(s: State, caller: nat, flag: bool, rule: Rule)
    requires KeysAreIds(s.rules) && rule.id in s.rules
    ensures Step(Exec(Step(s, Read(caller, rule.id, flag)), [Remove(rule.id), Add(rule)]), WriteBack(caller)).rules
      == s.rules[rule.id := s.rules[rule.id].(enabled := flag)]
  {
    var read := Step(s, Read(caller, rule.id, flag));
    var es := [Remove(rule.id), Add(rule)];
    CompletedToggle(s, caller, rule.id, flag, es);
    var removed := Step(read, Remove(rule.id));
    assert es[1..] == [Add(rule)] && [Add(rule)][1..] == [];
    assert Exec(read, es) == Exec(removed, [Add(rule)]) == Step(removed, Add(rule));
    assert read.rules - {rule.id} == s.rules - {rule.id};
  }

  // With nothing else between the two steps, all of the update is lost.
  lemma {:induction false} UpdateInBetweenIsLost(s: State, caller: nat, flag: bool, rule: Rule)
    requires KeysAreIds(s.rules) && rule.id in s.rules
    ensures Step(Exec(Step(s, Read(caller, rule.id, flag)), [Update(rule)]), WriteBack(caller)).rules
      == s.rules[rule.id := s.rules[rule.id].(enabled := flag)]
  {
    CompletedToggle(s, caller, rule.id, flag, [Update(rule)]);
    var read := Step(s, Read(caller, rule.id, flag));
    assert [Update(rule)][1..] == [];
    assert Exec(read, [Update(rule)]) == Step(read, Update(rule));
  }

  // ── Evaluation ─────────────────────────────────────────────────────────────

  function EnabledAmong(rules: Store, ids: set<string>): set<Rule> {
    set id | id in ids && id in rules && rules[id].enabled :: rules[id]
  }

  function EnabledRules(rules: Store): set<Rule> { EnabledAmong(rules, rules.Keys) }

  ghost predicate Collected(rules: Store, ids: set<string>, list: seq<Rule>) {
    multiset(list) == multiset(EnabledAmong(rules, ids))
  }

  lemma {:induction false} CollectedNone(rules: Store)
    ensures Collected(rules, {}, [])
  {
    assert EnabledAmong(rules, {}) == {};
  }

  lemma {:induction false} CollectedGrows(rules: Store, ids: set<string>, list: seq<Rule>, id: string)
    requires KeysAreIds(rules) && id in rules && id !in ids && Collected(rules, ids, list)
    ensures Collected(rules, ids + {id}, if rules[id].enabled then list + [rules[id]] else list)
  {
    var before, after := EnabledAmong(rules, ids), EnabledAmong(rules, ids + {id});
    if rules[id].enabled {
      assert rules[id] !in before && after == before + {rules[id]};
      assert multiset(after) == multiset(before) + multiset{rules[id]};
    } else {
      assert after == before;
    }
  }

  lemma {:induction false} CollectedAll(rules: Store, ids: set<string>, list: seq<Rule>)
    requires Collected(rules, ids, list) && ids == rules.Keys
    ensures multiset(list) == multiset(EnabledRules(rules))
  {
  }

  // The actions of the rules of a list that fire.
  function FiredBy(list: seq<Rule>, r: Reading): seq<Action> {
    if list == [] then []
    else
      var rule := list[|list| - 1];
      FiredBy(list[..|list| - 1], r) + (if Fires(rule, r) then rule.actions else [])
  }

  // How often the rules of a list that fire have the action.
  function Occurrences(list: seq<Rule>, r: Reading, a: Action): nat {
    if list == [] then 0
    else
      var rule := list[|list| - 1];
      Occurrences(list[..|list| - 1], r, a) + (if Fires(rule, r) then multiset(rule.actions)[a] else 0)
  }

  lemma {:induction false} FiredByCounts(list: seq<Rule>, r: Reading, a: Action)
    ensures multiset(FiredBy(list, r))[a] == Occurrences(list, r, a)
  {
    if list != [] {
      FiredByCounts(list[..|list| - 1], r, a);
    }
  }

  // All conditions name the sensor of the reading and hold of its value, and there is one.
  predicate AllHold(conditions: seq<Condition>, r: Reading) {
    conditions != [] && forall i | 0 <= i < |conditions| ::
      conditions[i].sensorType == r.sensor && Compare(conditions[i].op, r.value, conditions[i].threshold)
  }

  ghost predicate HasFiringRule(rules: Store, r: Reading, a: Action) {
    exists id :: id in rules && rules[id].enabled && a in rules[id].actions && AllHold(rules[id].conditions, r)
  }

  lemma {:induction false} FiredByIff(list: seq<Rule>, r: Reading, a: Action)
    ensures a in FiredBy(list, r) <==>
      exists i :: 0 <= i < |list| && a in list[i].actions && AllHold(list[i].conditions, r)
  {
    if list != [] {
      var rest, rule := list[..|list| - 1], list[|list| - 1];
      FiredByIff(rest, r, a);
      assert forall i | 0 <= i < |rest| :: rest[i] == list[i];
      assert Fires(rule, r) <==> AllHold(rule.conditions, r) by { FiresIff(rule, r); }
      if Fires(rule, r) && a in rule.actions {
        assert a in list[|list| - 1].actions;
      }
    }
  }

  lemma {:induction false} FiresIff(rule: Rule, r: Reading)
    ensures Fires(rule, r) <==> AllHold(rule.conditions, r)
  {
    if AllHold(rule.conditions, r) {
      forall c | c in rule.conditions ensures ConditionHolds(c, r) {
        var i :| 0 <= i < |rule.conditions| && rule.conditions[i] == c;
      }
    }
    if Fires(rule, r) {
      assert forall i | 0 <= i < |rule.conditions| :: ConditionHolds(rule.conditions[i], r);
    }
  }

  // An action fires iff a stored enabled rule that has it has conditions, and all hold.
  lemma {:induction false} FiresFromStore(rules: Store, list: seq<Rule>, r: Reading, a: Action)
    requires multiset(list) == multiset(EnabledRules(rules))
    ensures a in FiredBy(list, r) <==> HasFiringRule(rules, r, a)
  {
    hide FiredBy, AllHold;
    FiredByIff(list, r, a);
    assert forall rule :: rule in multiset(list) <==> rule in EnabledRules(rules);
    if i :| 0 <= i < |list| && a in list[i].actions && AllHold(list[i].conditions, r) {
      assert list[i] in multiset(list);
      var id :| id in rules && rules[id].enabled && rules[id] == list[i];
    }
    if id :| id in rules && rules[id].enabled && a in rules[id].actions && AllHold(rules[id].conditions, r) {
      assert rules[id] in multiset(list);
      var i :| 0 <= i < |list| && list[i] == rules[id];
    }
  }

  lemma {:induction false} FiredByAppend(a: seq<Rule>, b: seq<Rule>, r: Reading)
    ensures FiredBy(a + b, r) == FiredBy(a, r) + FiredBy(b, r)
    decreases |b|
  {
    if b == [] {
      assert a + b == a;
    } else {
      FiredByAppend(a, b[..|b| - 1], r);
      assert (a + b)[..|a + b| - 1] == a + b[..|b| - 1];
    }
  }

  lemma {:induction false} Extract<T>(x: T, b: seq<T>) returns (i: nat)
    requires x in b
    ensures i < |b| && b[i] == x
    ensures b == b[..i] + [x] + b[i + 1..]
    ensures multiset(b) == multiset(b[..i] + b[i + 1..]) + multiset{x}
  {
    i :| i < |b| && b[i] == x;
    assert b == b[..i] + [x] + b[i + 1..];
  }

  lemma {:induction false} Cancel<T>(a: multiset<T>, b: multiset<T>, x: T)
    requires a + multiset{x} == b + multiset{x}
    ensures a == b
  {
    assert a == a + multiset{x} - multiset{x};
    assert b == b + multiset{x} - multiset{x};
  }

  lemma {:induction false} FiredByAround(before: seq<Rule>, x: Rule, after: seq<Rule>, r: Reading)
    ensures multiset(FiredBy(before + [x] + after, r)) ==
      multiset(FiredBy(before + after, r)) + multiset(if Fires(x, r) then x.actions else [])
  {
    FiredByAppend(before, after, r);
    FiredByAppend(before + [x], after, r);
    assert (before + [x])[..|before|] == before;
  }

  // In whatever order the store is walked, the same actions fire equally often.
  lemma {:induction false} OrderIsIrrelevant(a: seq<Rule>, b: seq<Rule>, r: Reading)
    requires multiset(a) == multiset(b)
    ensures multiset(FiredBy(a, r)) == multiset(FiredBy(b, r))
    decreases |a|
  {
    if a == [] {
      assert |multiset(b)| == 0;
    } else {
      var rest, x := a[..|a| - 1], a[|a| - 1];
      assert a == rest + [x];
      assert x in multiset(a);
      var i := Extract(x, b);
      var others := b[..i] + b[i + 1..];
      assert multiset(rest) + multiset{x} == multiset(others) + multiset{x};
      Cancel(multiset(rest), multiset(others), x);
      OrderIsIrrelevant(rest, others, r);
      FiredByAround(b[..i], x, b[i + 1..], r);
    }
  }

  // ── The objects ────────────────────────────────────────────────────────────

  class RuleRepository {
    var rules: Store

    ghost predicate Valid()
      reads this
    {
      KeysAreIds(rules)
    }

    constructor ()
      ensures Valid() && rules == map[]
    {
      rules := map[];
    }

    method Add(rule: Rule) returns (result: Result<()>)
      requires Valid()
      modifies this
      ensures Valid() && (rules, result) == AddResult(old(rules), rule)
      ensures rule.id in old(rules) ==> rules == old(rules) && result == Err(InvalidInput)
      ensures rule.id !in old(rules) ==> rules == old(rules)[rule.id := rule] && result == Ok(())
    {
      if rule.id in rules {
        return Err(InvalidInput);
      }
      rules := rules[rule.id := rule];
      return Ok(());
    }

    method Update(rule: Rule) returns (result: Result<()>)
      requires Valid()
      modifies this
      ensures Valid() && (rules, result) == UpdateResult(old(rules), rule)
      ensures rule.id in old(rules) ==> rules == old(rules)[rule.id := rule] && result == Ok(())
      ensures rule.id !in old(rules) ==> rules == old(rules) && result == Err(DataNotFound)
    {
      if rule.id !in rules {
        return Err(DataNotFound);
      }
      rules := rules[rule.id := rule];
      return Ok(());
    }

    method Remove(ruleId: string) returns (result: Result<()>)
      requires Valid()
      modifies this
      ensures Valid() && (rules, result) == RemoveResult(old(rules), ruleId)
      ensures rules == old(rules) - {ruleId}
      ensures result == if ruleId in old(rules) then Ok(()) else Err(DataNotFound)
    {
      if ruleId !in rules {
        return Err(DataNotFound);
      }
      rules := rules - {ruleId};
      return Ok(());
    }

    method GetById(ruleId: string) returns (result: Result<Rule>)
      ensures result == if ruleId in rules then Ok(rules[ruleId]) else Err(DataNotFound)
    {
      if ruleId !in rules {
        return Err(DataNotFound);
      }
      return Ok(rules[ruleId]);
    }

    // Walks the map in no particular order.
    method GetEnabled() returns (result: seq<Rule>)
      requires Valid()
      ensures multiset(result) == multiset(EnabledRules(rules))
    {
      hide Collected, EnabledAmong;
      result := [];
      var todo, done := rules.Keys, {};
      CollectedNone(rules);
      while todo != {}
        invariant todo !! done && todo + done == rules.Keys
        invariant Collected(rules, done, result)
      {
        var id :| id in todo;
        CollectedGrows(rules, done, result, id);
        if rules[id].enabled {
          result := result + [rules[id]];
        }
        todo, done := todo - {id}, done + {id};
      }
      CollectedAll(rules, done, result);
    }
  }

  class RuleEngine {
    const repository: RuleRepository

    constructor (repository: RuleRepository)
      ensures this.repository == repository
    {
      this.repository := repository;
    }

    // As a multiset, exactly the actions of the enabled rules whose conditions all hold.
    method Evaluate(reading: Reading) returns (fired: seq<Action>)
      requires repository.Valid()
      ensures forall list | multiset(list) == multiset(EnabledRules(repository.rules)) ::
        multiset(fired) == multiset(FiredBy(list, reading))
      ensures forall a :: a in fired <==> HasFiringRule(repository.rules, reading, a)
      ensures forall list, a | multiset(list) == multiset(EnabledRules(repository.rules)) ::
        multiset(fired)[a] == Occurrences(list, reading, a)
    {
      hide AllHold, HasFiringRule;
      var enabled := repository.GetEnabled();
      fired := [];
      for i := 0 to |enabled|
        invariant fired == FiredBy(enabled[..i], reading)
      {
        assert enabled[..i + 1][..i] == enabled[..i];
        if Fires(enabled[i], reading) {
          for j := 0 to |enabled[i].actions|
            invariant fired == FiredBy(enabled[..i], reading) + enabled[i].actions[..j]
          {
            fired := fired + [enabled[i].actions[j]];
          }
        }
      }
      assert enabled[..|enabled|] == enabled;
      forall list | multiset(list) == multiset(EnabledRules(repository.rules))
        ensures multiset(fired) == multiset(FiredBy(list, reading))
      {
        OrderIsIrrelevant(enabled, list, reading);
      }
      forall a ensures a in fired <==> HasFiringRule(repository.rules, reading, a) {
        FiresFromStore(repository.rules, enabled, reading, a);
      }
      forall list, a | multiset(list) == multiset(EnabledRules(repository.rules))
        ensures multiset(fired)[a] == Occurrences(list, reading, a)
      {
        FiredByCounts(list, reading, a);
      }
    }

    // EnableRule (flag) and DisableRule (!flag) without interference.
    method SetEnabled(ruleId: string, flag: bool) returns (result: Result<()>)
      requires repository.Valid()
      modifies repository
      ensures repository.Valid()
      ensures ruleId in old(repository.rules) ==> result == Ok(())
      ensures ruleId in old(repository.rules) ==>
        repository.rules == old(repository.rules)[ruleId := old(repository.rules)[ruleId].(enabled := flag)]
      ensures ruleId !in old(repository.rules) ==>
        result == Err(DataNotFound) && repository.rules == old(repository.rules)
    {
      var found := repository.GetById(ruleId);
      if found.Err? {
        return Err(found.error);
      }
      var copy := found.value.(enabled := flag);
      result := repository.Update(copy);
    }
  }
}
