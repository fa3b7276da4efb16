/** The change list of an update: how the requested rules differ from the stored ones. */
module RuleDiff {
  import opened AppConfig

  /** An entry classifies its rule correctly and starts in the first state. */
  ghost predicate Classified(e: RuleStatus, target: map<string, Rule>, store: map<string, Rule>) {
    && e.state == WAIT_MP2
    && match e.oper
       case OperCreate => e.id in target && e.id !in store
       case OperModify => e.id in target && e.id in store && target[e.id] != store[e.id]
       case OperDelete => e.id !in target && e.id in store
  }

  ghost predicate Differs(id: string, target: map<string, Rule>, store: map<string, Rule>) {
    if id in target && id in store then target[id] != store[id] else id in target || id in store
  }

  ghost predicate Listed(id: string, list: seq<RuleStatus>) {
    exists i :: 0 <= i < |list| && list[i].id == id
  }

  /** The list names every difference between the two maps, and nothing else. */
  ghost predicate Lists(list: seq<RuleStatus>, target: map<string, Rule>, store: map<string, Rule>) {
    && (forall i :: 0 <= i < |list| ==> Classified(list[i], target, store))
    && (forall id :: Differs(id, target, store) ==> Listed(id, list))
  }

  /** The list names every difference once. */
  ghost predicate IsDiff(list: seq<RuleStatus>, target: map<string, Rule>, store: map<string, Rule>) {
    UniqueStatusIds(list) && Lists(list, target, store)
  }

  /** Carrying out a change list on a rule map. */
  ghost function Patch(list: seq<RuleStatus>, target: map<string, Rule>, store: map<string, Rule>): map<string, Rule>
  {
    if |list| == 0 then store
    else
      var n := |list| - 1;
      var m := Patch(list[..n], target, store);
      if list[n].oper != OperDelete && list[n].id in target then m[list[n].id := target[list[n].id]]
      else m - {list[n].id}
  }

  lemma {:induction false} PatchAt(list: seq<RuleStatus>, target: map<string, Rule>, store: map<string, Rule>,
                                   id: string)
    requires forall i :: 0 <= i < |list| ==> Classified(list[i], target, store)
    ensures var m := Patch(list, target, store);
      if Listed(id, list) then (id in m <==> id in target) && (id in target ==> m[id] == target[id])
      else (id in m <==> id in store) && (id in store ==> m[id] == store[id])
  {
    if |list| > 0 {
      var n := |list| - 1;
      PatchAt(list[..n], target, store, id);
      assert Listed(id, list) <==> Listed(id, list[..n]) || list[n].id == id;
    }
  }

  /** Patching the stored rules with their diff gives exactly the requested rules. */
  lemma PatchOfDiff(list: seq<RuleStatus>, target: map<string, Rule>, store: map<string, Rule>)
    requires IsDiff(list, target, store)
    ensures Patch(list, target, store) == target
  {
    var m := Patch(list, target, store);
    forall id ensures (id in m <==> id in target) && (id in target ==> m[id] == target[id]) {
      PatchAt(list, target, store, id);
      assert !Listed(id, list) ==> !Differs(id, target, store);
    }
  }

  /** There is nothing to do exactly when nothing differs. */
  lemma DiffIsEmpty(list: seq<RuleStatus>, target: map<string, Rule>, store: map<string, Rule>)
    requires IsDiff(list, target, store)
    ensures |list| == 0 <==> target == store
  {
    if |list| == 0 {
      PatchOfDiff(list, target, store);
    } else {
      assert Classified(list[0], target, store);
    }
  }

  /** Rules by id, each with the mark that it exists on the other side. */
  datatype RuleData = RuleData(isExisting: bool, rule: Rule)

  ghost predicate Marks(marked: map<string, RuleData>, rules: map<string, Rule>, other: map<string, Rule>) {
    && marked.Keys == rules.Keys
    && forall id :: id in marked ==> marked[id] == RuleData(id in other, rules[id])
  }

  /** The two passes that build the marked maps of one kind of rule. */
  method MarkRules(input: seq<Rule>, onStore: seq<Rule>)
    returns (inputMap: map<string, RuleData>, storeMap: map<string, RuleData>)
    ensures Marks(inputMap, ById(input), ById(onStore)) && Marks(storeMap, ById(onStore), ById(input))
  {
    inputMap, storeMap := map[], map[];
    for i := 0 to |onStore|
      invariant Marks(storeMap, ById(onStore[..i]), map[])
    {
      assert onStore[..i + 1][..i] == onStore[..i];
      storeMap := storeMap[onStore[i].id := RuleData(false, onStore[i])];
    }
    assert onStore[..|onStore|] == onStore;
    for i := 0 to |input|
      invariant Marks(inputMap, ById(input[..i]), ById(onStore)) && Marks(storeMap, ById(onStore), ById(input[..i]))
    {
      assert input[..i + 1][..i] == input[..i];
      var rule := input[i];
      if rule.id in storeMap {
        inputMap := inputMap[rule.id := RuleData(true, rule)];
        storeMap := storeMap[rule.id := storeMap[rule.id].(isExisting := true)];
      } else {
        inputMap := inputMap[rule.id := RuleData(false, rule)];
      }
    }
    assert input[..|input|] == input;
  }

  /**
   * All entries of `list` are about ids outside `todo`, and all differing ids outside `todo` that `scope` covers are
   * listed.
   */
  ghost predicate Covers(list: seq<RuleStatus>, todo: set<string>, scope: set<string>,
                         target: map<string, Rule>, store: map<string, Rule>)
  {
    && UniqueStatusIds(list)
    && (forall i :: 0 <= i < |list| ==> Classified(list[i], target, store) && list[i].id in scope - todo)
    && (forall id :: Differs(id, target, store) && id in scope - todo ==> Listed(id, list))
  }

  /** Dealing with one id: it is appended when it differs. */
  lemma CoversNext(list: seq<RuleStatus>, list': seq<RuleStatus>, todo: set<string>, scope: set<string>, id: string,
                   target: map<string, Rule>, store: map<string, Rule>)
    requires Covers(list, todo, scope, target, store) && id in todo && id in scope
    requires if Differs(id, target, store)
             then exists e: RuleStatus :: list' == list + [e] && e.id == id && Classified(e, target, store)
             else list' == list
    ensures Covers(list', todo - {id}, scope, target, store)
  {
    if Differs(id, target, store) {
      var e: RuleStatus :| list' == list + [e] && e.id == id && Classified(e, target, store);
      assert EntryIds(list') == EntryIds(list) + [id];
      assert forall i :: 0 <= i < |list| ==> EntryIds(list)[i] != id;
      assert list'[|list|].id == id;
      forall x | Listed(x, list) ensures Listed(x, list') {
        var i :| 0 <= i < |list| && list[i].id == x;
        assert list'[i].id == x;
      }
    }
  }

  /** The create and modify entries, in whatever order the map is ranged over. */
  method ListInput(inputMap: map<string, RuleData>, storeMap: map<string, RuleData>,
                   ghost target: map<string, Rule>, ghost store: map<string, Rule>)
    returns (list: seq<RuleStatus>)
    requires Marks(inputMap, target, store) && Marks(storeMap, store, target)
    ensures Covers(list, {}, target.Keys, target, store)
  {
    hide Covers;
    list := [];
    var todo := inputMap.Keys;
    CoversNone(todo, target, store);
    while todo != {}
      invariant todo <= inputMap.Keys
      invariant Covers(list, todo, target.Keys, target, store)
      decreases |todo|
    {
      var id :| id in todo;
      ghost var before := list;
      if inputMap[id].isExisting {
        if inputMap[id].rule != storeMap[id].rule {
          list := list + [RuleStatus(id, WAIT_MP2, OperModify)];
        }
      } else {
        list := list + [RuleStatus(id, WAIT_MP2, OperCreate)];
      }
      CoversNext(before, list, todo, target.Keys, id, target, store);
      todo := todo - {id};
    }
  }

  /** Turns the marked maps into the change list: first the input's entries, then the deletions. */
  method ProcessRulesFromIdMap(inputMap: map<string, RuleData>, storeMap: map<string, RuleData>,
                               ghost target: map<string, Rule>, ghost store: map<string, Rule>)
    returns (list: seq<RuleStatus>)
    requires Marks(inputMap, target, store) && Marks(storeMap, store, target)
    ensures IsDiff(list, target, store)
  {
    hide Covers, IsDiff;
    list := ListInput(inputMap, storeMap, target, store);
    ghost var scope := target.Keys + store.Keys;
    StoreOnly(list, target, store);
    var todo := storeMap.Keys;
    while todo != {}
      invariant todo <= storeMap.Keys
      invariant Covers(list, todo - target.Keys, scope, target, store)
      decreases |todo|
    {
      var id :| id in todo;
      ghost var before := list;
      if !storeMap[id].isExisting {
        list := list + [RuleStatus(id, WAIT_MP2, OperDelete)];
        CoversNext(before, list, todo - target.Keys, scope, id, target, store);
        assert todo - target.Keys - {id} == todo - {id} - target.Keys;
      } else {
        assert todo - target.Keys == todo - {id} - target.Keys;
      }
      todo := todo - {id};
    }
    CoversAll(list, target, store);
  }

  lemma CoversNone(todo: set<string>, target: map<string, Rule>, store: map<string, Rule>)
    ensures Covers([], todo, todo, target, store)
  {
  }

  lemma CoversAll(list: seq<RuleStatus>, target: map<string, Rule>, store: map<string, Rule>)
    requires Covers(list, {} - target.Keys, target.Keys + store.Keys, target, store)
    ensures IsDiff(list, target, store)
  {
  }

  /** After the first pass only the ids that are on the store alone remain. */
  lemma StoreOnly(list: seq<RuleStatus>, target: map<string, Rule>, store: map<string, Rule>)
    requires Covers(list, {}, target.Keys, target, store)
    ensures Covers(list, store.Keys - target.Keys, target.Keys + store.Keys, target, store)
  {
  }

  /** The change list of one kind of rule for an update request. */
  method HandleRuleUpdate(input: seq<Rule>, onStore: seq<Rule>) returns (list: seq<RuleStatus>)
    ensures IsDiff(list, ById(input), ById(onStore))
  {
    var inputMap, storeMap := MarkRules(input, onStore);
    list := ProcessRulesFromIdMap(inputMap, storeMap, ById(input), ById(onStore));
  }

  /** What a create or delete request compares: the rules with nothing, or nothing with the rules. */
  ghost function Side(oper: OperType, side: OperType, rules: seq<Rule>): map<string, Rule> {
    if oper == side then ById(rules) else map[]
  }

  /** The change list of a create or delete request: one entry per rule, in list order. */
  method HandleRuleCreateOrDelete(oper: OperType, rules: seq<Rule>) returns (list: seq<RuleStatus>)
    requires oper != OperModify
    ensures EntryIds(list) == RuleIds(rules)
    ensures Lists(list, Side(oper, OperCreate, rules), Side(oper, OperDelete, rules))
    ensures IsDiff(list, Side(oper, OperCreate, rules), Side(oper, OperDelete, rules)) <==> UniqueIds(rules)
  {
    list := [];
    for i := 0 to |rules|
      invariant |list| == i && forall j :: 0 <= j < i ==> list[j] == RuleStatus(rules[j].id, WAIT_MP2, oper)
    {
      list := list + [RuleStatus(rules[i].id, WAIT_MP2, oper)];
    }
    assert EntryIds(list) == RuleIds(rules);
    forall i | 0 <= i < |rules| ensures rules[i].id in ById(rules) {
      ByIdHasAll(rules, i);
    }
    forall id | id in ById(rules) ensures Listed(id, list) {
      ByIdSound(rules, id);
      var i :| 0 <= i < |rules| && rules[i] == ById(rules)[id];
      assert list[i].id == id;
    }
  }
}
