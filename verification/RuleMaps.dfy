/** The new and old rule maps from which the apply and revert passes take their rules. */
module RuleMaps {
  import opened AppConfig
  import opened RuleOps

  /** The map in which the first rule of an id wins. */
  function FirstById(rules: seq<Rule>): map<string, Rule> {
    if |rules| == 0 then map[]
    else
      var last, m := rules[|rules| - 1], FirstById(rules[..|rules| - 1]);
      if last.id in m then m else m[last.id := last]
  }

  lemma {:induction false} FirstByIdSound(rules: seq<Rule>)
    ensures FirstById(rules).Keys == ById(rules).Keys
    ensures forall id :: id in FirstById(rules) ==> FirstById(rules)[id] in rules
  {
    if |rules| > 0 {
      FirstByIdSound(rules[..|rules| - 1]);
    }
  }

  /** With unique ids it does not matter which rule wins. */
  lemma {:induction false} FirstIsLast(rules: seq<Rule>)
    requires UniqueIds(rules)
    ensures FirstById(rules) == ById(rules)
  {
    if |rules| > 0 {
      var n := |rules| - 1;
      assert RuleIds(rules[..n]) == RuleIds(rules)[..n];
      FirstIsLast(rules[..n]);
      NotYetListed(rules, n);
    }
  }

  /**
   * Fills the maps in one pass over each list: the primary rules, of which the
   * last of an id wins, then the secondary rules that are not there yet, of
   * which the first wins; the old map is the secondary list.
   */
  method GenerateRuleMap(primary: seq<Rule>, secondary: seq<Rule>)
    returns (newMap: map<string, Rule>, oldMap: map<string, Rule>)
    ensures newMap == FirstById(secondary) + ById(primary)
    ensures oldMap == ById(secondary)
  {
    newMap, oldMap := map[], map[];
    for i := 0 to |primary|
      invariant newMap == ById(primary[..i])
    {
      assert primary[..i + 1][..i] == primary[..i];
      newMap := newMap[primary[i].id := primary[i]];
    }
    assert primary[..|primary|] == primary;
    for i := 0 to |secondary|
      invariant newMap == FirstById(secondary[..i]) + ById(primary)
      invariant oldMap == ById(secondary[..i])
    {
      assert secondary[..i + 1][..i] == secondary[..i];
      var rule := secondary[i];
      if rule.id !in newMap {
        newMap := newMap[rule.id := rule];
      }
      oldMap := oldMap[rule.id := rule];
    }
    assert secondary[..|secondary|] == secondary;
  }

  /** The entry finds the rules that its operation needs. */
  ghost predicate EntryFound(e: RuleStatus, job: map<string, Rule>, store: map<string, Rule>) {
    match e.oper
    case OperCreate => e.id in job
    case OperModify => e.id in job && e.id in store
    case OperDelete => e.id in store
  }

  /** Then both passes find an operation to run, and a rule of the lists that it is about. */
  lemma FoundIsCallable(app: Uuid, s: Stage, e: RuleStatus, job: seq<Rule>, store: seq<Rule>)
    requires EntryFound(e, ById(job), ById(store))
    ensures var m := FirstById(store) + ById(job);
      && e.id in m && (m[e.id] in job || m[e.id] in store)
      && TableCall(app, ApplyFunc, s, e.oper, Lookup(m, e.id), Lookup(ById(store), e.id)).Some?
    ensures var m := FirstById(job) + ById(store);
      && e.id in m && (m[e.id] in job || m[e.id] in store)
      && TableCall(app, RevertFunc, s, e.oper, Lookup(m, e.id), Lookup(ById(job), e.id)).Some?
  {
    FirstByIdSound(store);
    FirstByIdSound(job);
    if e.id in ById(job) {
      ByIdSound(job, e.id);
    }
    if e.id in ById(store) {
      ByIdSound(store, e.id);
    }
  }

  /** A change stands for a status entry, given the rules of the job and of the stored configuration. */
  ghost predicate Resolves(ch: Change, st: RuleStatus, kind: Kind, job: map<string, Rule>, store: map<string, Rule>) {
    && ch.Id() == st.id && ch.Oper() == st.oper && ch.Coherent() && KindOf(ch.Subject()) == kind
    && match ch
       case Create(target) => st.id in job && st.id !in store && Defaulted(job[st.id]) == target
       case Modify(target, stored) =>
         && st.id in job && st.id in store
         && Defaulted(job[st.id]) == target && Defaulted(store[st.id]) == stored
       case Delete(stored) =>
         && st.id in store && Defaulted(store[st.id]) == stored
         && (st.id in job ==> job[st.id] == stored.(state := job[st.id].state))
  }

  /** In the apply pass the table finds the apply call of the change, in the revert pass the compensating one. */
  lemma TableResolves(app: Uuid, s: Stage, ch: Change, st: RuleStatus, kind: Kind,
                      job: map<string, Rule>, store: map<string, Rule>)
    requires Resolves(ch, st, kind, job, store)
    ensures TableCall(app, ApplyFunc, s, st.oper, Lookup(store + job, st.id), Lookup(store, st.id))
         == Some(ApplyCall(app, s, ch))
    ensures TableCall(app, RevertFunc, s, st.oper, Lookup(job + store, st.id), Lookup(job, st.id))
         == Some(RevertCall(app, s, ch))
  {
  }

  /** Writing back the default state of one rule of a configuration. */
  function WithDefault(c: AppDConfig, kind: Kind, id: string): AppDConfig {
    if kind == DnsKind then
      c.(dns := seq(|c.dns|, i requires 0 <= i < |c.dns| =>
        if c.dns[i].id == id then DefaultDns(c.dns[i]) else c.dns[i]))
    else
      c.(traffic := seq(|c.traffic|, i requires 0 <= i < |c.traffic| =>
        if c.traffic[i].id == id then DefaultTraffic(c.traffic[i]) else c.traffic[i]))
  }

  function DefaultDns(r: DnsRule): DnsRule {
    Defaulted(r)
  }

  function DefaultTraffic(r: TrafficRule): TrafficRule {
    Defaulted(r)
  }

  /** The rules of `after` are those of `before`, with the default state written into the rules that `touched` names. */
  ghost predicate DefaultsWritten(before: seq<Rule>, after: seq<Rule>, touched: set<string>) {
    && |after| == |before|
    && forall i :: 0 <= i < |before| ==>
         after[i] == if before[i].id in touched && before[i].state == Unset then before[i].(state := Active)
                     else before[i]
  }

  lemma {:induction false} ByIdDefaults(before: seq<Rule>, after: seq<Rule>, touched: set<string>)
    requires DefaultsWritten(before, after, touched)
    ensures ById(after).Keys == ById(before).Keys
    ensures forall id :: id in ById(before) ==>
      ById(after)[id] == if id in touched then Defaulted(ById(before)[id]) else ById(before)[id]
  {
    if |before| > 0 {
      var n := |before| - 1;
      ByIdDefaults(before[..n], after[..n], touched);
      forall id | id in ById(before[..n]) ensures ById(before[..n])[id].id == id {
        ByIdSound(before[..n], id);
      }
    }
  }
}
