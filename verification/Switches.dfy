/** What switching a single DNS rule on or off does to configurations, jobs and names. */
module Switches {
  import opened AppConfig
  import opened RuleDiff
  import opened RuleMaps
  import opened SyncLink
  import opened DataStore
  import opened Mirror
  import opened Staging
  import opened DnsRuleUpdate
  import opened Runs

  /** The rule that a switch replaced, and the one it put in its place. */
  lemma Replaced(kv: Store, kv': Store, app: Uuid, id: string, state: RuleState) returns (i: nat)
    requires Toggled(kv, kv', app, id, state)
    ensures Config(kv, app).Some? && i < |Config(kv, app).value.dns| && Config(kv, app).value.dns[i].id == id
    ensures RuleIn(kv, app, id) == Some(Config(kv, app).value.dns[i])
    ensures Config(kv', app) == Some(WithState(Config(kv, app).value, i, state))
    ensures RuleIn(kv', app, id) == Some(Config(kv', app).value.dns[i])
    ensures forall a :: Job(kv', a) == Job(kv, a)
    ensures forall a :: a != app ==> Config(kv', a) == Config(kv, a)
  {
    var c := Config(kv, app).value;
    i := IndexOf(c.dns, id);
    IndexIs(WithState(c, i, state).dns, id, i);
  }

  /** A rule of the new configuration stands in for one with the same id and content. */
  lemma SwitchedRule(c: AppDConfig, i: nat, state: RuleState, r: Rule) returns (r0: Rule)
    requires i < |c.dns| && InConfig(Some(WithState(c, i, state)), r)
    ensures InConfig(Some(c), r0) && r0.id == r.id && r0.content == r.content
    ensures r0 == r || r == WithState(c, i, state).dns[i]
  {
    var c' := WithState(c, i, state);
    if r in c'.dns {
      var j :| 0 <= j < |c'.dns| && c'.dns[j] == r;
      r0 := c.dns[j];
    } else {
      r0 := r;
    }
  }

  lemma ToggleKeepsDomains(kv: Store, kv': Store, app: Uuid, id: string, state: RuleState)
    requires DomainsUnique(kv) && Toggled(kv, kv', app, id, state)
    ensures DomainsUnique(kv')
  {
    forall a, r, a', r' | Claims(kv', a, r) && Claims(kv', a', r') && SameHost(r, r') ensures a == a' && r.id == r'.id {
      var r0 := ClaimBefore(kv, kv', app, id, state, a, r);
      var r1 := ClaimBefore(kv, kv', app, id, state, a', r');
      assert SameHost(r0, r1);
    }
  }

  lemma ClaimBefore(kv: Store, kv': Store, app: Uuid, id: string, state: RuleState, a: Uuid, r: Rule) returns (r0: Rule)
    requires Toggled(kv, kv', app, id, state) && Claims(kv', a, r)
    ensures Claims(kv, a, r0) && r0.id == r.id && r0.content == r.content
  {
    var i := Replaced(kv, kv', app, id, state);
    r0 := r;
    if a == app && InConfig(Config(kv', app), r) {
      r0 := SwitchedRule(Config(kv, app).value, i, state, r);
    }
  }

  lemma OnlySwitched(c: AppDConfig, i: nat, state: RuleState, r: Rule)
    requires i < |c.dns| && WellFormed(Some(c)) && r in WithState(c, i, state).dns && r.id == c.dns[i].id
    ensures r == WithState(c, i, state).dns[i]
  {
    var c' := WithState(c, i, state);
    var j :| 0 <= j < |c'.dns| && c'.dns[j] == r;
    assert UniqueIds(StoredRules(Some(c), DnsKind));
    assert RuleIds(c.dns)[i] == RuleIds(c.dns)[j];
  }

  lemma UntouchedRule(c: AppDConfig, i: nat, state: RuleState, r: Rule)
    requires i < |c.dns| && InConfig(Some(c), r) && r != c.dns[i]
    ensures InConfig(Some(WithState(c, i, state)), r)
  {
    if r in c.dns {
      var j :| 0 <= j < |c.dns| && c.dns[j] == r;
      assert WithState(c, i, state).dns[j] == r;
    }
  }

  lemma ToggleKeepsWellFormed(c: AppDConfig, i: nat, state: RuleState)
    requires i < |c.dns| && WellFormed(Some(c))
    ensures WellFormed(Some(WithState(c, i, state)))
  {
    var c' := WithState(c, i, state);
    forall kind ensures UniqueIds(StoredRules(Some(c'), kind)) {
      assert UniqueIds(StoredRules(Some(c), kind));
      assert RuleIds(StoredRules(Some(c'), kind)) == RuleIds(StoredRules(Some(c), kind));
    }
  }

  /** The rule map of a configuration after a switch. */
  lemma SwitchedMap(c: AppDConfig, i: nat, state: RuleState)
    requires i < |c.dns| && UniqueIds(c.dns)
    ensures var c' := WithState(c, i, state);
      UniqueIds(c'.dns) && ById(c'.dns) == ById(c.dns)[c.dns[i].id := c'.dns[i]]
  {
    var c' := WithState(c, i, state);
    assert RuleIds(c'.dns) == RuleIds(c.dns);
    SwitchedById(c.dns, i, c'.dns[i]);
  }

  lemma {:induction false} SwitchedById(rules: seq<Rule>, i: nat, r: Rule)
    requires i < |rules| && UniqueIds(rules) && r.id == rules[i].id
    ensures ById(rules[i := r]) == ById(rules)[r.id := r]
  {
    var n := |rules| - 1;
    if i < n {
      assert rules[i := r][..n] == rules[..n][i := r];
      UniqueFront(rules, i);
      SwitchedById(rules[..n], i, r);
    } else {
      assert rules[i := r][..n] == rules[..n];
    }
  }

  lemma UniqueFront(rules: seq<Rule>, i: nat)
    requires UniqueIds(rules) && i < |rules| - 1
    ensures UniqueIds(rules[..|rules| - 1]) && rules[i].id != rules[|rules| - 1].id
  {
    var n := |rules| - 1;
    assert RuleIds(rules[..n]) == RuleIds(rules)[..n];
    assert RuleIds(rules)[i] == rules[i].id && RuleIds(rules)[n] == rules[n].id;
  }

  /** A switch does no harm to the books of a worker: it changes neither ids nor contents. */
  lemma SwitchKeepsWorkable(job: AppDConfig, c: AppDConfig, i: nat, state: RuleState, t: TaskStatus)
    requires Workable(job, Some(c), t) && i < |c.dns|
    ensures Workable(job, Some(WithState(c, i, state)), t)
  {
    hide Distinct, ById, RuleIds, EntryIds;
    var c' := WithState(c, i, state);
    assert StoredRules(Some(c), DnsKind) == c.dns && StoredRules(Some(c'), DnsKind) == c'.dns;
    assert forall kind :: UniqueIds(StoredRules(Some(c), kind));
    SwitchedMap(c, i, state);
    FoundAt(c, i);
  }

  /** Whatever the ids, a switch leaves each entry its rules. */
  lemma SwitchKeepsFindable(job: AppDConfig, c: AppDConfig, i: nat, state: RuleState, t: TaskStatus)
    requires Findable(t, job, Some(c)) && i < |c.dns|
    ensures Findable(t, job, Some(WithState(c, i, state)))
  {
    hide ById;
    var c' := WithState(c, i, state);
    assert RuleIds(c'.dns) == RuleIds(c.dns);
    KeysById(c.dns, c'.dns);
    forall kind ensures ById(StoredRules(Some(c'), kind)).Keys == ById(StoredRules(Some(c), kind)).Keys {
    }
    forall kind, j | 0 <= j < |StatusList(t, kind)|
      ensures EntryFound(StatusList(t, kind)[j], ById(Rules(job, kind)), ById(StoredRules(Some(c'), kind)))
    {
      assert EntryFound(StatusList(t, kind)[j], ById(Rules(job, kind)), ById(StoredRules(Some(c), kind)));
    }
  }

  lemma {:induction false} KeysById(a: seq<Rule>, b: seq<Rule>)
    requires RuleIds(a) == RuleIds(b)
    ensures ById(a).Keys == ById(b).Keys
  {
    assert |a| == |RuleIds(a)| == |b|;
    if |a| > 0 {
      var n := |a| - 1;
      assert RuleIds(a)[n] == a[n].id && RuleIds(b)[n] == b[n].id;
      assert RuleIds(a[..n]) == RuleIds(a)[..n] && RuleIds(b[..n]) == RuleIds(b)[..n];
      KeysById(a[..n], b[..n]);
    }
  }

  lemma FoundAt(c: AppDConfig, i: nat)
    requires i < |c.dns| && UniqueIds(c.dns)
    ensures c.dns[i].id in ById(c.dns) && ById(c.dns)[c.dns[i].id] == c.dns[i]
  {
    ByIdComplete(c.dns, i);
  }

  /** The differences of one rule map to another, after the stored rule of one id was replaced. */
  lemma ReplacedDiff(list: seq<RuleStatus>, target: map<string, Rule>, store: map<string, Rule>, r: Rule, r': Rule)
    requires IsDiff(list, target, store) && r.id in store && store[r.id] == r && r'.id == r.id && r' != r
    ensures IsDiff(list, target, store[r.id := r']) <==> (r.id in target ==> target[r.id] != r && target[r.id] != r')
  {
    hide UniqueStatusIds;
    var store' := store[r.id := r'];
    forall id | id != r.id ensures Differs(id, target, store') <==> Differs(id, target, store) {
    }
    forall i | 0 <= i < |list| && list[i].id != r.id
      ensures Classified(list[i], target, store') <==> Classified(list[i], target, store)
    {
    }
    if r.id in target && target[r.id] == r {
      assert Differs(r.id, target, store');
      assert forall i :: 0 <= i < |list| ==> Classified(list[i], target, store);
      assert !Listed(r.id, list);
    } else {
      assert Differs(r.id, target, store);
      var i :| 0 <= i < |list| && list[i].id == r.id;
      assert Classified(list[i], target, store);
      if r.id in target && target[r.id] == r' {
        assert !Classified(list[i], target, store');
      }
    }
  }

  /** A switch leaves the change list of a job right if and only if the job spares the rule. */
  lemma SwitchKeepsStagedIff(job: AppDConfig, c: AppDConfig, i: nat, state: RuleState, t: TaskStatus)
    requires Staged(job, Some(c), t) && i < |c.dns| && c.dns[i].state != state
    ensures Staged(job, Some(WithState(c, i, state)), t) <==> Spares(job, c.dns[i], state)
  {
    hide Distinct, ById, RuleIds, Lists, UniqueStatusIds;
    var c' := WithState(c, i, state);
    assert StoredRules(Some(c), DnsKind) == c.dns && StoredRules(Some(c'), DnsKind) == c'.dns;
    assert forall kind :: UniqueIds(StoredRules(Some(c), kind));
    SwitchedMap(c, i, state);
    FoundAt(c, i);
    if job.operation == DeleteOp {
      assert c'.dns[i] != c.dns[i];
    } else {
      assert StoredRules(Target(job), DnsKind) == job.dns;
      assert StoredRules(Some(c'), TrafficKind) == StoredRules(Some(c), TrafficKind);
      assert IsDiff(StatusList(t, DnsKind), ById(job.dns), ById(c.dns));
      ReplacedDiff(StatusList(t, DnsKind), ById(job.dns), ById(c.dns), c.dns[i], c'.dns[i]);
      KindsApart(job, Some(c), Some(c'), t);
    }
  }

  /** Only the DNS rules changed, so only their change list is in question. */
  lemma KindsApart(job: AppDConfig, stored: Option<AppDConfig>, stored': Option<AppDConfig>, t: TaskStatus)
    requires Staged(job, stored, t) && job.operation != DeleteOp
    requires StoredRules(stored', TrafficKind) == StoredRules(stored, TrafficKind)
    requires UniqueIds(StoredRules(stored', DnsKind))
    ensures Staged(job, stored', t)
       <==> IsDiff(StatusList(t, DnsKind), ById(StoredRules(Target(job), DnsKind)), ById(StoredRules(stored', DnsKind)))
  {
    hide Distinct, ById, RuleIds, IsDiff;
    assert IsDiff(StatusList(t, TrafficKind), ById(StoredRules(Target(job), TrafficKind)),
                  ById(StoredRules(stored, TrafficKind)));
  }
}
