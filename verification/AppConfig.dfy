/**
 * The application configuration that the sync task works on: DNS and traffic
 * rules, the change list of a task and the persisted task status.
 */
module AppConfig {

  datatype Option<+T> = None | Some(value: T)

  function Lookup<K, V>(m: map<K, V>, k: K): Option<V> {
    if k in m then Some(m[k]) else None
  }

  /** Application instance ids and task ids as the platform issues them: UUIDs, which have 36 characters. */
  const ID_LENGTH := 36

  type Uuid = s: string | |s| == ID_LENGTH witness seq(ID_LENGTH, i => '0')

  /** The State field of a rule; `Unset` is the empty string, which the code treats as ACTIVE. */
  datatype RuleState = Unset | Active | Inactive

  datatype Content =
    | Dns(domain: string, ipType: string, ip: string, ttl: nat)
    | Traffic(filterType: string, priority: int, filters: seq<string>, action: string, dst: seq<string>)

  datatype Rule = Rule(id: string, state: RuleState, content: Content)

  type DnsRule = r: Rule | r.content.Dns? witness Rule("", Unset, Dns("", "", "", 0))
  type TrafficRule = r: Rule | r.content.Traffic? witness Rule("", Unset, Traffic("", 0, [], "", []))

  datatype Kind = DnsKind | TrafficKind

  /** The request that produced a configuration record; `Settled` is the cleared field of a stored one. */
  datatype Operation = Settled | PostOp | PutOp | DeleteOp

  datatype AppDConfig = AppDConfig(dns: seq<DnsRule>, traffic: seq<TrafficRule>, appName: string, operation: Operation)

  function Rules(c: AppDConfig, kind: Kind): seq<Rule> {
    if kind == DnsKind then c.dns else c.traffic
  }

  predicate IsActive(r: Rule) {
    r.state != Inactive
  }

  /** The in-place normalisation of an empty State. */
  function Defaulted(r: Rule): Rule {
    if r.state == Unset then r.(state := Active) else r
  }

  ghost predicate Distinct(ids: seq<string>) {
    forall i, j :: 0 <= i < j < |ids| ==> ids[i] != ids[j]
  }

  ghost function RuleIds(rules: seq<Rule>): seq<string> {
    seq(|rules|, i requires 0 <= i < |rules| => rules[i].id)
  }

  ghost predicate UniqueIds(rules: seq<Rule>) {
    Distinct(RuleIds(rules))
  }

  /** The map that the code builds by ranging over a rule list: the last rule of an id wins. */
  function ById(rules: seq<Rule>): map<string, Rule> {
    if |rules| == 0 then map[]
    else
      var last := rules[|rules| - 1];
      ById(rules[..|rules| - 1])[last.id := last]
  }

  lemma {:induction false} ByIdSound(rules: seq<Rule>, id: string)
    requires id in ById(rules)
    ensures ById(rules)[id] in rules && ById(rules)[id].id == id
  {
    var n := |rules| - 1;
    if rules[n].id != id {
      ByIdSound(rules[..n], id);
    }
  }

  lemma {:induction false} ByIdHasAll(rules: seq<Rule>, i: nat)
    requires i < |rules|
    ensures rules[i].id in ById(rules)
  {
    var n := |rules| - 1;
    if i < n {
      ByIdHasAll(rules[..n], i);
    }
  }

  lemma NotYetListed(rules: seq<Rule>, i: nat)
    requires UniqueIds(rules) && i < |rules|
    ensures rules[i].id !in ById(rules[..i])
  {
    var ids := RuleIds(rules);
    assert ids[i] == rules[i].id;
    forall j | 0 <= j < i ensures rules[..i][j].id != rules[i].id {
      assert ids[j] == rules[j].id && ids[j] != ids[i];
    }
    if rules[i].id in ById(rules[..i]) {
      ByIdSound(rules[..i], rules[i].id);
    }
  }

  /** With unique ids the map holds exactly the listed rules. */
  lemma {:induction false} ByIdComplete(rules: seq<Rule>, i: nat)
    requires UniqueIds(rules) && i < |rules|
    ensures rules[i].id in ById(rules) && ById(rules)[rules[i].id] == rules[i]
  {
    var n := |rules| - 1;
    assert RuleIds(rules)[i] == rules[i].id && RuleIds(rules)[n] == rules[n].id;
    if i < n {
      assert RuleIds(rules[..n]) == RuleIds(rules)[..n];
      ByIdComplete(rules[..n], i);
    }
  }

  datatype OperType = OperCreate | OperModify | OperDelete

  /** Rule states of the sync state machine, as numbers because the code walks them with ++ and --. */
  const WAIT_MP2: nat := 0
  const WAIT_LOCAL: nat := 1
  const WAIT_CONFIG_DB_WRITE: nat := 2

  datatype RuleStatus = RuleStatus(id: string, state: nat, oper: OperType)

  datatype TaskStatus = TaskStatus(progress: int, dns: seq<RuleStatus>, traffic: seq<RuleStatus>, details: string)

  const PROGRESS_FAILURE: int := -1

  function StatusList(t: TaskStatus, kind: Kind): seq<RuleStatus> {
    if kind == DnsKind then t.dns else t.traffic
  }

  function WithStatusList(t: TaskStatus, kind: Kind, list: seq<RuleStatus>): TaskStatus {
    if kind == DnsKind then t.(dns := list) else t.(traffic := list)
  }

  ghost function EntryIds(list: seq<RuleStatus>): seq<string> {
    seq(|list|, i requires 0 <= i < |list| => list[i].id)
  }

  ghost predicate UniqueStatusIds(list: seq<RuleStatus>) {
    Distinct(EntryIds(list))
  }

  function TotalRules(t: TaskStatus): nat {
    |t.traffic| + |t.dns|
  }

  /** How many rules of a list have passed every remote stage. */
  function CountReady(list: seq<RuleStatus>): nat {
    if |list| == 0 then 0
    else CountReady(list[..|list| - 1]) + if list[|list| - 1].state == WAIT_CONFIG_DB_WRITE then 1 else 0
  }

  function ReadyRules(t: TaskStatus): nat {
    CountReady(t.dns) + CountReady(t.traffic)
  }

  /** Changing one entry moves the count by the change of that entry alone. */
  lemma {:induction false} CountReadyUpdate(list: seq<RuleStatus>, i: nat, s: RuleStatus)
    requires i < |list|
    ensures CountReady(list[i := s]) + (if list[i].state == WAIT_CONFIG_DB_WRITE then 1 else 0)
         == CountReady(list) + (if s.state == WAIT_CONFIG_DB_WRITE then 1 else 0)
  {
    var n := |list| - 1;
    if i < n {
      assert list[i := s][..n] == list[..n][i := s];
      CountReadyUpdate(list[..n], i, s);
    } else {
      assert list[i := s][..n] == list[..n];
    }
  }

  /** The count reaches the length exactly when every rule is ready. */
  lemma {:induction false} CountReadyFull(list: seq<RuleStatus>)
    ensures CountReady(list) <= |list|
    ensures CountReady(list) == |list| <==> forall i :: 0 <= i < |list| ==> list[i].state == WAIT_CONFIG_DB_WRITE
  {
    if |list| > 0 {
      var n := |list| - 1;
      CountReadyFull(list[..n]);
      assert forall i :: 0 <= i < n ==> list[..n][i] == list[i];
    }
  }
}
