/** The request handlers: they check a request against the store and stage it as job, task and status records. */
module Staging {
  import opened AppConfig
  import opened RuleDiff
  import opened SyncLink
  import opened DataStore
  import opened Mirror
  import opened SyncWorker

  /** Why a request is turned down, in the order in which the reasons are looked for. */
  datatype Rejection =
    | AppExists
    | AppNotFound
    | DuplicateAppName
    | OngoingOperation
    | BadRecord
    | NameMismatch
    | NoModification
    | DuplicateDomain
    | StoreFailure
  {
    function Rank(): nat {
      match this
      case AppExists => 0
      case AppNotFound => 1
      case DuplicateAppName => 2
      case OngoingOperation => 3
      case BadRecord => 4
      case NameMismatch => 5
      case NoModification => 6
      case DuplicateDomain => 7
      case StoreFailure => 8
    }
  }

  datatype StageResult = Accepted | Rejected(why: Rejection)

  function Domains(rules: seq<DnsRule>): set<string> {
    set r: Rule | r in rules :: r.content.domain
  }

  ghost function DomainList(rules: seq<DnsRule>): seq<string> {
    seq(|rules|, i requires 0 <= i < |rules| => rules[i].content.domain)
  }

  /** The configuration under a key has the name. */
  predicate Carries(kv: Store, k: Key, name: string) {
    k in kv && kv[k].ConfigRecord? && kv[k].config.appName == name
  }

  /** A configuration or job record of another application. */
  predicate Foreign(kv: Store, k: Key, app: Uuid) {
    (k.ConfigKey? || k.JobKey?) && k in kv && kv[k].ConfigRecord? && k.app != app
  }

  /** The domain names that other applications have stored or have pending. */
  ghost predicate TakenElsewhere(kv: Store, app: Uuid, domain: string) {
    exists k :: Foreign(kv, k, app) && domain in Domains(kv[k].config.dns)
  }

  /** Every domain that the change list creates is free elsewhere. */
  ghost predicate CreatesFree(kv: Store, app: Uuid, rules: map<string, Rule>, list: seq<RuleStatus>) {
    forall i :: 0 <= i < |list| && list[i].oper == OperCreate ==>
      && list[i].id in rules && rules[list[i].id].content.Dns?
      && !TakenElsewhere(kv, app, rules[list[i].id].content.domain)
  }

  /** Rule ids are unique within a configuration. */
  ghost predicate WellFormed(c: Option<AppDConfig>) {
    forall kind :: UniqueIds(StoredRules(c, kind))
  }

  /** A job that can be compared with what is stored: create over nothing, delete of the stored rules themselves. */
  ghost predicate Stageable(job: AppDConfig, stored: Option<AppDConfig>) {
    match job.operation
    case PostOp => stored.None?
    case PutOp => stored.Some?
    case DeleteOp => stored.Some? && job.dns == stored.value.dns && job.traffic == stored.value.traffic
    case Settled => false
  }

  /** The change lists of a job: they name every difference, and each of them once if rule ids are unique. */
  ghost predicate Compared(job: AppDConfig, stored: Option<AppDConfig>, t: TaskStatus) {
    && ListsChanges(job, stored, t)
    && (Staged(job, stored, t) <==> WellFormed(Some(job)) && WellFormed(stored))
  }

  /** The job record that a request leads to. */
  function JobFor(kv: Store, app: Uuid, input: AppDConfig): AppDConfig {
    var stored := ConfigIn(kv, ConfigKey(app));
    if input.operation == DeleteOp && stored.Some? then stored.value.(operation := DeleteOp) else input
  }

  /** The rules whose domains are checked: a delete request carries none. */
  function InputRules(input: AppDConfig): seq<DnsRule> {
    if input.operation == DeleteOp then [] else input.dns
  }

  /** The store with the three records of a task. */
  function WithRecords(kv: Store, app: Uuid, task: Uuid, job: AppDConfig, t: TaskStatus): Store {
    kv[JobKey(app) := ConfigRecord(job)][TaskKey(task) := TaskRecord(app)][StatusKey(app, task) := StatusRecord(t)]
  }

  /** The store after an accepted request. */
  ghost predicate StagedAs(kv: Store, kv': Store, app: Uuid, task: Uuid, input: AppDConfig, t: TaskStatus) {
    var job := JobFor(kv, app, input);
    && kv' == WithRecords(kv, app, task, job, t)
    && Compared(job, ConfigIn(kv, ConfigKey(app)), t) && TotalRules(t) > 0
    && Distinct(DomainList(InputRules(input))) && CreatesFree(kv, app, ById(InputRules(input)), t.dns)
  }

  /** Both lists of a status record are what they should be, so the record is. */
  lemma BothKinds(job: AppDConfig, stored: Option<AppDConfig>, t: TaskStatus)
    requires Stageable(job, stored) && t.progress == 0
    requires Lists(t.dns, ById(StoredRules(Target(job), DnsKind)), ById(StoredRules(stored, DnsKind)))
    requires Lists(t.traffic, ById(StoredRules(Target(job), TrafficKind)), ById(StoredRules(stored, TrafficKind)))
    requires WellFormed(Some(job)) && WellFormed(stored) ==> UniqueStatusIds(t.dns) && UniqueStatusIds(t.traffic)
    ensures Compared(job, stored, t)
  {
    hide Distinct, Lists, ById;
    assert forall kind :: StoredRules(Some(job), kind) == Rules(job, kind);
    assert StatusList(t, DnsKind) == t.dns && StatusList(t, TrafficKind) == t.traffic;
  }

  lemma CreatesAreListed(job: AppDConfig, stored: Option<AppDConfig>, t: TaskStatus)
    requires Compared(job, stored, t)
    ensures forall i :: 0 <= i < |t.dns| && t.dns[i].oper == OperCreate ==> t.dns[i].id in ById(InputRules(job))
  {
    hide Staged, WellFormed;
    assert Lists(StatusList(t, DnsKind), ById(StoredRules(Target(job), DnsKind)), ById(StoredRules(stored, DnsKind)));
    assert StoredRules(Target(job), DnsKind) == InputRules(job);
  }

  /** The records of the task itself play no part in the search for taken domains. */
  lemma OwnRecordsDoNotCount(kv: Store, kv': Store, app: Uuid, task: Uuid, job: AppDConfig, d: string)
    requires kv' == kv[JobKey(app) := ConfigRecord(job)][TaskKey(task) := TaskRecord(app)]
    ensures TakenElsewhere(kv, app, d) <==> TakenElsewhere(kv', app, d)
  {
    if TakenElsewhere(kv, app, d) {
      var k :| Foreign(kv, k, app) && d in Domains(kv[k].config.dns);
      assert Foreign(kv', k, app) && kv'[k] == kv[k];
    }
    if TakenElsewhere(kv', app, d) {
      var k :| Foreign(kv', k, app) && d in Domains(kv'[k].config.dns);
      assert Foreign(kv, k, app) && kv'[k] == kv[k];
    }
  }

  lemma FreeAsBefore(kv: Store, kv': Store, app: Uuid, task: Uuid, job: AppDConfig, list: seq<RuleStatus>)
    requires kv' == kv[JobKey(app) := ConfigRecord(job)][TaskKey(task) := TaskRecord(app)]
    ensures forall rules :: CreatesFree(kv', app, rules, list) <==> CreatesFree(kv, app, rules, list)
  {
    hide TakenElsewhere;
    forall d ensures TakenElsewhere(kv, app, d) <==> TakenElsewhere(kv', app, d) {
      OwnRecordsDoNotCount(kv, kv', app, task, job, d);
    }
  }

  // --- Which requests are turned down ---

  /** The rules that a request asks for, by id; a delete request asks for none. */
  function Requested(input: AppDConfig, kind: Kind): map<string, Rule> {
    if input.operation == DeleteOp then map[] else ById(Rules(input, kind))
  }

  /** The rules that the application has stored, by id. */
  function Present(kv: Store, app: Uuid, kind: Kind): map<string, Rule> {
    ById(StoredRules(ConfigIn(kv, ConfigKey(app)), kind))
  }

  /** A configuration has a rule for the domain. */
  ghost predicate Names(c: Option<AppDConfig>, domain: string) {
    c.Some? && exists i :: 0 <= i < |c.value.dns| && c.value.dns[i].content.domain == domain
  }

  /** The request brings a rule id of its own whose domain another application has stored or pending. */
  ghost predicate Claimed(kv: Store, app: Uuid, input: AppDConfig, id: string) {
    && id in Requested(input, DnsKind) && id !in Present(kv, app, DnsKind)
    && Requested(input, DnsKind)[id].content.Dns?
    && var domain := Requested(input, DnsKind)[id].content.domain;
       exists x :: x != app && (Names(ConfigIn(kv, ConfigKey(x)), domain) || Names(ConfigIn(kv, JobKey(x)), domain))
  }

  /** Two rules of the request are for one domain. */
  ghost predicate NamesTwice(input: AppDConfig) {
    && input.operation != DeleteOp
    && exists i, j :: 0 <= i < j < |input.dns| && input.dns[i].content.domain == input.dns[j].content.domain
  }

  /** What stands against a request, taken by itself. */
  ghost predicate Blocks(kv: Store, app: Uuid, input: AppDConfig, why: Rejection) {
    match why
    case AppExists => input.operation == PostOp && ConfigKey(app) in kv
    case AppNotFound => input.operation != PostOp && ConfigKey(app) !in kv
    case DuplicateAppName =>
      input.operation == PostOp
      && exists x :: ConfigIn(kv, ConfigKey(x)).Some? && ConfigIn(kv, ConfigKey(x)).value.appName == input.appName
    case OngoingOperation => JobKey(app) in kv
    case BadRecord => input.operation != PostOp && ConfigKey(app) in kv && !kv[ConfigKey(app)].ConfigRecord?
    case NameMismatch =>
      input.operation == PutOp
      && ConfigIn(kv, ConfigKey(app)).Some? && ConfigIn(kv, ConfigKey(app)).value.appName != input.appName
    case NoModification =>
      forall kind, id :: !Differs(id, Requested(input, kind), Present(kv, app, kind))
    case DuplicateDomain => NamesTwice(input) || exists id :: Claimed(kv, app, input, id)
    case StoreFailure => false
  }

  /** A request is turned down for the first reason that stands against it. */
  ghost predicate TurnedDown(kv: Store, app: Uuid, input: AppDConfig, why: Rejection) {
    Blocks(kv, app, input, why) && forall w: Rejection :: w.Rank() < why.Rank() ==> !Blocks(kv, app, input, w)
  }

  ghost predicate Acceptable(kv: Store, app: Uuid, input: AppDConfig) {
    forall why :: !Blocks(kv, app, input, why)
  }

  /** The reasons that are left once a configuration is there to update or delete, or none is to create. */
  ghost predicate Unblocked(kv: Store, app: Uuid, input: AppDConfig, below: nat) {
    forall w: Rejection :: w.Rank() < below && w != AppExists && w != DuplicateAppName ==> !Blocks(kv, app, input, w)
  }

  /** The change lists are empty exactly when nothing differs. */
  lemma EmptyIsNoModification(kv: Store, app: Uuid, input: AppDConfig, t: TaskStatus)
    requires Compared(JobFor(kv, app, input), ConfigIn(kv, ConfigKey(app)), t)
    ensures TotalRules(t) == 0 <==> Blocks(kv, app, input, NoModification)
  {
    hide Staged, WellFormed;
    var job, stored := JobFor(kv, app, input), ConfigIn(kv, ConfigKey(app));
    forall kind
      ensures Lists(StatusList(t, kind), Requested(input, kind), Present(kv, app, kind))
    {
      assert Lists(StatusList(t, kind), ById(StoredRules(Target(job), kind)), ById(StoredRules(stored, kind)));
      assert ById(StoredRules(Target(job), kind)) == Requested(input, kind);
    }
    assert StatusList(t, DnsKind) == t.dns && StatusList(t, TrafficKind) == t.traffic;
    if t.dns != [] {
      assert Classified(t.dns[0], Requested(input, DnsKind), Present(kv, app, DnsKind));
      assert Differs(t.dns[0].id, Requested(input, DnsKind), Present(kv, app, DnsKind));
    }
    if t.traffic != [] {
      assert Classified(t.traffic[0], Requested(input, TrafficKind), Present(kv, app, TrafficKind));
      assert Differs(t.traffic[0].id, Requested(input, TrafficKind), Present(kv, app, TrafficKind));
    }
  }

  lemma TakenIsNamed(kv: Store, app: Uuid, domain: string)
    ensures TakenElsewhere(kv, app, domain) <==>
      exists x :: x != app && (Names(ConfigIn(kv, ConfigKey(x)), domain) || Names(ConfigIn(kv, JobKey(x)), domain))
  {
    if TakenElsewhere(kv, app, domain) {
      var k :| Foreign(kv, k, app) && domain in Domains(kv[k].config.dns);
      assert ConfigIn(kv, k) == Some(kv[k].config);
      assert Names(ConfigIn(kv, k), domain);
      assert k == ConfigKey(k.app) || k == JobKey(k.app);
    }
    if x: Uuid :|
      x != app && (Names(ConfigIn(kv, ConfigKey(x)), domain) || Names(ConfigIn(kv, JobKey(x)), domain)) {
      var k := if Names(ConfigIn(kv, ConfigKey(x)), domain) then ConfigKey(x) else JobKey(x);
      assert Names(ConfigIn(kv, k), domain);
      assert Foreign(kv, k, app) && domain in Domains(kv[k].config.dns);
    }
  }

  lemma TwiceIsNotDistinct(input: AppDConfig)
    ensures NamesTwice(input) <==> !Distinct(DomainList(InputRules(input)))
  {
    var rules, names := InputRules(input), DomainList(InputRules(input));
    assert forall i :: 0 <= i < |rules| ==> names[i] == rules[i].content.domain;
    if NamesTwice(input) {
      var i, j :| 0 <= i < j < |input.dns| && input.dns[i].content.domain == input.dns[j].content.domain;
      assert names[i] == names[j];
    }
  }

  /** The created entries of the change list are the ids that the request brings of its own. */
  lemma FreeIsUnclaimed(kv: Store, app: Uuid, input: AppDConfig, t: TaskStatus)
    requires Compared(JobFor(kv, app, input), ConfigIn(kv, ConfigKey(app)), t)
    ensures CreatesFree(kv, app, ById(InputRules(input)), t.dns) <==> forall id :: !Claimed(kv, app, input, id)
  {
    hide Staged, WellFormed, TakenElsewhere, Names;
    var job, stored := JobFor(kv, app, input), ConfigIn(kv, ConfigKey(app));
    var target, store := Requested(input, DnsKind), Present(kv, app, DnsKind);
    assert Lists(StatusList(t, DnsKind), ById(StoredRules(Target(job), DnsKind)), ById(StoredRules(stored, DnsKind)));
    assert ById(StoredRules(Target(job), DnsKind)) == target == ById(InputRules(input));
    if exists id :: Claimed(kv, app, input, id) {
      var id :| Claimed(kv, app, input, id);
      TakenIsNamed(kv, app, target[id].content.domain);
      assert Differs(id, target, store);
      var i :| 0 <= i < |t.dns| && t.dns[i].id == id;
      assert Classified(t.dns[i], target, store);
    } else {
      forall i | 0 <= i < |t.dns| && t.dns[i].oper == OperCreate
        ensures t.dns[i].id in target && target[t.dns[i].id].content.Dns?
        ensures !TakenElsewhere(kv, app, target[t.dns[i].id].content.domain)
      {
        assert Classified(t.dns[i], target, store);
        ByIdSound(InputRules(input), t.dns[i].id);
        TakenIsNamed(kv, app, target[t.dns[i].id].content.domain);
        assert !Claimed(kv, app, input, t.dns[i].id);
      }
    }
  }

  /** What is read before anything is written decides the reasons up to the name. */
  lemma ReadingDecides(kv: Store, app: Uuid, input: AppDConfig)
    requires JobKey(app) !in kv
    ensures var at := Lookup(kv, ConfigKey(app));
      if input.operation != PostOp && at.None? then
        Blocks(kv, app, input, AppNotFound) && Unblocked(kv, app, input, AppNotFound.Rank())
      else if input.operation != PostOp && !at.value.ConfigRecord? then
        Blocks(kv, app, input, BadRecord) && Unblocked(kv, app, input, BadRecord.Rank())
      else if input.operation == PutOp && input.appName != at.value.config.appName then
        Blocks(kv, app, input, NameMismatch) && Unblocked(kv, app, input, NameMismatch.Rank())
      else
        Unblocked(kv, app, input, NoModification.Rank())
  {
    hide Differs, Claimed, NamesTwice;
  }

  /** What is computed from the change lists decides the rest. */
  lemma ListsDecide(kv: Store, kv': Store, app: Uuid, task: Uuid, input: AppDConfig, t: TaskStatus)
    requires kv' == kv[JobKey(app) := ConfigRecord(JobFor(kv, app, input))][TaskKey(task) := TaskRecord(app)]
    requires Compared(JobFor(kv, app, input), ConfigIn(kv, ConfigKey(app)), t)
    requires Unblocked(kv, app, input, NoModification.Rank())
    ensures var rules := ById(InputRules(input));
      && (CreatesFree(kv', app, rules, t.dns) <==> CreatesFree(kv, app, rules, t.dns))
      && if TotalRules(t) == 0 then
           Blocks(kv, app, input, NoModification)
         else if !(Distinct(DomainList(InputRules(input))) && CreatesFree(kv', app, rules, t.dns)) then
           Blocks(kv, app, input, DuplicateDomain) && Unblocked(kv, app, input, DuplicateDomain.Rank())
         else
           Unblocked(kv, app, input, StoreFailure.Rank())
  {
    hide Compared, CreatesFree, Distinct, Claimed, Differs, ById, NamesTwice;
    EmptyIsNoModification(kv, app, input, t);
    TwiceIsNotDistinct(input);
    FreeIsUnclaimed(kv, app, input, t);
    FreeAsBefore(kv, kv', app, task, JobFor(kv, app, input), t.dns);
  }

  class AppDCommon {
    const backend: Backend

    constructor (backend: Backend)
      ensures this.backend == backend
    {
      this.backend := backend;
    }

    method IsAppInstanceAlreadyCreated(app: Uuid) returns (exists_: bool)
      ensures exists_ <==> ConfigKey(app) in backend.kv
    {
      var r := backend.GetRecord(ConfigKey(app));
      exists_ := r.Some?;
    }

    /** A job record stands for an operation that has not ended. */
    method IsAnyOngoingOperationExist(app: Uuid) returns (ongoing: bool)
      ensures ongoing <==> JobKey(app) in backend.kv
    {
      var r := backend.GetRecord(JobKey(app));
      ongoing := r.Some?;
    }

    method IsDuplicateAppNameExists(name: string) returns (found: bool)
      ensures found <==> exists app :: Carries(backend.kv, ConfigKey(app), name)
    {
      var todo := set k | k in backend.kv && k.ConfigKey?;
      while todo != {}
        invariant forall k :: k in todo ==> k in backend.kv && k.ConfigKey?
        invariant forall k :: k in backend.kv && k.ConfigKey? && k !in todo ==> !Carries(backend.kv, k, name)
        decreases |todo|
      {
        var k :| k in todo;
        if backend.kv[k].ConfigRecord? && backend.kv[k].config.appName == name {
          assert Carries(backend.kv, ConfigKey(k.app), name);
          return true;
        }
        todo := todo - {k};
      }
      return false;
    }

    /** Collects the domain names of all other applications' records. */
    method FillDnsDomainNames(app: Uuid) returns (names: set<string>)
      ensures forall d :: d in names <==> TakenElsewhere(backend.kv, app, d)
    {
      names := {};
      var todo := set k | k in backend.kv && Foreign(backend.kv, k, app);
      while todo != {}
        invariant forall k :: k in todo ==> Foreign(backend.kv, k, app)
        invariant forall d :: d in names <==>
          exists k :: Foreign(backend.kv, k, app) && k !in todo && d in Domains(backend.kv[k].config.dns)
        decreases |todo|
      {
        var k :| k in todo;
        ghost var before, rest := names, todo;
        names := names + Domains(backend.kv[k].config.dns);
        todo := todo - {k};
        forall d ensures d in names <==>
          exists x :: Foreign(backend.kv, x, app) && x !in todo && d in Domains(backend.kv[x].config.dns)
        {
          if d in before {
            var x :| Foreign(backend.kv, x, app) && x !in rest && d in Domains(backend.kv[x].config.dns);
            assert x !in todo;
          } else if d in names {
            assert k !in todo;
          }
        }
      }
    }

    /** A domain is claimed twice: within the request, or by a created rule and another application. */
    method IsDnsDomainNameExists(app: Uuid, input: seq<DnsRule>, list: seq<RuleStatus>) returns (found: bool)
      requires forall i :: 0 <= i < |list| && list[i].oper == OperCreate ==> list[i].id in ById(input)
      ensures found <==> !(Distinct(DomainList(input)) && CreatesFree(backend.kv, app, ById(input), list))
    {
      var taken := FillDnsDomainNames(app);
      var seen: set<string> := {};
      for i := 0 to |input|
        invariant forall d :: d in seen <==> exists j :: 0 <= j < i && DomainList(input)[j] == d
        invariant Distinct(DomainList(input)[..i])
      {
        assert DomainList(input)[i] == input[i].content.domain;
        if input[i].content.domain in seen {
          return true;
        }
        assert DomainList(input)[..i + 1] == DomainList(input)[..i] + [DomainList(input)[i]];
        seen := seen + {input[i].content.domain};
      }
      assert DomainList(input)[..|input|] == DomainList(input);
      for i := 0 to |list|
        invariant CreatesFree(backend.kv, app, ById(input), list[..i])
      {
        assert list[..i + 1] == list[..i] + [list[i]];
        if list[i].oper == OperCreate {
          ByIdSound(input, list[i].id);
          if ById(input)[list[i].id].content.domain in taken {
            assert TakenElsewhere(backend.kv, app, ById(input)[list[i].id].content.domain);
            return true;
          }
        }
      }
      assert list[..|list|] == list;
      return false;
    }

    /** The change lists of a request: create and delete use one side only, update compares both. */
    method BuildTaskStatus(job: AppDConfig, stored: Option<AppDConfig>) returns (t: TaskStatus)
      requires Stageable(job, stored)
      ensures Compared(job, stored, t)
    {
      hide Distinct, Lists;
      assert StoredRules(Some(job), DnsKind) == job.dns && StoredRules(Some(job), TrafficKind) == job.traffic;
      assert ById([]) == map[];
      var dns, traffic;
      if job.operation == PostOp {
        dns := HandleRuleCreateOrDelete(OperCreate, job.dns);
        traffic := HandleRuleCreateOrDelete(OperCreate, job.traffic);
      } else if job.operation == DeleteOp {
        dns := HandleRuleCreateOrDelete(OperDelete, job.dns);
        traffic := HandleRuleCreateOrDelete(OperDelete, job.traffic);
      } else {
        dns := HandleRuleUpdate(job.dns, stored.value.dns);
        traffic := HandleRuleUpdate(job.traffic, stored.value.traffic);
      }
      t := TaskStatus(0, dns, traffic, "");
      BothKinds(job, stored, t);
    }

    /** Writes the job and task records; a failed second write takes the first one back. */
    method AddJobsToDb(app: Uuid, task: Uuid, job: AppDConfig) returns (ok: bool)
      modifies backend
      ensures ok ==> backend.kv == old(backend.kv)[JobKey(app) := ConfigRecord(job)][TaskKey(task) := TaskRecord(app)]
      ensures ok ==> backend.faults == old(backend.faults)
      ensures !ok ==> SameExcept(old(backend.kv), backend.kv, {JobKey(app)}) && backend.faults > old(backend.faults)
      ensures !ok && backend.faults == old(backend.faults) + 1 && JobKey(app) !in old(backend.kv) ==>
        JobKey(app) !in backend.kv
    {
      ok := backend.PutRecord(JobKey(app), ConfigRecord(job));
      if ok {
        ok := backend.PutRecord(TaskKey(task), TaskRecord(app));
        if !ok {
          var _ := backend.DeletePaths([JobKey(app)], true);
        }
      }
    }

    /** Takes the job and task records back. */
    method Withdraw(app: Uuid, task: Uuid)
      modifies backend
      ensures SameExcept(old(backend.kv), backend.kv, {JobKey(app), TaskKey(task)})
      ensures backend.faults >= old(backend.faults)
      ensures backend.faults == old(backend.faults) ==> JobKey(app) !in backend.kv && TaskKey(task) !in backend.kv
    {
      var _ := backend.DeletePaths([JobKey(app), TaskKey(task)], true);
    }

    /** Writes the status record; when that fails the other two records are taken back. */
    method WriteStatusToStore(t: TaskStatus, app: Uuid, task: Uuid) returns (ok: bool)
      modifies backend
      ensures ok ==>
        backend.kv == old(backend.kv)[StatusKey(app, task) := StatusRecord(t)] && backend.faults == old(backend.faults)
      ensures !ok ==>
        SameExcept(old(backend.kv), backend.kv, {JobKey(app), TaskKey(task)}) && backend.faults > old(backend.faults)
      ensures !ok && backend.faults == old(backend.faults) + 1 ==>
        JobKey(app) !in backend.kv && TaskKey(task) !in backend.kv
    {
      ok := backend.PutRecord(StatusKey(app, task), StatusRecord(t));
      if !ok {
        Withdraw(app, task);
      }
    }

    /**
     * Stages a request. Acceptance leaves exactly the three records of a task
     * whose change list is the difference to the stored configuration, is not
     * empty, and creates no domain that another application holds or has
     * pending. A rejection leaves none of them, provided the clean-up itself
     * meets no fault. Of the reasons that are looked for here, the first one
     * that stands against the request is given; without one, only a fault keeps
     * the request from being accepted.
     */
    method StageNewTask(app: Uuid, task: Uuid, input: AppDConfig) returns (r: StageResult)
      requires input.operation != Settled
      requires input.operation == PostOp ==> ConfigIn(backend.kv, ConfigKey(app)).None?
      requires JobKey(app) !in backend.kv && TaskKey(task) !in backend.kv && StatusKey(app, task) !in backend.kv
      modifies backend
      ensures r.Accepted? ==> backend.faults == old(backend.faults)
      ensures r.Accepted? ==> exists t :: StagedAs(old(backend.kv), backend.kv, app, task, input, t)
      ensures r.Rejected? ==> SameExcept(old(backend.kv), backend.kv, {JobKey(app), TaskKey(task)})
      ensures r.Rejected? && backend.faults <= old(backend.faults) + (if r.why == StoreFailure then 1 else 0) ==>
        SameExcept(old(backend.kv), backend.kv, {})
      ensures r.Accepted? ==>
        if input.operation == DeleteOp then
          var stored := ConfigIn(old(backend.kv), ConfigKey(app));
          stored.Some? && JobKey(app) in backend.kv
          && backend.kv[JobKey(app)] == ConfigRecord(stored.value.(operation := DeleteOp))
        else
          JobKey(app) in backend.kv && backend.kv[JobKey(app)] == ConfigRecord(input)
      ensures r.Accepted? ==> Unblocked(old(backend.kv), app, input, StoreFailure.Rank())
      ensures r.Rejected? && r.why != StoreFailure ==>
        Blocks(old(backend.kv), app, input, r.why) && Unblocked(old(backend.kv), app, input, r.why.Rank())
      ensures r == Rejected(StoreFailure) ==> backend.faults > old(backend.faults)
    {
      hide Compared, CreatesFree, Distinct, ById, Blocks, Unblocked;
      ReadingDecides(backend.kv, app, input);
      var stored: Option<AppDConfig> := None;
      if input.operation != PostOp {
        var record := backend.GetRecord(ConfigKey(app));
        if record.None? {
          return Rejected(AppNotFound);
        }
        if !record.value.ConfigRecord? {
          return Rejected(BadRecord);
        }
        stored := Some(record.value.config);
        if input.operation == PutOp && input.appName != stored.value.appName {
          return Rejected(NameMismatch);
        }
      }
      var job := if input.operation == DeleteOp then stored.value.(operation := DeleteOp) else input;
      var ok := AddJobsToDb(app, task, job);
      if !ok {
        return Rejected(StoreFailure);
      }
      ghost var kv1 := backend.kv;
      var t := BuildTaskStatus(job, stored);
      ListsDecide(old(backend.kv), kv1, app, task, input, t);
      if t.dns == [] && t.traffic == [] {
        Withdraw(app, task);
        return Rejected(NoModification);
      }
      CreatesAreListed(job, stored, t);
      var found := IsDnsDomainNameExists(app, InputRules(input), t.dns);
      if found {
        Withdraw(app, task);
        return Rejected(DuplicateDomain);
      }
      ok := WriteStatusToStore(t, app, task);
      if !ok {
        return Rejected(StoreFailure);
      }
      assert StagedAs(old(backend.kv), backend.kv, app, task, input, t);
      return Accepted;
    }

    /**
     * The create, update and delete handlers up to the start of the worker. A
     * request is only staged when the application has no operation under way,
     * and create only when it has no configuration yet. Without a fault, a
     * request is accepted if and only if nothing stands against it, and
     * otherwise turned down for the first reason that does.
     */
    method OnRequest(app: Uuid, task: Uuid, input: AppDConfig) returns (r: StageResult)
      requires input.operation != Settled
      requires TaskKey(task) !in backend.kv && StatusKey(app, task) !in backend.kv
      modifies backend
      ensures r.Accepted? ==>
        JobKey(app) !in old(backend.kv) && (input.operation == PostOp <==> ConfigKey(app) !in old(backend.kv))
      ensures r.Accepted? ==> exists t :: StagedAs(old(backend.kv), backend.kv, app, task, input, t)
      ensures r.Rejected? ==> SameExcept(old(backend.kv), backend.kv, {JobKey(app), TaskKey(task)})
      ensures r.Rejected? && JobKey(app) in old(backend.kv) ==> backend.kv == old(backend.kv)
      ensures r.Rejected? && backend.faults <= old(backend.faults) + (if r.why == StoreFailure then 1 else 0) ==>
        SameExcept(old(backend.kv), backend.kv, {})
      ensures r.Accepted? ==>
        if input.operation == DeleteOp then
          var stored := ConfigIn(old(backend.kv), ConfigKey(app));
          stored.Some? && JobKey(app) in backend.kv
          && backend.kv[JobKey(app)] == ConfigRecord(stored.value.(operation := DeleteOp))
        else
          JobKey(app) in backend.kv && backend.kv[JobKey(app)] == ConfigRecord(input)
      ensures r.Accepted? ==> Acceptable(old(backend.kv), app, input)
      ensures r.Rejected? && r.why != StoreFailure ==> TurnedDown(old(backend.kv), app, input, r.why)
      ensures r == Rejected(StoreFailure) ==> backend.faults > old(backend.faults)
      ensures backend.faults == old(backend.faults) ==> (r.Accepted? <==> Acceptable(old(backend.kv), app, input))
    {
      hide StagedAs, Differs, Claimed, NamesTwice, ById;
      var created := IsAppInstanceAlreadyCreated(app);
      if created != (input.operation != PostOp) {
        return Rejected(if created then AppExists else AppNotFound);
      }
      if input.operation == PostOp {
        var duplicate := IsDuplicateAppNameExists(input.appName);
        if duplicate {
          return Rejected(DuplicateAppName);
        }
      }
      var ongoing := IsAnyOngoingOperationExist(app);
      if ongoing {
        return Rejected(OngoingOperation);
      }
      r := StageNewTask(app, task, input);
    }
  }
}
