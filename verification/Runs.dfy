/**
 * Whole runs of the system: requests are staged, rejected and carried out by
 * workers, and single DNS rules are switched on and off, in any interleaving.
 * Handlers and workers are atomic steps; the step of a worker carries the
 * status records that it wrote.
 */
module Runs {
  import opened AppConfig
  import opened Targets
  import opened RuleOps
  import opened RuleDiff
  import opened SyncLink
  import opened DataStore
  import opened Mirror
  import opened SyncWorker
  import opened Staging
  import opened DnsRuleUpdate

  datatype Flight = Flight(app: Uuid, task: Uuid)

  /** External content, store and the workers in flight. */
  datatype World = World(content: External, kv: Store, flights: set<Flight>)

  function Config(kv: Store, app: Uuid): Option<AppDConfig> {
    ConfigIn(kv, ConfigKey(app))
  }

  function Job(kv: Store, app: Uuid): Option<AppDConfig> {
    ConfigIn(kv, JobKey(app))
  }

  datatype Step =
    | Stage(app: Uuid, task: Uuid, input: AppDConfig)
    | Reject(app: Uuid, task: Uuid)
    | End(app: Uuid, task: Uuid, history: seq<TaskStatus>)
    | Toggle(app: Uuid, id: string, state: RuleState)
    | Idle

  /** A worker in flight finds a task that it can keep its books for. */
  ghost predicate Loads(kv: Store, f: Flight) {
    && Job(kv, f.app).Some? && StatusIn(kv, StatusKey(f.app, f.task)).Some?
    && Workable(Job(kv, f.app).value, Config(kv, f.app), StatusIn(kv, StatusKey(f.app, f.task)).value)
    && TotalRules(StatusIn(kv, StatusKey(f.app, f.task)).value) > 0
  }

  /** What every step does to the store and the workers, whatever faults it meets. */
  ghost predicate Takes(w: World, w': World, step: Step) {
    match step
    case Stage(app, task, input) =>
      && JobKey(app) !in w.kv && TaskKey(task) !in w.kv && StatusKey(app, task) !in w.kv
      && (exists t :: StagedAs(w.kv, w'.kv, app, task, input, t))
      && w'.flights == w.flights + {Flight(app, task)}
    case Reject(app, task) =>
      && TaskKey(task) !in w.kv && SameExcept(w.kv, w'.kv, {JobKey(app), TaskKey(task)})
      && (JobKey(app) in w.kv ==> w'.kv == w.kv)
      && w'.flights == w.flights
    case End(app, task, history) =>
      && Flight(app, task) in w.flights
      && SameExcept(w.kv, w'.kv, {ConfigKey(app), JobKey(app), StatusKey(app, task)})
      && (Loads(w.kv, Flight(app, task)) ==> Polled(app, task, w.kv, w'.kv, history) && KeepsOrSaves(app, w.kv, w'.kv))
      && w'.flights == w.flights - {Flight(app, task)}
    case Toggle(app, id, state) => Toggled(w.kv, w'.kv, app, id, state) && w'.flights == w.flights
    case Idle => w'.kv == w.kv && w'.flights == w.flights
  }

  ghost predicate Run(ws: seq<World>, steps: seq<Step>) {
    |ws| == |steps| + 1 && forall i :: 0 <= i < |steps| ==> Takes(ws[i], ws[i + 1], steps[i])
  }

  /** Every worker in flight is covered by a job record, and no application has two of them. */
  ghost predicate Exclusive(w: World) {
    && (forall f :: f in w.flights ==> JobKey(f.app) in w.kv)
    && (forall f, g :: f in w.flights && g in w.flights && f.app == g.app ==> f == g)
  }

  lemma StepKeepsExclusion(w: World, w': World, step: Step)
    requires Exclusive(w) && Takes(w, w', step)
    ensures Exclusive(w')
  {
    forall f | f in w'.flights ensures JobKey(f.app) in w'.kv {
      match step
      case Stage(app, task, input) =>
        if f != Flight(app, task) {
          assert JobKey(f.app) in w.kv;
        }
      case Reject(app, task) =>
        assert JobKey(f.app) in w.kv;
        if f.app != app {
          assert Lookup(w'.kv, JobKey(f.app)) == Lookup(w.kv, JobKey(f.app));
        }
      case End(app, task, _) =>
        assert f.app != app;
        assert Lookup(w'.kv, JobKey(f.app)) == Lookup(w.kv, JobKey(f.app));
      case Toggle(_, _, _) =>
        assert JobKey(f.app) in w.kv;
      case Idle =>
        assert JobKey(f.app) in w.kv;
    }
  }

  /** Over every run, whatever faults occur, no application ever has two workers in flight. */
  lemma {:induction false} RunKeepsExclusion(ws: seq<World>, steps: seq<Step>)
    requires Run(ws, steps) && Exclusive(ws[0])
    ensures forall i :: 0 <= i < |ws| ==> Exclusive(ws[i])
  {
    if |steps| > 0 {
      var n := |steps| - 1;
      RunKeepsExclusion(ws[..n + 1], steps[..n]);
      assert Exclusive(ws[n]) by { assert ws[..n + 1][n] == ws[n]; }
      StepKeepsExclusion(ws[n], ws[n + 1], steps[n]);
      forall i | 0 <= i < |ws| ensures Exclusive(ws[i]) {
        if i <= n {
          assert ws[..n + 1][i] == ws[i];
        }
      }
    }
  }

  // Domain names.

  /** A rule that an application has stored or has pending. */
  ghost predicate Claims(kv: Store, app: Uuid, r: Rule) {
    (InConfig(Config(kv, app), r) || InConfig(Job(kv, app), r)) && r.content.Dns?
  }

  /** Claims that the DNS server files under one name belong to one rule of one application. */
  ghost predicate DomainsUnique(kv: Store) {
    forall app, r, app', r' :: Claims(kv, app, r) && Claims(kv, app', r') && SameHost(r, r') ==>
      app == app' && r.id == r'.id
  }

  /** The server files the rules under one name, however they are spelled. */
  predicate SameHost(r: Rule, r': Rule) {
    r.content.Dns? && r'.content.Dns? && Text.Host(r.content.domain) == Text.Host(r'.content.domain)
  }

  /**
   * The name under which the server would file a rule of the request is one that another rule of the application has.
   */
  ghost predicate HandsOver(kv: Store, app: Uuid, input: AppDConfig, r: Rule, r0: Rule) {
    r in InputRules(input) && InConfig(Config(kv, app), r0) && SameHost(r, r0) && r.id != r0.id
  }

  /** A rule of the request clashes with another application, in a way that the request's check can see. */
  ghost predicate SeenClash(kv: Store, app: Uuid, r: Rule, r': Rule) {
    r.content.Dns? && r'.content.Dns? && r.content.domain == r'.content.domain && !StoredId(kv, app, r.id)
  }

  ghost predicate StoredId(kv: Store, app: Uuid, id: string) {
    exists r0 :: InConfig(Config(kv, app), r0) && r0.content.Dns? && r0.id == id
  }

  /**
   * What can be asked of the names in a request before it is made: no rule
   * takes over the name of another rule of its application, names that the
   * server takes for the same are spelled the same, and a stored rule is not
   * renamed to a name that another application has.
   */
  ghost predicate NamesFit(kv: Store, app: Uuid, input: AppDConfig) {
    && (forall r, r0 :: !HandsOver(kv, app, input, r, r0))
    && (forall r: Rule, r': Rule :: r in InputRules(input) && r' in InputRules(input) && SameHost(r, r') ==>
          r.content.domain == r'.content.domain)
    && (forall r: Rule, app', r' :: r in InputRules(input) && app' != app && Claims(kv, app', r') && SameHost(r, r') ==>
          SeenClash(kv, app, r, r'))
  }

  /** A request as the handlers expect it: unique rule ids, create exactly when nothing is stored, and fitting names. */
  ghost predicate Admissible(kv: Store, app: Uuid, input: AppDConfig) {
    WellFormed(Some(input)) && (input.operation == PostOp <==> Config(kv, app).None?) && NamesFit(kv, app, input)
  }

  /**
   * A switch of a rule passes a pending job by: no worker of the application is
   * in flight, or the job keeps a configuration in which the rule is missing or
   * differs from the stored rule both before and after the switch.
   */
  ghost predicate Undisturbed(w: World, app: Uuid, id: string, state: RuleState) {
    var job, r := Job(w.kv, app), RuleIn(w.kv, app, id);
    (exists f :: f in w.flights && f.app == app) ==> job.Some? && r.Some? && Spares(job.value, r.value, state)
  }

  ghost predicate Spares(job: AppDConfig, r: DnsRule, state: RuleState) {
    && job.operation != DeleteOp
    && (r.id in ById(job.dns) ==> ById(job.dns)[r.id] != r && ById(job.dns)[r.id] != r.(state := state))
  }

  /** Steps of a run in which every worker ends cleanly and every request is admissible. */
  ghost predicate CleanStep(d: DnsType, w: World, w': World, step: Step) {
    && Takes(w, w', step)
    && match step
       case Stage(app, task, input) =>
         w'.content == w.content && Admissible(w.kv, app, input)
       case Reject(_, _) => w'.content == w.content && w'.kv == w.kv
       case End(app, task, _) => CleanEnd(d, app, task, w.content, w.kv, w'.content, w'.kv)
       case Toggle(app, id, state) =>
         && d == All && RuleIn(w'.kv, app, id).Some? && Undisturbed(w, app, id, state)
         && Followed(w.content, w'.content, app, RuleIn(w'.kv, app, id).value)
       case Idle => w'.content == w.content
  }

  /** Records of other applications survive a step. */
  lemma OthersKeep(kv: Store, kv': Store, app: Uuid, task: Uuid, other: Uuid)
    requires SameExcept(kv, kv', {ConfigKey(app), JobKey(app), TaskKey(task), StatusKey(app, task)}) && other != app
    ensures Config(kv', other) == Config(kv, other) && Job(kv', other) == Job(kv, other)
  {
    assert Lookup(kv', ConfigKey(other)) == Lookup(kv, ConfigKey(other));
    assert Lookup(kv', JobKey(other)) == Lookup(kv, JobKey(other));
  }

  lemma StageIsLocal(kv: Store, kv': Store, app: Uuid, task: Uuid, input: AppDConfig, t: TaskStatus)
    requires StagedAs(kv, kv', app, task, input, t)
    ensures SameExcept(kv, kv', {JobKey(app), TaskKey(task), StatusKey(app, task)})
    ensures Config(kv', app) == Config(kv, app) && Job(kv', app) == Some(JobFor(kv, app, input))
    ensures StatusIn(kv', StatusKey(app, task)) == Some(t)
    ensures input.operation == DeleteOp ==> Config(kv, app).Some?
  {
    hide IsDiff, CreatesFree, Distinct;
  }

  lemma ClaimIsTaken(kv: Store, app: Uuid, app': Uuid, r: Rule)
    requires app' != app && Claims(kv, app', r)
    ensures TakenElsewhere(kv, app, r.content.domain)
  {
  }

  /** A rule that the request creates has a domain that no other application has in the same spelling. */
  lemma CreatedIsFree(kv: Store, kv': Store, app: Uuid, task: Uuid, input: AppDConfig, t: TaskStatus, r: Rule)
    requires StagedAs(kv, kv', app, task, input, t) && WellFormed(Some(input))
    requires r in InputRules(input) && !StoredId(kv, app, r.id)
    ensures !TakenElsewhere(kv, app, r.content.domain)
  {
    hide Distinct, Staged;
    var stored := Config(kv, app);
    assert JobFor(kv, app, input) == input;
    assert InConfig(Some(input), r) && KindOf(r) == DnsKind && StoredRules(Target(input), DnsKind) == InputRules(input);
    RuleFound(Some(input), r);
    var target, store := ById(StoredRules(Target(input), DnsKind)), ById(StoredRules(stored, DnsKind));
    if r.id in store {
      FoundRule(stored, DnsKind, r.id);
    }
    assert Lists(StatusList(t, DnsKind), target, store);
    assert Differs(r.id, target, store);
    var i :| 0 <= i < |t.dns| && t.dns[i].id == r.id;
    assert Classified(StatusList(t, DnsKind)[i], target, store);
  }

  /** A rule of a newly staged job meets no other application's claim. */
  lemma StagedClaimIsFree(kv: Store, kv': Store, app: Uuid, task: Uuid, input: AppDConfig, t: TaskStatus,
                          r: Rule, app': Uuid, r': Rule)
    requires StagedAs(kv, kv', app, task, input, t) && WellFormed(Some(input)) && NamesFit(kv, app, input)
    requires r in InputRules(input) && Claims(kv, app', r') && SameHost(r, r') && JobKey(app) !in kv
    ensures app' == app && r.id == r'.id
  {
    hide StagedAs, WellFormed;
    if app' != app {
      assert SeenClash(kv, app, r, r');
      CreatedIsFree(kv, kv', app, task, input, t, r);
      ClaimIsTaken(kv, app, app', r');
    } else {
      assert !HandsOver(kv, app, input, r, r');
    }
  }

  /** What an application claims after a request was staged. */
  lemma ClaimsAfterStage(kv: Store, kv': Store, app: Uuid, task: Uuid, input: AppDConfig, t: TaskStatus, a: Uuid,
                         r: Rule)
    requires StagedAs(kv, kv', app, task, input, t) && Claims(kv', a, r)
    ensures Claims(kv, a, r) || (a == app && r in InputRules(input) && input.operation != DeleteOp)
  {
  }

  /** Staging keeps names unique across applications if and only if the names in the request fit. */
  lemma StageKeepsDomains(kv: Store, kv': Store, app: Uuid, task: Uuid, input: AppDConfig, t: TaskStatus)
    requires DomainsUnique(kv) && StagedAs(kv, kv', app, task, input, t) && WellFormed(Some(input))
    requires JobKey(app) !in kv
    ensures DomainsUnique(kv') <==> NamesFit(kv, app, input)
  {
    hide StagedAs, WellFormed;
    if NamesFit(kv, app, input) {
      forall a, r, a', r' | Claims(kv', a, r) && Claims(kv', a', r') && SameHost(r, r')
        ensures a == a' && r.id == r'.id
      {
        FittingClaims(kv, kv', app, task, input, t, a, r, a', r');
      }
    }
    if DomainsUnique(kv') {
      UniqueNamesFit(kv, kv', app, task, input, t);
    }
  }

  lemma FittingClaims(kv: Store, kv': Store, app: Uuid, task: Uuid, input: AppDConfig, t: TaskStatus,
                      a: Uuid, r: Rule, a': Uuid, r': Rule)
    requires DomainsUnique(kv) && StagedAs(kv, kv', app, task, input, t) && WellFormed(Some(input))
    requires JobKey(app) !in kv
    requires NamesFit(kv, app, input) && Claims(kv', a, r) && Claims(kv', a', r') && SameHost(r, r')
    ensures a == a' && r.id == r'.id
  {
    hide StagedAs, WellFormed;
    ClaimsAfterStage(kv, kv', app, task, input, t, a, r);
    ClaimsAfterStage(kv, kv', app, task, input, t, a', r');
    if Claims(kv, a, r) && !Claims(kv, a', r') {
      StagedClaimIsFree(kv, kv', app, task, input, t, r', a, r);
    } else if !Claims(kv, a, r) && Claims(kv, a', r') {
      StagedClaimIsFree(kv, kv', app, task, input, t, r, a', r');
    } else if !Claims(kv, a, r) {
      SameDomainSameRule(kv, kv', app, task, input, t, r, r');
    }
  }

  /** What the store and the request claim is claimed after the request was staged. */
  lemma ClaimsStay(kv: Store, kv': Store, app: Uuid, task: Uuid, input: AppDConfig, t: TaskStatus, a: Uuid, r: Rule)
    requires StagedAs(kv, kv', app, task, input, t) && JobKey(app) !in kv
    requires Claims(kv, a, r) || (a == app && r in InputRules(input))
    ensures Claims(kv', a, r)
  {
    hide Compared, CreatesFree, Distinct;
    StageIsLocal(kv, kv', app, task, input, t);
    if a != app {
      OthersKeep(kv, kv', app, task, a);
    }
  }

  lemma SameIdSameRule(input: AppDConfig, r: Rule, r': Rule)
    requires WellFormed(Some(input)) && r in InputRules(input) && r' in InputRules(input) && r.id == r'.id
    ensures r == r'
  {
    hide UniqueIds;
    RuleFound(Some(input), r);
    RuleFound(Some(input), r');
  }

  lemma UniqueNamesFit(kv: Store, kv': Store, app: Uuid, task: Uuid, input: AppDConfig, t: TaskStatus)
    requires DomainsUnique(kv') && StagedAs(kv, kv', app, task, input, t) && WellFormed(Some(input))
    requires JobKey(app) !in kv
    ensures NamesFit(kv, app, input)
  {
    hide StagedAs, WellFormed, SameHost;
    forall a, r | Claims(kv, a, r) || (a == app && r in InputRules(input)) ensures Claims(kv', a, r) {
      ClaimsStay(kv, kv', app, task, input, t, a, r);
    }
    forall r: Rule, r': Rule | r in InputRules(input) && r' in InputRules(input) && SameHost(r, r')
      ensures r.content.domain == r'.content.domain
    {
      assert Claims(kv', app, r) && Claims(kv', app, r');
      SameIdSameRule(input, r, r');
    }
    forall r: Rule, r0 ensures !HandsOver(kv, app, input, r, r0) {
      if r in InputRules(input) && InConfig(Config(kv, app), r0) && SameHost(r, r0) {
        HostsAreDns(r, r0);
        assert Claims(kv', app, r) && Claims(kv, app, r0);
      }
    }
    forall r: Rule, app', r' | r in InputRules(input) && app' != app && Claims(kv, app', r') ensures !SameHost(r, r') {
      assert Claims(kv', app, r) && Claims(kv', app', r');
    }
  }

  lemma HostsAreDns(r: Rule, r': Rule)
    requires SameHost(r, r')
    ensures r.content.Dns? && r'.content.Dns?
  {
  }

  lemma SameDomainSameRule(kv: Store, kv': Store, app: Uuid, task: Uuid, input: AppDConfig, t: TaskStatus, r: Rule,
                           r': Rule)
    requires StagedAs(kv, kv', app, task, input, t) && r in InputRules(input) && r' in InputRules(input)
    requires r.content.domain == r'.content.domain
    ensures r == r'
  {
    hide Staged, CreatesFree;
    var rules := InputRules(input);
    var i :| 0 <= i < |rules| && rules[i] == r;
    var j :| 0 <= j < |rules| && rules[j] == r';
    assert DomainList(rules)[i] == DomainList(rules)[j];
  }

  /** What an application claims after a clean end it claimed before, up to default states. */
  lemma ClaimsAfterEnd(d: DnsType, app: Uuid, task: Uuid, m: External, kv: Store, m': External, kv': Store, a: Uuid,
                       r: Rule)
    returns (r0: Rule)
    requires CleanEnd(d, app, task, m, kv, m', kv') && Claims(kv', a, r)
    ensures Claims(kv, a, r0) && r0.id == r.id && r0.content == r.content
  {
    hide Exact, AgreeOn, AgreeOff, OwnCells;
    if a != app {
      OthersKeep(kv, kv', app, task, a);
      r0 := r;
    } else if Committed(d, app, kv, m', kv') {
      var job, saved := Job(kv, app).value, Config(kv', app).value;
      assert SameRules(job, saved);
      var i :| 0 <= i < |saved.dns| && saved.dns[i] == r;
      r0 := job.dns[i];
    } else {
      r0 := r;
    }
  }

  lemma EndKeepsDomains(d: DnsType, app: Uuid, task: Uuid, m: External, kv: Store, m': External, kv': Store)
    requires DomainsUnique(kv) && CleanEnd(d, app, task, m, kv, m', kv')
    ensures DomainsUnique(kv')
  {
    hide CleanEnd;
    forall a, r, a', r' | Claims(kv', a, r) && Claims(kv', a', r') && SameHost(r, r')
      ensures a == a' && r.id == r'.id
    {
      var r0 := ClaimsAfterEnd(d, app, task, m, kv, m', kv', a, r);
      var r0' := ClaimsAfterEnd(d, app, task, m, kv, m', kv', a', r');
    }
  }

  function Named(domain: string): AppDConfig {
    AppDConfig([Rule("r", Active, Dns(domain, "IP_V4", "10.0.0.1", 30))], [], domain, PostOp)
  }

  const ONE_CREATE := TaskStatus(0, [RuleStatus("r", WAIT_MP2, OperCreate)], [], "")

  /** The change list of a create request with one DNS rule. */
  lemma NamedIsCompared(domain: string)
    ensures Compared(Named(domain), None, ONE_CREATE)
  {
    var c, t := Named(domain), ONE_CREATE;
    assert c.dns[..0] == [] && ById(c.dns) == map["r" := c.dns[0]];
    forall id | Differs(id, ById(c.dns), map[]) ensures Listed(id, t.dns) {
      assert id == "r" && t.dns[0].id == "r";
    }
    assert Lists(t.dns, ById(c.dns), map[]);
    assert Lists(t.traffic, map[], map[]);
    assert StoredRules(Target(c), DnsKind) == c.dns && StoredRules(Target(c), TrafficKind) == [];
    BothKinds(c, None, t);
  }

  /** One application has a rule for a domain stored. */
  function OneStored(app: Uuid, domain: string): Store {
    map[ConfigKey(app) := ConfigRecord(Named(domain))]
  }

  function AndOneStaged(kv: Store, app: Uuid, task: Uuid, domain: string): Store {
    WithRecords(kv, app, task, Named(domain), ONE_CREATE)
  }

  lemma OneStoredIsUnique(app: Uuid, domain: string)
    ensures DomainsUnique(OneStored(app, domain))
  {
    forall a, r | Claims(OneStored(app, domain), a, r) ensures a == app && r == Named(domain).dns[0] {
    }
  }

  lemma OtherSpellingIsStaged(app: Uuid, other: Uuid, task: Uuid, domain: string, spelling: string)
    requires app != other && domain != spelling
    ensures var kv := OneStored(other, domain);
      StagedAs(kv, AndOneStaged(kv, app, task, spelling), app, task, Named(spelling), ONE_CREATE)
  {
    hide Compared;
    var kv, c := OneStored(other, domain), Named(spelling);
    NamedIsCompared(spelling);
    assert ById(InputRules(c)) == map["r" := c.dns[0]] by {
      assert c.dns[..0] == [];
    }
    forall k | Foreign(kv, k, app) ensures Domains(kv[k].config.dns) == {domain} {
    }
  }

  /**
   * The check for taken names compares spellings: an application may stage a
   * name that another one has stored in another spelling, although the server
   * takes the two for the same; "a.b" and "A.b" are two such spellings.
   */
  lemma SpellingsCollide(app: Uuid, other: Uuid, task: Uuid, domain: string, spelling: string)
    requires app != other && domain != spelling && Text.Host(domain) == Text.Host(spelling)
    ensures var kv := OneStored(other, domain);
      && DomainsUnique(kv) && JobKey(app) !in kv
      && StagedAs(kv, AndOneStaged(kv, app, task, spelling), app, task, Named(spelling), ONE_CREATE)
      && !DomainsUnique(AndOneStaged(kv, app, task, spelling))
  {
    hide StagedAs, DomainsUnique;
    OneStoredIsUnique(other, domain);
    OtherSpellingIsStaged(app, other, task, domain, spelling);
    TwoClaims(app, other, task, domain, spelling);
  }

  lemma TwoClaims(app: Uuid, other: Uuid, task: Uuid, domain: string, spelling: string)
    requires app != other && Text.Host(domain) == Text.Host(spelling)
    ensures !DomainsUnique(AndOneStaged(OneStored(other, domain), app, task, spelling))
  {
    hide Text.Host;
    var kv' := AndOneStaged(OneStored(other, domain), app, task, spelling);
    var r, r' := Named(spelling).dns[0], Named(domain).dns[0];
    assert Claims(kv', app, r) && Claims(kv', other, r') && SameHost(r, r');
  }

  lemma SpellingExample()
    ensures "a.b" != "A.b" && Text.Host("a.b") == Text.Host("A.b")
  {
    assert Text.Host("a.b") == "a.b.";
  }
}
