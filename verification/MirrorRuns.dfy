/** The mirror invariant over whole runs. */
module MirrorRuns {
  import opened AppConfig
  import opened Targets
  import opened RuleOps
  import opened DataStore
  import opened Mirror
  import opened SyncWorker
  import opened Staging
  import opened Runs
  import opened CarryRuns
  import opened MirrorInvariant
  import opened ToggleRuns

  lemma OwnIsHeld(d: DnsType, kv: Store, app: Uuid, x: Cell) returns (r: Rule, s: Stage)
    requires Job(kv, app).Some? && x in ContextOf(d, app, kv).own
    ensures Holder(d, kv, app, r, s, x)
  {
    var c := if x in Cells(d, app, Job(kv, app)) then Job(kv, app) else Config(kv, app);
    assert x in Cells(d, app, c);
    var rules := c.value.dns + c.value.traffic;
    r, s :| r in rules && s in {Mp2, Local} && Enabled(d, KindOf(r), s) && CellOf(app, s, r) == x;
    assert Occupies(d, app, c, r, s, x);
  }

  /** In every state of a run a worker in flight may start: its precondition holds. */
  lemma InvariantStartsWorker(d: DnsType, w: World, f: Flight)
    requires Invariant(d, w) && f in w.flights
    ensures Startable(d, f.app, f.task, w.content, w.kv)
  {
    hide DomainsUnique, Staged, Exclusive, OwnCells, Occupies;
    assert Underway(w.kv, f);
    var cx := ContextOf(d, f.app, w.kv);
    var job, stored := Job(w.kv, f.app), Config(w.kv, f.app);
    forall r, s, r', s', x | Either(d, f.app, job, stored, r, s, x) && Either(d, f.app, job, stored, r', s', x)
      ensures r.id == r'.id && KindOf(r) == KindOf(r')
    {
      OneHolder(d, w.kv, f.app, r, s, f.app, r', s', x);
    }
    forall x | x in cx.own && x in w.content ensures exists r, s :: Occupies(d, f.app, stored, r, s, x) {
      var r, s := OwnIsHeld(d, w.kv, f.app, x);
      var app', r', s' :| Occupies(d, app', Config(w.kv, app'), r', s', x);
      OneHolder(d, w.kv, f.app, r, s, app', r', s', x);
    }
  }

  /** Staging changes neither content nor configurations. */
  lemma StageKeepsMirror(d: DnsType, m: External, kv: Store, kv': Store)
    requires Mirrored(d, m, kv) && forall app :: Config(kv', app) == Config(kv, app)
    ensures Mirrored(d, m, kv')
  {
  }

  /** A saved configuration occupies the cells of its job's rules, with the same values. */
  lemma SavedOccupies(d: DnsType, app: Uuid, job: AppDConfig, saved: AppDConfig, r: Rule, s: Stage, x: Cell)
    returns (r0: Rule)
    requires SameRules(job, saved) && Occupies(d, app, Some(saved), r, s, x)
    ensures Occupies(d, app, Some(job), r0, s, x) && Held(s, r0) == Held(s, r)
  {
    if r in saved.dns {
      var i :| 0 <= i < |saved.dns| && saved.dns[i] == r;
      r0 := job.dns[i];
    } else {
      var i :| 0 <= i < |saved.traffic| && saved.traffic[i] == r;
      r0 := job.traffic[i];
    }
  }

  lemma JobOccupies(d: DnsType, app: Uuid, job: AppDConfig, saved: AppDConfig, r: Rule, s: Stage, x: Cell)
    returns (r1: Rule)
    requires SameRules(job, saved) && Occupies(d, app, Some(job), r, s, x)
    ensures Occupies(d, app, Some(saved), r1, s, x)
  {
    if r in job.dns {
      var i :| 0 <= i < |job.dns| && job.dns[i] == r;
      r1 := saved.dns[i];
    } else {
      var i :| 0 <= i < |job.traffic| && job.traffic[i] == r;
      r1 := saved.traffic[i];
    }
  }

  /** A cell of another application, or of none, is foreign to a task. */
  lemma ForeignCell(d: DnsType, kv: Store, app: Uuid, a: Uuid, r: Rule, s: Stage, x: Cell)
    requires DomainsUnique(kv) && Job(kv, app).Some? && Occupies(d, a, Config(kv, a), r, s, x)
    ensures x in ContextOf(d, app, kv).own <==> a == app
  {
    hide DomainsUnique, Occupies;
    if x in ContextOf(d, app, kv).own {
      var r', s' := OwnIsHeld(d, kv, app, x);
      OneHolder(d, kv, app, r', s', a, r, s, x);
    }
    if a == app {
      OccupiedIsOwn(d, app, Job(kv, app).value, Config(kv, app), r, s, x);
    }
  }

  /** After a commit, one rule of the new configurations at a time. */
  lemma CommitHolds(d: DnsType, app: Uuid, task: Uuid, m: External, kv: Store, m': External, kv': Store,
                    a: Uuid, r: Rule, s: Stage, x: Cell)
    requires DomainsUnique(kv) && Mirrored(d, m, kv) && CleanEnd(d, app, task, m, kv, m', kv')
    requires Committed(d, app, kv, m', kv')
    requires Occupies(d, a, Config(kv', a), r, s, x)
    ensures Lookup(m', x) == Held(s, r)
  {
    hide DomainsUnique, Occupies, SameRules;
    if a == app {
      OccupiesSome(d, a, Config(kv', a), r, s, x);
      var r0 := SavedOccupies(d, app, Job(kv, app).value, Config(kv', app).value, r, s, x);
    } else {
      OthersKeep(kv, kv', app, task, a);
      ForeignCell(d, kv, app, a, r, s, x);
    }
  }

  lemma OccupiesSome(d: DnsType, app: Uuid, c: Option<AppDConfig>, r: Rule, s: Stage, x: Cell)
    requires Occupies(d, app, c, r, s, x)
    ensures c.Some?
  {
  }

  lemma CommitOnly(d: DnsType, app: Uuid, task: Uuid, m: External, kv: Store, m': External, kv': Store, x: Cell)
    returns (a: Uuid, r: Rule, s: Stage)
    requires DomainsUnique(kv) && Mirrored(d, m, kv) && CleanEnd(d, app, task, m, kv, m', kv')
    requires Committed(d, app, kv, m', kv')
    requires x in m'
    ensures Occupies(d, a, Config(kv', a), r, s, x)
  {
    hide DomainsUnique, Occupies, SameRules;
    if x in ContextOf(d, app, kv).own {
      var r0;
      a := app;
      assert Exact(d, app, Target(Job(kv, app).value), m', ContextOf(d, app, kv).own);
      assert exists r1, s1 :: Occupies(d, app, Target(Job(kv, app).value), r1, s1, x);
      r0, s :| Occupies(d, app, Target(Job(kv, app).value), r0, s, x);
      OccupiesSome(d, app, Target(Job(kv, app).value), r0, s, x);
      r := JobOccupies(d, app, Job(kv, app).value, Config(kv', app).value, r0, s, x);
    } else {
      assert Lookup(m, x) == Lookup(m', x);
      a, r, s :| Occupies(d, a, Config(kv, a), r, s, x);
      ForeignCell(d, kv, app, a, r, s, x);
      OthersKeep(kv, kv', app, task, a);
    }
  }

  lemma EndKeepsMirror(d: DnsType, app: Uuid, task: Uuid, m: External, kv: Store, m': External, kv': Store)
    requires DomainsUnique(kv) && Mirrored(d, m, kv) && CleanEnd(d, app, task, m, kv, m', kv')
    ensures Mirrored(d, m', kv')
  {
    hide DomainsUnique, Occupies, Committed, SameRules;
    if Committed(d, app, kv, m', kv') {
      forall a, r, s, x | Occupies(d, a, Config(kv', a), r, s, x) ensures Lookup(m', x) == Held(s, r) {
        CommitHolds(d, app, task, m, kv, m', kv', a, r, s, x);
      }
      forall x | x in m' ensures exists a, r, s :: Occupies(d, a, Config(kv', a), r, s, x) {
        var a, r, s := CommitOnly(d, app, task, m, kv, m', kv', x);
      }
    } else {
      forall a ensures Config(kv', a) == Config(kv, a) {
        if a != app {
          OthersKeep(kv, kv', app, task, a);
        }
      }
      StageKeepsMirror(d, m, kv, kv');
      assert forall x :: Lookup(m', x) == Lookup(m, x);
      assert forall x :: x in m' ==> Lookup(m, x).Some?;
    }
  }

  lemma StagedIsUnderway(kv: Store, kv': Store, app: Uuid, task: Uuid, input: AppDConfig, t: TaskStatus)
    requires StagedAs(kv, kv', app, task, input, t) && WellFormed(Some(input)) && WellFormed(Config(kv, app))
    ensures Underway(kv', Flight(app, task))
  {
    hide WellFormed, Staged, Compared, CreatesFree, Distinct;
    StageIsLocal(kv, kv', app, task, input, t);
    StagedLoads(kv, kv', app, task, input, t);
  }

  lemma StageKeepsInvariant(d: DnsType, w: World, w': World, app: Uuid, task: Uuid, input: AppDConfig)
    requires Invariant(d, w) && CleanStep(d, w, w', Stage(app, task, input))
    ensures Invariant(d, w')
  {
    hide DomainsUnique, Mirrored, Exclusive, WellFormed, Staged, NamesFit, ListsChanges, CreatesFree, Distinct;
    var t :| StagedAs(w.kv, w'.kv, app, task, input, t);
    StepKeepsExclusion(w, w', Stage(app, task, input));
    StageKeepsDomains(w.kv, w'.kv, app, task, input, t);
    StageIsLocal(w.kv, w'.kv, app, task, input, t);
    forall a ensures Config(w'.kv, a) == Config(w.kv, a) {
      if a != app {
        OthersKeep(w.kv, w'.kv, app, task, a);
      }
    }
    StageKeepsMirror(d, w.content, w.kv, w'.kv);
    StagedIsUnderway(w.kv, w'.kv, app, task, input, t);
    forall f | f in w'.flights ensures Underway(w'.kv, f) {
      if f != Flight(app, task) {
        assert Underway(w.kv, f);
        SoleFlight(w, app, f);
        OthersKeep(w.kv, w'.kv, app, task, f.app);
        assert Lookup(w'.kv, StatusKey(f.app, f.task)) == Lookup(w.kv, StatusKey(f.app, f.task));
      }
    }
  }

  /** An application without a job record has no worker in flight. */
  lemma SoleFlight(w: World, app: Uuid, f: Flight)
    requires Exclusive(w) && JobKey(app) !in w.kv && f in w.flights
    ensures f.app != app
  {
  }

  lemma EndKeepsInvariant(d: DnsType, w: World, w': World, app: Uuid, task: Uuid, history: seq<TaskStatus>)
    requires Invariant(d, w) && CleanStep(d, w, w', End(app, task, history))
    ensures Invariant(d, w')
  {
    hide DomainsUnique, Mirrored, WellFormed, Staged, Exact, AgreeOn, AgreeOff, SameRules;
    assert Underway(w.kv, Flight(app, task));
    StepKeepsExclusion(w, w', End(app, task, history));
    EndKeepsDomains(d, app, task, w.content, w.kv, w'.content, w'.kv);
    EndKeepsMirror(d, app, task, w.content, w.kv, w'.content, w'.kv);
    forall f | f in w'.flights ensures Underway(w'.kv, f) {
      assert Underway(w.kv, f) && f.app != app;
      OthersKeep(w.kv, w'.kv, app, task, f.app);
      assert Lookup(w'.kv, StatusKey(f.app, f.task)) == Lookup(w.kv, StatusKey(f.app, f.task));
    }
    forall a ensures WellFormed(Config(w'.kv, a)) {
      if a != app {
        OthersKeep(w.kv, w'.kv, app, task, a);
      } else if Committed(d, app, w.kv, w'.content, w'.kv) && Config(w'.kv, app).Some? {
        StagedIsWellFormed(Job(w.kv, app).value, Config(w.kv, app), StatusIn(w.kv, StatusKey(app, task)).value);
        SavedIsWellFormed(Job(w.kv, app).value, Config(w'.kv, app).value);
      } else {
        NothingIsWellFormed();
      }
    }
  }

  lemma StagedIsWellFormed(job: AppDConfig, stored: Option<AppDConfig>, t: TaskStatus)
    requires Staged(job, stored, t)
    ensures WellFormed(Some(job))
  {
  }

  lemma NothingIsWellFormed()
    ensures WellFormed(None)
  {
  }

  lemma StepKeepsInvariant(d: DnsType, w: World, w': World, step: Step)
    requires Invariant(d, w) && CleanStep(d, w, w', step)
    ensures Invariant(d, w')
  {
    hide DomainsUnique, Mirrored, WellFormed, Exclusive;
    match step
    case Stage(app, task, input) => StageKeepsInvariant(d, w, w', app, task, input);
    case Reject(app, task) => StepKeepsExclusion(w, w', step);
    case End(app, task, history) => EndKeepsInvariant(d, w, w', app, task, history);
    case Toggle(app, id, state) => ToggleKeepsInvariantIff(w, w', app, id, state);
    case Idle =>
  }

  ghost predicate CleanRun(d: DnsType, ws: seq<World>, steps: seq<Step>) {
    |ws| == |steps| + 1 && forall i :: 0 <= i < |steps| ==> CleanStep(d, ws[i], ws[i + 1], steps[i])
  }

  /** An empty system satisfies the invariant. */
  lemma EmptyIsInvariant(d: DnsType)
    ensures Invariant(d, World(map[], map[], {}))
  {
  }

  /**
   * Over every run in which each task completes or is cleanly reverted, in any
   * interleaving of requests and workers of all applications, every state
   * mirrors the stored configurations exactly, keeps stored and pending domain
   * names unique across applications, and lets every worker in flight start.
   */
  lemma {:induction false} RunKeepsMirror(d: DnsType, ws: seq<World>, steps: seq<Step>)
    requires CleanRun(d, ws, steps) && Invariant(d, ws[0])
    ensures forall i :: 0 <= i < |ws| ==> Mirrored(d, ws[i].content, ws[i].kv) && DomainsUnique(ws[i].kv)
    ensures forall i, f :: 0 <= i < |ws| && f in ws[i].flights ==> Startable(d, f.app, f.task, ws[i].content, ws[i].kv)
  {
    hide Invariant, CleanStep, Startable;
    var i := 0;
    while i < |steps|
      invariant i <= |steps|
      invariant forall j :: 0 <= j <= i ==> Invariant(d, ws[j])
    {
      StepKeepsInvariant(d, ws[i], ws[i + 1], steps[i]);
      i := i + 1;
    }
    forall j | 0 <= j < |ws| ensures Mirrored(d, ws[j].content, ws[j].kv) && DomainsUnique(ws[j].kv) {
      InvariantParts(d, ws[j]);
    }
    forall j, f | 0 <= j < |ws| && f in ws[j].flights ensures Startable(d, f.app, f.task, ws[j].content, ws[j].kv) {
      InvariantStartsWorker(d, ws[j], f);
    }
  }

  lemma InvariantParts(d: DnsType, w: World)
    requires Invariant(d, w)
    ensures Mirrored(d, w.content, w.kv) && DomainsUnique(w.kv)
  {
  }

  /** The invariant provides what workers rely on whatever the external systems hold. */
  lemma InvariantIsCarried(d: DnsType, w: World)
    requires Invariant(d, w)
    ensures Carried(w)
  {
    hide DomainsUnique, Mirrored, Exclusive, WellFormed, Staged, Workable;
    forall f | f in w.flights ensures Loads(w.kv, f) {
      assert Underway(w.kv, f);
      StagedIsWorkable(Job(w.kv, f.app).value, Config(w.kv, f.app), StatusIn(w.kv, StatusKey(f.app, f.task)).value);
    }
  }
}
