/** What every worker in flight can rely on over whole runs, whatever faults occur. */
module CarryRuns {
  import opened AppConfig
  import opened SyncLink
  import opened DataStore
  import opened Mirror
  import opened SyncWorker
  import opened Staging
  import opened DnsRuleUpdate
  import opened Runs
  import opened Switches

  /** Workers exclude each other, and the entries of their tasks find the rules that they are about. */
  ghost predicate Manned(w: World) {
    Exclusive(w) && forall f :: f in w.flights ==> Fetches(w.kv, f)
  }

  ghost predicate Fetches(kv: Store, f: Flight) {
    && Job(kv, f.app).Some? && StatusIn(kv, StatusKey(f.app, f.task)).Some?
    && Findable(StatusIn(kv, StatusKey(f.app, f.task)).value, Job(kv, f.app).value, Config(kv, f.app))
  }

  lemma FetchesStays(kv: Store, kv': Store, f: Flight)
    requires Fetches(kv, f) && Job(kv', f.app) == Job(kv, f.app) && Config(kv', f.app) == Config(kv, f.app)
    requires Lookup(kv', StatusKey(f.app, f.task)) == Lookup(kv, StatusKey(f.app, f.task))
    ensures Fetches(kv', f)
  {
    hide Findable;
  }

  lemma StageFetches(w: World, w': World, step: Step, f: Flight)
    requires Manned(w) && Takes(w, w', step) && step.Stage? && f in w'.flights
    ensures Fetches(w'.kv, f)
  {
    hide Findable, CreatesFree, Distinct, Staged, WellFormed, ListsChanges;
    var t :| StagedAs(w.kv, w'.kv, step.app, step.task, step.input, t);
    StageIsLocal(w.kv, w'.kv, step.app, step.task, step.input, t);
    if f == Flight(step.app, step.task) {
      ListsAreFindable(JobFor(w.kv, step.app, step.input), Config(w.kv, step.app), t);
    } else {
      assert f.app != step.app;
      OthersKeep(w.kv, w'.kv, step.app, step.task, f.app);
      FetchesStays(w.kv, w'.kv, f);
    }
  }

  lemma ToggleFetches(kv: Store, kv': Store, app: Uuid, id: string, state: RuleState, f: Flight)
    requires Toggled(kv, kv', app, id, state) && Fetches(kv, f)
    ensures Fetches(kv', f)
  {
    hide Findable;
    var i := Replaced(kv, kv', app, id, state);
    if f.app == app {
      var t := StatusIn(kv, StatusKey(app, f.task)).value;
      SwitchKeepsFindable(Job(kv, app).value, Config(kv, app).value, i, state, t);
    }
  }

  /** A worker's records are its own: no step but its end and a switch touches them. */
  lemma StepFetches(w: World, w': World, step: Step, f: Flight)
    requires Manned(w) && Takes(w, w', step) && f in w'.flights
    ensures Fetches(w'.kv, f)
  {
    hide Fetches, StagedAs, Toggled, Polled, KeepsOrSaves, Loads;
    match step
    case Stage(_, _, _) => StageFetches(w, w', step, f);
    case Reject(app, task) =>
      if f.app != app {
        OthersKeep(w.kv, w'.kv, app, task, f.app);
        FetchesStays(w.kv, w'.kv, f);
      }
    case End(app, task, _) =>
      assert f.app != app;
      OthersKeep(w.kv, w'.kv, app, task, f.app);
      FetchesStays(w.kv, w'.kv, f);
    case Toggle(app, id, state) => ToggleFetches(w.kv, w'.kv, app, id, state, f);
    case Idle =>
  }

  lemma StepKeepsManned(w: World, w': World, step: Step)
    requires Manned(w) && Takes(w, w', step)
    ensures Manned(w')
  {
    hide Fetches, Takes, Exclusive;
    StepKeepsExclusion(w, w', step);
    forall f | f in w'.flights ensures Fetches(w'.kv, f) {
      StepFetches(w, w', step, f);
    }
  }

  /** Over every run, under all faults, no application has two workers, and each of them finds a task it can work on. */
  lemma {:induction false} RunKeepsManned(ws: seq<World>, steps: seq<Step>, i: nat)
    requires Run(ws, steps) && Manned(ws[0]) && i < |ws|
    ensures Manned(ws[i])
  {
    hide Manned, Takes;
    if i > 0 {
      RunKeepsManned(ws, steps, i - 1);
      StepKeepsManned(ws[i - 1], ws[i], steps[i - 1]);
    }
  }

  /** Further, workers find tasks that they can keep their books for, and stored rule ids are unique. */
  ghost predicate Carried(w: World) {
    && Exclusive(w)
    && (forall f :: f in w.flights ==> Loads(w.kv, f))
    && (forall app :: WellFormed(Config(w.kv, app)))
  }

  /** The requests of a run have unique rule ids. */
  ghost predicate UniqueStages(steps: seq<Step>) {
    forall i :: 0 <= i < |steps| ==> UniqueStage(steps[i])
  }

  ghost predicate UniqueStage(step: Step) {
    step.Stage? ==> WellFormed(Some(step.input))
  }

  lemma StagedLoads(kv: Store, kv': Store, app: Uuid, task: Uuid, input: AppDConfig, t: TaskStatus)
    requires StagedAs(kv, kv', app, task, input, t) && WellFormed(Some(input)) && WellFormed(Config(kv, app))
    ensures Staged(JobFor(kv, app, input), Config(kv, app), t) && Loads(kv', Flight(app, task))
  {
    hide UniqueIds, Staged, Workable, ListsChanges, CreatesFree, Distinct;
    StageIsLocal(kv, kv', app, task, input, t);
    var job := JobFor(kv, app, input);
    forall kind ensures UniqueIds(StoredRules(Some(job), kind)) {
      assert UniqueIds(StoredRules(Config(kv, app), kind)) && UniqueIds(StoredRules(Some(input), kind));
      if input.operation == DeleteOp {
        assert StoredRules(Some(job), kind) == StoredRules(Config(kv, app), kind);
      }
    }
    StagedIsWorkable(job, Config(kv, app), t);
  }

  /** The records of a worker's application other than its own do not matter to it. */
  lemma LoadsStays(kv: Store, kv': Store, f: Flight)
    requires Loads(kv, f) && Job(kv', f.app) == Job(kv, f.app) && Config(kv', f.app) == Config(kv, f.app)
    requires Lookup(kv', StatusKey(f.app, f.task)) == Lookup(kv, StatusKey(f.app, f.task))
    ensures Loads(kv', f)
  {
    hide Workable;
  }

  lemma SavedIsWellFormed(job: AppDConfig, saved: AppDConfig)
    requires WellFormed(Some(job)) && SameRules(job, saved)
    ensures WellFormed(Some(saved))
  {
    forall kind ensures UniqueIds(StoredRules(Some(saved), kind)) {
      assert RuleIds(StoredRules(Some(saved), kind)) == RuleIds(StoredRules(Some(job), kind));
      assert UniqueIds(StoredRules(Some(job), kind));
    }
  }

  lemma LoadedIsWellFormed(kv: Store, f: Flight)
    requires Loads(kv, f)
    ensures WellFormed(Job(kv, f.app)) && WellFormed(None)
  {
    hide UniqueIds, EntryWorks;
    assert forall kind :: StoredRules(Job(kv, f.app), kind) == Rules(Job(kv, f.app).value, kind);
    assert forall kind :: StoredRules(None, kind) == [];
    assert UniqueIds([]) by { NothingRepeats(); }
  }

  lemma NothingRepeats()
    ensures UniqueIds([])
  {
  }

  lemma EndKeepsConfigs(w: World, w': World, app: Uuid, task: Uuid, a: Uuid)
    requires Carried(w) && Flight(app, task) in w.flights && KeepsOrSaves(app, w.kv, w'.kv)
    requires SameExcept(w.kv, w'.kv, {ConfigKey(app), JobKey(app), StatusKey(app, task)})
    ensures WellFormed(Config(w'.kv, a))
  {
    hide WellFormed, Loads, SameRules;
    assert Loads(w.kv, Flight(app, task)) && WellFormed(Config(w.kv, a));
    LoadedIsWellFormed(w.kv, Flight(app, task));
    if a != app {
      OthersKeep(w.kv, w'.kv, app, task, a);
    } else if Lookup(w'.kv, ConfigKey(app)) != Lookup(w.kv, ConfigKey(app)) && Config(w'.kv, app).Some? {
      SavedIsWellFormed(Job(w.kv, app).value, Config(w'.kv, app).value);
    }
  }

  lemma StageKeepsCarried(w: World, w': World, step: Step, f: Flight)
    requires Carried(w) && Takes(w, w', step) && step.Stage? && UniqueStage(step) && f in w'.flights
    ensures Loads(w'.kv, f)
  {
    hide Loads, WellFormed, StagedAs;
    var t :| StagedAs(w.kv, w'.kv, step.app, step.task, step.input, t);
    StageIsLocal(w.kv, w'.kv, step.app, step.task, step.input, t);
    if f == Flight(step.app, step.task) {
      StagedLoads(w.kv, w'.kv, step.app, step.task, step.input, t);
    } else {
      assert f.app != step.app;
      OthersKeep(w.kv, w'.kv, step.app, step.task, f.app);
      LoadsStays(w.kv, w'.kv, f);
    }
  }

  lemma ToggleKeepsLoads(kv: Store, kv': Store, app: Uuid, id: string, state: RuleState, f: Flight)
    requires Toggled(kv, kv', app, id, state) && Loads(kv, f)
    ensures Loads(kv', f)
  {
    hide Workable;
    var i := Replaced(kv, kv', app, id, state);
    if f.app == app {
      var t := StatusIn(kv, StatusKey(app, f.task)).value;
      SwitchKeepsWorkable(Job(kv, app).value, Config(kv, app).value, i, state, t);
    }
  }

  lemma StepKeepsLoads(w: World, w': World, step: Step, f: Flight)
    requires Carried(w) && Takes(w, w', step) && UniqueStage(step) && f in w'.flights
    ensures Loads(w'.kv, f)
  {
    hide Loads, WellFormed, StagedAs, Toggled, Polled, KeepsOrSaves;
    match step
    case Stage(_, _, _) => StageKeepsCarried(w, w', step, f);
    case Reject(app, task) =>
      if f.app != app {
        OthersKeep(w.kv, w'.kv, app, task, f.app);
        LoadsStays(w.kv, w'.kv, f);
      }
    case End(app, task, _) =>
      assert f.app != app;
      OthersKeep(w.kv, w'.kv, app, task, f.app);
      LoadsStays(w.kv, w'.kv, f);
    case Toggle(app, id, state) => ToggleKeepsLoads(w.kv, w'.kv, app, id, state, f);
    case Idle =>
  }

  lemma StepKeepsConfigs(w: World, w': World, step: Step, a: Uuid)
    requires Carried(w) && Takes(w, w', step)
    ensures WellFormed(Config(w'.kv, a))
  {
    hide Loads, WellFormed, StagedAs, Polled, KeepsOrSaves;
    match step
    case Stage(app, task, input) =>
      var t :| StagedAs(w.kv, w'.kv, app, task, input, t);
      StageIsLocal(w.kv, w'.kv, app, task, input, t);
      if a != app {
        OthersKeep(w.kv, w'.kv, app, task, a);
      }
    case Reject(app, task) =>
      assert Lookup(w'.kv, ConfigKey(a)) == Lookup(w.kv, ConfigKey(a)) && WellFormed(Config(w.kv, a));
    case End(app, task, _) => EndKeepsConfigs(w, w', app, task, a);
    case Toggle(app, id, state) =>
      var i := Replaced(w.kv, w'.kv, app, id, state);
      ToggleKeepsWellFormed(Config(w.kv, app).value, i, state);
    case Idle =>
  }

  lemma StepKeepsCarried(w: World, w': World, step: Step)
    requires Carried(w) && Takes(w, w', step) && UniqueStage(step)
    ensures Carried(w')
  {
    hide Loads, WellFormed, Takes, Exclusive;
    StepKeepsExclusion(w, w', step);
    forall f | f in w'.flights ensures Loads(w'.kv, f) {
      StepKeepsLoads(w, w', step, f);
    }
    forall a ensures WellFormed(Config(w'.kv, a)) {
      StepKeepsConfigs(w, w', step, a);
    }
  }

  /** Over every run of requests with unique rule ids, under all faults, every worker in flight can keep its books. */
  lemma {:induction false} RunKeepsCarried(ws: seq<World>, steps: seq<Step>, i: nat)
    requires Run(ws, steps) && UniqueStages(steps) && Carried(ws[0]) && i < |ws|
    ensures Carried(ws[i])
  {
    hide Carried, Takes, UniqueStage;
    if i > 0 {
      RunKeepsCarried(ws, steps, i - 1);
      StepKeepsCarried(ws[i - 1], ws[i], steps[i - 1]);
    }
  }

  lemma CarriedIsManned(w: World)
    requires Carried(w)
    ensures Manned(w)
  {
    hide Exclusive, Findable, Workable, WellFormed;
    forall f | f in w.flights ensures Fetches(w.kv, f) {
      assert Loads(w.kv, f);
      WorkableIsFindable(Job(w.kv, f.app).value, Config(w.kv, f.app), StatusIn(w.kv, StatusKey(f.app, f.task)).value);
    }
  }
}
