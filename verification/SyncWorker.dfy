/** The worker that carries out one staged task from the records in the store. */
module SyncWorker {
  import opened AppConfig
  import opened Targets
  import opened RuleOps
  import opened SyncPlan
  import opened SyncLink
  import opened DataStore
  import opened StatusDb
  import opened TaskPoll
  import opened SyncTask
  import opened Mirror

  /** The job, configuration or status that a record holds; any other record fails to parse. */
  function ConfigIn(kv: Store, k: Key): Option<AppDConfig> {
    if k in kv && kv[k].ConfigRecord? then Some(kv[k].config) else None
  }

  function StatusIn(kv: Store, k: Key): Option<TaskStatus> {
    if k in kv && kv[k].StatusRecord? then Some(kv[k].status) else None
  }

  function ContextOf(d: DnsType, app: Uuid, kv: Store): Context
    requires ConfigIn(kv, JobKey(app)).Some?
  {
    Context(app, d, OwnCells(d, app, ConfigIn(kv, JobKey(app)).value, ConfigIn(kv, ConfigKey(app))))
  }

  /** If a task is staged, its entries find the rules that they are about. */
  ghost predicate Loadable(app: Uuid, task: Uuid, kv: Store) {
    ConfigIn(kv, JobKey(app)).Some? && StatusIn(kv, StatusKey(app, task)).Some? ==>
      Findable(StatusIn(kv, StatusKey(app, task)).value, ConfigIn(kv, JobKey(app)).value, ConfigIn(kv, ConfigKey(app)))
  }

  /** The task is staged and its worker can keep its books. */
  ghost predicate Bookable(app: Uuid, task: Uuid, kv: Store) {
    && ConfigIn(kv, JobKey(app)).Some? && StatusIn(kv, StatusKey(app, task)).Some?
    && Workable(ConfigIn(kv, JobKey(app)).value, ConfigIn(kv, ConfigKey(app)), StatusIn(kv, StatusKey(app, task)).value)
  }

  /** If a task is staged, its worker finds the stored configuration mirrored. */
  ghost predicate Startable(d: DnsType, app: Uuid, task: Uuid, m: External, kv: Store) {
    ConfigIn(kv, JobKey(app)).Some? && StatusIn(kv, StatusKey(app, task)).Some? ==>
      Ready(ContextOf(d, app, kv), ConfigIn(kv, JobKey(app)).value, ConfigIn(kv, ConfigKey(app)),
            StatusIn(kv, StatusKey(app, task)).value, m)
  }

  ghost predicate Unstaged(app: Uuid, task: Uuid, kv: Store) {
    ConfigIn(kv, JobKey(app)).None? || StatusIn(kv, StatusKey(app, task)).None?
  }

  /** The saved configuration: the job's rules up to default states, with the operation cleared. */
  ghost predicate SavedFor(job: AppDConfig, saved: Option<Record>) {
    if job.operation == DeleteOp then saved == None
    else
      && saved.Some? && saved.value.ConfigRecord?
      && SameRules(job, saved.value.config) && saved.value.config.operation == Settled
  }

  ghost predicate SameRules(a: AppDConfig, b: AppDConfig) {
    && a.appName == b.appName && |a.dns| == |b.dns| && |a.traffic| == |b.traffic|
    && (forall i :: 0 <= i < |a.dns| ==> SameRule(a.dns[i], b.dns[i]))
    && (forall i :: 0 <= i < |a.traffic| ==> SameRule(a.traffic[i], b.traffic[i]))
  }

  /** The same rule, but for an empty state that may have become ACTIVE. */
  predicate SameRule(a: Rule, b: Rule) {
    b == a || (a.state == Unset && b == a.(state := Active))
  }

  /**
   * The status records that a worker writes, in order: a client that polls the
   * task sees them one after another, from the staged record to the one that
   * is stored in the end.
   */
  ghost predicate Polled(app: Uuid, task: Uuid, kv: Store, kv': Store, history: seq<TaskStatus>) {
    Chained(app, task, kv, kv', history) && Lawful(history, TotalRules(history[0]))
  }

  ghost predicate Chained(app: Uuid, task: Uuid, kv: Store, kv': Store, history: seq<TaskStatus>) {
    && |history| > 0
    && Lookup(kv, StatusKey(app, task)) == Some(StatusRecord(history[0]))
    && Lookup(kv', StatusKey(app, task)) == Some(StatusRecord(history[|history| - 1]))
  }

  /** The configuration record stays, or becomes what the job asked for. */
  ghost predicate KeepsOrSaves(app: Uuid, kv: Store, kv': Store) {
    || Lookup(kv', ConfigKey(app)) == Lookup(kv, ConfigKey(app))
    || (ConfigIn(kv, JobKey(app)).Some? && SavedFor(ConfigIn(kv, JobKey(app)).value, Lookup(kv', ConfigKey(app))))
  }

  /** The own cells mirror what the job asked for, and its configuration is saved. */
  ghost predicate Committed(d: DnsType, app: Uuid, kv: Store, m': External, kv': Store)
    requires ConfigIn(kv, JobKey(app)).Some?
  {
    var job := ConfigIn(kv, JobKey(app)).value;
    && Exact(d, app, Target(job), m', ContextOf(d, app, kv).own)
    && SavedFor(job, Lookup(kv', ConfigKey(app)))
  }

  /** The own cells and the configuration record are what they were. */
  ghost predicate RolledBack(d: DnsType, app: Uuid, m: External, kv: Store, m': External, kv': Store)
    requires ConfigIn(kv, JobKey(app)).Some?
  {
    AgreeOn(m', m, ContextOf(d, app, kv).own) && Lookup(kv', ConfigKey(app)) == Lookup(kv, ConfigKey(app))
  }

  /** A worker's end that leaves nothing behind: committed or rolled back, the job record gone, the rest untouched. */
  ghost predicate CleanEnd(d: DnsType, app: Uuid, task: Uuid, m: External, kv: Store, m': External, kv': Store) {
    && ConfigIn(kv, JobKey(app)).Some?
    && SameExcept(kv, kv', {ConfigKey(app), JobKey(app), StatusKey(app, task)})
    && JobKey(app) !in kv'
    && AgreeOff(m', m, ContextOf(d, app, kv).own)
    && (Committed(d, app, kv, m', kv') || RolledBack(d, app, m, kv, m', kv'))
  }

  lemma AppliedIsSame(job: AppDConfig, applied: AppDConfig, dnsChanges: seq<Change>, trafficChanges: seq<Change>)
    requires JobApplied(job, applied, dnsChanges, trafficChanges)
    ensures SameRules(job, applied.(operation := Settled)) && applied.operation == job.operation
  {
  }

  /** Faults met so far, on either side. */
  ghost function FaultsOf(remote: Remote, backend: Backend): nat
    reads remote, backend
  {
    remote.faults + backend.faults
  }

  class Worker {
    const remote: Remote
    const backend: Backend
    const dnsType: DnsType

    constructor (remote: Remote, backend: Backend, dnsType: DnsType)
      ensures this.remote == remote && this.backend == backend && this.dnsType == dnsType
    {
      this.remote := remote;
      this.backend := backend;
      this.dnsType := dnsType;
    }

    /** A task that cannot be loaded is marked as failed and its job dropped, as far as the store allows. */
    method Abandon(app: Uuid, taskId: Uuid)
      modifies backend
      ensures backend.faults >= old(backend.faults)
      ensures SameExcept(old(backend.kv), backend.kv, {JobKey(app), StatusKey(app, taskId)})
      ensures backend.faults == old(backend.faults) ==> JobKey(app) !in backend.kv
      ensures StatusIn(old(backend.kv), StatusKey(app, taskId)).Some? && backend.faults == old(backend.faults) ==>
        && StatusIn(backend.kv, StatusKey(app, taskId)).Some?
        && StatusIn(backend.kv, StatusKey(app, taskId)).value.progress == PROGRESS_FAILURE
    {
      var _ := backend.DeletePaths([JobKey(app)], true);
      var t := backend.GetRecord(StatusKey(app, taskId));
      if t.Some? && t.value.StatusRecord? {
        var failed := new StatusDB(app, taskId, backend, t.value.status.(progress := PROGRESS_FAILURE));
        failed.SetFailureReason("Unexpected error in processing.");
        var _ := failed.PushDB();
      }
    }

    /** How an outcome relates to the number of faults and to the changes that the staged task consists of. */
    ghost predicate Judged(cx: Context, plan: seq<Change>, outcome: Outcome, faults: int) {
      && (outcome.Completed? ==> AllCompletable(cx, plan))
      && (AllCompletable(cx, plan) && faults == 0 ==> outcome == Completed(true))
      && (AllKept(cx, plan) && outcome.Inconsistent? ==> faults > if AllCompletable(cx, plan) then 1 else 0)
    }

    /** Runs a loaded task. */
    method Execute(app: Uuid, taskId: Uuid, job: AppDConfig, stored: Option<AppDConfig>, t: TaskStatus,
                   ghost cx: Context)
      returns (outcome: Outcome, ghost history: seq<TaskStatus>)
      requires cx == Context(app, dnsType, OwnCells(dnsType, app, job, stored))
      requires Findable(t, job, stored) && AgreeOff(remote.content, remote.background, cx.own)
      requires Lookup(backend.kv, StatusKey(app, taskId)) == Some(StatusRecord(t))
      modifies remote, backend
      ensures remote.faults >= old(remote.faults) && backend.faults >= old(backend.faults)
      ensures Chained(app, taskId, old(backend.kv), backend.kv, history)
      ensures AgreeOff(remote.content, remote.background, cx.own)
      ensures SameExcept(old(backend.kv), backend.kv, {StatusKey(app, taskId), JobKey(app), ConfigKey(app)})
      ensures outcome.Completed? && FaultsOf(remote, backend) == old(FaultsOf(remote, backend)) ==>
        outcome.configSaved && JobKey(app) !in backend.kv
      ensures outcome != Completed(true) ==>
        Lookup(backend.kv, ConfigKey(app)) == Lookup(old(backend.kv), ConfigKey(app))
      ensures outcome.Reverted? ==> JobKey(app) !in backend.kv && history[|history| - 1].progress == PROGRESS_FAILURE
      ensures Workable(job, stored, t) ==>
        && Polled(app, taskId, old(backend.kv), backend.kv, history)
        && (outcome == Completed(true) ==> SavedFor(job, Lookup(backend.kv, ConfigKey(app))))
        && (outcome.Completed? ==> history[|history| - 1].progress == TotalRules(t))
      ensures Ready(cx, job, stored, t, old(remote.content)) ==>
        && Judged(cx, PlanOf(job, stored, t), outcome, FaultsOf(remote, backend) - old(FaultsOf(remote, backend)))
        && (outcome.Completed? ==> Exact(dnsType, app, Target(job), remote.content, cx.own))
        && (outcome.Reverted? ==> AtMostOneCell(old(remote.content), remote.content, cx.own))
        && (outcome.Reverted? && backend.faults == old(backend.faults) ==>
              AgreeOn(remote.content, old(remote.content), cx.own))
    {
      hide Separate, Mirrors, Balanced, AgreeOn, AgreeOff, Books, PlanOf, Exact, OwnCells, AllCompletable, Findable;
      hide AllKept, Residue, JobApplied, SameRules, AtMostOneCell, Climbing, Lawful, Failed, Ready, OwnsRules, Workable;
      ghost var plan, unique := PlanOf(job, stored, t), Workable(job, stored, t);
      ghost var ready := Ready(cx, job, stored, t, remote.content);
      var statusDb := new StatusDB(app, taskId, backend, t);
      var context := Context(app, dnsType, OwnCells(dnsType, app, job, stored));
      var task := new Task(context, taskId, remote, backend, statusDb, job, stored, plan, unique, ready);
      OwnCellsOwn(cx, job, stored);
      if unique {
        WorkableBooks(job, stored, t);
      }
      if ready {
        ReadyIsStaged(cx, job, stored, t, remote.content);
        StagedIsWorkable(job, stored, t);
        ReadySeparates(cx, job, stored, t, remote.content);
        ReadyMirrors(cx, job, stored, t, remote.content);
        StartsClear(cx, plan, remote.content);
      }
      outcome := task.Run();
      history := statusDb.pushed;
      if unique && outcome.Completed? {
        WorkableOperates(job, stored, t);
        AppliedIsSame(job, task.job, task.Segment(DnsKind), task.Segment(TrafficKind));
      }
      if ready && outcome.Completed? {
        BalancedIsLedger(cx, plan, task.AllDone(), old(remote.content), remote.content);
        CompletedIsExact(cx, job, stored, t, old(remote.content), remote.content, plan, task.AllDone());
      } else if ready && outcome.Reverted? {
        ResidueIsOneCell(cx, plan, old(remote.content), task.base, remote.content);
      }
    }

    /**
     * Loads a staged task and runs it. Whatever faults occur and whatever the
     * external systems hold, foreign cells and records are not touched. If no
     * rule id repeats, the status records are lawful, and each outcome settles
     * status, job and configuration. If the stored configuration was mirrored, a completed
     * task's cells mirror exactly what the job asked for and a reverted task's
     * cells are as before, up to one cell if a status write failed; a task that
     * meets no fault then completes exactly when all its changes are
     * completable, and one fault never makes it inconsistent when its changes
     * keep their cells.
     */
    method ProcessDataPlaneSync(app: Uuid, taskId: Uuid)
      returns (outcome: Option<Outcome>, ghost history: seq<TaskStatus>)
      requires Loadable(app, taskId, backend.kv)
      requires remote.background == remote.content
      modifies remote, backend
      ensures remote.faults >= old(remote.faults) && backend.faults >= old(backend.faults)
      ensures outcome.None? <==> Unstaged(app, taskId, old(backend.kv))
      ensures SameExcept(old(backend.kv), backend.kv, {ConfigKey(app), JobKey(app), StatusKey(app, taskId)})
      ensures outcome.None? ==>
        && remote.content == old(remote.content)
        && SameExcept(old(backend.kv), backend.kv, {JobKey(app), StatusKey(app, taskId)})
      ensures Bookable(app, taskId, old(backend.kv)) ==>
        Polled(app, taskId, old(backend.kv), backend.kv, history) && KeepsOrSaves(app, old(backend.kv), backend.kv)
      ensures outcome.Some? ==> Settles(app, taskId, old(remote.content), old(backend.kv), remote.content, backend.kv,
        outcome.value, FaultsOf(remote, backend) - old(FaultsOf(remote, backend)))
      ensures (outcome.Some? && !outcome.value.Inconsistent?
               && FaultsOf(remote, backend) == old(FaultsOf(remote, backend))) ==>
        Clean(outcome.value, 0) && JobKey(app) !in backend.kv
      ensures outcome.Some? ==>
        AgreeOff(remote.content, remote.background, ContextOf(dnsType, app, old(backend.kv)).own)
      ensures (outcome.Some? && Startable(dnsType, app, taskId, old(remote.content), old(backend.kv))
               && Clean(outcome.value, backend.faults - old(backend.faults)) && JobKey(app) !in backend.kv
               && remote.background == old(remote.content)) ==>
        CleanEnd(dnsType, app, taskId, old(remote.content), old(backend.kv), remote.content, backend.kv)
    {
      hide Ready, Workable, AgreeOff, AgreeOn, Exact, PlanOf, OwnCells, AllCompletable, AllKept, AtMostOneCell;
      hide SameRules, Findable, Lawful;
      var job := backend.GetRecord(JobKey(app));
      var config := backend.GetRecord(ConfigKey(app));
      var status := backend.GetRecord(StatusKey(app, taskId));
      if job.None? || !job.value.ConfigRecord? || status.None? || !status.value.StatusRecord? {
        Abandon(app, taskId);
        return None, [];
      }
      var stored := if config.Some? && config.value.ConfigRecord? then Some(config.value.config) else None;
      ghost var cx := ContextOf(dnsType, app, backend.kv);
      SameMapsAgree(remote.content, cx.own);
      ReadyIsBookable(cx, job.value.config, stored, status.value.status, remote.content);
      var o;
      o, history := Execute(app, taskId, job.value.config, stored, status.value.status, cx);
      if Bookable(app, taskId, old(backend.kv)) {
        LawfulTotal(history);
      }
      outcome := Some(o);
    }

    /** Outcomes that leave nothing behind, given the number of failed writes to the store. */
    ghost predicate Clean(outcome: Outcome, storeFaults: int) {
      outcome == Completed(true) || (outcome == Reverted && storeFaults == 0)
    }

    /** What each outcome of a staged task guarantees about its status, its job, its configuration and its cells. */
    ghost predicate Settles(app: Uuid, taskId: Uuid, m: External, kv: Store, m': External, kv': Store,
                            outcome: Outcome, faults: int)
      requires !Unstaged(app, taskId, kv)
    {
      var job := ConfigIn(kv, JobKey(app)).value;
      var cx := ContextOf(dnsType, app, kv);
      var t := StatusIn(kv, StatusKey(app, taskId)).value;
      var t' := StatusIn(kv', StatusKey(app, taskId));
      && t'.Some?
      && (outcome.Reverted? ==> t'.value.progress == PROGRESS_FAILURE && JobKey(app) !in kv')
      && (outcome != Completed(true) ==> Lookup(kv', ConfigKey(app)) == Lookup(kv, ConfigKey(app)))
      && (Bookable(app, taskId, kv) ==>
            && (outcome.Completed? ==> t'.value.progress == TotalRules(t'.value))
            && (outcome == Completed(true) ==> SavedFor(job, Lookup(kv', ConfigKey(app)))))
      && (Startable(dnsType, app, taskId, m, kv) ==>
            && Judged(cx, PlanOf(job, ConfigIn(kv, ConfigKey(app)), t), outcome, faults)
            && (outcome.Completed? ==> Exact(dnsType, app, Target(job), m', cx.own))
            && (outcome.Reverted? ==> AtMostOneCell(m, m', cx.own)))
    }
  }

  lemma StartsClear(cx: Context, plan: seq<Change>, m: External)
    requires Separate(cx, plan)
    ensures Balanced(cx, plan, seq(|plan|, i => 0), m, m)
  {
    Clear(cx, plan, seq(|plan|, i => 0), m, m);
  }

  lemma SameMapsAgree(m: External, own: set<Cell>)
    ensures AgreeOff(m, m, own)
  {
  }

  lemma OwnCellsOwn(cx: Context, job: AppDConfig, stored: Option<AppDConfig>)
    requires cx.own == OwnCells(cx.dnsType, cx.app, job, stored)
    ensures OwnsRules(cx, job, stored)
  {
    forall kind, r: Rule, s | (r in Rules(job, kind) || r in StoredRules(stored, kind)) && Enabled(cx.dnsType, kind, s)
      ensures CellOf(cx.app, s, r) in cx.own
    {
      RuleOfKind(job, kind, r);
      if stored.Some? {
        RuleOfKind(stored.value, kind, r);
      }
      OccupiedIsOwn(cx.dnsType, cx.app, job, stored, r, s, CellOf(cx.app, s, r));
    }
  }

  lemma WorkableOperates(job: AppDConfig, stored: Option<AppDConfig>, t: TaskStatus)
    requires Workable(job, stored, t)
    ensures job.operation != Settled
  {
  }

  lemma ReadyIsBookable(cx: Context, job: AppDConfig, stored: Option<AppDConfig>, t: TaskStatus, m: External)
    ensures Ready(cx, job, stored, t, m) ==> Workable(job, stored, t)
  {
    hide Staged, Workable, Apart, Exact, OwnCells;
    if Ready(cx, job, stored, t, m) {
      StagedIsWorkable(job, stored, t);
    }
  }
}
