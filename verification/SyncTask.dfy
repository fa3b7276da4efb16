/**
 * One sync task: it pushes the changes of a job to the external systems rule by
 * rule, and on a failure walks the same tables backwards.
 */
module SyncTask {
  import opened AppConfig
  import opened Targets
  import opened RuleOps
  import opened RuleMaps
  import opened SyncPlan
  import opened SyncLink
  import opened DataStore
  import opened StatusDb
  import opened TaskPoll

  /** How a task ends. Only a task that could not compensate reports inconsistency. */
  datatype Outcome =
    | Completed(configSaved: bool)
    | Reverted
    | Inconsistent

  /** A job after its changes were applied: default states written into the changed rules, nothing else changed. */
  ghost predicate JobApplied(job: AppDConfig, applied: AppDConfig, dnsChanges: seq<Change>,
                             trafficChanges: seq<Change>) {
    && DefaultsWritten(job.dns, applied.dns, Touched(dnsChanges))
    && DefaultsWritten(job.traffic, applied.traffic, Touched(trafficChanges))
    && applied == job.(dns := applied.dns, traffic := applied.traffic)
  }

  /** What the store holds for an application once a job's configuration write went through. */
  ghost function ConfigAfter(before: Store, app: Uuid, job: AppDConfig): Option<Record> {
    match job.operation
    case PostOp => Some(ConfigRecord(job.(operation := Settled)))
    case PutOp => Some(ConfigRecord(job.(operation := Settled)))
    case DeleteOp => None
    case Settled => Lookup(before, ConfigKey(app))
  }

  class Task {
    const cx: Context
    const taskId: Uuid
    const remote: Remote
    const backend: Backend
    const statusDb: StatusDB
    const stored: Option<AppDConfig>
    var job: AppDConfig

    ghost const plan: seq<Change>  // the status entries, DNS first, resolved to changes
    ghost const split: nat         // how many of them are DNS entries
    ghost const unique: bool       // no rule id repeats, so that the books can be kept
    ghost const mirrored: bool     // and the external content is known to mirror the stored configuration
    ghost var done: seq<nat>       // how many states each of them has passed
    ghost var base: External       // what the own cells are compared with

    constructor (cx: Context, taskId: Uuid, remote: Remote, backend: Backend, statusDb: StatusDB,
                 job: AppDConfig, stored: Option<AppDConfig>, ghost plan: seq<Change>,
                 ghost unique: bool, ghost mirrored: bool)
      ensures this.cx == cx && this.taskId == taskId && this.remote == remote && this.backend == backend
      ensures this.statusDb == statusDb && this.job == job && this.stored == stored && this.plan == plan
      ensures split == |statusDb.status.dns| && this.unique == unique && this.mirrored == mirrored
      ensures done == seq(|plan|, i => 0) && base == remote.content
    {
      this.cx := cx;
      this.taskId := taskId;
      this.remote := remote;
      this.backend := backend;
      this.statusDb := statusDb;
      this.job := job;
      this.stored := stored;
      this.plan := plan;
      this.unique := unique;
      this.mirrored := mirrored;
      split := |statusDb.status.dns|;
      done := seq(|plan|, i => 0);
      base := remote.content;
    }

    ghost function Faults(): nat
      reads remote, backend
    {
      remote.faults + backend.faults
    }

    ghost predicate Wired() {
      && statusDb.backend == backend && statusDb.app == cx.app && statusDb.task == taskId
      && (mirrored ==> unique && Separate(cx, plan))
    }

    /** Every entry finds its rules, and the cells of all rules belong to the task. */
    ghost predicate Usable()
      reads this`job, statusDb`status
    {
      Findable(statusDb.status, job, stored) && OwnsRules(cx, job, stored)
    }

    // What depends on the external content is promised only if that content mirrored the stored configuration.

    ghost predicate AddsUp(done: seq<nat>, base: External, m: External) {
      mirrored ==> Balanced(cx, plan, done, base, m)
    }

    ghost predicate StartsMirrored(base: External) {
      mirrored ==> Mirrors(cx, plan, base)
    }

    ghost predicate Accepted(k: nat, state: nat) {
      mirrored ==> CompletableTo(cx, plan, k, state)
    }

    /** The change could not be completed, as far as that is known. */
    ghost predicate Incompletable(k: nat) {
      mirrored ==> !CompletableTo(cx, plan, k, WAIT_CONFIG_DB_WRITE)
    }

    ghost predicate NotAllCompletable() {
      mirrored ==> !AllCompletable(cx, plan)
    }

    ghost predicate NotAllKept() {
      mirrored ==> !AllKept(cx, plan)
    }

    /** The bookkeeping is exact: states, progress and persisted records agree with the plan. */
    ghost predicate Booked()
      reads this, statusDb
    {
      unique ==> Books(plan, split, done, statusDb.status, statusDb.pushed, job, stored)
    }

    ghost predicate Lawfully()
      reads statusDb
    {
      unique ==> Lawful(statusDb.pushed, |plan|)
    }

    /** Some entry has not passed all its states. */
    ghost predicate Stopped()
      reads this
    {
      unique ==> exists q :: 0 <= q < |done| && done[q] < WAIT_CONFIG_DB_WRITE
    }

    /** The external content is what the ledger says; foreign cells are as if this task had sent nothing. */
    ghost predicate Accounted()
      reads this, remote
    {
      AddsUp(done, base, remote.content) && AgreeOff(remote.content, remote.background, cx.own)
    }

    ghost predicate Applying()
      reads this, statusDb, remote
    {
      Wired() && Usable() && Booked() && Accounted()
    }

    /** What the invariant says about one entry and about the maps that the passes use. */
    lemma EntryOf(kind: Kind, i: nat)
      requires unique && Applying() && i < |StatusList(statusDb.status, kind)|
      ensures Position(split, kind, i) < |plan| == |done|
      ensures var k := Position(split, kind, i);
        StatusList(statusDb.status, kind)[i] == RuleStatus(plan[k].Id(), done[k], plan[k].Oper())
      ensures MapsResolve(cx.app, ApplyFunc, plan, Position(split, kind, i),
                ById(StoredRules(stored, kind)) + ById(Rules(job, kind)), ById(StoredRules(stored, kind)))
    {
      hide Books, MapsResolve;
      BooksEntry(plan, split, done, statusDb.status, statusDb.pushed, job, stored, kind, i);
      BooksResolve(cx.app, plan, split, done, statusDb.status, statusDb.pushed, job, stored, kind, i);
    }

    lemma ShapeOf(kind: Kind)
      requires unique && Applying()
      ensures UniqueIds(Rules(job, kind)) && UniqueIds(StoredRules(stored, kind))
      ensures |done| == |plan| == TotalRules(statusDb.status) && |statusDb.status.dns| == split
    {
      hide Books;
      BooksUnique(plan, split, done, statusDb.status, statusDb.pushed, job, stored, kind);
    }

    /** The rules at hand give the table an operation to run, on a cell of the task. */
    ghost predicate Callable(f: Func, kind: Kind, oper: OperType, newRule: Option<Rule>, oldRule: Option<Rule>) {
      && newRule.Some?
      && forall s ::
           && TableCall(cx.app, f, s, oper, newRule, oldRule).Some?
           && (Enabled(cx.dnsType, kind, s) ==> CellOf(cx.app, s, newRule.value) in cx.own)
    }

    /** What the maps of a pass hold for an entry is callable. */
    lemma EntryCallable(kind: Kind, e: RuleStatus)
      requires OwnsRules(cx, job, stored)
      requires EntryFound(e, ById(Rules(job, kind)), ById(StoredRules(stored, kind)))
      ensures var m := FirstById(StoredRules(stored, kind)) + ById(Rules(job, kind));
        Callable(ApplyFunc, kind, e.oper, Lookup(m, e.id), Lookup(ById(StoredRules(stored, kind)), e.id))
      ensures var m := FirstById(Rules(job, kind)) + ById(StoredRules(stored, kind));
        Callable(RevertFunc, kind, e.oper, Lookup(m, e.id), Lookup(ById(Rules(job, kind)), e.id))
    {
      hide FirstById, ById, TableCall, CellOf, EntryFound;
      forall s {
        FoundIsCallable(cx.app, s, e, Rules(job, kind), StoredRules(stored, kind));
      }
      FoundIsCallable(cx.app, Mp2, e, Rules(job, kind), StoredRules(stored, kind));
    }

    /** The rules at hand make the table produce the calls of change `k`. */
    ghost predicate Finds(f: Func, k: nat, oper: OperType, newRule: Option<Rule>, oldRule: Option<Rule>) {
      && k < |plan|
      && forall s :: TableCall(cx.app, f, s, oper, newRule, oldRule)
                  == Some(if f == ApplyFunc then ApplyCall(cx.app, s, plan[k]) else RevertCall(cx.app, s, plan[k]))
    }

    /** Only the status record of this task differs. */
    ghost predicate OnlyStatus(before: Store, after: Store) {
      SameExcept(before, after, {StatusKey(cx.app, taskId)})
    }

    method Fail(reason: string)
      requires Applying() && statusDb.Synced()
      modifies statusDb`status
      ensures Applying() && statusDb.Synced()
      ensures SameEntries(old(statusDb.status), statusDb.status)
    {
      hide Books, Separate, Balanced, AgreeOff;
      statusDb.SetFailureReason(reason);
      StillFindable(old(statusDb.status), statusDb.status, job, stored);
      if unique {
        BooksDetails(plan, split, done, old(statusDb.status), statusDb.status, statusDb.pushed, job, stored);
      }
    }

    /** The first operation on a rule writes the default state back into the job. */
    method WriteDefault(kind: Kind, id: string)
      requires Applying()
      modifies this`job
      ensures Applying() && job == WithDefault(old(job), kind, id)
    {
      hide Books, Separate, Balanced, AgreeOff, WithDefault, Findable, OwnsRules;
      FindableDefault(statusDb.status, job, stored, kind, id);
      OwnsDefault(cx, job, stored, kind, id);
      if unique {
        BooksDefault(plan, split, done, statusDb.status, statusDb.pushed, job, stored, kind, id);
      }
      job := WithDefault(job, kind, id);
    }

    /** Records that an entry has reached a state; a failed write leaves everything as it was. */
    method RecordState(kind: Kind, ghost i: nat, id: string, state: nat) returns (ok: bool)
      requires Wired() && Usable() && Booked()
      requires i < |StatusList(statusDb.status, kind)| && StatusList(statusDb.status, kind)[i].id == id
      requires unique ==> StatusList(statusDb.status, kind)[i].state < state <= WAIT_CONFIG_DB_WRITE
      requires statusDb.Synced()
      modifies this`done, statusDb, backend
      ensures statusDb.Synced() && Usable() && Booked()
      ensures SameEntries(old(statusDb.status), statusDb.status)
      ensures unique ==> Position(split, kind, i) < |old(done)|
      ensures unique ==> done == if ok then old(done)[Position(split, kind, i) := state] else old(done)
      ensures backend.faults == if ok then old(backend.faults) else old(backend.faults) + 1
      ensures OnlyStatus(old(backend.kv), backend.kv)
    {
      hide Books, Separate, Findable, OwnsRules, Advanced;
      ghost var t, pushed := statusDb.status, statusDb.pushed;
      ghost var first := FirstExists(StatusList(t, kind), i);
      if unique {
        BooksEntry(plan, split, done, t, pushed, job, stored, kind, i);
      }
      ok := statusDb.SetStateAndProgress(kind, id, state);
      if ok {
        ghost var j :| IsFirst(StatusList(t, kind), j, id) && statusDb.status == Advanced(t, kind, j, state);
        EntriesAdvanced(t, kind, j, state);
        StillFindable(t, statusDb.status, job, stored);
        if unique {
          BooksAdvanced(plan, split, done, t, pushed, job, stored, kind, i, j, state);
          done := done[Position(split, kind, i) := state];
        }
      }
    }

    /**
     * Runs one state's table entry. Success balances the ledger with the stage
     * done, and equally with the stage not done over a base that has the new value.
     */
    method RunOperation(kind: Kind, ghost k: nat, stage: Stage, oper: OperType, newRule: Option<Rule>,
                        oldRule: Option<Rule>)
      returns (ok: bool)
      requires Wired() && Accounted() && StartsMirrored(base)
      requires unique ==> k < |plan| == |done| && KindOf(plan[k].Subject()) == kind && done[k] == StageState(stage)
      requires Callable(ApplyFunc, kind, oper, newRule, oldRule)
      requires unique ==> Finds(ApplyFunc, k, oper, newRule, oldRule)
      modifies remote
      ensures AgreeOff(remote.content, remote.background, cx.own) && remote.faults >= old(remote.faults)
      ensures mirrored && ok ==> Balanced(cx, plan, done[k := done[k] + 1], base, remote.content)
      ensures mirrored && ok ==> Balanced(cx, plan, done, BaseWith(cx, plan, base, k, stage), remote.content)
      ensures mirrored && ok && CompletableTo(cx, plan, k, done[k]) ==> CompletableTo(cx, plan, k, done[k] + 1)
      ensures !ok ==> AddsUp(done, base, remote.content)
      ensures !ok && remote.faults == old(remote.faults) ==> Incompletable(k)
    {
      hide Separate, Mirrors, Balanced, AgreeOn, AgreeOff, Patched, TableCall, ApplyCall, CellOf;
      ghost var before := remote.content;
      if !Enabled(cx.dnsType, kind, stage) {
        if mirrored {
          Passed(cx, plan, done, base, before, k, stage, StageState(stage) + 1);
        }
        return true;
      }
      var call := TableCall(cx.app, ApplyFunc, stage, oper, newRule, oldRule).value;
      CallCell(cx.app, ApplyFunc, stage, oper, newRule, oldRule);
      ok := remote.Send(call, cx.own);
      if mirrored {
        assert Live(cx, plan, k, stage);
        if ok {
          Applied(cx, plan, done, base, before, remote.content, k, stage);
        } else {
          Unchanged(cx, plan, done, base, before, remote.content);
          if remote.faults == old(remote.faults) {
            Refused(cx, plan, done, base, before, k, stage);
          }
        }
      }
    }

    /**
     * Settles a stage that has taken effect: either its state is recorded, or
     * the record fails and the new value counts as part of the base.
     */
    method Settle(kind: Kind, ghost i: nat, id: string, state: nat, stage: Stage) returns (ok: bool)
      requires Wired() && Usable() && Booked() && AgreeOff(remote.content, remote.background, cx.own)
      requires i < |StatusList(statusDb.status, kind)| && StatusList(statusDb.status, kind)[i].id == id
      requires unique ==> StatusList(statusDb.status, kind)[i].state == state < WAIT_CONFIG_DB_WRITE
      requires var k := Position(split, kind, i);
        && (unique ==> k < |plan| == |done|)
        && (mirrored ==> Balanced(cx, plan, done[k := state + 1], base, remote.content))
        && (mirrored ==> Balanced(cx, plan, done, BaseWith(cx, plan, base, k, stage), remote.content))
      requires statusDb.Synced()
      modifies this`done, this`base, statusDb, backend
      ensures statusDb.Synced()
      ensures Applying() && OnlyStatus(old(backend.kv), backend.kv)
      ensures backend.faults == if ok then old(backend.faults) else old(backend.faults) + 1
      ensures SameEntries(old(statusDb.status), statusDb.status)
      ensures !unique ==> base == old(base)
      ensures unique ==>
        var k := Position(split, kind, i);
        if ok then done == old(done)[k := state + 1] && base == old(base)
        else done == old(done) && base == BaseWith(cx, plan, old(base), k, stage)
    {
      hide Books, Separate, Balanced, AgreeOff, OnlyStatus, BaseWith, Findable, OwnsRules;
      ok := RecordState(kind, i, id, state + 1);
      if unique && !ok {
        base := BaseWith(cx, plan, base, Position(split, kind, i), stage);
      }
    }

    /** Change `k` has passed the states below `state`, starting from `done0`. */
    ghost predicate PassedTo(k: nat, state: nat, done0: seq<nat>)
      reads this`done
    {
      Accepted(k, state) && (unique ==> k < |plan| == |done0| && done == done0[k := state])
    }

    /** One state of one entry: run the table's operation, then record the next state. */
    method ApplyState(kind: Kind, ghost i: nat, rs: RuleStatus, state: nat, newRule: Option<Rule>,
                      oldRule: Option<Rule>, ghost done0: seq<nat>)
      returns (ok: bool, reason: string)
      requires Applying() && StartsMirrored(base)
      requires i < |StatusList(statusDb.status, kind)| && state < WAIT_CONFIG_DB_WRITE
      requires StatusList(statusDb.status, kind)[i].id == rs.id
      requires PassedTo(Position(split, kind, i), state, done0)
      requires Callable(ApplyFunc, kind, rs.oper, newRule, oldRule)
      requires unique ==> Finds(ApplyFunc, Position(split, kind, i), rs.oper, newRule, oldRule)
      requires statusDb.Synced()
      modifies this`done, this`base, remote, statusDb, backend
      ensures statusDb.Synced()
      ensures Applying() && OnlyStatus(old(backend.kv), backend.kv)
      ensures remote.faults >= old(remote.faults) && backend.faults >= old(backend.faults)
      ensures SameEntries(old(statusDb.status), statusDb.status)
      ensures PassedTo(Position(split, kind, i), if ok then state + 1 else state, done0)
      ensures ok ==> base == old(base)
      ensures !ok ==>
        var k := Position(split, kind, i);
        && (base == old(base) || (backend.faults > old(backend.faults) && LeftBehind(cx, plan, old(base), k, base)))
        && (Faults() == old(Faults()) ==> Incompletable(k))
    {
      hide Lookup, Books, Separate, Mirrors, Balanced, AgreeOn, AgreeOff, Patched, EntryLinks, IsFirst, KindOf;
      hide Finds, Callable, ChangeCell, After, StartsMirrored, Resolves, Findable, OwnsRules, CompletableTo;
      hide SameEntries, Usable;
      ghost var k := Position(split, kind, i);
      if unique {
        BooksEntry(plan, split, done, statusDb.status, statusDb.pushed, job, stored, kind, i);
      }
      var stage := if state == WAIT_MP2 then Mp2 else Local;
      ok := RunOperation(kind, k, stage, rs.oper, newRule, oldRule);
      if !ok {
        EntriesSame(statusDb.status);
        return false, "Failed in configuring rule on remote dns-server/data-plane.";
      }
      ok := Settle(kind, i, rs.id, state, stage);
      reason := "Failed in setting status for rule.";
    }

    /**
     * Carries one entry through its states, from the one that is recorded. The
     * first operation writes the default state back into the job's rule, which
     * is why the job is updated here.
     */
    method ProcessEntryApply(kind: Kind, ghost i: nat, rs: RuleStatus, newRule: Option<Rule>, oldRule: Option<Rule>)
      returns (ok: bool)
      requires Applying() && StartsMirrored(base)
      requires i < |StatusList(statusDb.status, kind)| && StatusList(statusDb.status, kind)[i] == rs
      requires unique ==> rs.state == WAIT_MP2
      requires Callable(ApplyFunc, kind, rs.oper, newRule, oldRule)
      requires unique ==> Finds(ApplyFunc, Position(split, kind, i), rs.oper, newRule, oldRule)
      requires statusDb.Synced()
      modifies this`job, this`done, this`base, remote, statusDb, backend
      ensures statusDb.Synced()
      ensures Applying() && OnlyStatus(old(backend.kv), backend.kv)
      ensures remote.faults >= old(remote.faults) && backend.faults >= old(backend.faults)
      ensures SameEntries(old(statusDb.status), statusDb.status)
      ensures job == if rs.oper == OperDelete then old(job) else WithDefault(old(job), kind, rs.id)
      ensures var k := Position(split, kind, i);
        && (unique ==> k < |plan| == |old(done)|)
        && if ok then
             && (unique ==> done == old(done)[k := WAIT_CONFIG_DB_WRITE]) && base == old(base)
             && Accepted(k, WAIT_CONFIG_DB_WRITE)
           else
             && (unique ==> |done| == |old(done)| && done == old(done)[k := done[k]] && done[k] < WAIT_CONFIG_DB_WRITE)
             && (base == old(base) ||
                 (backend.faults > old(backend.faults) && LeftBehind(cx, plan, old(base), k, base)))
             && (Faults() == old(Faults()) ==> Incompletable(k))
    {
      hide Applying, StartsMirrored, Finds, Callable, LeftBehind, Lookup, WithDefault, SameEntries, PassedTo;
      hide Incompletable, Accepted;
      ghost var k, t0, done0 := Position(split, kind, i), statusDb.status, done;
      EntriesSame(t0);
      EntryStarts(kind, i);
      if rs.oper != OperDelete {
        WriteDefault(kind, rs.id);
      }
      ghost var job1 := job;
      for state := WAIT_MP2 to WAIT_CONFIG_DB_WRITE
        invariant Applying() && base == old(base) && job == job1
        invariant OnlyStatus(old(backend.kv), backend.kv)
        invariant statusDb.Synced()
        invariant remote.faults >= old(remote.faults) && backend.faults >= old(backend.faults)
        invariant SameEntries(t0, statusDb.status)
        invariant PassedTo(k, state, done0)
      {
        ghost var t := statusDb.status;
        EntriesSame(t);
        EntriesOn(t0, t, t, kind, i);
        if rs.state <= state {
          var reason;
          ok, reason := ApplyState(kind, i, rs, state, newRule, oldRule, done0);
          EntriesOn(t0, t, statusDb.status, kind, i);
          if !ok {
            t := statusDb.status;
            Fail(reason);
            EntriesOn(t0, t, statusDb.status, kind, i);
            PassedIs(k, state, done0);
            return;
          }
        } else {
          PassesBy(k, state, done0);
        }
      }
      PassedIs(k, WAIT_CONFIG_DB_WRITE, done0);
      ok := true;
    }

    lemma PassedIs(k: nat, state: nat, done0: seq<nat>)
      requires PassedTo(k, state, done0)
      ensures Accepted(k, state) && (unique ==> k < |plan| == |done0| && done == done0[k := state])
    {
    }

    /** A state that is skipped: the record is ahead, which happens only with repeated ids. */
    lemma PassesBy(k: nat, state: nat, done0: seq<nat>)
      requires !unique && Applying()
      ensures PassedTo(k, state + 1, done0)
    {
    }

    lemma EntryStarts(kind: Kind, i: nat)
      requires Applying() && i < |StatusList(statusDb.status, kind)|
      requires unique ==> StatusList(statusDb.status, kind)[i].state == WAIT_MP2
      ensures PassedTo(Position(split, kind, i), WAIT_MP2, done)
    {
      hide Books, Separate, Findable, OwnsRules, AddsUp, AgreeOff, MapsResolve;
      if unique {
        EntryOf(kind, i);
      }
      AcceptedAtFirst(Position(split, kind, i));
    }

    lemma AcceptedAtFirst(k: nat)
      ensures Accepted(k, WAIT_MP2)
    {
    }

    /** The entries of a kind among `done` have value `n`, the others are as in `before`. */
    ghost predicate Swept(kind: Kind, from: nat, to: nat, before: seq<nat>, after: seq<nat>, n: nat) {
      unique ==>
        && |after| == |before|
        && forall q :: 0 <= q < |after| ==>
             after[q] == if Position(split, kind, from) <= q < Position(split, kind, to) then n else before[q]
    }

    /** The part of the plan that belongs to one kind. */
    ghost function Segment(kind: Kind): seq<Change> {
      if split > |plan| then [] else if kind == DnsKind then plan[..split] else plan[split..]
    }

    /** Applies the entries of one kind in list order and stops at the first failure. */
    method HandleRulesApply(kind: Kind) returns (ok: bool)
      requires Applying() && StartsMirrored(base)
      requires Swept(kind, 0, |StatusList(statusDb.status, kind)|, done, done, WAIT_MP2)
      requires statusDb.Synced()
      modifies this`job, this`done, this`base, remote, statusDb, backend
      ensures statusDb.Synced()
      ensures Applying() && OnlyStatus(old(backend.kv), backend.kv)
      ensures remote.faults >= old(remote.faults) && backend.faults >= old(backend.faults)
      ensures SameEntries(old(statusDb.status), statusDb.status)
      ensures ok ==> base == old(base) && (unique ==> JobAfter(old(job), job, kind, Segment(kind)))
      ensures ok ==> Swept(kind, 0, |StatusList(statusDb.status, kind)|, old(done), done, WAIT_CONFIG_DB_WRITE)
      ensures ok ==> forall i :: 0 <= i < |StatusList(statusDb.status, kind)| ==>
        Accepted(Position(split, kind, i), WAIT_CONFIG_DB_WRITE)
      ensures !ok ==> Stopped()
      ensures !ok ==> base == old(base) || (backend.faults > old(backend.faults) && Residue(cx, plan, old(base), base))
      ensures !ok && Faults() == old(Faults()) ==> NotAllCompletable()
    {
      hide Lookup, Applying, StartsMirrored, Accepted, Residue, JobAfter, ById, FirstById, Callable, Finds, Reached;
      hide Stopped, NotAllCompletable, Segment, Provides;
      var n := |StatusList(statusDb.status, kind)|;
      var newMap, oldMap := GenerateRuleMap(Rules(job, kind), StoredRules(stored, kind));
      ghost var t0 := statusDb.status;
      PassStarts(kind, newMap, oldMap);
      for i := 0 to n
        invariant Reached(kind, i, old(job), old(done)) && base == old(base)
        invariant statusDb.Synced() && OnlyStatus(old(backend.kv), backend.kv)
        invariant remote.faults >= old(remote.faults) && backend.faults >= old(backend.faults)
        invariant SameEntries(t0, statusDb.status)
      {
        var rs := StatusList(statusDb.status, kind)[i];
        Provided(kind, t0, newMap, oldMap, i);
        ok := ApplyEntry(kind, i, rs, Lookup(newMap, rs.id), Lookup(oldMap, rs.id), old(job), old(done));
        if !ok {
          return;  // the reason is already set, and only the first one is kept
        }
      }
      PassEnds(kind, n, old(job), old(done));
      ok := true;
    }

    /** What the maps provide for the entries of a kind, by id and operation. */
    ghost predicate Provides(kind: Kind, t: TaskStatus, newMap: map<string, Rule>, oldMap: map<string, Rule>) {
      forall i :: 0 <= i < |StatusList(t, kind)| ==>
        var e := StatusList(t, kind)[i];
        && Callable(ApplyFunc, kind, e.oper, Lookup(newMap, e.id), Lookup(oldMap, e.id))
        && (unique ==> Finds(ApplyFunc, Position(split, kind, i), e.oper, Lookup(newMap, e.id), Lookup(oldMap, e.id)))
    }

    /** What the pass has reached once the entries before `i` are applied. */
    ghost predicate Reached(kind: Kind, i: nat, job0: AppDConfig, done0: seq<nat>)
      reads this, statusDb, remote
    {
      && Applying() && Swept(kind, 0, i, done0, done, WAIT_CONFIG_DB_WRITE)
      && (forall j :: 0 <= j < i ==> Accepted(Position(split, kind, j), WAIT_CONFIG_DB_WRITE))
      && (unique ==>
            && |plan| == |done| == |done0| && Position(split, kind, i) <= |plan|
            && JobAfter(job0, job, kind, plan[Position(split, kind, 0)..Position(split, kind, i)]))
    }

    lemma Provided(kind: Kind, t: TaskStatus, newMap: map<string, Rule>, oldMap: map<string, Rule>, i: nat)
      requires Provides(kind, t, newMap, oldMap) && i < |StatusList(t, kind)|
      ensures var e := StatusList(t, kind)[i];
        && Callable(ApplyFunc, kind, e.oper, Lookup(newMap, e.id), Lookup(oldMap, e.id))
        && (unique ==> Finds(ApplyFunc, Position(split, kind, i), e.oper, Lookup(newMap, e.id), Lookup(oldMap, e.id)))
    {
    }

    lemma PassStarts(kind: Kind, newMap: map<string, Rule>, oldMap: map<string, Rule>)
      requires Applying()
      requires newMap == FirstById(StoredRules(stored, kind)) + ById(Rules(job, kind))
      requires oldMap == ById(StoredRules(stored, kind))
      ensures Provides(kind, statusDb.status, newMap, oldMap) && Reached(kind, 0, job, done)
    {
      hide FirstById, Lookup, ById, Books, Separate, AddsUp, AgreeOff, OwnsRules, Callable, TableCall, JobAfter;
      hide EntryFound, UniqueIds;
      if unique {
        ShapeOf(kind);
        FirstIsLast(StoredRules(stored, kind));
        JobAfterNone(job, kind, plan, Position(split, kind, 0));
      }
      forall i | 0 <= i < |StatusList(statusDb.status, kind)|
        ensures var e := StatusList(statusDb.status, kind)[i];
          && Callable(ApplyFunc, kind, e.oper, Lookup(newMap, e.id), Lookup(oldMap, e.id))
          && (unique ==> Finds(ApplyFunc, Position(split, kind, i), e.oper, Lookup(newMap, e.id), Lookup(oldMap, e.id)))
      {
        EntryCallable(kind, StatusList(statusDb.status, kind)[i]);
        if unique {
          EntryOf(kind, i);
        }
      }
    }

    lemma PassEnds(kind: Kind, n: nat, job0: AppDConfig, done0: seq<nat>)
      requires Reached(kind, n, job0, done0) && n == |StatusList(statusDb.status, kind)|
      ensures Applying() && Swept(kind, 0, n, done0, done, WAIT_CONFIG_DB_WRITE)
      ensures forall i :: 0 <= i < n ==> Accepted(Position(split, kind, i), WAIT_CONFIG_DB_WRITE)
      ensures unique ==> JobAfter(job0, job, kind, Segment(kind))
    {
      hide JobAfter, Applying, Accepted;
      if unique {
        ShapeOf(kind);
        assert Segment(kind) == plan[Position(split, kind, 0)..Position(split, kind, n)];
      }
    }

    /** Applies the next entry. */
    method ApplyEntry(kind: Kind, ghost i: nat, rs: RuleStatus, newRule: Option<Rule>, oldRule: Option<Rule>,
                      ghost job0: AppDConfig, ghost done0: seq<nat>)
      returns (ok: bool)
      requires Reached(kind, i, job0, done0) && StartsMirrored(base) && statusDb.Synced()
      requires i < |StatusList(statusDb.status, kind)| && StatusList(statusDb.status, kind)[i] == rs
      requires Callable(ApplyFunc, kind, rs.oper, newRule, oldRule)
      requires unique ==> Finds(ApplyFunc, Position(split, kind, i), rs.oper, newRule, oldRule)
      requires unique ==> Position(split, kind, i) < |done0| ==> done0[Position(split, kind, i)] == WAIT_MP2
      modifies this`job, this`done, this`base, remote, statusDb, backend
      ensures statusDb.Synced() && Applying() && OnlyStatus(old(backend.kv), backend.kv)
      ensures remote.faults >= old(remote.faults) && backend.faults >= old(backend.faults)
      ensures SameEntries(old(statusDb.status), statusDb.status)
      ensures ok ==> Reached(kind, i + 1, job0, done0) && base == old(base)
      ensures !ok ==> Stopped()
      ensures !ok ==> base == old(base) || (backend.faults > old(backend.faults) && Residue(cx, plan, old(base), base))
      ensures !ok && Faults() == old(Faults()) ==> NotAllCompletable()
    {
      hide Lookup, Applying, StartsMirrored, Callable, Finds, LeftBehind, CompletableTo, JobAfter, WithDefault;
      hide MapsResolve;
      MirroredIsUnique();
      if unique {
        EntryOf(kind, i);
        JobAfterEntry(job0, job, kind, plan, Position(split, kind, 0), Position(split, kind, i));
      }
      ok := ProcessEntryApply(kind, i, rs, newRule, oldRule);
    }

    // The revert pass.

    /** The invariant of a revert pass: entries before `from` are undone, the others as the apply pass left them. */
    ghost predicate Reverting(from: nat)
      reads this, statusDb, remote
    {
      Wired() && Usable() && Accounted() && UndoneTo(from)
    }

    ghost predicate UndoneTo(from: nat)
      reads this, statusDb
    {
      unique ==>
        && RevertBooks(plan, split, done, statusDb.status, statusDb.pushed, job, stored, from)
        && forall q :: 0 <= q < from && q < |done| ==> done[q] == 0
    }

    /** Runs one state's compensating operation; without a fault it can only fail on a change that left its cell. */
    method RevertOperation(kind: Kind, ghost k: nat, stage: Stage, oper: OperType, newRule: Option<Rule>,
                           oldRule: Option<Rule>)
      returns (ok: bool)
      requires Wired() && Accounted()
      requires unique ==> k < |plan| == |done| && KindOf(plan[k].Subject()) == kind && done[k] == StageState(stage) + 1
      requires Callable(RevertFunc, kind, oper, newRule, oldRule)
      requires unique ==> Finds(RevertFunc, k, oper, newRule, oldRule)
      modifies remote, this`done
      ensures Accounted() && remote.faults >= old(remote.faults)
      ensures unique ==> done == if ok then old(done)[k := StageState(stage)] else old(done)
      ensures !ok && remote.faults == old(remote.faults) ==> NotAllKept()
    {
      hide Separate, Balanced, AgreeOn, AgreeOff, TableCall, RevertCall, CellOf;
      ghost var before := remote.content;
      ok := true;
      if Enabled(cx.dnsType, kind, stage) {
        var call := TableCall(cx.app, RevertFunc, stage, oper, newRule, oldRule).value;
        CallCell(cx.app, RevertFunc, stage, oper, newRule, oldRule);
        ok := remote.Send(call, cx.own);
        if mirrored {
          assert Live(cx, plan, k, stage);
          Undone(cx, plan, done, base, before, remote.content, k, stage);
          Unmoved(ok, before);
        }
      } else if mirrored {
        Passed(cx, plan, done, base, before, k, stage, StageState(stage));
      }
      if unique && ok {
        done := done[k := StageState(stage)];
      }
    }

    /** A call that failed leaves the account as it was. */
    lemma Unmoved(ok: bool, before: External)
      requires Separate(cx, plan) && Balanced(cx, plan, done, base, before)
      requires !ok ==> AgreeOn(remote.content, before, cx.own)
      ensures !ok ==> Balanced(cx, plan, done, base, remote.content)
    {
      hide Separate, Balanced, AgreeOn;
      if !ok {
        Unchanged(cx, plan, done, base, before, remote.content);
      }
    }

    /** Persists the lower state of a partly undone entry. */
    method RecordRevert(kind: Kind, ghost i: nat, id: string, state: nat) returns (ok: bool)
      requires Wired() && Usable()
      requires unique ==>
        RevertBooks(plan, split, done, statusDb.status, statusDb.pushed, job, stored, Position(split, kind, i) + 1)
      requires i < |StatusList(statusDb.status, kind)| && StatusList(statusDb.status, kind)[i].id == id
      requires state < WAIT_CONFIG_DB_WRITE
      requires statusDb.Synced()
      modifies statusDb, backend
      ensures statusDb.Synced() && Usable()
      ensures unique ==>
        RevertBooks(plan, split, done, statusDb.status, statusDb.pushed, job, stored, Position(split, kind, i) + 1)
      ensures backend.faults == if ok then old(backend.faults) else old(backend.faults) + 1
      ensures OnlyStatus(old(backend.kv), backend.kv)
      ensures SameEntries(old(statusDb.status), statusDb.status)
    {
      hide RevertBooks, Separate, Findable, OwnsRules, Advanced;
      ghost var t, pushed := statusDb.status, statusDb.pushed;
      ghost var first := FirstExists(StatusList(t, kind), i);
      ok := statusDb.SetStateAndProgress(kind, id, state);
      if ok {
        ghost var j :| IsFirst(StatusList(t, kind), j, id) && statusDb.status == Advanced(t, kind, j, state);
        EntriesAdvanced(t, kind, j, state);
        StillFindable(t, statusDb.status, job, stored);
        if unique {
          RevertBooksAdvanced(plan, split, done, t, pushed, job, stored, kind, i, j, state);
        }
      }
    }

    /** The books of an entry that is being undone: it has got down to `state`. */
    ghost predicate UndoneAt(kind: Kind, i: nat, state: nat, done0: seq<nat>)
      reads this, statusDb
    {
      unique ==>
        var k := Position(split, kind, i);
        && k < |done0| == |done| && done == done0[k := state]
        && RevertBooks(plan, split, done, statusDb.status, statusDb.pushed, job, stored, k + 1)
    }

    /** Undoes one state of an entry. */
    method RevertState(kind: Kind, ghost i: nat, rs: RuleStatus, state: nat, newRule: Option<Rule>,
                       oldRule: Option<Rule>, ghost done0: seq<nat>)
      returns (ok: bool)
      requires Wired() && Usable() && Accounted() && state < WAIT_CONFIG_DB_WRITE
      requires UndoneAt(kind, i, state + 1, done0) && statusDb.Synced()
      requires i < |StatusList(statusDb.status, kind)| && StatusList(statusDb.status, kind)[i].id == rs.id
      requires Callable(RevertFunc, kind, rs.oper, newRule, oldRule)
      requires unique ==> Finds(RevertFunc, Position(split, kind, i), rs.oper, newRule, oldRule)
      modifies this`done, remote, statusDb, backend
      ensures statusDb.Synced() && Usable() && Accounted() && Lawfully()
      ensures ok ==> UndoneAt(kind, i, state, done0)
      ensures OnlyStatus(old(backend.kv), backend.kv) && SameEntries(old(statusDb.status), statusDb.status)
      ensures remote.faults >= old(remote.faults) && backend.faults >= old(backend.faults)
      ensures !ok && Faults() == old(Faults()) ==> NotAllKept()
    {
      hide Lookup, RevertBooks, Accounted, Wired, NotAllKept, Finds, Callable, Resolves, Lawful, Usable, IsFirst;
      hide SameEntries;
      ghost var k, before, t := Position(split, kind, i), done, statusDb.status;
      EntriesSame(t);
      if unique {
        RevertEntry(plan, split, done, statusDb.status, statusDb.pushed, job, stored, k + 1, kind, i);
      }
      var stage := if state == WAIT_MP2 then Mp2 else Local;
      ok := RevertOperation(kind, k, stage, rs.oper, newRule, oldRule);
      if unique {
        assert done == before[k := done[k]];
        RevertBooksCurrent(plan, split, before, statusDb.status, statusDb.pushed, job, stored, k, done[k]);
      }
      if ok && state != WAIT_MP2 {
        ok := RecordRevert(kind, i, rs.id, state - 1);
        EntriesOn(t, t, statusDb.status, kind, i);
      }
      if unique {
        RevertBooksLawful(plan, split, done, statusDb.status, statusDb.pushed, job, stored, k + 1);
      }
    }

    /** Walks one entry back from the state it had reached. */
    method ProcessEntryRevert(kind: Kind, ghost i: nat, rs: RuleStatus, newRule: Option<Rule>, oldRule: Option<Rule>)
      returns (ok: bool)
      requires Reverting(Position(split, kind, i))
      requires i < |StatusList(statusDb.status, kind)| && StatusList(statusDb.status, kind)[i] == rs
      requires Callable(RevertFunc, kind, rs.oper, newRule, oldRule)
      requires unique ==> Finds(RevertFunc, Position(split, kind, i), rs.oper, newRule, oldRule)
      requires statusDb.Synced()
      modifies this`done, remote, statusDb, backend
      ensures statusDb.Synced()
      ensures ok ==> Reverting(Position(split, kind, i) + 1)
      ensures AgreeOff(remote.content, remote.background, cx.own)
      ensures Lawfully()
      ensures OnlyStatus(old(backend.kv), backend.kv)
      ensures remote.faults >= old(remote.faults) && backend.faults >= old(backend.faults)
      ensures SameEntries(old(statusDb.status), statusDb.status)
      ensures !ok && Faults() == old(Faults()) ==> NotAllKept()
    {
      hide Lookup, RevertBooks, Accounted, Wired, AgreeOff, NotAllKept, Finds, Callable, Resolves, Lawful, Usable;
      ghost var done0 := done;
      UndoStarts(kind, i);
      AccountedOff();
      for state := WAIT_CONFIG_DB_WRITE downto WAIT_MP2
        invariant Wired() && Usable() && Accounted() && Lawfully()
        invariant UndoneAt(kind, i, if state < rs.state then state else rs.state, done0)
        invariant OnlyStatus(old(backend.kv), backend.kv) && SameEntries(old(statusDb.status), statusDb.status)
        invariant statusDb.Synced()
        invariant remote.faults >= old(remote.faults) && backend.faults >= old(backend.faults)
      {
        if state < rs.state {
          ok := RevertState(kind, i, rs, state, newRule, oldRule, done0);
          AccountedOff();
          if !ok {
            return;
          }
        }
      }
      AccountedOff();
      ok := true;
    }

    /** An entry that is about to be undone stands at its own state. */
    lemma UndoStarts(kind: Kind, i: nat)
      requires Reverting(Position(split, kind, i)) && i < |StatusList(statusDb.status, kind)|
      ensures UndoneAt(kind, i, StatusList(statusDb.status, kind)[i].state, done) && Lawfully()
      ensures unique ==> StatusList(statusDb.status, kind)[i].state <= WAIT_CONFIG_DB_WRITE
    {
      hide RevertBooks, Accounted, Wired, Resolves, Lawful, Usable;
      if unique {
        var k := Position(split, kind, i);
        RevertEntry(plan, split, done, statusDb.status, statusDb.pushed, job, stored, k, kind, i);
        RevertBooksDone(plan, split, done, statusDb.status, statusDb.pushed, job, stored, k, k, done[k]);
        assert done[k := done[k]] == done;
        RevertBooksLawful(plan, split, done, statusDb.status, statusDb.pushed, job, stored, k + 1);
      }
    }

    lemma AccountedOff()
      requires Accounted()
      ensures AgreeOff(remote.content, remote.background, cx.own)
    {
    }

    lemma RevertEntryOf(from: nat, kind: Kind, i: nat)
      requires unique && Reverting(from) && i < |StatusList(statusDb.status, kind)|
      ensures var k := Position(split, kind, i);
        && k < |plan|
        && StatusList(statusDb.status, kind)[i].id == plan[k].Id()
        && StatusList(statusDb.status, kind)[i].oper == plan[k].Oper()
        && MapsResolve(cx.app, RevertFunc, plan, k,
             ById(Rules(job, kind)) + ById(StoredRules(stored, kind)), ById(Rules(job, kind)))
    {
      hide RevertBooks, MapsResolve;
      RevertEntry(plan, split, done, statusDb.status, statusDb.pushed, job, stored, from, kind, i);
      RevertResolve(cx.app, plan, split, done, statusDb.status, statusDb.pushed, job, stored, from, kind, i);
    }

    lemma RevertShapeOf(from: nat, kind: Kind)
      requires Reverting(from)
      ensures unique ==> UniqueIds(Rules(job, kind)) && UniqueIds(StoredRules(stored, kind))
      ensures unique ==> |done| == |plan| == TotalRules(statusDb.status) && |statusDb.status.dns| == split
      ensures !unique ==> forall n :: Reverting(n)
      ensures Lawfully()
      ensures AgreeOff(remote.content, remote.background, cx.own)
    {
      hide Links, Climbing, Distinct, Findable, OwnsRules, AgreeOff, AddsUp, Separate;
      if unique {
        TotalOfLinks(plan, statusDb.status, job, stored);
      }
    }

    /** What the swapped maps provide for an entry. */
    lemma RevertProvided(from: nat, kind: Kind, i: nat, newMap: map<string, Rule>, oldMap: map<string, Rule>)
      requires Reverting(from) && i < |StatusList(statusDb.status, kind)|
      requires newMap == FirstById(Rules(job, kind)) + ById(StoredRules(stored, kind))
      requires oldMap == ById(Rules(job, kind))
      ensures var e := StatusList(statusDb.status, kind)[i];
        && Callable(RevertFunc, kind, e.oper, Lookup(newMap, e.id), Lookup(oldMap, e.id))
        && (unique ==> Finds(RevertFunc, Position(split, kind, i), e.oper, Lookup(newMap, e.id), Lookup(oldMap, e.id)))
    {
      hide FirstById, Lookup, ById, RevertBooks, Separate, AddsUp, AgreeOff, OwnsRules, Callable, TableCall, RevertCall;
      hide EntryFound, UniqueIds;
      EntryCallable(kind, StatusList(statusDb.status, kind)[i]);
      if unique {
        RevertShapeOf(from, kind);
        FirstIsLast(Rules(job, kind));
        RevertEntryOf(from, kind, i);
      }
    }

    /** Undoes the entries of one kind, in the same list order as they were applied. */
    method HandleRulesRevert(kind: Kind) returns (ok: bool)
      requires Reverting(Position(split, kind, 0))
      requires statusDb.Synced()
      modifies this`done, remote, statusDb, backend
      ensures statusDb.Synced()
      ensures SameEntries(old(statusDb.status), statusDb.status)
      ensures ok ==> Reverting(Position(split, kind, |StatusList(statusDb.status, kind)|))
      ensures AgreeOff(remote.content, remote.background, cx.own)
      ensures Lawfully()
      ensures OnlyStatus(old(backend.kv), backend.kv)
      ensures remote.faults >= old(remote.faults) && backend.faults >= old(backend.faults)
      ensures !ok && Faults() == old(Faults()) ==> NotAllKept()
    {
      hide Lookup, Reverting, NotAllKept, ById, FirstById, Lawfully, AgreeOff, Callable, Finds;
      var n := |StatusList(statusDb.status, kind)|;
      RevertShapeOf(Position(split, kind, 0), kind);
      var newMap, oldMap := GenerateRuleMap(StoredRules(stored, kind), Rules(job, kind));
      for i := 0 to n
        invariant Reverting(Position(split, kind, i))
        invariant SameEntries(old(statusDb.status), statusDb.status)
        invariant OnlyStatus(old(backend.kv), backend.kv) && Lawfully()
        invariant statusDb.Synced()
        invariant AgreeOff(remote.content, remote.background, cx.own)
        invariant remote.faults >= old(remote.faults) && backend.faults >= old(backend.faults)
      {
        RevertProvided(Position(split, kind, i), kind, i, newMap, oldMap);
        var rs := StatusList(statusDb.status, kind)[i];
        ok := ProcessEntryRevert(kind, i, rs, Lookup(newMap, rs.id), Lookup(oldMap, rs.id));
        if !ok {
          return;
        }
      }
      ok := true;
    }

    method CleanProcessingCache() returns (ok: bool)
      modifies backend
      ensures SameExcept(old(backend.kv), backend.kv, {JobKey(cx.app)})
      ensures if ok then JobKey(cx.app) !in backend.kv && backend.faults == old(backend.faults)
              else backend.faults > old(backend.faults)
    {
      ok := backend.DeletePaths([JobKey(cx.app)], false);
    }

    /** Only this task's status record and its job record differ. */
    ghost predicate OnlyOwnRecords(before: Store, after: Store) {
      SameExcept(before, after, {StatusKey(cx.app, taskId), JobKey(cx.app)})
    }

    /** Compensates everything that was done, marks the task as failed and drops its job. */
    method HandleErrorOnProcessing() returns (ok: bool)
      requires Reverting(0)
      requires statusDb.Synced()
      modifies this`done, remote, statusDb, backend
      ensures statusDb.Synced()
      ensures AgreeOff(remote.content, remote.background, cx.own)
      ensures ok && mirrored ==> AgreeOn(remote.content, base, cx.own)
      ensures ok ==> statusDb.status.progress == PROGRESS_FAILURE && (unique ==> Failed(statusDb.pushed, |plan|))
      ensures ok ==> Lookup(backend.kv, StatusKey(cx.app, taskId)) == Some(StatusRecord(statusDb.status))
      ensures ok ==> JobKey(cx.app) !in backend.kv
      ensures Lawfully()
      ensures OnlyOwnRecords(old(backend.kv), backend.kv)
      ensures remote.faults >= old(remote.faults) && backend.faults >= old(backend.faults)
      ensures !ok && Faults() == old(Faults()) ==> NotAllKept()
    {
      hide Reverting, NotAllKept, Climbing, AgreeOn, AgreeOff, Separate, Balanced, Lawful, Failed;
      RevertShapeOf(0, DnsKind);
      ok := HandleRulesRevert(DnsKind);
      if !ok {
        return;
      }
      RevertShapeOf(Position(split, DnsKind, |StatusList(statusDb.status, DnsKind)|), DnsKind);
      ok := HandleRulesRevert(TrafficKind);
      if !ok {
        return;
      }
      RevertShapeOf(Position(split, TrafficKind, |StatusList(statusDb.status, TrafficKind)|), DnsKind);
      AllUndone();
      ok := MarkFailed();
      if ok {
        ok := CleanProcessingCache();
      }
    }

    /** Writes the failure mark; the books have it over a count that never reached the total. */
    method MarkFailed() returns (ok: bool)
      requires Wired() && statusDb.Synced()
      requires unique ==>
        && Climbing(statusDb.pushed, |plan|) && statusDb.pushed[|statusDb.pushed| - 1].progress < |plan|
        && |plan| == TotalRules(statusDb.status)
      modifies statusDb, backend
      ensures statusDb.Synced() && Lawfully() && OnlyStatus(old(backend.kv), backend.kv)
      ensures ok ==> statusDb.status.progress == PROGRESS_FAILURE && (unique ==> Failed(statusDb.pushed, |plan|))
      ensures ok ==> Lookup(backend.kv, StatusKey(cx.app, taskId)) == Some(StatusRecord(statusDb.status))
      ensures backend.faults == if ok then old(backend.faults) else old(backend.faults) + 1
    {
      hide Failed, Separate;
      statusDb.status := statusDb.status.(progress := PROGRESS_FAILURE);
      if unique {
        FailFrom(statusDb.pushed, statusDb.status, |plan|);
      }
      ok := statusDb.PushDB();
    }

    lemma AllUndone()
      requires Reverting(|plan|)
      ensures mirrored ==> AgreeOn(remote.content, base, cx.own)
      ensures Wired() && AgreeOff(remote.content, remote.background, cx.own)
      ensures unique ==>
        && Climbing(statusDb.pushed, |plan|) && statusDb.pushed[|statusDb.pushed| - 1].progress < |plan|
        && |plan| == TotalRules(statusDb.status)
    {
      hide Links, Separate, AgreeOn, AgreeOff, Balanced, Findable, OwnsRules;
      if unique {
        TotalOfLinks(plan, statusDb.status, job, stored);
      }
      if mirrored {
        Clear(cx, plan, done, base, remote.content);
      }
    }

    /**
     * Checks that every entry is ready and writes the configuration. A failed
     * write goes unnoticed: the returned error is the empty one.
     */
    method HandleConfigDBWriteOnSuccess() returns (ok: bool, saved: bool)
      modifies backend
      ensures ok <==> forall kind, i :: 0 <= i < |StatusList(statusDb.status, kind)| ==>
        StatusList(statusDb.status, kind)[i].state == WAIT_CONFIG_DB_WRITE
      ensures SameExcept(old(backend.kv), backend.kv, if ok && saved then {ConfigKey(cx.app)} else {})
      ensures ok && saved ==> Lookup(backend.kv, ConfigKey(cx.app)) == ConfigAfter(old(backend.kv), cx.app, job)
      ensures backend.faults == if ok && !saved then old(backend.faults) + 1 else old(backend.faults)
    {
      var t := statusDb.status;
      saved := false;
      for i := 0 to |t.dns|
        invariant forall j :: 0 <= j < i ==> StatusList(t, DnsKind)[j].state == WAIT_CONFIG_DB_WRITE
      {
        if t.dns[i].state != WAIT_CONFIG_DB_WRITE {
          assert StatusList(t, DnsKind)[i].state != WAIT_CONFIG_DB_WRITE;
          return false, false;
        }
      }
      for i := 0 to |t.traffic|
        invariant forall j :: 0 <= j < i ==> StatusList(t, TrafficKind)[j].state == WAIT_CONFIG_DB_WRITE
      {
        if t.traffic[i].state != WAIT_CONFIG_DB_WRITE {
          assert StatusList(t, TrafficKind)[i].state != WAIT_CONFIG_DB_WRITE;
          return false, false;
        }
      }
      var written := true;
      if job.operation == PostOp || job.operation == PutOp {
        written := backend.PutRecord(ConfigKey(cx.app), ConfigRecord(job.(operation := Settled)));
      } else if job.operation == DeleteOp {
        written := backend.DeleteRecord(ConfigKey(cx.app));
      }
      return true, written;
    }

    /** Every state of every change passed. */
    ghost function AllDone(): seq<nat> {
      seq(|plan|, i => WAIT_CONFIG_DB_WRITE)
    }

    /** The apply pass over both kinds; success leaves every change done over the same base. */
    method ApplyAll() returns (ok: bool)
      requires Applying() && StartsMirrored(base)
      requires unique ==> done == seq(|plan|, i => 0)
      requires statusDb.Synced()
      modifies this`job, this`done, this`base, remote, statusDb, backend
      ensures statusDb.Synced()
      ensures Applying() && OnlyStatus(old(backend.kv), backend.kv)
      ensures remote.faults >= old(remote.faults) && backend.faults >= old(backend.faults)
      ensures ok ==> base == old(base) && (unique ==> done == AllDone()) && (mirrored ==> AllCompletable(cx, plan))
      ensures ok && unique ==> JobApplied(old(job), job, Segment(DnsKind), Segment(TrafficKind))
      ensures !ok ==> Reverting(0)
      ensures !ok ==> base == old(base) || (backend.faults > old(backend.faults) && Residue(cx, plan, old(base), base))
      ensures !ok && Faults() == old(Faults()) ==> NotAllCompletable()
    {
      hide Applying, StartsMirrored, CompletableTo, Residue, DefaultsWritten, Touched, Stopped, NotAllCompletable;
      if unique {
        ShapeOf(DnsKind);
      }
      ok := HandleRulesApply(DnsKind);
      if !ok {
        ToRevert();
        return;
      }
      ghost var job1 := job;
      if unique {
        ShapeOf(DnsKind);
      }
      ok := HandleRulesApply(TrafficKind);
      if !ok {
        ToRevert();
        return;
      }
      WiredIn();
      if unique {
        ShapeOf(DnsKind);
      }
      forall k | mirrored && 0 <= k < |plan| ensures CompletableTo(cx, plan, k, WAIT_CONFIG_DB_WRITE) {
        assert k == if k < split then Position(split, DnsKind, k) else Position(split, TrafficKind, k - split);
        assert Accepted(k, WAIT_CONFIG_DB_WRITE);
      }
    }

    lemma WiredIn()
      requires Applying()
      ensures Wired()
    {
    }

    lemma ToRevert()
      requires Applying() && Stopped()
      ensures Reverting(0)
    {
      hide Books, RevertBooks, Findable, OwnsRules, Separate, AddsUp, AgreeOff;
      if unique {
        var q :| 0 <= q < |done| && done[q] < WAIT_CONFIG_DB_WRITE;
        StartRevert(plan, split, done, statusDb.status, statusDb.pushed, job, stored, q);
      }
    }

    /** Nothing of the plan is done yet. */
    ghost predicate Fresh()
      reads this, statusDb, remote
    {
      Applying() && StartsMirrored(base) && done == seq(|plan|, i => 0) && base == remote.content
    }

    /**
     * The whole task, over any external content. Foreign cells and foreign
     * records are never touched, and the stored status record is the last one
     * written. If no rule id repeats, the status records are lawful and each
     * outcome has its configuration. If, further, the content mirrored the stored configuration, a
     * completed task leaves every own cell as its change demands; a reverted one
     * leaves every own cell as it found it, except that a failed status write
     * right after an accepted call leaves that call's cell behind. Without
     * faults it then completes exactly when all of its changes are completable,
     * and one fault alone never makes it inconsistent when the changes keep
     * their cells.
     */
    method Run() returns (outcome: Outcome)
      requires Fresh()
      requires statusDb.Synced()
      modifies this`job, this`done, this`base, remote, statusDb, backend
      ensures statusDb.Synced()
      ensures remote.faults >= old(remote.faults) && backend.faults >= old(backend.faults)
      ensures AgreeOff(remote.content, remote.background, cx.own)
      ensures SameExcept(old(backend.kv), backend.kv, {StatusKey(cx.app, taskId), JobKey(cx.app), ConfigKey(cx.app)})
      ensures outcome != Completed(true) ==>
        Lookup(backend.kv, ConfigKey(cx.app)) == Lookup(old(backend.kv), ConfigKey(cx.app))
      ensures outcome.Completed? && Faults() == old(Faults()) ==> outcome.configSaved && JobKey(cx.app) !in backend.kv
      ensures outcome.Reverted? ==>
        && statusDb.status.progress == PROGRESS_FAILURE && JobKey(cx.app) !in backend.kv
        && Lookup(backend.kv, StatusKey(cx.app, taskId)) == Some(StatusRecord(statusDb.status))
        && OnlyOwnRecords(old(backend.kv), backend.kv)
      ensures unique ==>
        && Lawful(statusDb.pushed, |plan|)
        && (outcome.Completed? ==>
              && statusDb.pushed[|statusDb.pushed| - 1].progress == |plan|
              && JobApplied(old(job), job, Segment(DnsKind), Segment(TrafficKind)))
        && (outcome == Completed(true) ==>
              Lookup(backend.kv, ConfigKey(cx.app)) == ConfigAfter(old(backend.kv), cx.app, job))
        && (outcome.Reverted? ==> Failed(statusDb.pushed, |plan|))
      ensures mirrored ==>
        && (outcome.Completed? ==>
              AllCompletable(cx, plan) && Balanced(cx, plan, AllDone(), old(remote.content), remote.content))
        && (outcome.Reverted? ==>
              && Residue(cx, plan, old(remote.content), base) && AgreeOn(remote.content, base, cx.own)
              && (backend.faults == old(backend.faults) ==> base == old(remote.content)))
        && (outcome.Inconsistent? && AllKept(cx, plan) ==>
              Faults() > old(Faults()) + if AllCompletable(cx, plan) then 1 else 0)
        && (AllCompletable(cx, plan) && Faults() == old(Faults()) ==> outcome.Completed?)
    {
      hide Applying, Reverting, Mirrors, AllKept, AllCompletable, Balanced, AgreeOn, AgreeOff, Failed, Climbing;
      hide JobApplied, Lawful, Wired, StartsMirrored;
      MirroredIsUnique();
      var ok := ApplyAll();
      var saved := false;
      if ok {
        AllReady();
        ok, saved := HandleConfigDBWriteOnSuccess();
        if !ok {
          Unready();
        }
      }
      if ok {
        var _ := CleanProcessingCache();
        return Completed(saved);
      }
      ok := HandleErrorOnProcessing();
      return if ok then Reverted else Inconsistent;
    }

    lemma MirroredIsUnique()
      requires Applying()
      ensures mirrored ==> unique
    {
    }

    /** With repeated ids a pass may end with entries that are not ready. */
    lemma Unready()
      requires Applying() && !unique
      ensures Reverting(0)
    {
    }

    lemma AllReady()
      requires Applying() && (unique ==> done == AllDone())
      ensures unique ==> forall kind, i :: 0 <= i < |StatusList(statusDb.status, kind)| ==>
        StatusList(statusDb.status, kind)[i].state == WAIT_CONFIG_DB_WRITE
      ensures unique ==> Lawful(statusDb.pushed, |plan|)
      ensures unique ==> |statusDb.pushed| > 0 && statusDb.pushed[|statusDb.pushed| - 1].progress == |plan|
      ensures mirrored ==> Balanced(cx, plan, AllDone(), base, remote.content)
      ensures statusDb.backend == backend && statusDb.app == cx.app && statusDb.task == taskId
      ensures AgreeOff(remote.content, remote.background, cx.own)
    {
      hide Links, Separate, Balanced, AgreeOff, Findable, OwnsRules;
      if unique {
        ReadyIsTotal(statusDb.status);
        TotalOfLinks(plan, statusDb.status, job, stored);
      }
    }
  }

  /** The cells of all rules of the job and of the stored configuration belong to the task. */
  ghost predicate OwnsRules(cx: Context, job: AppDConfig, stored: Option<AppDConfig>) {
    forall kind, r: Rule, s ::
      (r in Rules(job, kind) || r in StoredRules(stored, kind)) && Enabled(cx.dnsType, kind, s) ==>
      CellOf(cx.app, s, r) in cx.own
  }

  lemma OwnsDefault(cx: Context, job: AppDConfig, stored: Option<AppDConfig>, kind: Kind, id: string)
    requires OwnsRules(cx, job, stored)
    ensures OwnsRules(cx, WithDefault(job, kind, id), stored)
  {
    hide WithDefault;
    var job' := WithDefault(job, kind, id);
    forall kd, r: Rule, s | r in Rules(job', kd) && Enabled(cx.dnsType, kd, s) ensures CellOf(cx.app, s, r) in cx.own {
      DefaultOf(job, kind, id, kd);
      var i :| 0 <= i < |Rules(job', kd)| && Rules(job', kd)[i] == r;
      var r0 := Rules(job, kd)[i];
      assert r0 in Rules(job, kd) && CellOf(cx.app, s, r) == CellOf(cx.app, s, r0);
    }
  }
}
