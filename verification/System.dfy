/**
 * The handlers and the workers together: every request they serve and every
 * task they carry out is a step of a run, so what holds over runs holds of them.
 */
module System {
  import opened AppConfig
  import opened Targets
  import opened RuleOps
  import opened DataStore
  import opened TaskPoll
  import opened SyncTask
  import opened SyncPlan
  import opened Mirror
  import opened SyncWorker
  import opened Staging
  import opened Runs
  import opened DnsRuleUpdate
  import opened Switches
  import opened CarryRuns
  import opened PollRuns
  import opened MirrorInvariant
  import opened ToggleRuns
  import opened MirrorRuns
  import opened Completion
  import opened EndToEnd

  lemma SameStore(kv: Store, kv': Store)
    requires SameExcept(kv, kv', {})
    ensures kv' == kv
  {
    assert forall k :: (k in kv' <==> Lookup(kv', k).Some?) && (k in kv <==> Lookup(kv, k).Some?);
    assert forall k :: Lookup(kv', k) == Lookup(kv, k);
    assert kv'.Keys == kv.Keys;
    assert forall k :: k in kv ==> Lookup(kv', k).value == Lookup(kv, k).value;
  }

  class Server {
    const backend: Backend
    const remote: Remote
    const dnsType: DnsType
    const handlers: AppDCommon
    const worker: Worker
    ghost var flights: set<Flight>

    constructor (backend: Backend, remote: Remote, dnsType: DnsType)
      ensures this.backend == backend && this.remote == remote && this.dnsType == dnsType && Wired()
      ensures flights == {}
      ensures backend.kv == map[] && remote.content == map[] ==>
        Invariant(dnsType, Now()) && Carried(Now()) && Manned(Now()) && Pollable(Now())
    {
      hide Invariant, Carried, Manned;
      this.backend, this.remote, this.dnsType, flights := backend, remote, dnsType, {};
      handlers := new AppDCommon(backend);
      worker := new Worker(remote, backend, dnsType);
      EmptyIsInvariant(dnsType);
      InvariantIsCarried(dnsType, World(map[], map[], {}));
      CarriedIsManned(World(map[], map[], {}));
    }

    ghost predicate Wired() {
      handlers.backend == backend && worker.backend == backend && worker.remote == remote && worker.dnsType == dnsType
    }

    ghost function Now(): World
      reads this, backend, remote
    {
      World(remote.content, backend.kv, flights)
    }

    /**
     * A create, update or delete request. It is a step of a run and keeps what
     * workers rely on; it keeps what their books rely on if its rule ids are
     * unique, and the mirror invariant if it is admissible and no fault keeps a
     * rejected one from cleaning up. Without a fault it is accepted if and only
     * if nothing stands against it, and the first reason that does is given.
     */
    method Serve(app: Uuid, task: Uuid, input: AppDConfig) returns (r: StageResult)
      requires Wired() && input.operation != Settled
      requires TaskKey(task) !in backend.kv && StatusKey(app, task) !in backend.kv
      modifies backend, this`flights
      ensures Takes(old(Now()), Now(), if r.Accepted? then Stage(app, task, input) else Reject(app, task))
      ensures Manned(old(Now())) ==> Manned(Now())
      ensures Carried(old(Now())) && WellFormed(Some(input)) ==> Carried(Now())
      ensures Carried(old(Now())) && Pollable(old(Now())) ==> Pollable(Now())
      ensures (Invariant(dnsType, old(Now())) && Admissible(old(backend.kv), app, input)
               && (r.Accepted? || backend.kv == old(backend.kv))) ==>
        Invariant(dnsType, Now())
      ensures r.Rejected? && backend.faults == old(backend.faults) ==> backend.kv == old(backend.kv)
      ensures backend.faults == old(backend.faults) ==> (r.Accepted? <==> Acceptable(old(backend.kv), app, input))
      ensures r.Rejected? && r.why != StoreFailure ==> TurnedDown(old(backend.kv), app, input, r.why)
      ensures r == Rejected(StoreFailure) ==> backend.faults > old(backend.faults)
    {
      hide Invariant, Carried, Manned, Pollable, StagedAs, Admissible, WellFormed, Acceptable, TurnedDown;
      ghost var before := Now();
      r := handlers.OnRequest(app, task, input);
      if r.Accepted? {
        flights := flights + {Flight(app, task)};
      } else if backend.faults == old(backend.faults) {
        SameStore(old(backend.kv), backend.kv);
      }
      ghost var step := if r.Accepted? then Stage(app, task, input) else Reject(app, task);
      if Manned(before) {
        StepKeepsManned(before, Now(), step);
      }
      if Carried(before) && WellFormed(Some(input)) {
        StepKeepsCarried(before, Now(), step);
      }
      if Carried(before) && Pollable(before) {
        StepKeepsPollable(before, Now(), step);
      }
      if Invariant(dnsType, before) && Admissible(before.kv, app, input) && (r.Accepted? || backend.kv == before.kv) {
        StepKeepsInvariant(dnsType, before, Now(), step);
      }
    }

    /**
     * A worker carries out its task, whatever the external systems hold. It is a
     * step of a run and keeps what workers rely on. If no rule id repeats, its
     * status records are polled in order and end as it did. If the invariant
     * held and no other worker changes the external systems meanwhile, it keeps
     * the invariant whenever it completes, saves and drops the job, or reverts
     * without a failed write; without faults it does one of the two, unless a
     * change left its cell. If the invariant held and it completes, the outside
     * sees the rules of its job as the job asks for; without faults it completes
     * if and only if the job is doable.
     */
    method Work(app: Uuid, task: Uuid) returns (outcome: Option<Outcome>, ghost history: seq<TaskStatus>)
      requires Wired() && Manned(Now()) && Flight(app, task) in flights
      modifies backend, remote, this`flights
      ensures outcome.Some? && Takes(old(Now()), Now(), End(app, task, history)) && Manned(Now())
      ensures outcome.value.Reverted? ==> JobKey(app) !in backend.kv
      ensures Carried(old(Now())) && Pollable(old(Now())) ==> Pollable(Now())
      ensures Carried(old(Now())) ==>
        && Carried(Now()) && Polled(app, task, old(backend.kv), backend.kv, history)
        && TotalRules(history[|history| - 1]) > 0
        && (outcome.value.Completed? ==> Progress(history[|history| - 1]).state == Success)
        && (outcome.value.Reverted? ==> Progress(history[|history| - 1]).state == Failure)
      ensures Invariant(dnsType, old(Now())) && remote.background == old(remote.content) ==>
        && (outcome.value == Completed(true) && JobKey(app) !in backend.kv ==> Invariant(dnsType, Now()))
        && (outcome.value == Reverted && backend.faults == old(backend.faults) ==> Invariant(dnsType, Now()))
      ensures Invariant(dnsType, old(Now())) && outcome.value.Completed? ==>
        Job(old(backend.kv), app).Some? && AsAsked(dnsType, app, Job(old(backend.kv), app).value, remote.content)
      ensures Invariant(dnsType, old(Now())) && FaultsOf(remote, backend) == old(FaultsOf(remote, backend)) ==>
        && Job(old(backend.kv), app).Some?
        && (outcome == Some(Completed(true)) <==>
              Doable(dnsType, Job(old(backend.kv), app).value, Config(old(backend.kv), app)))
      ensures (Invariant(dnsType, old(Now())) && KeepsCells(dnsType, app, task, old(backend.kv))
               && FaultsOf(remote, backend) == old(FaultsOf(remote, backend))) ==>
        && !outcome.value.Inconsistent?
        && (remote.background == old(remote.content) ==> Invariant(dnsType, Now()))
    {
      hide Invariant, Carried, Manned, Pollable, Startable, Loadable, Bookable, CleanEnd, AgreeOff, PlanOf, ContextOf;
      hide Doable, SavedFor, AtMostOneCell, AllCompletable, AllKept, Lawful, KeepsOrSaves, Loads, Exact, AsAsked;
      ghost var before := Now();
      MannedLoads(before, Flight(app, task));
      remote.background := remote.content;
      outcome, history := worker.ProcessDataPlaneSync(app, task);
      flights := flights - {Flight(app, task)};
      StepKeepsManned(before, Now(), End(app, task, history));
      if Carried(before) {
        CarriedLoads(before, Flight(app, task));
        LawfulTotal(history);
        StepKeepsCarried(before, Now(), End(app, task, history));
        if Pollable(before) {
          StepKeepsPollable(before, Now(), End(app, task, history));
        }
      }
      if Invariant(dnsType, before) {
        InvariantStartsWorker(dnsType, before, Flight(app, task));
        InvariantDecides(dnsType, before, Flight(app, task));
        if outcome.value.Completed? {
          ExactIsAsAsked(dnsType, app, before.kv, remote.content);
        }
        if worker.Clean(outcome.value, backend.faults - old(backend.faults)) && JobKey(app) !in backend.kv
           && remote.background == before.content {
          StepKeepsInvariant(dnsType, before, Now(), End(app, task, history));
        }
      }
    }

    /**
     * A status query. It follows the record of the task to its status record
     * and reads the count there; in every state of a run each task that has a
     * status record is answered from it.
     */
    method Poll(task: Uuid) returns (r: PollReply)
      ensures r.Answer? ==>
        && Lookup(backend.kv, TaskKey(task)) == Some(TaskRecord(r.app)) && Status(Now(), r.app, task).Some?
        && var t := Status(Now(), r.app, task).value;
           TotalRules(t) > 0 && Reads(r.poll, t.progress, TotalRules(t)) && r.details == t.details
      ensures r == NotFound <==>
        forall app :: Lookup(backend.kv, TaskKey(task)) == Some(TaskRecord(app)) ==> StatusKey(app, task) !in backend.kv
      ensures Pollable(Now()) && !r.Answer? ==> forall app :: Status(Now(), app, task).None?
    {
      var entry := backend.GetRecord(TaskKey(task));
      if entry.None? || !entry.value.TaskRecord? {
        return NotFound;
      }
      var app := entry.value.app;
      var record := backend.GetRecord(StatusKey(app, task));
      if record.None? {
        return NotFound;
      }
      if !record.value.StatusRecord? {
        return Unreadable;
      }
      var t := record.value.status;
      if TotalRules(t) == 0 {
        return DivideByZero;
      }
      PollReads(t);
      return Answer(app, Progress(t), t.details);
    }

    /**
     * A single DNS rule update, whatever the targets hold. It is a step of a run
     * and keeps what workers rely on, and on success the outside sees the rule
     * in its new state. If the invariant held, success keeps it if
     * and only if the update passes a pending job by, and a failure whose
     * compensation takes effect leaves the world as it was. Store and request
     * decide the reply code up to the call of the targets; if the invariant
     * held, they and the faults decide the whole code.
     */
    method Switch(app: Uuid, id: string, ifMatch: string, body: Option<DnsRule>, hash: Digest, f: Faults)
      returns (reply: Reply)
      modifies backend`kv, remote`content
      ensures Manned(old(Now())) ==> Manned(Now())
      ensures Carried(old(Now())) ==> Carried(Now())
      ensures Carried(old(Now())) && Pollable(old(Now())) ==> Pollable(Now())
      ensures var moved := body.Some? && backend.kv != old(backend.kv);
        Takes(old(Now()), Now(), if moved then Toggle(app, id, body.value.state) else Idle)
      ensures reply.code == OK ==> body.Some? && Takes(old(Now()), Now(), Toggle(app, id, body.value.state))
      ensures reply.code == OK ==> reply.rule.Some? && Observed(All, app, reply.rule.value, remote.content)
      ensures Decided(old(backend.kv), app, id, ifMatch, body, hash, f, reply.code)
      ensures dnsType == All && Invariant(dnsType, old(Now())) ==>
        (reply.code == OK <==> Succeeds(old(backend.kv), app, id, ifMatch, body, hash, f))
      ensures reply.code == OK && dnsType == All && Invariant(dnsType, old(Now())) ==>
        (Invariant(dnsType, Now()) <==> Undisturbed(old(Now()), app, id, body.value.state))
      ensures (reply.code != OK && !f.rollback && !(f.undo && f.undoAgain) && dnsType == All
               && Invariant(dnsType, old(Now()))) ==>
        Now() == old(Now())
    {
      hide Invariant, Carried, Manned, Pollable, MirrorsRule, Followed, Toggled, Undisturbed, Decided, Succeeds;
      hide Observed;
      ghost var before := Now();
      var u := new Update(backend.kv, remote.content);
      reply := u.OnRequest(app, id, ifMatch, body, hash, f);
      backend.kv, remote.content := u.kv, u.content;
      ghost var step := if body.Some? && backend.kv != before.kv then Toggle(app, id, body.value.state) else Idle;
      if reply.code == OK {
        ToggledDiffers(before.kv, backend.kv, app, id, body.value.state);
        SwitchedIsSeen(before.content, remote.content, app, reply.rule.value);
      }
      if Manned(before) {
        StepKeepsManned(before, Now(), step);
      }
      if Carried(before) {
        StepKeepsCarried(before, Now(), step);
        if Pollable(before) {
          StepKeepsPollable(before, Now(), step);
        }
      }
      if dnsType == All && Invariant(All, before) {
        if RuleIn(before.kv, app, id).Some? {
          InvariantMirrorsRule(before, app, id);
        }
        if reply.code == OK {
          ToggleKeepsInvariantIff(before, Now(), app, id, body.value.state);
        } else if !f.rollback && !(f.undo && f.undoAgain) {
          SameContent(before.content, remote.content);
        }
      }
    }
  }

  lemma InvariantDecides(d: DnsType, w: World, f: Flight)
    requires Invariant(d, w) && f in w.flights
    ensures !Unstaged(f.app, f.task, w.kv)
    ensures var job, stored := Job(w.kv, f.app).value, Config(w.kv, f.app);
      var t := StatusIn(w.kv, StatusKey(f.app, f.task)).value;
      AllCompletable(ContextOf(d, f.app, w.kv), PlanOf(job, stored, t)) <==> Doable(d, job, stored)
  {
    hide Mirrored, DomainsUnique, Exclusive, WellFormed, Staged, AllCompletable, Doable;
    assert Underway(w.kv, f);
    CompletableIff(ContextOf(d, f.app, w.kv), Job(w.kv, f.app).value, Config(w.kv, f.app),
                   StatusIn(w.kv, StatusKey(f.app, f.task)).value);
  }

  lemma ExactIsAsAsked(d: DnsType, app: Uuid, kv: Store, m: External)
    requires Job(kv, app).Some? && Exact(d, app, Target(Job(kv, app).value), m, ContextOf(d, app, kv).own)
    ensures AsAsked(d, app, Job(kv, app).value, m)
  {
    hide Exact, OwnCells, Observed;
    var job := Job(kv, app).value;
    forall r | r in job.dns || r in job.traffic
      ensures Observed(d, app, if job.operation == DeleteOp then r.(state := Inactive) else r, m)
    {
      CompletedIsSeen(d, app, job, Config(kv, app), m, r);
    }
  }

  lemma ToggledDiffers(kv: Store, kv': Store, app: Uuid, id: string, state: RuleState)
    requires Toggled(kv, kv', app, id, state)
    ensures kv' != kv
  {
    var i := Replaced(kv, kv', app, id, state);
  }

  /** Every change of a staged task keeps its cell. */
  ghost predicate KeepsCells(d: DnsType, app: Uuid, task: Uuid, kv: Store) {
    && !Unstaged(app, task, kv)
    && var job, t := Job(kv, app).value, StatusIn(kv, StatusKey(app, task)).value;
       AllKept(ContextOf(d, app, kv), PlanOf(job, Config(kv, app), t))
  }

  lemma SameContent(m: External, m': External)
    requires forall x :: Lookup(m', x) == Lookup(m, x)
    ensures m' == m
  {
    assert forall x :: (x in m' <==> Lookup(m', x).Some?) && (x in m <==> Lookup(m, x).Some?);
    assert forall x :: x in m ==> Lookup(m', x).value == Lookup(m, x).value;
  }

  lemma MannedLoads(w: World, f: Flight)
    requires Manned(w) && f in w.flights
    ensures !Unstaged(f.app, f.task, w.kv) && Loadable(f.app, f.task, w.kv)
    ensures Loads(w.kv, f) ==> Bookable(f.app, f.task, w.kv)
  {
    hide Workable, Exclusive;
    assert Fetches(w.kv, f);
  }

  lemma CarriedLoads(w: World, f: Flight)
    requires Carried(w) && f in w.flights
    ensures Loads(w.kv, f) && Bookable(f.app, f.task, w.kv)
    ensures TotalRules(StatusIn(w.kv, StatusKey(f.app, f.task)).value) > 0
  {
    hide Workable, Exclusive, WellFormed;
    assert Loads(w.kv, f);
  }
}
