/**
 * What it means for the external systems to mirror a configuration, and how a
 * staged task moves them from the stored configuration to the requested one.
 */
module Mirror {
  import opened AppConfig
  import opened Targets
  import opened RuleOps
  import opened RuleMaps
  import opened RuleDiff
  import opened SyncPlan
  import opened SyncLink
  import TaskPoll

  ghost predicate InConfig(c: Option<AppDConfig>, r: Rule) {
    c.Some? && (r in c.value.dns || r in c.value.traffic)
  }

  ghost predicate Occupies(d: DnsType, app: Uuid, c: Option<AppDConfig>, r: Rule, s: Stage, x: Cell) {
    InConfig(c, r) && Enabled(d, KindOf(r), s) && CellOf(app, s, r) == x
  }

  function Cells(d: DnsType, app: Uuid, c: Option<AppDConfig>): set<Cell> {
    if c.None? then {}
    else
      var rules := c.value.dns + c.value.traffic;
      set r, s | r in rules && s in {Mp2, Local} && Enabled(d, KindOf(r), s) :: CellOf(app, s, r)
  }

  /** Among the own cells, exactly the ACTIVE rules of the configuration are held, with their values. */
  ghost predicate Exact(d: DnsType, app: Uuid, c: Option<AppDConfig>, m: External, own: set<Cell>) {
    && (forall r, s, x :: Occupies(d, app, c, r, s, x) ==> Lookup(m, x) == Held(s, r))
    && (forall x :: x in own && x in m ==> exists r, s :: Occupies(d, app, c, r, s, x))
  }

  /** Rules of the two configurations share a cell only when they are the same rule. */
  ghost predicate Apart(d: DnsType, app: Uuid, a: Option<AppDConfig>, b: Option<AppDConfig>) {
    forall r, s, r', s', x :: Either(d, app, a, b, r, s, x) && Either(d, app, a, b, r', s', x) ==>
      r.id == r'.id && KindOf(r) == KindOf(r')
  }

  ghost predicate Either(d: DnsType, app: Uuid, a: Option<AppDConfig>, b: Option<AppDConfig>, r: Rule, s: Stage,
                         x: Cell) {
    Occupies(d, app, a, r, s, x) || Occupies(d, app, b, r, s, x)
  }

  /** The configuration that a job asks for; a delete request asks for none. */
  function Target(job: AppDConfig): Option<AppDConfig> {
    if job.operation == DeleteOp then None else Some(job)
  }

  /** The status record names the differences between what is stored and what the job asks for. */
  ghost predicate ListsChanges(job: AppDConfig, stored: Option<AppDConfig>, t: TaskStatus) {
    && t.progress == 0 && job.operation != Settled
    && (job.operation == DeleteOp ==>
          stored.Some? && job.dns == stored.value.dns && job.traffic == stored.value.traffic)
    && forall kind :: Lists(StatusList(t, kind), ById(StoredRules(Target(job), kind)), ById(StoredRules(stored, kind)))
  }

  /** The status record lists the differences between what is stored and what the job asks for. */
  ghost predicate Staged(job: AppDConfig, stored: Option<AppDConfig>, t: TaskStatus) {
    && t.progress == 0 && job.operation != Settled
    && (job.operation == DeleteOp ==>
          stored.Some? && job.dns == stored.value.dns && job.traffic == stored.value.traffic)
    && forall kind ::
         && UniqueIds(Rules(job, kind)) && UniqueIds(StoredRules(stored, kind))
         && IsDiff(StatusList(t, kind), ById(StoredRules(Target(job), kind)), ById(StoredRules(stored, kind)))
  }

  /** An entry that has not been worked on and finds its rules. */
  ghost predicate EntryWorks(e: RuleStatus, job: map<string, Rule>, store: map<string, Rule>) {
    && e.state == WAIT_MP2
    && match e.oper
       case OperCreate => e.id in job && e.id !in store
       case OperModify => e.id in job && e.id in store
       case OperDelete => e.id in store && (e.id in job ==> job[e.id] == store[e.id].(state := job[e.id].state))
  }

  /**
   * What a worker needs of a task to keep its books, whatever the external
   * systems hold. The states of stored rules do not matter, so that a single
   * rule update in between does no harm to it.
   */
  ghost predicate Workable(job: AppDConfig, stored: Option<AppDConfig>, t: TaskStatus) {
    && t.progress == 0 && job.operation != Settled
    && forall kind ::
         && UniqueIds(Rules(job, kind)) && UniqueIds(StoredRules(stored, kind)) && UniqueStatusIds(StatusList(t, kind))
         && forall i :: 0 <= i < |StatusList(t, kind)| ==>
              EntryWorks(StatusList(t, kind)[i], ById(Rules(job, kind)), ById(StoredRules(stored, kind)))
  }

  lemma WorkableIsFindable(job: AppDConfig, stored: Option<AppDConfig>, t: TaskStatus)
    requires Workable(job, stored, t)
    ensures Findable(t, job, stored)
  {
    hide ById, UniqueIds, UniqueStatusIds;
  }

  /** Whatever the differences, each entry finds its rules. */
  lemma ListsAreFindable(job: AppDConfig, stored: Option<AppDConfig>, t: TaskStatus)
    requires ListsChanges(job, stored, t)
    ensures Findable(t, job, stored)
  {
    forall kind, i | 0 <= i < |StatusList(t, kind)|
      ensures EntryFound(StatusList(t, kind)[i], ById(Rules(job, kind)), ById(StoredRules(stored, kind)))
    {
      assert Lists(StatusList(t, kind), ById(StoredRules(Target(job), kind)), ById(StoredRules(stored, kind)));
      assert Classified(StatusList(t, kind)[i], ById(StoredRules(Target(job), kind)), ById(StoredRules(stored, kind)));
      assert StoredRules(Some(job), kind) == Rules(job, kind);
    }
  }

  lemma StagedEntry(job: AppDConfig, stored: Option<AppDConfig>, t: TaskStatus, kind: Kind, i: nat)
    requires Staged(job, stored, t) && i < |StatusList(t, kind)|
    ensures Classified(StatusList(t, kind)[i], ById(StoredRules(Target(job), kind)), ById(StoredRules(stored, kind)))
    ensures EntryWorks(StatusList(t, kind)[i], ById(Rules(job, kind)), ById(StoredRules(stored, kind)))
  {
    hide Distinct;
    var e := StatusList(t, kind)[i];
    assert IsDiff(StatusList(t, kind), ById(StoredRules(Target(job), kind)), ById(StoredRules(stored, kind)));
    assert Classified(e, ById(StoredRules(Target(job), kind)), ById(StoredRules(stored, kind)));
    assert StoredRules(Some(job), kind) == Rules(job, kind);
  }

  lemma StagedIsWorkable(job: AppDConfig, stored: Option<AppDConfig>, t: TaskStatus)
    requires Staged(job, stored, t)
    ensures Workable(job, stored, t)
  {
    hide EntryWorks, Distinct, Lists;
    forall kind, i | 0 <= i < |StatusList(t, kind)|
      ensures EntryWorks(StatusList(t, kind)[i], ById(Rules(job, kind)), ById(StoredRules(stored, kind)))
    {
      StagedEntry(job, stored, t, kind, i);
    }
    forall kind ensures UniqueStatusIds(StatusList(t, kind)) {
      assert IsDiff(StatusList(t, kind), ById(StoredRules(Target(job), kind)), ById(StoredRules(stored, kind)));
    }
  }

  /** The rule that a map holds under an id, with its default state written in. */
  ghost function RuleAt(m: map<string, Rule>, id: string): Rule {
    if id in m then Defaulted(m[id]) else Rule(id, Inactive, Dns("", "", "", 0))
  }

  ghost function ChangeOf(e: RuleStatus, job: map<string, Rule>, store: map<string, Rule>): Change {
    match e.oper
    case OperCreate => Create(RuleAt(job, e.id))
    case OperModify => Modify(RuleAt(job, e.id), RuleAt(store, e.id))
    case OperDelete => Delete(RuleAt(store, e.id))
  }

  ghost function PlanOfKind(job: AppDConfig, stored: Option<AppDConfig>, t: TaskStatus, kind: Kind): (p: seq<Change>)
    ensures |p| == |StatusList(t, kind)|
  {
    var list := StatusList(t, kind);
    var j, s := ById(Rules(job, kind)), ById(StoredRules(stored, kind));
    seq(|list|, i requires 0 <= i < |list| => ChangeOf(list[i], j, s))
  }

  ghost function PlanOf(job: AppDConfig, stored: Option<AppDConfig>, t: TaskStatus): (p: seq<Change>)
    ensures |p| == TotalRules(t)
  {
    PlanOfKind(job, stored, t, DnsKind) + PlanOfKind(job, stored, t, TrafficKind)
  }

  lemma RuleOfKind(c: AppDConfig, kind: Kind, r: Rule)
    ensures r in Rules(c, kind) <==> (r in c.dns || r in c.traffic) && KindOf(r) == kind
  {
  }

  /** A rule that the map of a configuration holds is a rule of that configuration and kind. */
  lemma FoundRule(c: Option<AppDConfig>, kind: Kind, id: string)
    requires id in ById(StoredRules(c, kind))
    ensures var r := ById(StoredRules(c, kind))[id];
      InConfig(c, r) && KindOf(r) == kind && r.id == id
  {
    ByIdSound(StoredRules(c, kind), id);
    RuleOfKind(c.value, kind, ById(StoredRules(c, kind))[id]);
  }

  /** With unique ids every rule of a configuration is found under its id. */
  lemma RuleFound(c: Option<AppDConfig>, r: Rule)
    requires InConfig(c, r) && UniqueIds(StoredRules(c, KindOf(r)))
    ensures r.id in ById(StoredRules(c, KindOf(r))) && ById(StoredRules(c, KindOf(r)))[r.id] == r
  {
    var rules := StoredRules(c, KindOf(r));
    RuleOfKind(c.value, KindOf(r), r);
    var i :| 0 <= i < |rules| && rules[i] == r;
    ByIdComplete(rules, i);
  }

  /** Entry `i` of a kind, its place in the plan and the change it stands for. */
  lemma PlanEntry(job: AppDConfig, stored: Option<AppDConfig>, t: TaskStatus, kind: Kind, i: nat)
    requires Workable(job, stored, t) && i < |StatusList(t, kind)|
    ensures var e, ch := StatusList(t, kind)[i], PlanOf(job, stored, t)[Offset(t, kind) + i];
      && EntryWorks(e, ById(Rules(job, kind)), ById(StoredRules(stored, kind)))
      && ch == ChangeOf(e, ById(Rules(job, kind)), ById(StoredRules(stored, kind)))
      && Resolves(ch, e, kind, ById(Rules(job, kind)), ById(StoredRules(stored, kind)))
  {
    hide Distinct, Resolves, ChangeOf, EntryWorks;
    var e := StatusList(t, kind)[i];
    assert PlanOf(job, stored, t)[Offset(t, kind) + i] == PlanOfKind(job, stored, t, kind)[i];
    EntryResolves(job, stored, kind, e);
  }

  lemma EntryResolves(job: AppDConfig, stored: Option<AppDConfig>, kind: Kind, e: RuleStatus)
    requires EntryWorks(e, ById(Rules(job, kind)), ById(StoredRules(stored, kind)))
    ensures Resolves(ChangeOf(e, ById(Rules(job, kind)), ById(StoredRules(stored, kind))), e, kind,
                     ById(Rules(job, kind)), ById(StoredRules(stored, kind)))
  {
    hide ById;
    assert StoredRules(Some(job), kind) == Rules(job, kind);
    if e.id in ById(Rules(job, kind)) {
      FoundRule(Some(job), kind, e.id);
    }
    if e.id in ById(StoredRules(stored, kind)) {
      FoundRule(stored, kind, e.id);
    }
  }

  lemma WorkableLinks(job: AppDConfig, stored: Option<AppDConfig>, t: TaskStatus)
    requires Workable(job, stored, t)
    ensures Links(PlanOf(job, stored, t), t, job, stored)
    ensures forall kind, i :: 0 <= i < |StatusList(t, kind)| ==> StatusList(t, kind)[i].state == WAIT_MP2
  {
    hide PlanOf, Resolves, Distinct, ById, ChangeOf, EntryIds, RuleIds;
    forall kind, i | 0 <= i < |StatusList(t, kind)|
      ensures EntryLinks(PlanOf(job, stored, t), t, job, stored, kind, i)
      ensures StatusList(t, kind)[i].state == WAIT_MP2
    {
      PlanEntry(job, stored, t, kind, i);
    }
  }

  /** A workable task starts with exact books. */
  lemma WorkableBooks(job: AppDConfig, stored: Option<AppDConfig>, t: TaskStatus)
    requires Workable(job, stored, t)
    ensures Books(PlanOf(job, stored, t), |t.dns|, seq(TotalRules(t), i => 0), t, [t], job, stored)
  {
    hide PlanOf, Links, UniqueIds, UniqueStatusIds, EntryWorks;
    WorkableLinks(job, stored, t);
    NoneReady(StatusList(t, DnsKind));
    NoneReady(StatusList(t, TrafficKind));
    TaskPoll.ClimbStarts(t);
  }

  lemma {:induction false} NoneReady(list: seq<RuleStatus>)
    requires forall i :: 0 <= i < |list| ==> list[i].state == WAIT_MP2
    ensures CountReady(list) == 0
  {
    if |list| > 0 {
      NoneReady(list[..|list| - 1]);
    }
  }

  /** No entry of a change list is ready yet. */
  lemma ListsStartUnready(job: AppDConfig, stored: Option<AppDConfig>, t: TaskStatus)
    requires ListsChanges(job, stored, t)
    ensures ReadyRules(t) == 0
  {
    hide ById;
    forall kind ensures CountReady(StatusList(t, kind)) == 0 {
      assert Lists(StatusList(t, kind), ById(StoredRules(Target(job), kind)), ById(StoredRules(stored, kind)));
      NoneReady(StatusList(t, kind));
    }
    assert StatusList(t, DnsKind) == t.dns && StatusList(t, TrafficKind) == t.traffic;
  }

  /** Everything that a task of this job may address. */
  function OwnCells(d: DnsType, app: Uuid, job: AppDConfig, stored: Option<AppDConfig>): set<Cell> {
    Cells(d, app, Some(job)) + Cells(d, app, stored)
  }

  /** The conditions under which a worker starts: a staged job over an exact mirror, with rules that keep apart. */
  ghost predicate Ready(cx: Context, job: AppDConfig, stored: Option<AppDConfig>, t: TaskStatus, m: External) {
    && Staged(job, stored, t)
    && cx.own == OwnCells(cx.dnsType, cx.app, job, stored)
    && Apart(cx.dnsType, cx.app, Some(job), stored)
    && Exact(cx.dnsType, cx.app, stored, m, cx.own)
  }

  lemma OccupiedIsOwn(d: DnsType, app: Uuid, job: AppDConfig, stored: Option<AppDConfig>, r: Rule, s: Stage, x: Cell)
    requires Either(d, app, Some(job), stored, r, s, x)
    ensures x in OwnCells(d, app, job, stored)
  {
  }

  /** Where a change of the plan comes from. */
  lemma {:induction false} PlanSource(job: AppDConfig, stored: Option<AppDConfig>, t: TaskStatus, k: nat)
    returns (kind: Kind, i: nat)
    requires Workable(job, stored, t) && k < TotalRules(t)
    ensures i < |StatusList(t, kind)| && k == Offset(t, kind) + i
    ensures PlanOf(job, stored, t)[k].Id() == StatusList(t, kind)[i].id
    ensures PlanOf(job, stored, t)[k].Oper() == StatusList(t, kind)[i].oper
    ensures KindOf(PlanOf(job, stored, t)[k].Subject()) == kind && PlanOf(job, stored, t)[k].Coherent()
    ensures match PlanOf(job, stored, t)[k]
      case Create(r) => FromRule(Some(job), r, kind)
      case Modify(r, r0) => FromRule(Some(job), r, kind) && FromRule(stored, r0, kind)
      case Delete(r0) => FromRule(stored, r0, kind)
  {
    hide PlanOf, Distinct, ById, Workable, Resolves;
    kind, i := if k < |t.dns| then DnsKind else TrafficKind, if k < |t.dns| then k else k - |t.dns|;
    PlanEntry(job, stored, t, kind, i);
    assert StoredRules(Some(job), kind) == Rules(job, kind);
    var id := StatusList(t, kind)[i].id;
    if id in ById(Rules(job, kind)) {
      FoundRule(Some(job), kind, id);
    }
    if id in ById(StoredRules(stored, kind)) {
      FoundRule(stored, kind, id);
    }
  }

  /** A rule of a plan is a configured rule with its default state written in. */
  ghost predicate FromRule(c: Option<AppDConfig>, r: Rule, kind: Kind) {
    && r.id in ById(StoredRules(c, kind))
    && r == Defaulted(ById(StoredRules(c, kind))[r.id])
    && InConfig(c, ById(StoredRules(c, kind))[r.id]) && KindOf(ById(StoredRules(c, kind))[r.id]) == kind
  }

  /** Each cell of a live stage is occupied by a configured rule with the change's id and kind. */
  lemma CellSource(cx: Context, job: AppDConfig, stored: Option<AppDConfig>, t: TaskStatus, k: nat, s: Stage, x: Cell)
    returns (r: Rule)
    requires Workable(job, stored, t) && Live(cx, PlanOf(job, stored, t), k, s)
    requires x in StageCells(cx.app, s, PlanOf(job, stored, t)[k])
    ensures Either(cx.dnsType, cx.app, Some(job), stored, r, s, x)
    ensures r.id == PlanOf(job, stored, t)[k].Id() && KindOf(r) == KindOf(PlanOf(job, stored, t)[k].Subject())
  {
    hide PlanOf, ById, Workable;
    var kind, i := PlanSource(job, stored, t, k);
    var ch := PlanOf(job, stored, t)[k];
    if ch.Delete? || (ch.Modify? && x != CellOf(cx.app, s, ch.target)) {
      r := ById(StoredRules(stored, kind))[ch.Id()];
    } else {
      r := ById(StoredRules(Some(job), kind))[ch.Id()];
    }
  }

  /** Two changes of the plan with one id and kind are the same change. */
  lemma PlanIdsUnique(job: AppDConfig, stored: Option<AppDConfig>, t: TaskStatus, k: nat, k': nat)
    requires Workable(job, stored, t) && k < TotalRules(t) && k' < TotalRules(t)
    requires PlanOf(job, stored, t)[k].Id() == PlanOf(job, stored, t)[k'].Id()
    requires KindOf(PlanOf(job, stored, t)[k].Subject()) == KindOf(PlanOf(job, stored, t)[k'].Subject())
    ensures k == k'
  {
    hide PlanOf, ById, EntryWorks, FromRule;
    var kind, i := PlanSource(job, stored, t, k);
    var kind', i' := PlanSource(job, stored, t, k');
    assert UniqueStatusIds(StatusList(t, kind));
    assert EntryIds(StatusList(t, kind))[i] == EntryIds(StatusList(t, kind))[i'];
  }

  /** All cells that a workable task can address are its own. */
  lemma WorkableOwns(cx: Context, job: AppDConfig, stored: Option<AppDConfig>, t: TaskStatus)
    requires Workable(job, stored, t) && cx.own == OwnCells(cx.dnsType, cx.app, job, stored)
    ensures Owned(cx, PlanOf(job, stored, t))
  {
    hide PlanOf, Workable, Either, OwnCells, StageCells, KindOf;
    var plan := PlanOf(job, stored, t);
    forall i, s, x | Live(cx, plan, i, s) && x in StageCells(cx.app, s, plan[i]) ensures x in cx.own {
      var r := CellSource(cx, job, stored, t, i, s, x);
      OccupiedIsOwn(cx.dnsType, cx.app, job, stored, r, s, x);
    }
  }

  lemma ReadySeparates(cx: Context, job: AppDConfig, stored: Option<AppDConfig>, t: TaskStatus, m: External)
    requires Ready(cx, job, stored, t, m)
    ensures Separate(cx, PlanOf(job, stored, t))
  {
    hide PlanOf, Staged, Workable, Exact, Either, OwnCells, StageCells, KindOf;
    var plan := PlanOf(job, stored, t);
    StagedIsWorkable(job, stored, t);
    WorkableOwns(cx, job, stored, t);
    forall i, j, s, s', x | Live(cx, plan, i, s) && Live(cx, plan, j, s') && x in StageCells(cx.app, s, plan[i])
                          && x in StageCells(cx.app, s', plan[j])
      ensures i == j
    {
      var r := CellSource(cx, job, stored, t, i, s, x);
      var r' := CellSource(cx, job, stored, t, j, s', x);
      PlanIdsUnique(job, stored, t, i, j);
    }
    forall i | 0 <= i < |plan| ensures plan[i].Coherent() {
      var kind, n := PlanSource(job, stored, t, i);
    }
  }

  lemma ReadyMirrors(cx: Context, job: AppDConfig, stored: Option<AppDConfig>, t: TaskStatus, m: External)
    requires Ready(cx, job, stored, t, m)
    ensures Mirrors(cx, PlanOf(job, stored, t), m)
  {
    hide Staged, PlanOf, MirrorsStage, Exact, Apart;
    var plan := PlanOf(job, stored, t);
    forall i, s | Live(cx, plan, i, s) ensures MirrorsStage(m, cx.app, s, plan[i]) {
      StageMirrored(cx, job, stored, t, m, i, s);
    }
  }

  /** A cell that a job's rule would occupy is held, if at all, for the stored rule with its id. */
  lemma TargetCell(cx: Context, job: AppDConfig, stored: Option<AppDConfig>, t: TaskStatus, m: External, r: Rule,
                   s: Stage, x: Cell)
    requires Ready(cx, job, stored, t, m) && Occupies(cx.dnsType, cx.app, Some(job), r, s, x)
    ensures x in m ==>
      var store := ById(StoredRules(stored, KindOf(r)));
      r.id in store && CellOf(cx.app, s, store[r.id]) == x
  {
    hide ById, Staged, OwnCells, Occupies, CellOf;
    OccupiedIsOwn(cx.dnsType, cx.app, job, stored, r, s, x);
    if x in m {
      var r', s' :| Occupies(cx.dnsType, cx.app, stored, r', s', x);
      assert Either(cx.dnsType, cx.app, Some(job), stored, r, s, x);
      assert Either(cx.dnsType, cx.app, Some(job), stored, r', s', x);
      SameStage(cx.dnsType, cx.app, Some(job), stored, r, s, r', s', x);
      OldRule(job, stored, t, KindOf(r), r');
    }
  }

  /** Two rules of one kind meet in a cell only at the same stage. */
  lemma SameStage(d: DnsType, app: Uuid, c: Option<AppDConfig>, c': Option<AppDConfig>, r: Rule, s: Stage,
                  r': Rule, s': Stage, x: Cell)
    requires Occupies(d, app, c, r, s, x) && Occupies(d, app, c', r', s', x) && KindOf(r) == KindOf(r')
    ensures InConfig(c', r') && CellOf(app, s, r') == x
  {
  }

  /** What makes a stage mirrored: its stored cell is, and its new cell is free or the same. */
  lemma CaseMirrored(m: External, app: Uuid, s: Stage, ch: Change)
    requires !ch.Create? ==> Lookup(m, CellOf(app, s, ch.stored)) == Held(s, ch.stored)
    requires !ch.Delete? && CellOf(app, s, ch.target) in m ==> !ch.Create? && Kept(app, s, ch)
    ensures MirrorsStage(m, app, s, ch)
  {
    hide CellOf, Held;
  }

  /** The cells of one live stage hold what the stored configuration says. */
  lemma StageMirrored(cx: Context, job: AppDConfig, stored: Option<AppDConfig>, t: TaskStatus, m: External, k: nat,
                      s: Stage)
    requires Ready(cx, job, stored, t, m) && Live(cx, PlanOf(job, stored, t), k, s)
    ensures MirrorsStage(m, cx.app, s, PlanOf(job, stored, t)[k])
  {
    hide PlanOf, ById, Staged, Workable, OwnCells, Apart, MirrorsStage;
    StagedIsWorkable(job, stored, t);
    var kind, i := PlanSource(job, stored, t, k);
    StagedEntry(job, stored, t, kind, i);
    var ch := PlanOf(job, stored, t)[k];
    if !ch.Create? {
      var r0 := ById(StoredRules(stored, kind))[ch.Id()];
      assert Occupies(cx.dnsType, cx.app, stored, r0, s, CellOf(cx.app, s, ch.stored));
    }
    if !ch.Delete? {
      var r := ById(StoredRules(Some(job), kind))[ch.Id()];
      TargetCell(cx, job, stored, t, m, r, s, CellOf(cx.app, s, ch.target));
    }
    CaseMirrored(m, cx.app, s, ch);
  }

  /** A stored rule is the one that the stored map holds under its id. */
  lemma OldRule(job: AppDConfig, stored: Option<AppDConfig>, t: TaskStatus, kind: Kind, r: Rule)
    requires Staged(job, stored, t) && InConfig(stored, r) && KindOf(r) == kind
    ensures r.id in ById(StoredRules(stored, kind)) && ById(StoredRules(stored, kind))[r.id] == r
  {
    assert UniqueIds(StoredRules(stored, kind));
    RuleFound(stored, r);
  }

  /** No stage of the plan writes a cell of a rule that the change list leaves alone. */
  lemma KeptRuleUntouched(cx: Context, job: AppDConfig, stored: Option<AppDConfig>, t: TaskStatus, m: External,
                          done: seq<nat>, r: Rule, s: Stage, x: Cell)
    requires Ready(cx, job, stored, t, m) && |done| == TotalRules(t)
    requires Either(cx.dnsType, cx.app, Some(job), stored, r, s, x) && !Listed(r.id, StatusList(t, KindOf(r)))
    ensures !Written(cx, PlanOf(job, stored, t), done, x)
  {
    hide PlanOf, Staged, Workable, Exact, ById, FromRule;
    var plan := PlanOf(job, stored, t);
    StagedIsWorkable(job, stored, t);
    forall k, s' | DoneAt(cx, plan, done, k, s') ensures ChangeCell(cx.app, s', plan[k]) != x {
      if ChangeCell(cx.app, s', plan[k]) == x {
        var r' := CellSource(cx, job, stored, t, k, s', x);
        var kind, i := PlanSource(job, stored, t, k);
      }
    }
  }

  /** The change that a differing id stands for in the plan. */
  lemma PlanFor(job: AppDConfig, stored: Option<AppDConfig>, t: TaskStatus, kind: Kind, id: string) returns (k: nat)
    requires Staged(job, stored, t) && Listed(id, StatusList(t, kind))
    ensures k < TotalRules(t) && PlanOf(job, stored, t)[k].Id() == id
    ensures KindOf(PlanOf(job, stored, t)[k].Subject()) == kind
    ensures var ch := PlanOf(job, stored, t)[k];
      && ch.Coherent()
      && (ch.Delete? <==> id !in ById(StoredRules(Target(job), kind)))
      && (!ch.Delete? ==> FromRule(Some(job), ch.target, kind))
      && (ch.Create? <==> id !in ById(StoredRules(stored, kind)))
      && (!ch.Create? ==> FromRule(stored, ch.stored, kind))
  {
    hide PlanOf, ById, Staged, Workable;
    StagedIsWorkable(job, stored, t);
    var i :| 0 <= i < |StatusList(t, kind)| && StatusList(t, kind)[i].id == id;
    k := Offset(t, kind) + i;
    var kind', i' := PlanSource(job, stored, t, k);
    assert kind' == kind && i' == i;
    StagedEntry(job, stored, t, kind, i);
  }

  /** The first half of `Exact` for the requested configuration, one rule at a time. */
  lemma CompletedHolds(cx: Context, job: AppDConfig, stored: Option<AppDConfig>, t: TaskStatus, m0: External,
                       m: External,
                       done: seq<nat>, r: Rule, s: Stage, x: Cell)
    requires Ready(cx, job, stored, t, m0)
    requires Ledger(cx, PlanOf(job, stored, t), done, m0, m)
    requires done == seq(TotalRules(t), i => WAIT_CONFIG_DB_WRITE)
    requires Occupies(cx.dnsType, cx.app, Target(job), r, s, x)
    ensures Lookup(m, x) == Held(s, r)
  {
    hide PlanOf, Staged, ById, OwnCells, Apart;
    var kind := KindOf(r);
    var plan := PlanOf(job, stored, t);
    NewRule(job, stored, t, r);
    assert Either(cx.dnsType, cx.app, Some(job), stored, r, s, x);
    OccupiedIsOwn(cx.dnsType, cx.app, job, stored, r, s, x);
    if Listed(r.id, StatusList(t, kind)) {
      var k := PlanFor(job, stored, t, kind, r.id);
      assert Live(cx, plan, k, s) && DoneAt(cx, plan, done, k, s);
      assert StoredRules(Target(job), kind) == StoredRules(Some(job), kind);
    } else {
      KeptRuleUntouched(cx, job, stored, t, m0, done, r, s, x);
      Unlisted(job, stored, t, kind, r.id);
      FoundRule(stored, kind, r.id);
      assert Occupies(cx.dnsType, cx.app, stored, r, s, x);
    }
  }

  lemma NewRule(job: AppDConfig, stored: Option<AppDConfig>, t: TaskStatus, r: Rule)
    requires Staged(job, stored, t) && InConfig(Target(job), r)
    ensures r.id in ById(StoredRules(Target(job), KindOf(r))) && ById(StoredRules(Target(job), KindOf(r)))[r.id] == r
  {
    assert UniqueIds(Rules(job, KindOf(r)));
    RuleFound(Target(job), r);
  }

  /** An id that is not listed is the same on both sides. */
  lemma Unlisted(job: AppDConfig, stored: Option<AppDConfig>, t: TaskStatus, kind: Kind, id: string)
    requires Staged(job, stored, t) && !Listed(id, StatusList(t, kind))
    ensures !Differs(id, ById(StoredRules(Target(job), kind)), ById(StoredRules(stored, kind)))
  {
  }

  /** When everything is done, the cell of an active stored rule that the list names was written. */
  lemma ListedIsWritten(cx: Context, job: AppDConfig, stored: Option<AppDConfig>, t: TaskStatus, done: seq<nat>,
                        r: Rule, s: Stage, x: Cell)
    requires Staged(job, stored, t) && AllCompletable(cx, PlanOf(job, stored, t))
    requires done == seq(TotalRules(t), i => WAIT_CONFIG_DB_WRITE)
    requires Occupies(cx.dnsType, cx.app, stored, r, s, x) && IsActive(r) && Listed(r.id, StatusList(t, KindOf(r)))
    ensures Written(cx, PlanOf(job, stored, t), done, x)
  {
    hide PlanOf, Staged, ById;
    var plan := PlanOf(job, stored, t);
    OldRule(job, stored, t, KindOf(r), r);
    var k := PlanFor(job, stored, t, KindOf(r), r.id);
    assert Live(cx, plan, k, s);
    assert CompletableTo(cx, plan, k, WAIT_CONFIG_DB_WRITE);
    assert !plan[k].Create? && plan[k].stored == Defaulted(r);
    assert Completable(cx.app, s, plan[k]);
    assert DoneAt(cx, plan, done, k, s) && ChangeCell(cx.app, s, plan[k]) == x;
  }

  /** What an exact mirror holds in an own cell belongs to an active rule. */
  lemma HeldBelongs(d: DnsType, app: Uuid, c: Option<AppDConfig>, m: External, own: set<Cell>, x: Cell)
    returns (r: Rule, s: Stage)
    requires Exact(d, app, c, m, own) && x in own && x in m
    ensures Occupies(d, app, c, r, s, x) && IsActive(r)
  {
    r, s :| Occupies(d, app, c, r, s, x);
    assert Held(s, r).Some?;
  }

  /** The second half, for a cell that no change wrote: its stored rule is kept. */
  lemma UnwrittenBelongs(cx: Context, job: AppDConfig, stored: Option<AppDConfig>, t: TaskStatus, done: seq<nat>,
                         r: Rule, s: Stage, x: Cell)
    requires Staged(job, stored, t) && AllCompletable(cx, PlanOf(job, stored, t))
    requires done == seq(TotalRules(t), i => WAIT_CONFIG_DB_WRITE)
    requires Occupies(cx.dnsType, cx.app, stored, r, s, x) && IsActive(r)
    requires !Written(cx, PlanOf(job, stored, t), done, x)
    ensures Occupies(cx.dnsType, cx.app, Target(job), r, s, x)
  {
    hide PlanOf, Staged, ById, Written, AllCompletable;
    var kind := KindOf(r);
    OldRule(job, stored, t, kind, r);
    if Listed(r.id, StatusList(t, kind)) {
      ListedIsWritten(cx, job, stored, t, done, r, s, x);
    }
    Unlisted(job, stored, t, kind, r.id);
    FoundRule(Target(job), kind, r.id);
  }

  /** The second half: whatever is held belongs to a rule of the requested configuration. */
  lemma CompletedOnly(cx: Context, job: AppDConfig, stored: Option<AppDConfig>, t: TaskStatus, m0: External,
                      m: External,
                      done: seq<nat>, x: Cell) returns (r: Rule, s: Stage)
    requires Ready(cx, job, stored, t, m0) && AllCompletable(cx, PlanOf(job, stored, t))
    requires Ledger(cx, PlanOf(job, stored, t), done, m0, m)
    requires done == seq(TotalRules(t), i => WAIT_CONFIG_DB_WRITE)
    requires x in cx.own && x in m
    ensures Occupies(cx.dnsType, cx.app, Target(job), r, s, x)
  {
    hide PlanOf, Staged, ById, OwnCells, Apart, Exact, AllCompletable;
    var plan := PlanOf(job, stored, t);
    if Written(cx, plan, done, x) {
      var k;
      k, s :| DoneAt(cx, plan, done, k, s) && ChangeCell(cx.app, s, plan[k]) == x;
      StagedIsWorkable(job, stored, t);
      var kind, i := PlanSource(job, stored, t, k);
      StagedEntry(job, stored, t, kind, i);
      assert After(s, plan[k]).Some?;
      TargetIsJob(job, stored, t, kind, i);
      r := ById(StoredRules(Some(job), kind))[plan[k].Id()];
    } else {
      assert Lookup(m0, x) == Lookup(m, x);
      r, s := HeldBelongs(cx.dnsType, cx.app, stored, m0, cx.own, x);
      UnwrittenBelongs(cx, job, stored, t, done, r, s, x);
    }
  }

  /** An entry that creates or modifies belongs to a job that asks for a configuration. */
  lemma TargetIsJob(job: AppDConfig, stored: Option<AppDConfig>, t: TaskStatus, kind: Kind, i: nat)
    requires i < |StatusList(t, kind)|
    requires Classified(StatusList(t, kind)[i], ById(StoredRules(Target(job), kind)), ById(StoredRules(stored, kind)))
    requires StatusList(t, kind)[i].oper != OperDelete
    ensures Target(job) == Some(job)
  {
  }

  /** A completed task leaves an exact mirror of the configuration it was asked for. */
  lemma CompletedIsExact(cx: Context, job: AppDConfig, stored: Option<AppDConfig>, t: TaskStatus, m0: External,
                         m: External,
                         plan: seq<Change>, done: seq<nat>)
    requires Ready(cx, job, stored, t, m0) && plan == PlanOf(job, stored, t) && AllCompletable(cx, plan)
    requires done == seq(|plan|, i => WAIT_CONFIG_DB_WRITE)
    requires Ledger(cx, plan, done, m0, m)
    ensures Exact(cx.dnsType, cx.app, Target(job), m, cx.own)
  {
    hide Ready, Staged, PlanOf, AllCompletable, Ledger, Occupies;
    assert Staged(job, stored, t) by { ReadyIsStaged(cx, job, stored, t, m0); }
    forall r, s, x | Occupies(cx.dnsType, cx.app, Target(job), r, s, x) ensures Lookup(m, x) == Held(s, r) {
      CompletedHolds(cx, job, stored, t, m0, m, done, r, s, x);
    }
    forall x | x in cx.own && x in m ensures exists r, s :: Occupies(cx.dnsType, cx.app, Target(job), r, s, x) {
      var r, s := CompletedOnly(cx, job, stored, t, m0, m, done, x);
    }
  }

  lemma ReadyIsStaged(cx: Context, job: AppDConfig, stored: Option<AppDConfig>, t: TaskStatus, m: External)
    requires Ready(cx, job, stored, t, m)
    ensures Staged(job, stored, t)
  {
  }
}
