/** How the status record, the job and the stored configuration of a task correspond to its plan. */
module SyncLink {
  import opened AppConfig
  import opened RuleOps
  import opened RuleMaps
  import opened StatusDb
  import opened TaskPoll

  /** DNS entries come first in the plan. */
  function Offset(t: TaskStatus, kind: Kind): nat {
    if kind == DnsKind then 0 else |t.dns|
  }

  function StoredRules(stored: Option<AppDConfig>, kind: Kind): seq<Rule> {
    if stored.Some? then Rules(stored.value, kind) else []
  }

  ghost predicate Links(plan: seq<Change>, t: TaskStatus, job: AppDConfig, stored: Option<AppDConfig>) {
    && |plan| == TotalRules(t)
    && (forall kind :: UniqueStatusIds(StatusList(t, kind)))
    && (forall kind :: UniqueIds(Rules(job, kind)) && UniqueIds(StoredRules(stored, kind)))
    && forall kind, i :: 0 <= i < |StatusList(t, kind)| ==> EntryLinks(plan, t, job, stored, kind, i)
  }

  ghost predicate EntryLinks(plan: seq<Change>, t: TaskStatus, job: AppDConfig, stored: Option<AppDConfig>,
                             kind: Kind, i: nat)
    requires |plan| == TotalRules(t) && i < |StatusList(t, kind)|
  {
    Resolves(plan[Offset(t, kind) + i], StatusList(t, kind)[i], kind,
             ById(Rules(job, kind)), ById(StoredRules(stored, kind)))
  }

  /** Every entry of the status record finds the rules that its operation needs. */
  ghost predicate Findable(t: TaskStatus, job: AppDConfig, stored: Option<AppDConfig>) {
    forall kind, i :: 0 <= i < |StatusList(t, kind)| ==>
      EntryFound(StatusList(t, kind)[i], ById(Rules(job, kind)), ById(StoredRules(stored, kind)))
  }

  /** Two status records of one task list the same ids and operations. */
  ghost predicate SameEntries(t: TaskStatus, t': TaskStatus) {
    forall kind ::
      && |StatusList(t', kind)| == |StatusList(t, kind)|
      && forall i :: 0 <= i < |StatusList(t, kind)| ==>
           && StatusList(t', kind)[i].id == StatusList(t, kind)[i].id
           && StatusList(t', kind)[i].oper == StatusList(t, kind)[i].oper
  }

  lemma EntriesOn(t: TaskStatus, t': TaskStatus, t'': TaskStatus, kind: Kind, i: nat)
    requires SameEntries(t, t') && SameEntries(t', t'') && i < |StatusList(t, kind)|
    ensures SameEntries(t, t'')
    ensures |StatusList(t'', kind)| == |StatusList(t, kind)| && StatusList(t'', kind)[i].id == StatusList(t, kind)[i].id
    ensures StatusList(t'', kind)[i].oper == StatusList(t, kind)[i].oper
  {
  }

  lemma EntriesSame(t: TaskStatus)
    ensures SameEntries(t, t)
  {
  }

  lemma StillFindable(t: TaskStatus, t': TaskStatus, job: AppDConfig, stored: Option<AppDConfig>)
    requires Findable(t, job, stored) && SameEntries(t, t')
    ensures Findable(t', job, stored)
  {
    hide ById;
    forall kind, i | 0 <= i < |StatusList(t', kind)|
      ensures EntryFound(StatusList(t', kind)[i], ById(Rules(job, kind)), ById(StoredRules(stored, kind)))
    {
      assert EntryFound(StatusList(t, kind)[i], ById(Rules(job, kind)), ById(StoredRules(stored, kind)));
    }
  }

  lemma EntriesAdvanced(t: TaskStatus, kind: Kind, j: nat, state: nat)
    requires j < |StatusList(t, kind)|
    ensures SameEntries(t, Advanced(t, kind, j, state))
  {
  }

  lemma FindableDefault(t: TaskStatus, job: AppDConfig, stored: Option<AppDConfig>, kind: Kind, id: string)
    requires Findable(t, job, stored)
    ensures Findable(t, WithDefault(job, kind, id), stored)
  {
    hide WithDefault;
    var job' := WithDefault(job, kind, id);
    forall kd ensures ById(Rules(job', kd)).Keys == ById(Rules(job, kd)).Keys {
      DefaultOf(job, kind, id, kd);
      ByIdDefaults(Rules(job, kd), Rules(job', kd), if kd == kind then {id} else {});
    }
    forall kd, i | 0 <= i < |StatusList(t, kd)|
      ensures EntryFound(StatusList(t, kd)[i], ById(Rules(job', kd)), ById(StoredRules(stored, kd)))
    {
      assert EntryFound(StatusList(t, kd)[i], ById(Rules(job, kd)), ById(StoredRules(stored, kd)));
    }
  }

  /** With repeated ids there is still a first entry with an id. */
  lemma FirstExists(list: seq<RuleStatus>, i: nat) returns (j: nat)
    requires i < |list|
    ensures IsFirst(list, j, list[i].id)
  {
    j := 0;
    while list[j].id != list[i].id
      invariant j <= i && forall k :: 0 <= k < j ==> list[k].id != list[i].id
      decreases i - j
    {
      j := j + 1;
    }
  }

  /** Entries from `from` on record the states that `done` counts. */
  ghost predicate Tracks(done: seq<nat>, t: TaskStatus, from: nat) {
    && |done| == TotalRules(t)
    && forall kind, i :: 0 <= i < |StatusList(t, kind)| && from <= Offset(t, kind) + i ==>
         StatusList(t, kind)[i].state == done[Offset(t, kind) + i] <= WAIT_CONFIG_DB_WRITE
  }

  /** Defaults written into the job do not change what an entry resolves to. */
  lemma ResolvesDefault(ch: Change, st: RuleStatus, kind: Kind, job: seq<Rule>, job': seq<Rule>,
                        touched: set<string>, store: map<string, Rule>)
    requires Resolves(ch, st, kind, ById(job), store) && DefaultsWritten(job, job', touched)
    ensures Resolves(ch, st, kind, ById(job'), store)
  {
    ByIdDefaults(job, job', touched);
  }

  lemma DefaultOf(job: AppDConfig, kind: Kind, id: string, kd: Kind)
    ensures DefaultsWritten(Rules(job, kd), Rules(WithDefault(job, kind, id), kd), if kd == kind then {id} else {})
  {
  }

  lemma LinksDefault(plan: seq<Change>, t: TaskStatus, job: AppDConfig, stored: Option<AppDConfig>, kind: Kind,
                     id: string)
    requires Links(plan, t, job, stored)
    ensures Links(plan, t, WithDefault(job, kind, id), stored)
  {
    var job' := WithDefault(job, kind, id);
    forall kd ensures UniqueIds(Rules(job', kd)) {
      DefaultOf(job, kind, id, kd);
      assert RuleIds(Rules(job', kd)) == RuleIds(Rules(job, kd));
      assert UniqueIds(Rules(job, kd));
    }
    forall kd, i | 0 <= i < |StatusList(t, kd)| ensures EntryLinks(plan, t, job', stored, kd, i) {
      DefaultOf(job, kind, id, kd);
      assert EntryLinks(plan, t, job, stored, kd, i);
      ResolvesDefault(plan[Offset(t, kd) + i], StatusList(t, kd)[i], kd, Rules(job, kd), Rules(job', kd),
                      if kd == kind then {id} else {}, ById(StoredRules(stored, kd)));
    }
  }

  lemma ListAdvanced(t: TaskStatus, kind: Kind, i: nat, state: nat, kd: Kind)
    requires i < |StatusList(t, kind)|
    ensures StatusList(Advanced(t, kind, i, state), kd) ==
      if kd == kind then StatusList(t, kd)[i := StatusList(t, kd)[i].(state := state)] else StatusList(t, kd)
    ensures Offset(Advanced(t, kind, i, state), kd) == Offset(t, kd)
  {
  }

  lemma LinksAdvanced(plan: seq<Change>, t: TaskStatus, job: AppDConfig, stored: Option<AppDConfig>,
                      kind: Kind, i: nat, state: nat)
    requires Links(plan, t, job, stored) && i < |StatusList(t, kind)|
    ensures Links(plan, Advanced(t, kind, i, state), job, stored)
  {
    var t' := Advanced(t, kind, i, state);
    forall kd ensures UniqueStatusIds(StatusList(t', kd)) {
      ListAdvanced(t, kind, i, state, kd);
      assert EntryIds(StatusList(t', kd)) == EntryIds(StatusList(t, kd));
      assert UniqueStatusIds(StatusList(t, kd));
    }
    forall kd, j | 0 <= j < |StatusList(t', kd)| ensures EntryLinks(plan, t', job, stored, kd, j) {
      ListAdvanced(t, kind, i, state, kd);
      assert EntryLinks(plan, t, job, stored, kd, j);
    }
  }

  lemma TracksAdvanced(done: seq<nat>, t: TaskStatus, from: nat, kind: Kind, i: nat, state: nat)
    requires Tracks(done, t, from) && i < |StatusList(t, kind)| && state <= WAIT_CONFIG_DB_WRITE
    ensures Tracks(done[Offset(t, kind) + i := state], Advanced(t, kind, i, state), from)
  {
    var t' := Advanced(t, kind, i, state);
    var done' := done[Offset(t, kind) + i := state];
    forall kd, j | 0 <= j < |StatusList(t', kd)| && from <= Offset(t', kd) + j
      ensures StatusList(t', kd)[j].state == done'[Offset(t', kd) + j] <= WAIT_CONFIG_DB_WRITE
    {
      ListAdvanced(t, kind, i, state, kd);
      assert StatusList(t, kd)[j].state == done[Offset(t, kd) + j] <= WAIT_CONFIG_DB_WRITE;
    }
  }

  /** Progress and failure details take no part in the correspondence. */
  lemma SameLists(plan: seq<Change>, t: TaskStatus, t': TaskStatus, job: AppDConfig, stored: Option<AppDConfig>)
    requires Links(plan, t, job, stored)
    requires t.dns == t'.dns && t.traffic == t'.traffic
    ensures Links(plan, t', job, stored)
    ensures ReadyRules(t) == ReadyRules(t') && TotalRules(t) == TotalRules(t')
  {
    forall kd ensures UniqueStatusIds(StatusList(t', kd)) {
      assert UniqueStatusIds(StatusList(t, kd));
    }
    forall kd, j | 0 <= j < |StatusList(t', kd)| ensures EntryLinks(plan, t', job, stored, kd, j) {
      assert EntryLinks(plan, t, job, stored, kd, j);
    }
  }

  lemma SameTracks(done: seq<nat>, t: TaskStatus, t': TaskStatus, from: nat)
    requires Tracks(done, t, from) && t.dns == t'.dns && t.traffic == t'.traffic
    ensures Tracks(done, t', from)
  {
    forall kd, j | 0 <= j < |StatusList(t', kd)| && from <= Offset(t', kd) + j
      ensures StatusList(t', kd)[j].state == done[Offset(t', kd) + j] <= WAIT_CONFIG_DB_WRITE
    {
      assert StatusList(t, kd)[j].state == done[Offset(t, kd) + j] <= WAIT_CONFIG_DB_WRITE;
    }
  }

  lemma EntryIsFirst(list: seq<RuleStatus>, i: nat)
    requires UniqueStatusIds(list) && i < |list|
    ensures IsFirst(list, i, list[i].id)
  {
    assert forall j :: 0 <= j < i ==> EntryIds(list)[j] != EntryIds(list)[i];
    assert forall j :: 0 <= j < i ==> list[j].id == EntryIds(list)[j];
  }

  /** Only a move to the last state changes the number of ready rules. */
  lemma ReadyAdvanced(t: TaskStatus, kind: Kind, i: nat, state: nat)
    requires i < |StatusList(t, kind)| && StatusList(t, kind)[i].state != WAIT_CONFIG_DB_WRITE
    ensures ReadyRules(Advanced(t, kind, i, state))
         == ReadyRules(t) + if state == WAIT_CONFIG_DB_WRITE then 1 else 0
  {
    CountReadyUpdate(StatusList(t, kind), i, StatusList(t, kind)[i].(state := state));
  }

  /** Moving an entry to an earlier state makes none ready. */
  lemma ReadyFalls(t: TaskStatus, kind: Kind, i: nat, state: nat)
    requires i < |StatusList(t, kind)| && state < WAIT_CONFIG_DB_WRITE
    ensures ReadyRules(Advanced(t, kind, i, state)) <= ReadyRules(t)
  {
    CountReadyUpdate(StatusList(t, kind), i, StatusList(t, kind)[i].(state := state));
  }

  /** The count reaches the total exactly when every entry is ready. */
  lemma ReadyIsTotal(t: TaskStatus)
    ensures ReadyRules(t) <= TotalRules(t)
    ensures ReadyRules(t) == TotalRules(t) <==>
      forall kind, i :: 0 <= i < |StatusList(t, kind)| ==> StatusList(t, kind)[i].state == WAIT_CONFIG_DB_WRITE
  {
    CountReadyFull(t.dns);
    CountReadyFull(t.traffic);
    assert StatusList(t, DnsKind) == t.dns && StatusList(t, TrafficKind) == t.traffic;
  }

  /** Where an entry of a list stands in the plan, given the number of DNS entries. */
  function Position(split: nat, kind: Kind, i: nat): nat {
    if kind == DnsKind then i else split + i
  }

  /** The whole in-memory and persisted bookkeeping of an apply pass. */
  ghost predicate Books(plan: seq<Change>, split: nat, done: seq<nat>, t: TaskStatus, pushed: seq<TaskStatus>,
                        job: AppDConfig, stored: Option<AppDConfig>)
  {
    && |t.dns| == split
    && Links(plan, t, job, stored) && Tracks(done, t, 0)
    && t.progress == ReadyRules(t)
    && Climbing(pushed, |plan|) && pushed[|pushed| - 1].progress == t.progress && Exactly(pushed)
  }

  /** What the books say about one entry. */
  lemma BooksEntry(plan: seq<Change>, split: nat, done: seq<nat>, t: TaskStatus, pushed: seq<TaskStatus>,
                   job: AppDConfig, stored: Option<AppDConfig>, kind: Kind, i: nat)
    requires Books(plan, split, done, t, pushed, job, stored) && i < |StatusList(t, kind)|
    ensures |plan| == |done| == TotalRules(t) && Position(split, kind, i) < |plan|
    ensures var k := Position(split, kind, i);
      && StatusList(t, kind)[i] == RuleStatus(plan[k].Id(), done[k], plan[k].Oper()) && done[k] <= WAIT_CONFIG_DB_WRITE
      && KindOf(plan[k].Subject()) == kind
      && Resolves(plan[k], StatusList(t, kind)[i], kind, ById(Rules(job, kind)), ById(StoredRules(stored, kind)))
    ensures IsFirst(StatusList(t, kind), i, StatusList(t, kind)[i].id)
  {
    hide Climbing, Distinct, CountReady;
    assert EntryLinks(plan, t, job, stored, kind, i);
    assert UniqueStatusIds(StatusList(t, kind));
    EntryIsFirst(StatusList(t, kind), i);
  }

  lemma BooksUnique(plan: seq<Change>, split: nat, done: seq<nat>, t: TaskStatus, pushed: seq<TaskStatus>,
                    job: AppDConfig, stored: Option<AppDConfig>, kind: Kind)
    requires Books(plan, split, done, t, pushed, job, stored)
    ensures UniqueIds(Rules(job, kind)) && UniqueIds(StoredRules(stored, kind))
    ensures |done| == |plan| == TotalRules(t) && |t.dns| == split
  {
    hide Distinct, Climbing;
  }

  lemma BooksAdvanced(plan: seq<Change>, split: nat, done: seq<nat>, t: TaskStatus, pushed: seq<TaskStatus>,
                      job: AppDConfig, stored: Option<AppDConfig>, kind: Kind, i: nat, j: int, state: nat)
    requires Books(plan, split, done, t, pushed, job, stored)
    requires i < |StatusList(t, kind)| && IsFirst(StatusList(t, kind), j, StatusList(t, kind)[i].id)
    requires StatusList(t, kind)[i].state < state <= WAIT_CONFIG_DB_WRITE
    ensures var t' := Advanced(t, kind, j, state);
      Books(plan, split, done[Position(split, kind, i) := state], t', pushed + [t'], job, stored)
  {
    hide Links, Tracks, Climbing, CountReady, ById, Resolves, EntryIds;
    BooksEntry(plan, split, done, t, pushed, job, stored, kind, i);
    assert i == j;
    var t' := Advanced(t, kind, i, state);
    ListAdvanced(t, kind, i, state, DnsKind);
    LinksAdvanced(plan, t, job, stored, kind, i, state);
    TracksAdvanced(done, t, 0, kind, i, state);
    ReadyAdvanced(t, kind, i, state);
    ReadyIsTotal(t');
    ClimbOn(pushed, t', |plan|);
  }

  lemma BooksDetails(plan: seq<Change>, split: nat, done: seq<nat>, t: TaskStatus, t': TaskStatus,
                     pushed: seq<TaskStatus>,
                     job: AppDConfig, stored: Option<AppDConfig>)
    requires Books(plan, split, done, t, pushed, job, stored) && t' == t.(details := t'.details)
    ensures Books(plan, split, done, t', pushed, job, stored)
  {
    SameLists(plan, t, t', job, stored);
    SameTracks(done, t, t', 0);
  }

  lemma BooksDefault(plan: seq<Change>, split: nat, done: seq<nat>, t: TaskStatus, pushed: seq<TaskStatus>,
                     job: AppDConfig, stored: Option<AppDConfig>, kind: Kind, id: string)
    requires Books(plan, split, done, t, pushed, job, stored)
    ensures Books(plan, split, done, t, pushed, WithDefault(job, kind, id), stored)
  {
    LinksDefault(plan, t, job, stored, kind, id);
  }

  /** The rules whose operations write the default state back into the job. */
  ghost function Touched(changes: seq<Change>): set<string> {
    set ch | ch in changes && !ch.Delete? :: ch.Id()
  }

  /** The job after changes of one kind were applied: defaults in the touched rules, nothing else changed. */
  ghost predicate JobAfter(before: AppDConfig, after: AppDConfig, kind: Kind, changes: seq<Change>) {
    && DefaultsWritten(Rules(before, kind), Rules(after, kind), Touched(changes))
    && after == if kind == DnsKind then before.(dns := after.dns) else before.(traffic := after.traffic)
  }

  lemma JobAfterNone(job: AppDConfig, kind: Kind, plan: seq<Change>, from: nat)
    requires from <= |plan|
    ensures JobAfter(job, job, kind, plan[from..from])
  {
  }

  lemma JobAfterEntry(before: AppDConfig, job: AppDConfig, kind: Kind, plan: seq<Change>, from: nat, k: nat)
    requires from <= k < |plan| && JobAfter(before, job, kind, plan[from..k])
    ensures var job' := if plan[k].Oper() == OperDelete then job else WithDefault(job, kind, plan[k].Id());
      JobAfter(before, job', kind, plan[from..k + 1])
  {
    assert plan[from..k + 1] == plan[from..k] + [plan[k]];
    assert Touched(plan[from..k + 1]) == Touched(plan[from..k]) + if plan[k].Delete? then {} else {plan[k].Id()};
    DefaultOf(job, kind, plan[k].Id(), kind);
  }

  /** Looking an entry of the plan up in the maps gives the call that the plan prescribes. */
  ghost predicate MapsResolve(app: Uuid, f: Func, plan: seq<Change>, k: nat, newMap: map<string, Rule>,
                              oldMap: map<string, Rule>)
    requires k < |plan|
  {
    forall s :: TableCall(app, f, s, plan[k].Oper(), Lookup(newMap, plan[k].Id()), Lookup(oldMap, plan[k].Id()))
             == Some(if f == ApplyFunc then ApplyCall(app, s, plan[k]) else RevertCall(app, s, plan[k]))
  }

  lemma BooksResolve(app: Uuid, plan: seq<Change>, split: nat, done: seq<nat>, t: TaskStatus, pushed: seq<TaskStatus>,
                     job: AppDConfig, stored: Option<AppDConfig>, kind: Kind, i: nat)
    requires Books(plan, split, done, t, pushed, job, stored) && i < |StatusList(t, kind)|
    ensures Position(split, kind, i) < |plan|
    ensures MapsResolve(app, ApplyFunc, plan, Position(split, kind, i),
              ById(StoredRules(stored, kind)) + ById(Rules(job, kind)), ById(StoredRules(stored, kind)))
    ensures MapsResolve(app, RevertFunc, plan, Position(split, kind, i),
              ById(Rules(job, kind)) + ById(StoredRules(stored, kind)), ById(Rules(job, kind)))
  {
    hide Books, Resolves, TableCall, ApplyCall, RevertCall;
    BooksEntry(plan, split, done, t, pushed, job, stored, kind, i);
    forall s {
      TableResolves(app, s, plan[Position(split, kind, i)], StatusList(t, kind)[i], kind,
                    ById(Rules(job, kind)), ById(StoredRules(stored, kind)));
    }
  }

  /** The bookkeeping of a revert pass that has dealt with the entries before `from`. */
  ghost predicate RevertBooks(plan: seq<Change>, split: nat, done: seq<nat>, t: TaskStatus, pushed: seq<TaskStatus>,
                              job: AppDConfig, stored: Option<AppDConfig>, from: nat)
  {
    && |t.dns| == split
    && Links(plan, t, job, stored) && Tracks(done, t, from)
    && Climbing(pushed, |plan|) && ReadyRules(t) <= pushed[|pushed| - 1].progress == t.progress < |plan|
  }

  /** A pass that stops short of the last state starts its revert below the total. */
  lemma StartRevert(plan: seq<Change>, split: nat, done: seq<nat>, t: TaskStatus, pushed: seq<TaskStatus>,
                    job: AppDConfig, stored: Option<AppDConfig>, q: nat)
    requires Books(plan, split, done, t, pushed, job, stored) && q < |done| && done[q] < WAIT_CONFIG_DB_WRITE
    ensures RevertBooks(plan, split, done, t, pushed, job, stored, 0)
  {
    hide Links, Climbing, CountReady, UniqueIds;
    ReadyIsTotal(t);
    TotalOfLinks(plan, t, job, stored);
    if q < split {
      assert StatusList(t, DnsKind)[q].state == done[q];
    } else {
      assert StatusList(t, TrafficKind)[q - split].state == done[q];
    }
  }

  lemma TotalOfLinks(plan: seq<Change>, t: TaskStatus, job: AppDConfig, stored: Option<AppDConfig>)
    requires Links(plan, t, job, stored)
    ensures |plan| == TotalRules(t)
    ensures forall kind :: UniqueIds(Rules(job, kind)) && UniqueIds(StoredRules(stored, kind))
  {
    hide Distinct;
  }

  lemma RevertEntry(plan: seq<Change>, split: nat, done: seq<nat>, t: TaskStatus, pushed: seq<TaskStatus>,
                    job: AppDConfig, stored: Option<AppDConfig>, from: nat, kind: Kind, i: nat)
    requires RevertBooks(plan, split, done, t, pushed, job, stored, from) && i < |StatusList(t, kind)|
    ensures |plan| == |done| == TotalRules(t) && Position(split, kind, i) < |plan|
    ensures var k := Position(split, kind, i);
      && StatusList(t, kind)[i].id == plan[k].Id() && StatusList(t, kind)[i].oper == plan[k].Oper()
      && (from <= k ==> StatusList(t, kind)[i].state == done[k] <= WAIT_CONFIG_DB_WRITE)
      && KindOf(plan[k].Subject()) == kind
      && Resolves(plan[k], StatusList(t, kind)[i], kind, ById(Rules(job, kind)), ById(StoredRules(stored, kind)))
    ensures IsFirst(StatusList(t, kind), i, StatusList(t, kind)[i].id)
  {
    hide Climbing, Distinct, CountReady;
    assert EntryLinks(plan, t, job, stored, kind, i);
    assert UniqueStatusIds(StatusList(t, kind));
    EntryIsFirst(StatusList(t, kind), i);
  }

  lemma RevertResolve(app: Uuid, plan: seq<Change>, split: nat, done: seq<nat>, t: TaskStatus, pushed: seq<TaskStatus>,
                      job: AppDConfig, stored: Option<AppDConfig>, from: nat, kind: Kind, i: nat)
    requires RevertBooks(plan, split, done, t, pushed, job, stored, from) && i < |StatusList(t, kind)|
    ensures Position(split, kind, i) < |plan|
    ensures MapsResolve(app, RevertFunc, plan, Position(split, kind, i),
              ById(Rules(job, kind)) + ById(StoredRules(stored, kind)), ById(Rules(job, kind)))
  {
    hide RevertBooks, Resolves, TableCall, ApplyCall, RevertCall;
    RevertEntry(plan, split, done, t, pushed, job, stored, from, kind, i);
    forall s {
      TableResolves(app, s, plan[Position(split, kind, i)], StatusList(t, kind)[i], kind,
                    ById(Rules(job, kind)), ById(StoredRules(stored, kind)));
    }
  }

  /** Writing back a lower state keeps the revert books; the count does not move. */
  lemma RevertBooksAdvanced(plan: seq<Change>, split: nat, done: seq<nat>, t: TaskStatus, pushed: seq<TaskStatus>,
                            job: AppDConfig, stored: Option<AppDConfig>, kind: Kind, i: nat, j: int, state: nat)
    requires RevertBooks(plan, split, done, t, pushed, job, stored, Position(split, kind, i) + 1)
    requires i < |StatusList(t, kind)| && IsFirst(StatusList(t, kind), j, StatusList(t, kind)[i].id)
    requires state < WAIT_CONFIG_DB_WRITE
    ensures var t' := Advanced(t, kind, j, state);
      RevertBooks(plan, split, done, t', pushed + [t'], job, stored, Position(split, kind, i) + 1)
  {
    hide Links, Tracks, Climbing, CountReady, ById, Resolves, EntryIds;
    RevertEntry(plan, split, done, t, pushed, job, stored, Position(split, kind, i) + 1, kind, i);
    assert i == j;
    var t' := Advanced(t, kind, i, state);
    LinksAdvanced(plan, t, job, stored, kind, i, state);
    TracksAdvanced(done, t, Position(split, kind, i) + 1, kind, i, state);
    TracksBeyond(done, t', Position(split, kind, i) + 1, Position(split, kind, i), state);
    ReadyFalls(t, kind, i, state);
    ClimbOn(pushed, t', |plan|);
  }

  /** Tracking from a position on does not depend on earlier counts. */
  lemma TracksBeyond(done: seq<nat>, t: TaskStatus, from: nat, k: nat, n: nat)
    requires k < |done| && k < from && Tracks(done[k := n], t, from)
    ensures Tracks(done, t, from)
  {
  }

  lemma RevertBooksDone(plan: seq<Change>, split: nat, done: seq<nat>, t: TaskStatus, pushed: seq<TaskStatus>,
                        job: AppDConfig, stored: Option<AppDConfig>, from: nat, k: nat, n: nat)
    requires RevertBooks(plan, split, done, t, pushed, job, stored, from) && from <= k < |done|
    ensures RevertBooks(plan, split, done[k := n], t, pushed, job, stored, k + 1)
  {
  }

  /** The entry being undone is no longer tracked, so its count is free. */
  lemma RevertBooksCurrent(plan: seq<Change>, split: nat, done: seq<nat>, t: TaskStatus, pushed: seq<TaskStatus>,
                           job: AppDConfig, stored: Option<AppDConfig>, k: nat, n: nat)
    requires RevertBooks(plan, split, done, t, pushed, job, stored, k + 1) && k < |done|
    ensures RevertBooks(plan, split, done[k := n], t, pushed, job, stored, k + 1)
  {
  }

  lemma RevertBooksLawful(plan: seq<Change>, split: nat, done: seq<nat>, t: TaskStatus, pushed: seq<TaskStatus>,
                          job: AppDConfig, stored: Option<AppDConfig>, from: nat)
    requires RevertBooks(plan, split, done, t, pushed, job, stored, from)
    ensures Lawful(pushed, |plan|)
  {
  }

}
