/**
 * A task whose rule ids repeat. States are recorded by id, so every entry with
 * an id moves the first of them. A pass over such a task that meets no failure
 * polls as a success, and is then turned down.
 */
module RepeatedIds {
  import opened AppConfig
  import opened RuleDiff
  import opened SyncLink
  import opened StatusDb
  import opened TaskPoll
  import opened Mirror
  import opened Staging

  /** The first entry with an id, or the length. */
  function First(list: seq<RuleStatus>, id: string): (j: nat)
    ensures j <= |list| && (j < |list| ==> list[j].id == id)
    ensures forall i :: 0 <= i < j ==> list[i].id != id
  {
    if |list| == 0 || list[0].id == id then 0 else 1 + First(list[1..], id)
  }

  /** What a successful record of a state does to the status. */
  function Recorded(t: TaskStatus, kind: Kind, id: string, state: nat): TaskStatus {
    var j := First(StatusList(t, kind), id);
    if j < |StatusList(t, kind)| then Advanced(t, kind, j, state) else t
  }

  /** It is the first entry with the id that SetStateAndProgress moves. */
  lemma RecordedIs(t: TaskStatus, kind: Kind, id: string, state: nat, j: int)
    requires IsFirst(StatusList(t, kind), j, id)
    ensures Recorded(t, kind, id, state) == Advanced(t, kind, j, state)
  {
  }

  /** The status after the first `n` entries of a kind went through their states without a failure. */
  function Passed(t: TaskStatus, kind: Kind, n: nat): TaskStatus
    requires n <= |StatusList(t, kind)|
  {
    if n == 0 then t
    else
      var id := StatusList(t, kind)[n - 1].id;
      Recorded(Recorded(Passed(t, kind, n - 1), kind, id, WAIT_LOCAL), kind, id, WAIT_CONFIG_DB_WRITE)
  }

  /** The list of a kind once its first `n` entries went through: the first entry of each of their ids is ready. */
  predicate PassedList(before: seq<RuleStatus>, after: seq<RuleStatus>, n: nat) {
    && |after| == |before|
    && forall i :: 0 <= i < |before| ==>
         after[i] == if i < n && First(before, before[i].id) == i then before[i].(state := WAIT_CONFIG_DB_WRITE)
                     else before[i]
  }

  lemma SameFirst(before: seq<RuleStatus>, after: seq<RuleStatus>, id: string)
    requires |after| == |before| && forall i :: 0 <= i < |before| ==> after[i].id == before[i].id
    ensures First(after, id) == First(before, id)
  {
    hide First;
  }

  /** One more entry: the count goes up by one, whichever entry is moved. */
  lemma PassedStep(t: TaskStatus, p: TaskStatus, kind: Kind, n: nat)
    requires n < |StatusList(t, kind)| && PassedList(StatusList(t, kind), StatusList(p, kind), n)
    ensures var id := StatusList(t, kind)[n].id;
      var q := Recorded(Recorded(p, kind, id, WAIT_LOCAL), kind, id, WAIT_CONFIG_DB_WRITE);
      && PassedList(StatusList(t, kind), StatusList(q, kind), n + 1) && q.progress == p.progress + 1
      && (forall kd :: kd != kind ==> StatusList(q, kd) == StatusList(p, kd))
  {
    hide First;
    var before, id := StatusList(t, kind), StatusList(t, kind)[n].id;
    var j := First(before, id);
    var p1 := Recorded(p, kind, id, WAIT_LOCAL);
    SameFirst(before, StatusList(p, kind), id);
    assert StatusList(p1, kind) == StatusList(p, kind)[j := StatusList(p, kind)[j].(state := WAIT_LOCAL)];
    SameFirst(before, StatusList(p1, kind), id);
  }

  lemma {:induction false} PassedIs(t: TaskStatus, kind: Kind, n: nat)
    requires n <= |StatusList(t, kind)|
    ensures PassedList(StatusList(t, kind), StatusList(Passed(t, kind, n), kind), n)
    ensures Passed(t, kind, n).progress == t.progress + n
    ensures forall kd :: kd != kind ==> StatusList(Passed(t, kind, n), kd) == StatusList(t, kd)
  {
    hide First, Recorded;
    if n > 0 {
      PassedIs(t, kind, n - 1);
      PassedStep(t, Passed(t, kind, n - 1), kind, n - 1);
    }
  }

  /** The status after a whole pass without a failure. */
  function PassedAll(t: TaskStatus): TaskStatus {
    var p := Passed(t, DnsKind, |t.dns|);
    Passed(p, TrafficKind, |StatusList(p, TrafficKind)|)
  }

  /** Every entry is ready, which is what the configuration write asks for. */
  predicate AllReady(t: TaskStatus) {
    forall kind, i :: 0 <= i < |StatusList(t, kind)| ==> StatusList(t, kind)[i].state == WAIT_CONFIG_DB_WRITE
  }

  /** The first entries of their ids are all entries exactly when no id repeats. */
  lemma AllFirstIff(list: seq<RuleStatus>)
    ensures (forall i :: 0 <= i < |list| ==> First(list, list[i].id) == i) <==> UniqueStatusIds(list)
  {
    var ids := EntryIds(list);
    if UniqueStatusIds(list) {
      forall i | 0 <= i < |list| ensures First(list, list[i].id) == i {
        var j := First(list, list[i].id);
        assert ids[j] == ids[i];
      }
    } else {
      var i, j :| 0 <= i < j < |ids| && ids[i] == ids[j];
      assert list[i].id == list[j].id && First(list, list[j].id) <= i;
    }
  }

  /**
   * A pass without a failure always polls as a success. The configuration write
   * then goes ahead if and only if no id repeats; otherwise the task is marked
   * as failed, so that a client sees success before failure.
   */
  lemma SuccessStandsIff(t: TaskStatus)
    requires t.progress == 0 && TotalRules(t) > 0
    requires forall kind, i :: 0 <= i < |StatusList(t, kind)| ==> StatusList(t, kind)[i].state == WAIT_MP2
    ensures var p := PassedAll(t);
      && TotalRules(p) == TotalRules(t) && Progress(p) == Poll(Success, 100)
      && (AllReady(p) <==> UniqueStatusIds(t.dns) && UniqueStatusIds(t.traffic))
      && Progress(p.(progress := PROGRESS_FAILURE)).state == Failure
  {
    hide First, UniqueStatusIds;
    var d := Passed(t, DnsKind, |t.dns|);
    PassedIs(t, DnsKind, |t.dns|);
    assert StatusList(t, DnsKind) == t.dns && StatusList(t, TrafficKind) == t.traffic;
    assert StatusList(d, TrafficKind) == t.traffic;
    PassedIs(d, TrafficKind, |t.traffic|);
    var p := PassedAll(t);
    assert StatusList(p, DnsKind) == StatusList(d, DnsKind) && StatusList(p, DnsKind) == p.dns;
    FullIsTotal(p.progress, TotalRules(p));
    AllFirstIff(t.dns);
    AllFirstIff(t.traffic);
    ReadyIff(t.dns, StatusList(p, DnsKind));
    ReadyIff(t.traffic, StatusList(p, TrafficKind));
  }

  lemma ReadyIff(before: seq<RuleStatus>, after: seq<RuleStatus>)
    requires PassedList(before, after, |before|) && forall i :: 0 <= i < |before| ==> before[i].state == WAIT_MP2
    ensures (forall i :: 0 <= i < |after| ==> after[i].state == WAIT_CONFIG_DB_WRITE)
       <==> (forall i :: 0 <= i < |before| ==> First(before, before[i].id) == i)
  {
    hide First;
    forall i | 0 <= i < |before|
      ensures after[i].state == WAIT_CONFIG_DB_WRITE <==> First(before, before[i].id) == i
    {
    }
  }

  const INACTIVE_RULE: TrafficRule := Rule("r", Inactive, Traffic("FLOW", 1, [], "DROP", []))

  /** A create request with two inactive traffic rules of one id, which no target is asked about. */
  const TWICE := AppDConfig([], [INACTIVE_RULE, INACTIVE_RULE], "app", PostOp)

  const LISTED := RuleStatus("r", WAIT_MP2, OperCreate)

  const TWICE_LISTED := TaskStatus(0, [], [LISTED, LISTED], "")

  /** Such a request is staged, polls as a success and then as a failure. */
  lemma RepeatedIdLeavesSuccess(app: Uuid, task: Uuid)
    ensures StagedAs(map[], WithRecords(map[], app, task, TWICE, TWICE_LISTED), app, task, TWICE, TWICE_LISTED)
    ensures var p := PassedAll(TWICE_LISTED);
      && TotalRules(p) == 2 && Progress(p) == Poll(Success, 100)
      && !AllReady(p) && Progress(p.(progress := PROGRESS_FAILURE)).state == Failure
  {
    TwiceIsCompared();
    var t := TWICE_LISTED;
    assert EntryIds(t.traffic)[0] == EntryIds(t.traffic)[1];
    assert StatusList(t, DnsKind) == [];
    SuccessStandsIff(t);
  }

  lemma TwiceIsCompared()
    ensures Compared(TWICE, None, TWICE_LISTED)
  {
    var c, t := TWICE, TWICE_LISTED;
    assert c.traffic[..1] == [INACTIVE_RULE] && [INACTIVE_RULE][..0] == [];
    assert ById([INACTIVE_RULE]) == map["r" := INACTIVE_RULE];
    assert ById(c.traffic) == map["r" := INACTIVE_RULE];
    forall id | Differs(id, ById(c.traffic), map[]) ensures Listed(id, t.traffic) {
      assert id == "r" && t.traffic[0].id == "r";
    }
    assert Lists(t.traffic, ById(c.traffic), map[]) && Lists(t.dns, map[], map[]);
    assert StoredRules(Target(c), DnsKind) == [] && StoredRules(Target(c), TrafficKind) == c.traffic;
    assert RuleIds(c.traffic)[0] == RuleIds(c.traffic)[1];
    assert StoredRules(Some(c), TrafficKind) == c.traffic;
    BothKinds(c, None, t);
  }
}
