/**
 * The plan of a sync task and the ledger that ties the content of the external
 * systems to it: which stages of which changes have been carried out.
 */
module SyncPlan {
  import opened AppConfig
  import opened Targets
  import opened RuleOps

  datatype Context = Context(app: Uuid, dnsType: DnsType, own: set<Cell>)

  function StageState(s: Stage): nat {
    if s == Mp2 then WAIT_MP2 else WAIT_LOCAL
  }

  ghost predicate Live(cx: Context, plan: seq<Change>, i: int, s: Stage) {
    0 <= i < |plan| && Enabled(cx.dnsType, KindOf(plan[i].Subject()), s)
  }

  /** `done[i]` counts the states that change `i` has passed. */
  ghost predicate DoneAt(cx: Context, plan: seq<Change>, done: seq<nat>, i: int, s: Stage)
    requires |done| == |plan|
  {
    Live(cx, plan, i, s) && StageState(s) < done[i]
  }

  /** The changes address cells that belong to the task. */
  ghost predicate Owned(cx: Context, plan: seq<Change>) {
    forall i, s :: Live(cx, plan, i, s) ==> StageCells(cx.app, s, plan[i]) <= cx.own
  }

  /** Distinct changes address distinct cells, and all of them belong to the task. */
  ghost predicate Separate(cx: Context, plan: seq<Change>) {
    && Owned(cx, plan)
    && (forall i, j, s, t :: Live(cx, plan, i, s) && Live(cx, plan, j, t) && i != j ==>
          StageCells(cx.app, s, plan[i]) !! StageCells(cx.app, t, plan[j]))
    && (forall i :: 0 <= i < |plan| ==> plan[i].Coherent())
  }

  ghost predicate Mirrors(cx: Context, plan: seq<Change>, m: External) {
    forall i, s :: Live(cx, plan, i, s) ==> MirrorsStage(m, cx.app, s, plan[i])
  }

  /** The stages of change `k` below a state are all accepted by a mirroring target. */
  ghost predicate CompletableTo(cx: Context, plan: seq<Change>, k: nat, state: nat) {
    forall s :: Live(cx, plan, k, s) && StageState(s) < state ==> Completable(cx.app, s, plan[k])
  }

  ghost predicate AllCompletable(cx: Context, plan: seq<Change>) {
    forall k :: 0 <= k < |plan| ==> CompletableTo(cx, plan, k, WAIT_CONFIG_DB_WRITE)
  }

  ghost predicate AllKept(cx: Context, plan: seq<Change>) {
    forall i, s :: Live(cx, plan, i, s) ==> Kept(cx.app, s, plan[i])
  }

  ghost predicate Written(cx: Context, plan: seq<Change>, done: seq<nat>, c: Cell)
    requires |done| == |plan|
  {
    exists i, s :: DoneAt(cx, plan, done, i, s) && ChangeCell(cx.app, s, plan[i]) == c
  }

  /** The done stages hold their new values, every other own cell what it held in `base`. */
  ghost predicate Ledger(cx: Context, plan: seq<Change>, done: seq<nat>, base: External, m: External) {
    && |done| == |plan|
    && (forall i, s :: DoneAt(cx, plan, done, i, s) ==>
          && Lookup(m, ChangeCell(cx.app, s, plan[i])) == After(s, plan[i])
          && MirrorsStage(base, cx.app, s, plan[i])
          && Completable(cx.app, s, plan[i]))
    && (forall c :: c in cx.own && !Written(cx, plan, done, c) ==> Lookup(m, c) == Lookup(base, c))
  }

  function Patched(m: External, c: Cell, v: Option<Value>): External {
    if v.Some? then m[c := v.value] else m - {c}
  }

  /** One stage of change `k` has left its new value behind in an otherwise unchanged base. */
  ghost predicate LeftBehind(cx: Context, plan: seq<Change>, before: External, k: nat, after: External) {
    exists s :: Live(cx, plan, k, s) && after == Patched(before, ChangeCell(cx.app, s, plan[k]), After(s, plan[k]))
  }

  /** The base is as before, or exactly one stage has left its new value behind. */
  ghost predicate Residue(cx: Context, plan: seq<Change>, before: External, after: External) {
    after == before || exists k: nat :: LeftBehind(cx, plan, before, k, after)
  }

  /** The base once a stage's new value is left behind; a disabled stage leaves nothing. */
  ghost function BaseWith(cx: Context, plan: seq<Change>, before: External, k: nat, s: Stage): External
    requires k < |plan|
  {
    if Live(cx, plan, k, s) then Patched(before, ChangeCell(cx.app, s, plan[k]), After(s, plan[k])) else before
  }

  /** A residue touches at most one cell. */
  ghost predicate AtMostOneCell(m: External, m': External, own: set<Cell>) {
    AgreeOn(m', m, own) || exists c :: AgreeBut(m', m, own, c)
  }

  ghost predicate AgreeBut(m: External, m': External, own: set<Cell>, c: Cell) {
    forall x :: x in own && x != c ==> Lookup(m, x) == Lookup(m', x)
  }

  lemma ResidueIsOneCell(cx: Context, plan: seq<Change>, m: External, base: External, m': External)
    requires Residue(cx, plan, m, base) && AgreeOn(m', base, cx.own)
    ensures AtMostOneCell(m, m', cx.own)
  {
    if base != m {
      var k: nat :| LeftBehind(cx, plan, m, k, base);
      var s :| Live(cx, plan, k, s) && base == Patched(m, ChangeCell(cx.app, s, plan[k]), After(s, plan[k]));
      assert AgreeBut(m', m, cx.own, ChangeCell(cx.app, s, plan[k]));
    }
  }

  /** The two stages of one change never share a cell. */
  lemma StagesDiffer(app: Uuid, ch: Change, s: Stage, t: Stage, d: DnsType)
    requires ch.Coherent() && s != t
    requires Enabled(d, KindOf(ch.Subject()), s) && Enabled(d, KindOf(ch.Subject()), t)
    ensures StageCells(app, s, ch) !! StageCells(app, t, ch)
  {
  }

  /** A stage that is not done yet still finds its cells as they were in `base`. */
  lemma Untouched(cx: Context, plan: seq<Change>, done: seq<nat>, base: External, m: External, i: nat, s: Stage,
                  c: Cell)
    requires Separate(cx, plan) && Ledger(cx, plan, done, base, m)
    requires Live(cx, plan, i, s) && done[i] <= StageState(s)
    requires c in StageCells(cx.app, s, plan[i])
    ensures !Written(cx, plan, done, c) && Lookup(m, c) == Lookup(base, c)
  {
  }

  lemma UntouchedMirrors(cx: Context, plan: seq<Change>, done: seq<nat>, base: External, m: External, i: nat, s: Stage)
    requires Separate(cx, plan) && Ledger(cx, plan, done, base, m)
    requires Live(cx, plan, i, s) && done[i] <= StageState(s)
    requires MirrorsStage(base, cx.app, s, plan[i])
    ensures MirrorsStage(m, cx.app, s, plan[i])
  {
    Untouched(cx, plan, done, base, m, i, s, ChangeCell(cx.app, s, plan[i]));
    if plan[i].Modify? {
      Untouched(cx, plan, done, base, m, i, s, CellOf(cx.app, s, plan[i].stored));
    }
  }

  /** Passing a state whose stage the table leaves out changes nothing. */
  lemma PassDisabled(cx: Context, plan: seq<Change>, done: seq<nat>, base: External, m: External, i: nat, s: Stage,
                     n: nat)
    requires Ledger(cx, plan, done, base, m) && i < |plan|
    requires !Live(cx, plan, i, s)
    requires {done[i], n} == {StageState(s), StageState(s) + 1}
    ensures Ledger(cx, plan, done[i := n], base, m)
  {
    var done' := done[i := n];
    assert forall j, t :: DoneAt(cx, plan, done', j, t) <==> DoneAt(cx, plan, done, j, t);
    assert forall c :: Written(cx, plan, done, c) ==> Written(cx, plan, done', c);
  }

  /** An accepted apply call moves the ledger one stage forward. */
  lemma LedgerApply(cx: Context, plan: seq<Change>, done: seq<nat>, base: External, m: External, m': External, i: nat,
                    s: Stage)
    requires Separate(cx, plan) && Ledger(cx, plan, done, base, m)
    requires Live(cx, plan, i, s) && done[i] == StageState(s)
    requires MirrorsStage(base, cx.app, s, plan[i])
    requires Accepts(m, ApplyCall(cx.app, s, plan[i]))
    requires AgreeOn(m', Effect(m, ApplyCall(cx.app, s, plan[i])), cx.own)
    ensures Completable(cx.app, s, plan[i])
    ensures Ledger(cx, plan, done[i := done[i] + 1], base, m')
  {
    var cell := ChangeCell(cx.app, s, plan[i]);
    var done' := done[i := done[i] + 1];
    UntouchedMirrors(cx, plan, done, base, m, i, s);
    ApplyAccepted(m, cx.app, s, plan[i]);
    Untouched(cx, plan, done, base, m, i, s, cell);
    forall j, t | DoneAt(cx, plan, done', j, t)
      ensures Lookup(m', ChangeCell(cx.app, t, plan[j])) == After(t, plan[j])
      ensures MirrorsStage(base, cx.app, t, plan[j]) && Completable(cx.app, t, plan[j])
    {
      if j != i || t != s {
        assert DoneAt(cx, plan, done, j, t);
        assert Written(cx, plan, done, ChangeCell(cx.app, t, plan[j]));
      }
    }
    forall c | c in cx.own && !Written(cx, plan, done', c) ensures Lookup(m', c) == Lookup(base, c) {
      assert DoneAt(cx, plan, done', i, s);
      assert c != cell && !Written(cx, plan, done, c);
    }
  }

  /** When no fault is to blame, a failed apply call means that the stage is not completable. */
  lemma LedgerRefused(cx: Context, plan: seq<Change>, done: seq<nat>, base: External, m: External, i: nat, s: Stage)
    requires Separate(cx, plan) && Ledger(cx, plan, done, base, m)
    requires Live(cx, plan, i, s) && done[i] == StageState(s)
    requires MirrorsStage(base, cx.app, s, plan[i])
    requires !Accepts(m, ApplyCall(cx.app, s, plan[i]))
    ensures !Completable(cx.app, s, plan[i])
  {
    UntouchedMirrors(cx, plan, done, base, m, i, s);
    ApplyAccepted(m, cx.app, s, plan[i]);
  }

  /**
   * When the call took effect but its status could not be saved, the ledger
   * stands still over a base that differs in that one cell.
   */
  lemma LedgerResidue(cx: Context, plan: seq<Change>, done: seq<nat>, base: External, m: External, m': External,
                      i: nat, s: Stage)
    requires Separate(cx, plan) && Ledger(cx, plan, done, base, m)
    requires Live(cx, plan, i, s) && done[i] == StageState(s)
    requires MirrorsStage(base, cx.app, s, plan[i])
    requires Accepts(m, ApplyCall(cx.app, s, plan[i]))
    requires AgreeOn(m', Effect(m, ApplyCall(cx.app, s, plan[i])), cx.own)
    ensures Ledger(cx, plan, done, Patched(base, ChangeCell(cx.app, s, plan[i]), After(s, plan[i])), m')
  {
    var cell := ChangeCell(cx.app, s, plan[i]);
    var base' := Patched(base, cell, After(s, plan[i]));
    LedgerApply(cx, plan, done, base, m, m', i, s);
    var done' := done[i := done[i] + 1];
    assert DoneAt(cx, plan, done', i, s);
    forall j, t | DoneAt(cx, plan, done, j, t)
      ensures Lookup(m', ChangeCell(cx.app, t, plan[j])) == After(t, plan[j]) && MirrorsStage(base', cx.app, t, plan[j])
    {
      assert DoneAt(cx, plan, done', j, t);
      if j == i {
        StagesDiffer(cx.app, plan[i], s, t, cx.dnsType);
      }
      assert cell in StageCells(cx.app, s, plan[i]);
      assert StageCells(cx.app, s, plan[i]) !! StageCells(cx.app, t, plan[j]);
    }
    forall c | c in cx.own && !Written(cx, plan, done, c) ensures Lookup(m', c) == Lookup(base', c) {
      assert c == cell || !Written(cx, plan, done', c);
    }
  }

  /** The latest done stage of a change can be compensated exactly when it kept its cell. */
  lemma LedgerRevertAccepted(cx: Context, plan: seq<Change>, done: seq<nat>, base: External, m: External, i: nat,
                             s: Stage)
    requires Separate(cx, plan) && Ledger(cx, plan, done, base, m)
    requires Live(cx, plan, i, s) && done[i] == StageState(s) + 1
    ensures Accepts(m, RevertCall(cx.app, s, plan[i])) <==> Kept(cx.app, s, plan[i])
  {
    assert DoneAt(cx, plan, done, i, s);
    var ch := plan[i];
    if !Kept(cx.app, s, ch) {
      var c := CellOf(cx.app, s, ch.stored);
      assert c in StageCells(cx.app, s, ch);
      assert !Written(cx, plan, done, c);
    }
    RevertAccepted(m, cx.app, s, ch);
  }

  /** An accepted compensation moves the ledger one stage back. */
  lemma LedgerRevert(cx: Context, plan: seq<Change>, done: seq<nat>, base: External, m: External, m': External,
                     i: nat, s: Stage)
    requires Separate(cx, plan) && Ledger(cx, plan, done, base, m)
    requires Live(cx, plan, i, s) && done[i] == StageState(s) + 1
    requires Accepts(m, RevertCall(cx.app, s, plan[i]))
    requires AgreeOn(m', Effect(m, RevertCall(cx.app, s, plan[i])), cx.own)
    ensures Ledger(cx, plan, done[i := StageState(s)], base, m')
  {
    var cell := ChangeCell(cx.app, s, plan[i]);
    var done' := done[i := StageState(s)];
    assert DoneAt(cx, plan, done, i, s);
    LedgerRevertAccepted(cx, plan, done, base, m, i, s);
    RevertAccepted(m, cx.app, s, plan[i]);
    assert cell in StageCells(cx.app, s, plan[i]);
    forall j, t | DoneAt(cx, plan, done', j, t)
      ensures Lookup(m', ChangeCell(cx.app, t, plan[j])) == After(t, plan[j])
      ensures MirrorsStage(base, cx.app, t, plan[j]) && Completable(cx.app, t, plan[j])
    {
      assert DoneAt(cx, plan, done, j, t);
      if j == i {
        StagesDiffer(cx.app, plan[i], s, t, cx.dnsType);
      }
      assert StageCells(cx.app, s, plan[i]) !! StageCells(cx.app, t, plan[j]);
      assert ChangeCell(cx.app, t, plan[j]) in StageCells(cx.app, t, plan[j]);
    }
    forall c | c in cx.own && !Written(cx, plan, done', c) ensures Lookup(m', c) == Lookup(base, c) {
      assert c == cell || !Written(cx, plan, done, c);
    }
  }

  /** With nothing done, the own cells are those of the base. */
  lemma LedgerClear(cx: Context, plan: seq<Change>, done: seq<nat>, base: External, m: External)
    requires |done| == |plan| && forall i :: 0 <= i < |done| ==> done[i] == 0
    ensures Ledger(cx, plan, done, base, m) <==> AgreeOn(m, base, cx.own)
  {
    assert forall c :: !Written(cx, plan, done, c);
  }

  // The same ledger as a computation: the base with every done stage replayed onto it.

  ghost function Replayed(cx: Context, ch: Change, passed: nat, m: External): External {
    var m1 := if passed > WAIT_MP2 && Enabled(cx.dnsType, KindOf(ch.Subject()), Mp2)
              then Patched(m, ChangeCell(cx.app, Mp2, ch), After(Mp2, ch)) else m;
    if passed > WAIT_LOCAL && Enabled(cx.dnsType, KindOf(ch.Subject()), Local)
    then Patched(m1, ChangeCell(cx.app, Local, ch), After(Local, ch)) else m1
  }

  ghost function Replay(cx: Context, plan: seq<Change>, done: seq<nat>, base: External): External
    requires |done| == |plan|
  {
    if |plan| == 0 then base
    else
      var n := |plan| - 1;
      Replayed(cx, plan[n], done[n], Replay(cx, plan[..n], done[..n], base))
  }

  /** Every done stage was completable and found its cells mirrored in the base. */
  ghost predicate Grounded(cx: Context, plan: seq<Change>, done: seq<nat>, base: External)
    requires |done| == |plan|
  {
    |plan| == 0 ||
    var n := |plan| - 1;
    && Grounded(cx, plan[..n], done[..n], base)
    && forall s :: DoneAt(cx, plan, done, n, s) ==>
         MirrorsStage(base, cx.app, s, plan[n]) && Completable(cx.app, s, plan[n])
  }

  lemma {:induction false} ReplayCell(cx: Context, plan: seq<Change>, done: seq<nat>, base: External, i: nat, s: Stage)
    requires Separate(cx, plan) && |done| == |plan| && DoneAt(cx, plan, done, i, s)
    ensures Lookup(Replay(cx, plan, done, base), ChangeCell(cx.app, s, plan[i])) == After(s, plan[i])
  {
    var n := |plan| - 1;
    if i < n {
      SeparatePrefix(cx, plan);
      ReplayCell(cx, plan[..n], done[..n], base, i, s);
      assert Live(cx, plan, i, s);
      forall t | Enabled(cx.dnsType, KindOf(plan[n].Subject()), t)
        ensures ChangeCell(cx.app, t, plan[n]) != ChangeCell(cx.app, s, plan[i])
      {
        assert Live(cx, plan, n, t);
        assert StageCells(cx.app, s, plan[i]) !! StageCells(cx.app, t, plan[n]);
      }
      ReplayedElsewhere(cx, plan[n], done[n], Replay(cx, plan[..n], done[..n], base), ChangeCell(cx.app, s, plan[i]));
    } else if s == Mp2 && Live(cx, plan, n, Local) {
      StagesDiffer(cx.app, plan[n], Mp2, Local, cx.dnsType);
    }
  }

  lemma SeparatePrefix(cx: Context, plan: seq<Change>)
    requires Separate(cx, plan) && |plan| > 0
    ensures Separate(cx, plan[..|plan| - 1])
  {
  }

  lemma {:induction false} ReplayElsewhere(cx: Context, plan: seq<Change>, done: seq<nat>, base: External, c: Cell)
    requires |done| == |plan| && !Written(cx, plan, done, c)
    ensures Lookup(Replay(cx, plan, done, base), c) == Lookup(base, c)
  {
    if |plan| > 0 {
      var n := |plan| - 1;
      assert forall i, s :: DoneAt(cx, plan[..n], done[..n], i, s) ==> DoneAt(cx, plan, done, i, s);
      assert !Written(cx, plan[..n], done[..n], c);
      ReplayElsewhere(cx, plan[..n], done[..n], base, c);
      forall s | Enabled(cx.dnsType, KindOf(plan[n].Subject()), s) && StageState(s) < done[n]
        ensures ChangeCell(cx.app, s, plan[n]) != c
      {
        assert DoneAt(cx, plan, done, n, s);
      }
      ReplayedElsewhere(cx, plan[n], done[n], Replay(cx, plan[..n], done[..n], base), c);
    }
  }

  lemma ReplayedElsewhere(cx: Context, ch: Change, passed: nat, m: External, c: Cell)
    requires forall s :: Enabled(cx.dnsType, KindOf(ch.Subject()), s) && StageState(s) < passed ==>
      ChangeCell(cx.app, s, ch) != c
    ensures Lookup(Replayed(cx, ch, passed, m), c) == Lookup(m, c)
  {
    assert StageState(Mp2) == WAIT_MP2 && StageState(Local) == WAIT_LOCAL;
  }

  lemma {:induction false} GroundedAt(cx: Context, plan: seq<Change>, done: seq<nat>, base: External)
    requires |done| == |plan|
    ensures Grounded(cx, plan, done, base) <==>
      forall i, s :: DoneAt(cx, plan, done, i, s) ==>
        MirrorsStage(base, cx.app, s, plan[i]) && Completable(cx.app, s, plan[i])
  {
    if |plan| > 0 {
      var n := |plan| - 1;
      GroundedAt(cx, plan[..n], done[..n], base);
      assert forall i, s :: i < n ==> (DoneAt(cx, plan, done, i, s) <==> DoneAt(cx, plan[..n], done[..n], i, s));
    }
  }

  /** Content as replayed, on the task's own cells. */
  ghost predicate Balanced(cx: Context, plan: seq<Change>, done: seq<nat>, base: External, m: External) {
    |done| == |plan| && Grounded(cx, plan, done, base) && AgreeOn(m, Replay(cx, plan, done, base), cx.own)
  }

  lemma BalancedIsLedger(cx: Context, plan: seq<Change>, done: seq<nat>, base: External, m: External)
    requires Separate(cx, plan)
    ensures Balanced(cx, plan, done, base, m) <==> Ledger(cx, plan, done, base, m)
  {
    if |done| == |plan| {
      GroundedAt(cx, plan, done, base);
      forall i, s | DoneAt(cx, plan, done, i, s)
        ensures Lookup(Replay(cx, plan, done, base), ChangeCell(cx.app, s, plan[i])) == After(s, plan[i])
        ensures ChangeCell(cx.app, s, plan[i]) in cx.own
      {
        ReplayCell(cx, plan, done, base, i, s);
        assert ChangeCell(cx.app, s, plan[i]) in StageCells(cx.app, s, plan[i]);
      }
      forall c | !Written(cx, plan, done, c)
        ensures Lookup(Replay(cx, plan, done, base), c) == Lookup(base, c)
      {
        ReplayElsewhere(cx, plan, done, base, c);
      }
    }
  }

  // The ledger steps, stated for the replayed form.

  lemma Unchanged(cx: Context, plan: seq<Change>, done: seq<nat>, base: External, m: External, m': External)
    requires Separate(cx, plan) && Balanced(cx, plan, done, base, m) && AgreeOn(m', m, cx.own)
    ensures Balanced(cx, plan, done, base, m')
  {
  }

  lemma Passed(cx: Context, plan: seq<Change>, done: seq<nat>, base: External, m: External, i: nat, s: Stage, n: nat)
    requires Separate(cx, plan) && Balanced(cx, plan, done, base, m) && i < |plan| && !Live(cx, plan, i, s)
    requires {done[i], n} == {StageState(s), StageState(s) + 1}
    ensures Balanced(cx, plan, done[i := n], base, m)
  {
    BalancedIsLedger(cx, plan, done, base, m);
    PassDisabled(cx, plan, done, base, m, i, s, n);
    BalancedIsLedger(cx, plan, done[i := n], base, m);
  }

  lemma Applied(cx: Context, plan: seq<Change>, done: seq<nat>, base: External, m: External, m': External, i: nat,
                s: Stage)
    requires Separate(cx, plan) && Mirrors(cx, plan, base) && Balanced(cx, plan, done, base, m)
    requires Live(cx, plan, i, s) && done[i] == StageState(s)
    requires Accepts(m, ApplyCall(cx.app, s, plan[i]))
    requires AgreeOn(m', Effect(m, ApplyCall(cx.app, s, plan[i])), cx.own)
    ensures Completable(cx.app, s, plan[i])
    ensures Balanced(cx, plan, done[i := done[i] + 1], base, m')
    ensures Balanced(cx, plan, done, Patched(base, ChangeCell(cx.app, s, plan[i]), After(s, plan[i])), m')
  {
    var base' := Patched(base, ChangeCell(cx.app, s, plan[i]), After(s, plan[i]));
    BalancedIsLedger(cx, plan, done, base, m);
    LedgerApply(cx, plan, done, base, m, m', i, s);
    LedgerResidue(cx, plan, done, base, m, m', i, s);
    BalancedIsLedger(cx, plan, done[i := done[i] + 1], base, m');
    BalancedIsLedger(cx, plan, done, base', m');
  }

  lemma Refused(cx: Context, plan: seq<Change>, done: seq<nat>, base: External, m: External, i: nat, s: Stage)
    requires Separate(cx, plan) && Mirrors(cx, plan, base) && Balanced(cx, plan, done, base, m)
    requires Live(cx, plan, i, s) && done[i] == StageState(s)
    requires !Accepts(m, ApplyCall(cx.app, s, plan[i]))
    ensures !Completable(cx.app, s, plan[i])
  {
    BalancedIsLedger(cx, plan, done, base, m);
    LedgerRefused(cx, plan, done, base, m, i, s);
  }

  lemma Undone(cx: Context, plan: seq<Change>, done: seq<nat>, base: External, m: External, m': External, i: nat,
               s: Stage)
    requires Separate(cx, plan) && Balanced(cx, plan, done, base, m)
    requires Live(cx, plan, i, s) && done[i] == StageState(s) + 1
    ensures Accepts(m, RevertCall(cx.app, s, plan[i])) <==> Kept(cx.app, s, plan[i])
    ensures Accepts(m, RevertCall(cx.app, s, plan[i])) && AgreeOn(m', Effect(m, RevertCall(cx.app, s, plan[i])), cx.own)
      ==> Balanced(cx, plan, done[i := StageState(s)], base, m')
  {
    BalancedIsLedger(cx, plan, done, base, m);
    LedgerRevertAccepted(cx, plan, done, base, m, i, s);
    if Accepts(m, RevertCall(cx.app, s, plan[i])) && AgreeOn(m', Effect(m, RevertCall(cx.app, s, plan[i])), cx.own) {
      LedgerRevert(cx, plan, done, base, m, m', i, s);
      BalancedIsLedger(cx, plan, done[i := StageState(s)], base, m');
    }
  }

  /** With nothing done, the own cells are those of the base. */
  lemma Clear(cx: Context, plan: seq<Change>, done: seq<nat>, base: External, m: External)
    requires Separate(cx, plan) && |done| == |plan| && forall i :: 0 <= i < |done| ==> done[i] == 0
    ensures Balanced(cx, plan, done, base, m) <==> AgreeOn(m, base, cx.own)
  {
    BalancedIsLedger(cx, plan, done, base, m);
    LedgerClear(cx, plan, done, base, m);
  }
}
