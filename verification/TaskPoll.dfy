/** What a client that polls a task sees, and how it may change while the task runs. */
module TaskPoll {
  import opened AppConfig

  datatype TaskState = Success | Processing | Failure

  datatype Poll = Poll(state: TaskState, percent: int)

  /** Derives state and percentage from a status record; the divisor is the number of rules. */
  function Progress(t: TaskStatus): Poll
    requires TotalRules(t) > 0
  {
    var percent := if t.progress >= 0 then t.progress * 100 / TotalRules(t) else 0;
    if t.progress == TotalRules(t) then Poll(Success, percent)
    else if t.progress >= 0 then Poll(Processing, percent)
    else Poll(Failure, 0)
  }

  /** A poll reads a count out of a total: whole percents, rounded down, and none once the task has failed. */
  ghost predicate Reads(p: Poll, progress: int, total: nat) {
    && (progress >= 0 ==> p.percent * total <= progress * 100 < (p.percent + 1) * total)
    && (progress < 0 ==> p.percent == 0)
    && (p.state == Failure <==> progress < 0) && (p.state == Success <==> progress == total)
  }

  lemma PollReads(t: TaskStatus)
    requires TotalRules(t) > 0
    ensures Reads(Progress(t), t.progress, TotalRules(t))
  {
    if t.progress >= 0 {
      DivRest(t.progress * 100, TotalRules(t));
    }
  }

  /** Every record counts the rules that are ready. */
  ghost predicate Exactly(h: seq<TaskStatus>) {
    forall i :: 0 <= i < |h| ==> h[i].progress == ReadyRules(h[i])
  }

  /**
   * The first `p` records count the ready rules. If there are more, rules are
   * being undone: the count is left standing, below the total.
   */
  ghost predicate CountsUpTo(h: seq<TaskStatus>, p: nat) {
    && 0 < p <= |h| && Exactly(h[..p]) && (p < |h| ==> h[p - 1].progress < TotalRules(h[p - 1]))
    && forall i :: p <= i < |h| ==> ReadyRules(h[i]) <= h[i].progress == h[p - 1].progress
  }

  /** Status records of one task that only ever count upwards. */
  ghost predicate Climbing(h: seq<TaskStatus>, total: nat) {
    && |h| > 0
    && (forall i :: 0 <= i < |h| ==> TotalRules(h[i]) == total && 0 <= h[i].progress <= total)
    && (forall i, j :: 0 <= i < j < |h| ==> h[i].progress <= h[j].progress)
    && exists p :: CountsUpTo(h, p)
  }

  /** A climb that never reached the top, followed by the failure mark. */
  ghost predicate Failed(h: seq<TaskStatus>, total: nat) {
    && |h| > 1
    && Climbing(h[..|h| - 1], total)
    && h[|h| - 2].progress < total
    && TotalRules(h[|h| - 1]) == total && h[|h| - 1].progress == PROGRESS_FAILURE
  }

  ghost predicate Lawful(h: seq<TaskStatus>, total: nat) {
    Climbing(h, total) || Failed(h, total)
  }

  lemma LawfulTotal(h: seq<TaskStatus>)
    requires |h| > 0 && Lawful(h, TotalRules(h[0]))
    ensures TotalRules(h[|h| - 1]) == TotalRules(h[0])
  {
  }

  lemma ClimbStarts(t: TaskStatus)
    requires t.progress == ReadyRules(t) <= TotalRules(t)
    ensures Climbing([t], TotalRules(t)) && Exactly([t])
  {
    assert CountsUpTo([t], 1);
  }

  lemma ClimbOn(h: seq<TaskStatus>, t: TaskStatus, total: nat)
    requires Climbing(h, total)
    requires TotalRules(t) == total && h[|h| - 1].progress <= t.progress <= total
    requires || (Exactly(h) && t.progress == ReadyRules(t))
             || ReadyRules(t) <= t.progress == h[|h| - 1].progress < total
    ensures Climbing(h + [t], total)
    ensures Exactly(h) && t.progress == ReadyRules(t) ==> Exactly(h + [t])
  {
    hide ReadyRules, Exactly, CountsUpTo, TotalRules;
    if Exactly(h) && t.progress == ReadyRules(t) {
      ExactOn(h, t);
    } else {
      LeftStanding(h, t, total);
    }
  }

  lemma ExactOn(h: seq<TaskStatus>, t: TaskStatus)
    requires Exactly(h) && t.progress == ReadyRules(t)
    ensures Exactly(h + [t]) && CountsUpTo(h + [t], |h| + 1)
  {
    hide ReadyRules, TotalRules;
    assert (h + [t])[..|h| + 1] == h + [t];
  }

  lemma LeftStanding(h: seq<TaskStatus>, t: TaskStatus, total: nat)
    requires Climbing(h, total) && ReadyRules(t) <= t.progress == h[|h| - 1].progress < total
    ensures exists p :: CountsUpTo(h + [t], p)
  {
    hide ReadyRules, TotalRules;
    var p: nat :| CountsUpTo(h, p);
    assert (h + [t])[..p] == h[..p];
    assert CountsUpTo(h + [t], p);
  }

  /** A climb that reached the top counted the ready rules all the way. */
  lemma FullIsExact(h: seq<TaskStatus>, total: nat)
    requires Lawful(h, total) && h[|h| - 1].progress == total
    ensures Exactly(h)
  {
    var p: nat :| CountsUpTo(h, p);
    assert h[..|h|] == h;
  }

  /** No record before the failure mark counts less than the ready rules. */
  lemma NeverBelow(h: seq<TaskStatus>, total: nat, i: nat)
    requires Lawful(h, total) && i < |h|
    ensures ReadyRules(h[i]) <= h[i].progress || h[i].progress == PROGRESS_FAILURE
  {
    var n := if Climbing(h, total) then |h| else |h| - 1;
    assert h[..|h|] == h;
    var p: nat :| CountsUpTo(h[..n], p);
    if i < p {
      assert h[..n][..p][i] == h[i];
    } else if i < n {
      assert h[..n][i] == h[i];
    }
  }

  lemma FailFrom(h: seq<TaskStatus>, t: TaskStatus, total: nat)
    requires Climbing(h, total) && h[|h| - 1].progress < total
    requires TotalRules(t) == total && t.progress == PROGRESS_FAILURE
    ensures Failed(h + [t], total)
  {
    assert (h + [t])[..|h|] == h;
  }

  lemma PercentMonotone(a: nat, b: nat, total: nat)
    requires a <= b <= total && total > 0
    ensures 0 <= a * 100 / total <= b * 100 / total <= 100
  {
    DivMonotone(a * 100, b * 100, total);
    DivMonotone(b * 100, total * 100, total);
    TimesOver(100, total);
  }

  lemma FullIsTotal(a: nat, total: nat)
    requires a <= total && total > 0
    ensures a * 100 / total == 100 <==> a == total
  {
    TimesOver(100, total);
    if a < total {
      DivBelow(a * 100, total, 100);
    }
  }

  lemma TimesOver(q: nat, d: nat)
    requires d > 0
    ensures d * q / d == q
  {
    var p := d * q / d;
    DivRest(d * q, d);
    if p < q {
      MulMonotone(p + 1, q, d);
    } else if q < p {
      MulMonotone(q + 1, p, d);
    }
  }

  lemma DivRest(n: nat, d: nat)
    requires d > 0
    ensures n == d * (n / d) + n % d
  {
  }

  lemma DivBelow(n: nat, d: nat, q: nat)
    requires d > 0 && n < d * q
    ensures n / d < q
  {
    var p := n / d;
    DivRest(n, d);
    if q <= p {
      MulMonotone(q, p, d);
    }
  }

  lemma DivMonotone(a: nat, b: nat, total: nat)
    requires a <= b && total > 0
    ensures a / total <= b / total
  {
    var p, q := a / total, b / total;
    DivRest(a, total);
    DivRest(b, total);
    if q < p {
      MulMonotone(q + 1, p, total);
    }
  }

  lemma MulMonotone(x: nat, y: nat, z: nat)
    requires x <= y
    ensures z * x <= z * y
  {
    assert z * y == z * x + z * (y - x);
  }

  /**
   * For every two records of a task, earlier and later: the percentage stays in
   * 0..100 and is 100 exactly on success, does not fall unless the task
   * failed, and the two terminal states are never left. Each poll reads the
   * count of its record.
   */
  lemma PollsAreMonotone(h: seq<TaskStatus>, total: nat, i: nat, j: nat)
    requires Lawful(h, total) && total > 0 && i <= j < |h|
    ensures TotalRules(h[i]) == total == TotalRules(h[j])
    ensures 0 <= Progress(h[i]).percent <= 100
    ensures Progress(h[i]).percent <= Progress(h[j]).percent || Progress(h[j]).state == Failure
    ensures Progress(h[i]).state != Processing ==> Progress(h[j]).state == Progress(h[i]).state
    ensures Progress(h[i]).percent == 100 <==> Progress(h[i]).state == Success
    ensures Reads(Progress(h[i]), h[i].progress, total)
  {
    PollReads(h[i]);
    var n := if Climbing(h, total) then |h| else |h| - 1;
    assert forall k :: 0 <= k < n ==> h[..n][k] == h[k];
    if i < n {
      PercentMonotone(h[i].progress, h[i].progress, total);
      FullIsTotal(h[i].progress, total);
      if j < n {
        PercentMonotone(h[i].progress, h[j].progress, total);
      }
    }
  }
}
