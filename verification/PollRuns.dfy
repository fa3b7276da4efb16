/** What clients that poll a task see over whole runs, whatever faults occur. */
module PollRuns {
  import opened AppConfig
  import opened DataStore
  import opened TaskPoll
  import opened SyncWorker
  import opened Mirror
  import opened Staging
  import opened DnsRuleUpdate
  import opened Runs
  import opened CarryRuns

  function Status(w: World, app: Uuid, task: Uuid): Option<TaskStatus> {
    StatusIn(w.kv, StatusKey(app, task))
  }

  /** Every status record has at least one rule and a progress that fits its entries. */
  ghost predicate Counted(w: World) {
    forall app, task :: Status(w, app, task).Some? ==> Sane(Status(w, app, task).value)
  }

  /** The progress marks failure, or lies between the number of ready rules and the number of all of them. */
  predicate Sane(t: TaskStatus) {
    TotalRules(t) > 0 && (t.progress == PROGRESS_FAILURE || ReadyRules(t) <= t.progress <= TotalRules(t))
  }

  /** Every status record is found through the record of its task. */
  ghost predicate Linked(w: World) {
    forall app, task :: Status(w, app, task).Some? ==> Lookup(w.kv, TaskKey(task)) == Some(TaskRecord(app))
  }

  /** What a status query needs. */
  ghost predicate Pollable(w: World) {
    Counted(w) && Linked(w)
  }

  /** The reply to a status query; a record without rules makes the handler divide by zero. */
  datatype PollReply = NotFound | Unreadable | DivideByZero | Answer(app: Uuid, poll: Poll, details: string)

  /**
   * An earlier and a later poll of one task: the divisor is the same and not
   * zero, each poll reads the count of its record out of it, the percentage is
   * in range and does not fall unless the task failed, and success and failure
   * are never left.
   */
  ghost predicate InOrder(t: TaskStatus, t': TaskStatus) {
    && Sane(t) && Sane(t') && TotalRules(t) == TotalRules(t')
    && 0 <= Progress(t).percent <= 100 && 0 <= Progress(t').percent <= 100
    && (Progress(t).percent <= Progress(t').percent || Progress(t').state == Failure)
    && (Progress(t).state != Processing ==> Progress(t').state == Progress(t).state)
    && (Progress(t').percent == 100 <==> Progress(t').state == Success)
    && Reads(Progress(t), t.progress, TotalRules(t)) && Reads(Progress(t'), t'.progress, TotalRules(t'))
  }

  lemma Reflexive(t: TaskStatus)
    requires Sane(t)
    ensures InOrder(t, t)
  {
    PollReads(t);
    if t.progress >= 0 {
      PercentMonotone(t.progress, t.progress, TotalRules(t));
      FullIsTotal(t.progress, TotalRules(t));
    }
  }

  lemma Transitive(t: TaskStatus, t': TaskStatus, t'': TaskStatus)
    requires InOrder(t, t') && InOrder(t', t'')
    ensures InOrder(t, t'')
  {
  }

  /** The records that a worker writes are polled in order. */
  lemma HistoryInOrder(h: seq<TaskStatus>, k: nat, l: nat)
    requires |h| > 0 && Lawful(h, TotalRules(h[0])) && TotalRules(h[0]) > 0 && k <= l < |h|
    ensures InOrder(h[k], h[l])
  {
    PollsAreMonotone(h, TotalRules(h[0]), k, l);
    PollsAreMonotone(h, TotalRules(h[0]), l, l);
    LawfulIsSane(h, TotalRules(h[0]), k);
    LawfulIsSane(h, TotalRules(h[0]), l);
  }

  lemma LawfulIsSane(h: seq<TaskStatus>, total: nat, k: nat)
    requires Lawful(h, total) && total > 0 && k < |h|
    ensures Sane(h[k])
  {
    NeverBelow(h, total, k);
    if Failed(h, total) && k < |h| - 1 {
      assert h[..|h| - 1][k] == h[k];
    }
  }

  /** One step of a run, as a poller of one task sees it. */
  lemma StepInOrder(w: World, w': World, step: Step, app: Uuid, task: Uuid)
    requires Takes(w, w', step) && Carried(w) && Counted(w) && Status(w, app, task).Some?
    ensures Status(w', app, task).Some? && InOrder(Status(w, app, task).value, Status(w', app, task).value)
    ensures Status(w', app, task) == Status(w, app, task) || (step.End? && step.app == app && step.task == task)
  {
    hide Lawful, InOrder, Toggled, Exclusive, WellFormed, Workable;
    if step.End? && step.app == app && step.task == task {
      HistoryInOrder(step.history, 0, |step.history| - 1);
    } else {
      StatusStays(w, w', step, app, task);
      Reflexive(Status(w, app, task).value);
    }
  }

  lemma StatusStays(w: World, w': World, step: Step, app: Uuid, task: Uuid)
    requires Takes(w, w', step) && Status(w, app, task).Some?
    requires !(step.End? && step.app == app && step.task == task)
    ensures Status(w', app, task) == Status(w, app, task)
  {
    hide Lawful, Compared, CreatesFree, Distinct;
    assert step.Reject? || step.End? ==> Lookup(w'.kv, StatusKey(app, task)) == Lookup(w.kv, StatusKey(app, task));
  }

  lemma StepKeepsCounted(w: World, w': World, step: Step)
    requires Takes(w, w', step) && Carried(w) && Counted(w)
    ensures Counted(w')
  {
    hide InOrder;
    forall app, task | Status(w', app, task).Some? ensures Sane(Status(w', app, task).value) {
      if !step.Stage? {
        OnlyStageAdds(w, w', step, app, task);
      }
      if Status(w, app, task).Some? {
        StepInOrder(w, w', step, app, task);
        OrderIsSane(Status(w, app, task).value, Status(w', app, task).value);
      } else {
        StagedIsSane(w, w', step, app, task);
      }
    }
  }

  lemma OrderIsSane(t: TaskStatus, t': TaskStatus)
    requires InOrder(t, t')
    ensures Sane(t')
  {
  }

  /** A status record first appears when its task is staged. */
  lemma OnlyStageAdds(w: World, w': World, step: Step, app: Uuid, task: Uuid)
    requires Takes(w, w', step) && Carried(w) && !step.Stage? && Status(w', app, task).Some?
    ensures Status(w, app, task).Some?
  {
    hide Lawful, Exclusive, WellFormed, Workable;
    match step
    case Reject(_, _) => assert Lookup(w'.kv, StatusKey(app, task)) == Lookup(w.kv, StatusKey(app, task));
    case End(a, k, _) =>
      if a != app || k != task {
        assert Lookup(w'.kv, StatusKey(app, task)) == Lookup(w.kv, StatusKey(app, task));
      } else {
        assert Loads(w.kv, Flight(a, k));
      }
    case Toggle(_, _, _) =>
    case Idle =>
  }

  lemma StagedIsSane(w: World, w': World, step: Step, app: Uuid, task: Uuid)
    requires Takes(w, w', step) && step.Stage? && Status(w, app, task).None? && Status(w', app, task).Some?
    ensures Sane(Status(w', app, task).value)
  {
    hide Lawful, CreatesFree, Distinct, Staged, WellFormed, ById;
    var t :| StagedAs(w.kv, w'.kv, step.app, step.task, step.input, t);
    ListsStartUnready(JobFor(w.kv, step.app, step.input), Config(w.kv, step.app), t);
  }

  /** Records of tasks stay, and each staged task adds its own. */
  lemma StepKeepsLinked(w: World, w': World, step: Step)
    requires Takes(w, w', step) && Carried(w) && Linked(w)
    ensures Linked(w')
  {
    hide Lawful, Compared, CreatesFree, Distinct, Loads, KeepsOrSaves, Exclusive, WellFormed;
    forall app, task | Status(w', app, task).Some? ensures Lookup(w'.kv, TaskKey(task)) == Some(TaskRecord(app)) {
      if step.Stage? && step.app == app && step.task == task {
        assert Lookup(w'.kv, TaskKey(task)) == Some(TaskRecord(app));
      } else {
        if !step.Stage? {
          OnlyStageAdds(w, w', step, app, task);
        }
        assert Lookup(w.kv, TaskKey(task)) == Some(TaskRecord(app));
        assert step.Reject? || step.End? ==> Lookup(w'.kv, TaskKey(task)) == Lookup(w.kv, TaskKey(task));
      }
    }
  }

  lemma StepKeepsPollable(w: World, w': World, step: Step)
    requires Takes(w, w', step) && Carried(w) && Pollable(w)
    ensures Pollable(w')
  {
    hide Takes, Carried, Counted, Linked;
    StepKeepsCounted(w, w', step);
    StepKeepsLinked(w, w', step);
  }

  lemma {:induction false} RunKeepsCounted(ws: seq<World>, steps: seq<Step>, i: nat)
    requires Run(ws, steps) && UniqueStages(steps) && Carried(ws[0]) && Counted(ws[0]) && i < |ws|
    ensures Counted(ws[i])
  {
    hide Takes, Counted, Carried;
    if i > 0 {
      RunKeepsCarried(ws, steps, i - 1);
      RunKeepsCounted(ws, steps, i - 1);
      StepKeepsCounted(ws[i - 1], ws[i], steps[i - 1]);
    }
  }

  lemma {:induction false} StoredInOrder(ws: seq<World>, steps: seq<Step>, app: Uuid, task: Uuid, i: nat, j: nat)
    requires Run(ws, steps) && UniqueStages(steps) && Carried(ws[0]) && Counted(ws[0])
    requires i <= j < |ws| && Status(ws[i], app, task).Some?
    ensures Status(ws[j], app, task).Some? && InOrder(Status(ws[i], app, task).value, Status(ws[j], app, task).value)
    decreases j
  {
    hide InOrder, Takes, Counted, Carried;
    if i == j {
      RunKeepsCounted(ws, steps, i);
      SaneAt(ws[i], app, task);
      Reflexive(Status(ws[i], app, task).value);
    } else {
      StoredInOrder(ws, steps, app, task, i, j - 1);
      RunKeepsCounted(ws, steps, j - 1);
      RunKeepsCarried(ws, steps, j - 1);
      StepInOrder(ws[j - 1], ws[j], steps[j - 1], app, task);
      Transitive(Status(ws[i], app, task).value, Status(ws[j - 1], app, task).value, Status(ws[j], app, task).value);
    }
  }

  lemma EndIsPolled(w: World, w': World, step: Step)
    requires Carried(w) && Takes(w, w', step) && step.End?
    ensures Polled(step.app, step.task, w.kv, w'.kv, step.history)
  {
    hide Polled, Loads, KeepsOrSaves, WellFormed;
    assert Loads(w.kv, Flight(step.app, step.task));
  }

  lemma SaneAt(w: World, app: Uuid, task: Uuid)
    requires Counted(w) && Status(w, app, task).Some?
    ensures Sane(Status(w, app, task).value)
  {
  }

  /**
   * What a poll may see at time (i, k): between steps, with k = 0, the stored
   * record; while the worker of the task takes step i, the k-th record it writes.
   */
  ghost predicate Seen(ws: seq<World>, steps: seq<Step>, app: Uuid, task: Uuid, i: nat, k: nat, t: TaskStatus) {
    if k == 0 then i < |ws| && Status(ws[i], app, task) == Some(t)
    else
      && i < |steps| && steps[i].End? && steps[i].app == app && steps[i].task == task
      && k <= |steps[i].history| && steps[i].history[k - 1] == t
  }

  /**
   * Over every run of requests with unique rule ids, whatever faults occur, any
   * two polls of one task, the later one not before the earlier one, are in
   * order.
   */
  lemma PollsInOrder(ws: seq<World>, steps: seq<Step>, app: Uuid, task: Uuid,
                     i: nat, k: nat, t: TaskStatus, j: nat, l: nat, t': TaskStatus)
    requires Run(ws, steps) && UniqueStages(steps) && Carried(ws[0]) && Counted(ws[0])
    requires Seen(ws, steps, app, task, i, k, t) && Seen(ws, steps, app, task, j, l, t')
    requires i < j || (i == j && k <= l)
    ensures InOrder(t, t')
  {
    hide InOrder, Counted, Carried, Takes;
    if i == j {
      FromStored(ws, steps, app, task, i, k, l, t, t');
    } else {
      var s := AfterSeen(ws, steps, app, task, i, k, t);
      StoredInOrder(ws, steps, app, task, i + 1, j);
      var s' := Status(ws[j], app, task).value;
      FromStored(ws, steps, app, task, j, 0, l, s', t');
      Transitive(t, s, s');
      Transitive(t, s', t');
    }
  }

  /** Two polls at one step. */
  lemma FromStored(ws: seq<World>, steps: seq<Step>, app: Uuid, task: Uuid, i: nat, k: nat, l: nat, t: TaskStatus,
                   t': TaskStatus)
    requires Run(ws, steps) && UniqueStages(steps) && Carried(ws[0]) && Counted(ws[0]) && k <= l
    requires Seen(ws, steps, app, task, i, k, t) && Seen(ws, steps, app, task, i, l, t')
    ensures InOrder(t, t')
  {
    hide InOrder, Counted, Carried, Lawful;
    RunKeepsCounted(ws, steps, i);
    if l == 0 {
      SaneAt(ws[i], app, task);
      Reflexive(t);
    } else {
      RunKeepsCarried(ws, steps, i);
      EndIsPolled(ws[i], ws[i + 1], steps[i]);
      SaneAt(ws[i], app, task);
      HistoryInOrder(steps[i].history, if k == 0 then 0 else k - 1, l - 1);
    }
  }

  /** What is stored after the step at which a poll was answered. */
  lemma AfterSeen(ws: seq<World>, steps: seq<Step>, app: Uuid, task: Uuid, i: nat, k: nat, t: TaskStatus)
    returns (s: TaskStatus)
    requires Run(ws, steps) && UniqueStages(steps) && Carried(ws[0]) && Counted(ws[0])
    requires i < |steps| && Seen(ws, steps, app, task, i, k, t)
    ensures Status(ws[i + 1], app, task) == Some(s) && InOrder(t, s)
  {
    hide InOrder, Counted, Carried, Lawful;
    RunKeepsCounted(ws, steps, i);
    RunKeepsCarried(ws, steps, i);
    if k == 0 {
      StepInOrder(ws[i], ws[i + 1], steps[i], app, task);
      s := Status(ws[i + 1], app, task).value;
    } else {
      EndIsPolled(ws[i], ws[i + 1], steps[i]);
      SaneAt(ws[i], app, task);
      var h := steps[i].history;
      s := h[|h| - 1];
      HistoryInOrder(h, k - 1, |h| - 1);
    }
  }

  /**
   * What any poll of a run says: the percentage is that of the record's count
   * out of its rules, rounded down; the count marks failure or is not below the
   * number of ready rules; and it is that number in every record of a worker
   * that gets all rules ready, and in the records of any other worker up to the
   * one at which it turns back.
   */
  lemma PollsCountReady(ws: seq<World>, steps: seq<Step>, app: Uuid, task: Uuid, i: nat, k: nat, t: TaskStatus)
    requires Run(ws, steps) && UniqueStages(steps) && Carried(ws[0]) && Counted(ws[0])
    requires Seen(ws, steps, app, task, i, k, t)
    ensures TotalRules(t) > 0 && Reads(Progress(t), t.progress, TotalRules(t))
    ensures t.progress == PROGRESS_FAILURE || ReadyRules(t) <= t.progress
    ensures k > 0 ==>
      var h := steps[i].history;
      && (h[|h| - 1].progress == TotalRules(t) ==> t.progress == ReadyRules(t))
      && exists p :: StandsFrom(h, p)
  {
    hide InOrder, Counted, Carried, Takes, Lawful;
    FromStored(ws, steps, app, task, i, k, k, t, t);
    OrderReads(t);
    if k > 0 {
      RunKeepsCarried(ws, steps, i);
      EndIsPolled(ws[i], ws[i + 1], steps[i]);
      HistoryCounts(steps[i].history);
    }
  }

  /** The first `p` records count the ready rules; in later ones the count stands still, or marks failure. */
  ghost predicate StandsFrom(h: seq<TaskStatus>, p: nat) {
    && 0 < p <= |h|
    && forall n :: 0 <= n < |h| ==>
         if n < p then h[n].progress == ReadyRules(h[n])
         else h[n].progress == PROGRESS_FAILURE || h[n].progress == h[p - 1].progress < TotalRules(h[n])
  }

  lemma OrderReads(t: TaskStatus)
    requires InOrder(t, t)
    ensures TotalRules(t) > 0 && Reads(Progress(t), t.progress, TotalRules(t))
    ensures t.progress == PROGRESS_FAILURE || ReadyRules(t) <= t.progress
  {
  }

  lemma HistoryCounts(h: seq<TaskStatus>)
    requires |h| > 0 && Lawful(h, TotalRules(h[0]))
    ensures forall n :: 0 <= n < |h| ==> TotalRules(h[n]) == TotalRules(h[0])
    ensures h[|h| - 1].progress == TotalRules(h[0]) ==> Exactly(h)
    ensures exists p :: StandsFrom(h, p)
  {
    hide ReadyRules, TotalRules;
    var total := TotalRules(h[0]);
    var m := if Climbing(h, total) then |h| else |h| - 1;
    assert h[..|h|] == h;
    var p: nat :| CountsUpTo(h[..m], p);
    assert forall i :: 0 <= i < m ==> h[..m][i] == h[i];
    assert forall i :: 0 <= i < p ==> h[..m][..p][i] == h[i];
    assert StandsFrom(h, p);
    if h[|h| - 1].progress == total {
      FullIsExact(h, total);
    }
  }
}
