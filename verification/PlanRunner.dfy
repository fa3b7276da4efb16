/**
 * The workspace plan runner: groups of steps run in order, and the first
 * failing step of a group sends control to the group that holds the plan's
 * error step.
 */
module PlanRunner {

  const TASK_OK: int := 0
  const FINALLY := "finally"

  /** One call of SetFirstErrorCode. */
  datatype Signal = Signal(code: int, msg: string)

  /** A step's result fields; an error code that is set is never replaced. */
  datatype Result = Result(code: int, msg: string)

  function SetFirst(r: Result, s: Signal): Result {
    if r.code > TASK_OK then r else Result(s.code, s.msg)
  }

  /**
   * A step object: a task with the signals that each of its attempts raises
   * (the last attempt returns TaskFinish), a nil, or something that is no task.
   */
  datatype StepObj =
    | Nil
    | Plain
    | Task(attempts: seq<seq<Signal>>, result: Result)

  function Raise(r: Result, signals: seq<Signal>): Result {
    if |signals| == 0 then r else SetFirst(Raise(r, signals[..|signals| - 1]), signals[|signals| - 1])
  }

  function RaiseAll(r: Result, attempts: seq<seq<Signal>>): Result {
    if |attempts| == 0 then r else Raise(RaiseAll(r, attempts[..|attempts| - 1]), attempts[|attempts| - 1])
  }

  /** A step object after it has run. */
  function Ran(s: StepObj): StepObj {
    if s.Task? then s.(result := RaiseAll(s.result, s.attempts)) else s
  }

  predicate Fails(s: StepObj) {
    s.Task? && s.result.code > TASK_OK
  }

  lemma {:induction false} RaisedStays(r: Result, signals: seq<Signal>)
    requires r.code > TASK_OK
    ensures Raise(r, signals) == r
  {
    if |signals| > 0 {
      RaisedStays(r, signals[..|signals| - 1]);
    }
  }

  lemma {:induction false} QuietStaysOK(r: Result, signals: seq<Signal>)
    requires r.code <= TASK_OK && forall j :: 0 <= j < |signals| ==> signals[j].code <= TASK_OK
    ensures Raise(r, signals).code <= TASK_OK
  {
    if |signals| > 0 {
      QuietStaysOK(r, signals[..|signals| - 1]);
    }
  }

  lemma {:induction false} RaisedIn(r: Result, signals: seq<Signal>, k: nat)
    requires r.code <= TASK_OK && k < |signals| && signals[k].code > TASK_OK
    requires forall j :: 0 <= j < k ==> signals[j].code <= TASK_OK
    ensures Raise(r, signals) == Result(signals[k].code, signals[k].msg)
  {
    var front := signals[..|signals| - 1];
    if k == |front| {
      QuietStaysOK(r, front);
    } else {
      RaisedIn(r, front, k);
    }
  }

  /** A task reports the first error it raises, in whichever attempt, and none that comes later. */
  lemma {:induction false} FirstErrorWins(r: Result, attempts: seq<seq<Signal>>, a: nat, k: nat)
    requires r.code <= TASK_OK && a < |attempts| && k < |attempts[a]| && attempts[a][k].code > TASK_OK
    requires forall j :: 0 <= j < k ==> attempts[a][j].code <= TASK_OK
    requires forall b, j :: 0 <= b < a && 0 <= j < |attempts[b]| ==> attempts[b][j].code <= TASK_OK
    ensures RaiseAll(r, attempts) == Result(attempts[a][k].code, attempts[a][k].msg)
  {
    var front, last := attempts[..|attempts| - 1], attempts[|attempts| - 1];
    if a == |front| {
      NoErrorNoFailure(r, front);
      RaisedIn(RaiseAll(r, front), last, k);
    } else {
      FirstErrorWins(r, front, a, k);
      RaisedStays(RaiseAll(r, front), last);
    }
  }

  /** A task that raises no error in any attempt does not fail. */
  lemma {:induction false} NoErrorNoFailure(r: Result, attempts: seq<seq<Signal>>)
    requires r.code <= TASK_OK
    requires forall b, j :: 0 <= b < |attempts| && 0 <= j < |attempts[b]| ==> attempts[b][j].code <= TASK_OK
    ensures RaiseAll(r, attempts).code <= TASK_OK
  {
    if |attempts| > 0 {
      var front := attempts[..|attempts| - 1];
      NoErrorNoFailure(r, front);
      QuietStaysOK(RaiseAll(r, front), attempts[|attempts| - 1]);
    }
  }

  datatype ErrInfo = ErrInfo(code: int, msg: string, grpIdx: int, taskIdx: int)

  const NO_ERROR := ErrInfo(0, "", 0, 0)

  datatype SubGrp = SubGrp(curStepIdx: nat, stepNames: seq<string>, steps: seq<StepObj>)

  /** A task step that ran, and the shared error information as it saw it. */
  datatype Event = Event(grp: nat, step: nat, seen: ErrInfo)

  /** The step at which a group that starts at `i` stops: the first failing one or the first that is no task. */
  function StopAt(steps: seq<StepObj>, i: nat): (j: nat)
    requires i <= |steps|
    ensures i <= j <= |steps|
    ensures j < |steps| ==> steps[j].Plain? || Fails(Ran(steps[j]))
    ensures forall k :: i <= k < j ==> !steps[k].Plain? && !Fails(Ran(steps[k]))
    decreases |steps| - i
  {
    if i == |steps| || steps[i].Plain? || Fails(Ran(steps[i])) then i else StopAt(steps, i + 1)
  }

  /** The steps after the group ran from `i` up to `n`. */
  function RanSteps(steps: seq<StepObj>, i: nat, n: nat): (ran: seq<StepObj>)
    ensures |ran| == |steps|
  {
    seq(|steps|, k requires 0 <= k < |steps| => if i <= k < n then Ran(steps[k]) else steps[k])
  }

  /** The events of running the tasks from `i` up to `n`. */
  function Events(grp: nat, steps: seq<StepObj>, i: nat, n: nat, seen: ErrInfo): seq<Event>
    requires i <= n <= |steps|
    decreases n - i
  {
    if i == n then []
    else Events(grp, steps, i, n - 1, seen) + if steps[n - 1].Task? then [Event(grp, n - 1, seen)] else []
  }

  /** Where a group ends: one past the stopping step unless that is no task. */
  function EndOf(steps: seq<StepObj>, i: nat): (end: nat)
    requires i <= |steps|
    ensures i <= end <= |steps|
  {
    var j := StopAt(steps, i);
    if j < |steps| && !steps[j].Plain? then j + 1 else j
  }

  /** `idx` is the first failing step and `code` its code; -1 and TaskOK when none fails. */
  ghost predicate FirstFailure(steps: seq<StepObj>, code: int, idx: int) {
    && (forall k :: 0 <= k < (if idx == -1 then |steps| else idx) && k < |steps| ==> !Fails(steps[k]))
    && if idx == -1 then code == TASK_OK else 0 <= idx < |steps| && Fails(steps[idx]) && code == steps[idx].result.code
  }

  /** What a task list leaves in a group: everything before its first nil. */
  function UpToNil(tasks: seq<StepObj>): seq<StepObj> {
    if |tasks| == 0 || tasks[0].Nil? then [] else [tasks[0]] + UpToNil(tasks[1..])
  }

  method GrpGetRetCode(steps: seq<StepObj>) returns (code: int, idx: int)
    ensures FirstFailure(steps, code, idx)
  {
    for k := 0 to |steps|
      invariant forall j :: 0 <= j < k ==> !Fails(steps[j])
    {
      if steps[k].Task? && steps[k].result.code > TASK_OK {
        return steps[k].result.code, k;
      }
    }
    return TASK_OK, -1;
  }

  class Plan {
    var groups: seq<SubGrp>
    var curGrpIdx: nat
    var errStep: string
    var serError: ErrInfo
    ghost var log: seq<Event>
    ghost var entered: seq<nat>  // the groups that ran, in order

    constructor ()
      ensures groups == [] && curGrpIdx == 0 && errStep == "" && serError == NO_ERROR && log == [] && entered == []
    {
      groups, curGrpIdx, errStep, serError := [], 0, "", NO_ERROR;
      log, entered := [], [];
    }

    /** Installation stops at the first nil. */
    static method Install(tasks: seq<StepObj>) returns (steps: seq<StepObj>)
      ensures steps == UpToNil(tasks)
      ensures steps <= tasks && (forall s :: s in steps ==> !s.Nil?) && (steps != tasks ==> tasks[|steps|].Nil?)
    {
      steps := [];
      for i := 0 to |tasks|
        invariant UpToNil(tasks) == steps + UpToNil(tasks[i..])
        invariant steps == tasks[..i] && forall s :: s in steps ==> !s.Nil?
      {
        if tasks[i].Nil? {
          return;
        }
        assert tasks[i..][1..] == tasks[i + 1..];
        steps := steps + [tasks[i]];
      }
    }

    method Try(tasks: seq<StepObj>)
      modifies this`groups, this`errStep
      ensures errStep == FINALLY && groups == old(groups) + [SubGrp(0, [], UpToNil(tasks))]
    {
      errStep := FINALLY;
      var steps := Install(tasks);
      groups := groups + [SubGrp(0, [], steps)];
    }

    method Finally(task: StepObj)
      modifies this`groups
      ensures groups == old(groups) + [SubGrp(0, [FINALLY], UpToNil([task]))]
    {
      var steps := Install([task]);
      groups := groups + [SubGrp(0, [FINALLY], steps)];
    }

    /** Runs one task to its last attempt. */
    static method TaskRunner(s: StepObj) returns (r: StepObj)
      requires s.Task?
      ensures r == Ran(s)
    {
      r := s;
      for k := 0 to |s.attempts|
        invariant r == s.(result := RaiseAll(s.result, s.attempts[..k]))
      {
        assert s.attempts[..k + 1][..k] == s.attempts[..k];
        var attempt := s.attempts[k];
        for j := 0 to |attempt|
          invariant r == s.(result := Raise(RaiseAll(s.result, s.attempts[..k]), attempt[..j]))
        {
          assert attempt[..j + 1][..j] == attempt[..j];
          r := r.(result := SetFirst(r.result, attempt[j]));
        }
        assert attempt[..|attempt|] == attempt;
      }
      assert s.attempts[..|s.attempts|] == s.attempts;
    }

    /** Runs steps from `start` until one fails, is no task, or the steps end. */
    static method RunSteps(ghost grp: nat, g: seq<StepObj>, start: nat, ghost seen: ErrInfo)
      returns (end: nat, steps: seq<StepObj>, ghost events: seq<Event>)
      requires start <= |g|
      ensures end == EndOf(g, start) && steps == RanSteps(g, start, end) && events == Events(grp, g, start, end, seen)
    {
      end, steps, events := start, g, [];
      var go := true;
      assert steps == RanSteps(g, start, end);
      while go
        invariant start <= end <= |g| && steps == RanSteps(g, start, end)
        invariant events == Events(grp, g, start, end, seen)
        invariant if go then StopAt(g, start) == StopAt(g, end) else end == EndOf(g, start)
        decreases go, |g| - end
      {
        if end == |steps| || steps[end].Plain? {
          go := false;
        } else if steps[end].Nil? {
          end := end + 1;
          assert steps == RanSteps(g, start, end);
        } else {
          var after := TaskRunner(steps[end]);
          steps := steps[end := after];
          events := events + [Event(grp, end, seen)];
          go := after.result.code <= TASK_OK;
          end := end + 1;
          assert steps == RanSteps(g, start, end);
        }
      }
    }

    /** Runs the current group and reports its first failing step. */
    method GrpRun() returns (code: int, idx: int)
      requires curGrpIdx < |groups| && groups[curGrpIdx].curStepIdx <= |groups[curGrpIdx].steps|
      modifies this`groups, this`log, this`entered
      ensures var g := old(groups)[curGrpIdx];
        var end := EndOf(g.steps, g.curStepIdx);
        && groups == old(groups)[curGrpIdx := g.(curStepIdx := end, steps := RanSteps(g.steps, g.curStepIdx, end))]
        && log == old(log) + Events(curGrpIdx, g.steps, g.curStepIdx, end, serError)
        && entered == old(entered) + [curGrpIdx]
        && FirstFailure(RanSteps(g.steps, g.curStepIdx, end), code, idx)
    {
      var g := groups[curGrpIdx];
      entered := entered + [curGrpIdx];
      var end, steps;
      ghost var events;
      end, steps, events := RunSteps(curGrpIdx, g.steps, g.curStepIdx, serError);
      log := log + events;
      groups := groups[curGrpIdx := g.(curStepIdx := end, steps := steps)];
      code, idx := GrpGetRetCode(steps);
    }

    /** Plans are built from named groups that hold one step. */
    ghost predicate Valid()
      reads this
    {
      forall g :: 0 <= g < |groups| ==> |groups[g].stepNames| <= 1 && groups[g].curStepIdx <= |groups[g].steps|
    }

    /** Sends control to the group if it holds the error step and does not lie behind. */
    method GotoErrorStep(grpNum: nat) returns (done: bool)
      requires Valid()
      modifies this`curGrpIdx
      ensures done == (grpNum < |groups| && errStep in groups[grpNum].stepNames)
      ensures curGrpIdx == if done && old(curGrpIdx) <= grpNum then grpNum else old(curGrpIdx)
    {
      if grpNum >= |groups| {
        return false;
      }
      // A group has at most one name, so the step index that the name would set is always 0.
      for idx := 0 to |groups[grpNum].stepNames|
        invariant errStep !in groups[grpNum].stepNames[..idx] && curGrpIdx == old(curGrpIdx)
      {
        if groups[grpNum].stepNames[idx] == errStep {
          if curGrpIdx <= grpNum {
            curGrpIdx := grpNum;
          }
          return true;
        }
      }
      return false;
    }

    /** Advances past the failed group, or further to the error step's group. */
    method GotoErrorProc()
      requires Valid()
      modifies this`curGrpIdx
      ensures curGrpIdx == NextAfterError(groups, errStep, old(curGrpIdx))
    {
      curGrpIdx := curGrpIdx + 1;
      for grpNum := 0 to |groups|
        invariant curGrpIdx == old(curGrpIdx) + 1
        invariant forall g :: 0 <= g < grpNum ==> errStep !in groups[g].stepNames
      {
        var done := GotoErrorStep(grpNum);
        if done {
          ErrGroupIs(groups, errStep, grpNum);
          return;
        }
      }
      ErrGroupIs(groups, errStep, |groups|);
    }

    method RecordErrInfo(stepIdx: int)
      modifies this`serError
      ensures serError ==
        if curGrpIdx < |groups| && 0 <= stepIdx < |groups[curGrpIdx].steps|
        then RecordOf(groups[curGrpIdx].steps, curGrpIdx, stepIdx, old(serError))
        else old(serError)
    {
      if curGrpIdx >= |groups| || stepIdx < 0 || stepIdx >= |groups[curGrpIdx].steps| {
        return;
      }
      serError := serError.(grpIdx := curGrpIdx, taskIdx := stepIdx);
      var step := groups[curGrpIdx].steps[stepIdx];
      if step.Task? {
        serError := serError.(code := step.result.code, msg := step.result.msg);
      }
    }

    /** Runs one group and moves to the next one, or to the error step's. */
    method OneGroup()
      requires Valid() && curGrpIdx < |groups|
      modifies this
      ensures Valid() && errStep == old(errStep) && old(curGrpIdx) < curGrpIdx && |groups| == |old(groups)|
      ensures forall g :: 0 <= g < |groups| && g != old(curGrpIdx) ==> groups[g] == old(groups)[g]
      ensures groups[old(curGrpIdx)].stepNames == old(groups)[old(curGrpIdx)].stepNames
      ensures entered == old(entered) + [old(curGrpIdx)]
      ensures old(log) + Trace(old(groups), old(curGrpIdx), errStep, old(serError))
           == log + Trace(old(groups), curGrpIdx, errStep, serError)
    {
      hide EndOf, RanSteps, Events, FirstFail, NextAfterError, Trace;
      ghost var cur := curGrpIdx;
      TraceStep(groups, cur, errStep, serError);
      var code, idx := GrpRun();
      FirstFailIs(groups[cur].steps, code, idx);
      if code <= TASK_OK {
        curGrpIdx := curGrpIdx + 1;
      } else {
        RecordErrInfo(idx);
        SameNames(old(groups), groups, errStep, cur);
        GotoErrorProc();
      }
    }

    /**
     * Runs the plan. It terminates, runs groups in strictly increasing order,
     * and what runs, in which order and with which error information in sight,
     * is the trace of the plan.
     */
    method WkRun()
      requires Valid()
      modifies this
      ensures log == old(log) + Trace(old(groups), old(curGrpIdx), errStep, old(serError))
      ensures old(entered) <= entered && Ascending(entered[|old(entered)|..], old(curGrpIdx), |groups|)
      ensures errStep == old(errStep) && |groups| == |old(groups)|
    {
      hide EndOf, RanSteps, Events, FirstFail, NextAfterError, Trace;
      ghost var ran: seq<nat> := [];
      while curGrpIdx < |groups|
        invariant Valid() && errStep == old(errStep) && |groups| == |old(groups)| && old(curGrpIdx) <= curGrpIdx
        invariant forall g :: curGrpIdx <= g < |groups| ==> groups[g] == old(groups)[g]
        invariant forall g :: 0 <= g < |groups| ==> groups[g].stepNames == old(groups)[g].stepNames
        invariant entered == old(entered) + ran
        invariant forall i :: 0 <= i < |ran| ==> ran[i] < |groups|
        invariant Ascending(ran, old(curGrpIdx), curGrpIdx)
        invariant old(log) + Trace(old(groups), old(curGrpIdx), errStep, old(serError))
               == log + Trace(old(groups), curGrpIdx, errStep, serError)
        decreases |groups| - curGrpIdx
      {
        ghost var before, cur := groups, curGrpIdx;
        SameTrace(before, old(groups), cur, errStep, serError);
        OneGroup();
        ran := ran + [cur];
        SameTrace(before, old(groups), curGrpIdx, errStep, serError);
      }
      TraceStep(old(groups), curGrpIdx, errStep, serError);
      assert entered[|old(entered)|..] == ran;
    }
  }

  /** The lowest group that holds the error step, or one past the end. */
  function ErrGroup(groups: seq<SubGrp>, errStep: string, from: nat): nat
    requires from <= |groups|
    decreases |groups| - from
  {
    if from == |groups| || errStep in groups[from].stepNames then from else ErrGroup(groups, errStep, from + 1)
  }

  lemma ErrGroupIs(groups: seq<SubGrp>, errStep: string, n: nat)
    requires n <= |groups| && (n < |groups| ==> errStep in groups[n].stepNames)
    requires forall g :: 0 <= g < n ==> errStep !in groups[g].stepNames
    ensures ErrGroup(groups, errStep, 0) == n
  {
    ErrGroupFrom(groups, errStep, 0, n);
  }

  lemma {:induction false} ErrGroupFrom(groups: seq<SubGrp>, errStep: string, from: nat, n: nat)
    requires from <= n <= |groups| && (n < |groups| ==> errStep in groups[n].stepNames)
    requires forall g :: from <= g < n ==> errStep !in groups[g].stepNames
    ensures ErrGroup(groups, errStep, from) == n
    decreases n - from
  {
    if from < n {
      ErrGroupFrom(groups, errStep, from + 1, n);
    }
  }

  /** Where control goes after group `cur` failed. */
  function NextAfterError(groups: seq<SubGrp>, errStep: string, cur: nat): nat {
    var g := ErrGroup(groups, errStep, 0);
    if g < |groups| && cur < g then g else cur + 1
  }

  lemma {:induction false} SameNamesFrom(a: seq<SubGrp>, b: seq<SubGrp>, errStep: string, from: nat)
    requires |a| == |b| && from <= |a| && forall g :: 0 <= g < |a| ==> a[g].stepNames == b[g].stepNames
    ensures ErrGroup(a, errStep, from) == ErrGroup(b, errStep, from)
    decreases |a| - from
  {
    if from < |a| && errStep !in a[from].stepNames {
      SameNamesFrom(a, b, errStep, from + 1);
    }
  }

  lemma SameNames(a: seq<SubGrp>, b: seq<SubGrp>, errStep: string, cur: nat)
    requires |a| == |b| && forall g :: 0 <= g < |a| ==> a[g].stepNames == b[g].stepNames
    ensures NextAfterError(a, errStep, cur) == NextAfterError(b, errStep, cur)
  {
    SameNamesFrom(a, b, errStep, 0);
  }

  function RecordOf(steps: seq<StepObj>, grp: nat, idx: nat, err: ErrInfo): ErrInfo
    requires idx < |steps|
  {
    if steps[idx].Task? then ErrInfo(steps[idx].result.code, steps[idx].result.msg, grp, idx)
    else err.(grpIdx := grp, taskIdx := idx)
  }

  function FirstFail(steps: seq<StepObj>, from: nat): (n: nat)
    requires from <= |steps|
    ensures from <= n <= |steps| && (n < |steps| ==> Fails(steps[n]))
    decreases |steps| - from
  {
    if from == |steps| || Fails(steps[from]) then from else FirstFail(steps, from + 1)
  }

  lemma {:induction false} FirstFailFrom(steps: seq<StepObj>, from: nat, n: nat)
    requires from <= n <= |steps| && (n < |steps| ==> Fails(steps[n])) && forall k :: from <= k < n ==> !Fails(steps[k])
    ensures FirstFail(steps, from) == n
    decreases n - from
  {
    if from < n {
      FirstFailFrom(steps, from + 1, n);
    }
  }

  lemma FirstFailIs(steps: seq<StepObj>, code: int, idx: int)
    requires FirstFailure(steps, code, idx)
    ensures FirstFail(steps, 0) == if idx == -1 then |steps| else idx
    ensures code > TASK_OK <==> idx != -1
  {
    FirstFailFrom(steps, 0, if idx == -1 then |steps| else idx);
  }

  /** Numbers that rise strictly within a range: each of them occurs once. */
  ghost predicate Ascending(s: seq<nat>, lo: nat, hi: nat) {
    && (forall i :: 0 <= i < |s| ==> lo <= s[i] < hi)
    && forall i, j :: 0 <= i < j < |s| ==> s[i] < s[j]
  }

  /** What a plan runs from a group on. */
  function Trace(groups: seq<SubGrp>, cur: nat, errStep: string, err: ErrInfo): seq<Event>
    decreases if cur < |groups| then |groups| - cur else 0
  {
    if cur >= |groups| || groups[cur].curStepIdx > |groups[cur].steps| then []
    else
      var g := groups[cur];
      var end := EndOf(g.steps, g.curStepIdx);
      var after := RanSteps(g.steps, g.curStepIdx, end);
      var failed := FirstFail(after, 0);
      Events(cur, g.steps, g.curStepIdx, end, err) +
      if failed == |after| then Trace(groups, cur + 1, errStep, err)
      else Trace(groups, NextAfterError(groups, errStep, cur), errStep, RecordOf(after, cur, failed, err))
  }

  /** One group of a trace, and where the trace goes on. */
  lemma TraceStep(groups: seq<SubGrp>, cur: nat, errStep: string, err: ErrInfo)
    ensures cur >= |groups| ==> Trace(groups, cur, errStep, err) == []
    ensures cur < NextAfterError(groups, errStep, cur)
    ensures cur < |groups| && groups[cur].curStepIdx <= |groups[cur].steps| ==>
      && var g := groups[cur];
      var end := EndOf(g.steps, g.curStepIdx);
      var after := RanSteps(g.steps, g.curStepIdx, end);
      var failed := FirstFail(after, 0);
      && |after| == |g.steps|
      && Trace(groups, cur, errStep, err) == Events(cur, g.steps, g.curStepIdx, end, err) +
         if failed == |after| then Trace(groups, cur + 1, errStep, err)
         else Trace(groups, NextAfterError(groups, errStep, cur), errStep, RecordOf(after, cur, failed, err))
  {
  }

  /** A trace depends on the groups from its first one on, and on the names. */
  lemma {:induction false} SameTrace(a: seq<SubGrp>, b: seq<SubGrp>, cur: nat, errStep: string, err: ErrInfo)
    requires |a| == |b| && forall g :: 0 <= g < |a| ==> a[g].stepNames == b[g].stepNames
    requires forall g :: cur <= g < |a| ==> a[g] == b[g]
    ensures Trace(a, cur, errStep, err) == Trace(b, cur, errStep, err)
    decreases if cur < |a| then |a| - cur else 0
  {
    hide EndOf, RanSteps, Events, FirstFail, NextAfterError;
    TraceStep(a, cur, errStep, err);
    SameNames(a, b, errStep, cur);
    if cur < |a| && a[cur].curStepIdx <= |a[cur].steps| {
      var g := a[cur];
      var after := RanSteps(g.steps, g.curStepIdx, EndOf(g.steps, g.curStepIdx));
      var failed := FirstFail(after, 0);
      if failed == |after| {
        SameTrace(a, b, cur + 1, errStep, err);
      } else {
        SameTrace(a, b, NextAfterError(a, errStep, cur), errStep, RecordOf(after, cur, failed, err));
      }
    }
  }

  /** A plan of Try groups and a Finally step, as Try and Finally build it. */
  function TryPlan(tries: seq<seq<StepObj>>, last: StepObj): seq<SubGrp> {
    seq(|tries|, i requires 0 <= i < |tries| => SubGrp(0, [], UpToNil(tries[i])))
    + [SubGrp(0, [FINALLY], UpToNil([last]))]
  }

  lemma {:induction false} UpToNilKeeps(tasks: seq<StepObj>)
    requires forall t :: t in tasks ==> t.Task?
    ensures UpToNil(tasks) == tasks
  {
    if |tasks| > 0 {
      assert tasks[0] in tasks && tasks == [tasks[0]] + tasks[1..];
      UpToNilKeeps(tasks[1..]);
    }
  }

  /** Tasks that have not failed yet. */
  ghost predicate Unused(tasks: seq<StepObj>) {
    forall t :: t in tasks ==> t.Task? && t.result.code <= TASK_OK
  }

  /** `n` is the first task that fails, or the number of tasks. */
  ghost predicate FailsAt(tasks: seq<StepObj>, n: nat) {
    n <= |tasks| && (n < |tasks| ==> Fails(Ran(tasks[n]))) && forall k :: 0 <= k < n ==> !Fails(Ran(tasks[k]))
  }

  /** The first `n` tasks of a group run, with no error in sight. */
  function Clean(grp: nat, n: nat): seq<Event> {
    seq(n, k requires 0 <= k < n => Event(grp, k, NO_ERROR))
  }

  /** The groups from one to another run in full. */
  function AllClean(tries: seq<seq<StepObj>>, from: nat, until: nat): seq<Event>
    requires from <= until <= |tries|
    decreases until - from
  {
    if from == until then [] else Clean(from, |tries[from]|) + AllClean(tries, from + 1, until)
  }

  lemma {:induction false} EventsClean(grp: nat, tasks: seq<StepObj>, n: nat)
    requires n <= |tasks| && Unused(tasks)
    ensures Events(grp, tasks, 0, n, NO_ERROR) == Clean(grp, n)
  {
    if n > 0 {
      assert tasks[n - 1] in tasks;
      EventsClean(grp, tasks, n - 1);
    }
  }

  /** What a Try group runs and leaves behind. */
  lemma TryGroup(grp: nat, tasks: seq<StepObj>, n: nat)
    requires Unused(tasks) && FailsAt(tasks, n)
    ensures var end := if n < |tasks| then n + 1 else n;
      && EndOf(tasks, 0) == end && FirstFail(RanSteps(tasks, 0, end), 0) == n
      && Events(grp, tasks, 0, end, NO_ERROR) == Clean(grp, end)
      && (n < |tasks| ==>
            RecordOf(RanSteps(tasks, 0, end), grp, n, NO_ERROR)
            == ErrInfo(Ran(tasks[n]).result.code, Ran(tasks[n]).result.msg, grp, n))
  {
    hide RaiseAll, Events, FirstFail, Clean;
    var m := StopAt(tasks, 0);
    assert m < |tasks| ==> tasks[m] in tasks;
    assert n < |tasks| ==> tasks[n] in tasks;
    EventsClean(grp, tasks, EndOf(tasks, 0));
    FirstFailFrom(RanSteps(tasks, 0, EndOf(tasks, 0)), 0, n);
  }

  /** From every Try group an error leads to Finally, which is the last to run. */
  lemma FinallyGroup(tries: seq<seq<StepObj>>, last: StepObj, g: nat, err: ErrInfo)
    requires last.Task? && g <= |tries|
    ensures g < |tries| ==> NextAfterError(TryPlan(tries, last), FINALLY, g) == |tries|
    ensures Trace(TryPlan(tries, last), |tries|, FINALLY, err) == [Event(|tries|, 0, err)]
  {
    var plan, n := TryPlan(tries, last), |tries|;
    ErrGroupIs(plan, FINALLY, n);
    UpToNilKeeps([last]);
    assert EndOf([last], 0) == 1;
    assert Events(n, [last], 0, 1, err) == [Event(n, 0, err)] by {
      assert Events(n, [last], 0, 0, err) == [];
    }
    TraceStep(plan, n, FINALLY, err);
    TraceStep(plan, n + 1, FINALLY, err);
  }

  /**
   * In a plan of tasks the Try groups run in order, and the steps of each in
   * order, up to and including the first step that fails; all later Try steps,
   * of that group and of the other ones, are passed over. Finally runs exactly
   * once, after them, and sees that step's group, index, code and message, or
   * no error when every step succeeded.
   */
  lemma {:induction false} TryThenFinally(tries: seq<seq<StepObj>>, last: StepObj, cur: nat, g: nat, n: nat)
    requires last.Task? && (forall tasks :: tasks in tries ==> Unused(tasks)) && cur <= g <= |tries|
    requires forall b :: cur <= b < g ==> FailsAt(tries[b], |tries[b]|)
    requires g < |tries| ==> n < |tries[g]| && FailsAt(tries[g], n)
    ensures Trace(TryPlan(tries, last), cur, FINALLY, NO_ERROR) == AllClean(tries, cur, g) +
      if g == |tries| then [Event(|tries|, 0, NO_ERROR)]
      else
        var failed := Ran(tries[g][n]).result;
        Clean(g, n + 1) + [Event(|tries|, 0, ErrInfo(failed.code, failed.msg, g, n))]
    decreases g - cur
  {
    hide EndOf, RanSteps, Events, FirstFail, NextAfterError, Trace, RecordOf, UpToNil, FailsAt, RaiseAll;
    var plan := TryPlan(tries, last);
    TraceStep(plan, cur, FINALLY, NO_ERROR);
    FinallyGroup(tries, last, cur, NO_ERROR);
    if cur < |tries| {
      var tasks := tries[cur];
      assert tasks in tries;
      UpToNilKeeps(tasks);
      assert plan[cur] == SubGrp(0, [], tasks);
      if cur < g {
        TryGroup(cur, tasks, |tasks|);
        TryThenFinally(tries, last, cur + 1, g, n);
      } else {
        TryGroup(cur, tasks, n);
        var failed := Ran(tasks[n]).result;
        FinallyGroup(tries, last, cur, ErrInfo(failed.code, failed.msg, g, n));
      }
    }
  }
}
