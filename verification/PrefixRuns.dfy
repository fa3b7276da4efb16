/**
 * Exclusion for ids of any length. The handlers look for a job by prefix and
 * workers drop their job by prefix, so whether an application can get two
 * workers depends on which ids are in use.
 */
module PrefixRuns {
  import opened AppConfig
  import opened DataStore

  /** The job records by path, and how many workers each application has in flight. */
  datatype World = World(jobs: RawStore, workers: multiset<string>)

  /** A failed stage may leave its job behind, and so may a worker that could not drop it. */
  datatype Step =
    | Stage(id: string, job: Record)
    | FailedStage(id: string, job: Record, left: bool)
    | End(id: string, dropped: bool)

  function JobPath(id: string): string {
    JOBS_PATH + id
  }

  /** A request is staged when the prefix read finds no job; a worker that ends drops its job by prefix. */
  ghost predicate Takes(w: World, w': World, step: Step) {
    match step
    case Stage(id, job) =>
      && UnderPrefix(w.jobs, JobPath(id)) == {}
      && w' == World(w.jobs[JobPath(id) := job], w.workers + multiset{id})
    case FailedStage(id, job, left) =>
      && UnderPrefix(w.jobs, JobPath(id)) == {}
      && w' == World(if left then w.jobs[JobPath(id) := job] else w.jobs, w.workers)
    case End(id, dropped) =>
      && id in w.workers
      && w' == World(if dropped then DeletePrefix(w.jobs, JobPath(id)) else w.jobs, w.workers - multiset{id})
  }

  ghost predicate Run(ids: iset<string>, ws: seq<World>, steps: seq<Step>) {
    && |ws| == |steps| + 1 && ws[0] == World(map[], multiset{})
    && forall i :: 0 <= i < |steps| ==> steps[i].id in ids && Takes(ws[i], ws[i + 1], steps[i])
  }

  ghost predicate Exclusive(w: World) {
    forall id :: w.workers[id] <= 1
  }

  ghost predicate AlwaysExclusive(ids: iset<string>) {
    forall ws, steps, i :: Run(ids, ws, steps) && 0 <= i < |ws| ==> Exclusive(ws[i])
  }

  /** No id in use is a proper prefix of another. */
  ghost predicate PrefixFree(ids: iset<string>) {
    forall a, b :: a in ids && b in ids && a <= b ==> a == b
  }

  lemma PathsAreInjective(a: string, b: string)
    ensures JobPath(a) == JobPath(b) <==> a == b
  {
    assert a == JobPath(a)[|JOBS_PATH|..] && b == JobPath(b)[|JOBS_PATH|..];
  }

  /** With prefix-free ids an application has at most one worker, and only while its job is stored. */
  ghost predicate Covered(ids: iset<string>, w: World) {
    && (forall x :: x in w.jobs ==> exists id :: id in ids && x == JobPath(id))
    && (forall id :: id in ids ==> w.workers[id] <= if JobPath(id) in w.jobs then 1 else 0)
    && (forall id :: id !in ids ==> w.workers[id] == 0)
  }

  /** With prefix-free ids a prefix reaches exactly the job that was meant. */
  lemma ReachesOwnJob(ids: iset<string>, w: World, id: string)
    requires PrefixFree(ids) && Covered(ids, w) && id in ids
    ensures UnderPrefix(w.jobs, JobPath(id)) == if JobPath(id) in w.jobs then {JobPath(id)} else {}
  {
    forall x | x in UnderPrefix(w.jobs, JobPath(id)) ensures x == JobPath(id) {
      var b :| b in ids && x == JobPath(b);
      PathsNestAsIds(JOBS_PATH, id, b);
    }
  }

  lemma StepKeepsCovered(ids: iset<string>, w: World, w': World, step: Step)
    requires PrefixFree(ids) && Covered(ids, w) && step.id in ids && Takes(w, w', step)
    ensures Covered(ids, w')
  {
    ReachesOwnJob(ids, w, step.id);
    forall id | id != step.id ensures JobPath(id) != JobPath(step.id) {
      PathsAreInjective(id, step.id);
    }
  }

  lemma {:induction false} RunIsCovered(ids: iset<string>, ws: seq<World>, steps: seq<Step>, i: nat)
    requires PrefixFree(ids) && Run(ids, ws, steps) && i < |ws|
    ensures Covered(ids, ws[i])
  {
    if i > 0 {
      RunIsCovered(ids, ws, steps, i - 1);
      StepKeepsCovered(ids, ws[i - 1], ws[i], steps[i - 1]);
    }
  }

  /**
   * If one id goes on from another, the shorter one's worker takes the longer one's job, which can then be staged
   * again.
   */
  lemma SecondWorker(ids: iset<string>, a: string, b: string, job: Record) returns (ws: seq<World>, steps: seq<Step>)
    requires a in ids && b in ids && a <= b && a != b
    ensures Run(ids, ws, steps) && |ws| == 5 && !Exclusive(ws[4])
  {
    var p, q := JobPath(a), JobPath(b);
    PathsAreInjective(a, b);
    PathsNestAsIds(JOBS_PATH, a, b);
    PathsNestAsIds(JOBS_PATH, b, a);
    steps := [Stage(a, job), Stage(b, job), End(a, true), Stage(b, job)];
    ws := [World(map[], multiset{}), World(map[p := job], multiset{a}), World(map[p := job, q := job], multiset{a, b}),
           World(map[], multiset{b}), World(map[q := job], multiset{b, b})];
    assert Takes(ws[0], ws[1], steps[0]);
    assert Takes(ws[1], ws[2], steps[1]);
    assert Takes(ws[2], ws[3], steps[2]) by {
      assert DeletePrefix(ws[2].jobs, p) == map[];
      assert multiset{a, b} - multiset{a} == multiset{b};
    }
    assert Takes(ws[3], ws[4], steps[3]);
    assert ws[4].workers[b] == 2;
  }

  /** Over all runs no application has two workers, if and only if no id in use is a proper prefix of another. */
  lemma ExclusiveIffPrefixFree(ids: iset<string>)
    ensures AlwaysExclusive(ids) <==> PrefixFree(ids)
  {
    if PrefixFree(ids) {
      forall ws, steps, i | Run(ids, ws, steps) && 0 <= i < |ws| ensures Exclusive(ws[i]) {
        RunIsCovered(ids, ws, steps, i);
      }
    } else {
      var a, b :| a in ids && b in ids && a <= b && a != b;
      var ws, steps := SecondWorker(ids, a, b, TaskRecord(seq(ID_LENGTH, i => '0')));
      assert !Exclusive(ws[4]);
    }
  }
}
