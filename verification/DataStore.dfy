/**
 * The key-value store behind the configuration, job, task and status records.
 * Reads and deletes address every key that has the given path as a prefix.
 */
module DataStore {
  import opened AppConfig

  datatype Key =
    | ConfigKey(app: Uuid)
    | JobKey(app: Uuid)
    | TaskKey(task: Uuid)
    | StatusKey(app: Uuid, task: Uuid)

  datatype Record =
    | ConfigRecord(config: AppDConfig)
    | TaskRecord(app: Uuid)
    | StatusRecord(status: TaskStatus)

  const ROOT := "/cse-sr/etsi/"
  const CONFIG_PATH := ROOT + "appd/"
  const JOBS_PATH := ROOT + "mep/applcm/jobs/"
  const TASKS_PATH := ROOT + "mep/applcm/tasks/"
  const TASK_STATUS_PATH := ROOT + "mep/applcm/taskstatus/"

  function Path(k: Key): string {
    match k
    case ConfigKey(app) => CONFIG_PATH + app
    case JobKey(app) => JOBS_PATH + app
    case TaskKey(task) => TASKS_PATH + task
    case StatusKey(app, task) => TASK_STATUS_PATH + app + "/" + task
  }

  type Store = map<Key, Record>

  ghost predicate SameExcept(before: Store, after: Store, keys: set<Key>) {
    forall k :: k !in keys ==> Lookup(after, k) == Lookup(before, k)
  }

  /** The keys that a prefix read or delete of `k` reaches. */
  function Reached(kv: Store, k: Key): set<Key> {
    set x | x in kv && Path(k) <= Path(x)
  }

  /** Because ids have one length, a path is a prefix of another only when they are the same key. */
  lemma PrefixIsExact(k: Key, x: Key)
    ensures Path(k) <= Path(x) <==> k == x
  {
    if Path(k) <= Path(x) {
      SectionsDiffer(k, x);
      match k
      case ConfigKey(app) => TailEqual(CONFIG_PATH, app, x.app);
      case JobKey(app) => TailEqual(JOBS_PATH, app, x.app);
      case TaskKey(task) => TailEqual(TASKS_PATH, task, x.task);
      case StatusKey(app, task) => PairEqual(TASK_STATUS_PATH, app, task, x.app, x.task);
    }
  }

  lemma PairEqual(section: string, a: Uuid, b: Uuid, a': Uuid, b': Uuid)
    requires section + a + "/" + b <= section + a' + "/" + b'
    ensures a == a' && b == b'
  {
    assert section + a + "/" + b == section + (a + "/" + b);
    assert section + a' + "/" + b' == section + (a' + "/" + b');
    TailEqual(section, a + "/" + b, a' + "/" + b');
    assert a == (a + "/" + b)[..ID_LENGTH] && a' == (a' + "/" + b')[..ID_LENGTH];
    assert b == (a + "/" + b)[ID_LENGTH + 1..] && b' == (a' + "/" + b')[ID_LENGTH + 1..];
  }

  lemma TailEqual(section: string, a: string, b: string)
    requires section + a <= section + b && |a| == |b|
    ensures a == b
  {
    assert a == (section + a)[|section|..];
    assert b == (section + b)[|section|..];
  }

  /** The four record families diverge before their ids begin. */
  lemma SectionsDiffer(k: Key, x: Key)
    requires Path(k) <= Path(x)
    ensures (k.ConfigKey? <==> x.ConfigKey?) && (k.JobKey? <==> x.JobKey?)
    ensures (k.TaskKey? <==> x.TaskKey?) && (k.StatusKey? <==> x.StatusKey?)
  {
    // Position 13 separates "appd" from "mep", 24 separates "jobs" from "task...", 29 separates "tasks" from
    // "taskstatus".
    var p, q := Path(k), Path(x);
    SectionOf(k);
    SectionOf(x);
    assert p[13] == q[13] && p[24] == q[24] && p[29] == q[29];
  }

  lemma SectionOf(k: Key)
    ensures |Path(k)| > 30
    ensures Path(k)[13] == if k.ConfigKey? then 'a' else 'm'
    ensures !k.ConfigKey? ==> Path(k)[24] == if k.JobKey? then 'j' else 't'
    ensures k.TaskKey? ==> Path(k)[29] == '/'
    ensures k.StatusKey? ==> Path(k)[29] == 't'
  {
  }

  /** A prefix read or delete therefore reaches the one key that was meant. */
  lemma ReachedIsExact(kv: Store, k: Key)
    ensures Reached(kv, k) == if k in kv then {k} else {}
  {
    forall x | x in kv ensures Path(k) <= Path(x) <==> k == x {
      PrefixIsExact(k, x);
    }
  }

  // --- Ids of any length ---

  /** The store as it is, records by path. Handlers do not look at the form of the ids that paths end in. */
  type RawStore = map<string, Record>

  function UnderPrefix(raw: RawStore, p: string): set<string> {
    set x | x in raw && p <= x
  }

  function DeletePrefix(raw: RawStore, p: string): RawStore {
    raw - UnderPrefix(raw, p)
  }

  /** No stored id of the section goes on where `id` ends. */
  ghost predicate Unextended(raw: RawStore, section: string, id: string) {
    forall b :: section + b in raw && id <= b ==> b == id
  }

  /** Within a section, one path is a prefix of another exactly when its id is. */
  lemma PathsNestAsIds(section: string, a: string, b: string)
    ensures section + a <= section + b <==> a <= b
  {
    assert a == (section + a)[|section|..] && b == (section + b)[|section|..];
    if section + a <= section + b {
      assert (section + b)[..|section + a|] == section + a;
      assert b[..|a|] == (section + b)[|section|..|section + a|];
    }
  }

  /** What lies under the path of an id is the record of an id that goes on from it. */
  lemma UnderIsExtension(raw: RawStore, section: string, id: string, x: string) returns (b: string)
    requires x in UnderPrefix(raw, section + id)
    ensures x == section + b && id <= b
  {
    b := x[|section|..];
    assert x[..|section|] == (section + id)[..|section|] == section;
    PathsNestAsIds(section, id, b);
  }

  /** A prefix delete takes the record of its id and no other if and only if no stored id goes on from it. */
  lemma DeleteIsExactIff(raw: RawStore, section: string, id: string)
    ensures DeletePrefix(raw, section + id) == raw - {section + id} <==> Unextended(raw, section, id)
  {
    var p := section + id;
    forall b | section + b in raw && id <= b ensures section + b in UnderPrefix(raw, p) {
      PathsNestAsIds(section, id, b);
    }
    if Unextended(raw, section, id) {
      forall x | x in UnderPrefix(raw, p) ensures x == p {
        var b := UnderIsExtension(raw, section, id, x);
      }
      assert UnderPrefix(raw, p) <= {p};
    } else {
      var b :| section + b in raw && id <= b && b != id;
      assert b == (section + b)[|section|..] && id == p[|section|..];
      assert section + b !in DeletePrefix(raw, p);
    }
  }

  /**
   * A prefix read finds something exactly when the record is there, if and only if it is or no stored id goes on from
   * it.
   */
  lemma FoundIsExactIff(raw: RawStore, section: string, id: string)
    ensures (UnderPrefix(raw, section + id) != {} <==> section + id in raw)
       <==> section + id in raw || Unextended(raw, section, id)
  {
    var p := section + id;
    if p in raw {
      assert p in UnderPrefix(raw, p);
    } else if Unextended(raw, section, id) {
      forall x | x in UnderPrefix(raw, p) ensures x == p {
        var b := UnderIsExtension(raw, section, id, x);
      }
    } else {
      var b :| section + b in raw && id <= b && b != id;
      PathsNestAsIds(section, id, b);
      assert section + b in UnderPrefix(raw, p);
    }
  }

  /** With ids "ab" and "abc", the end of the first application's task takes the second one's job. */
  lemma OtherJobIsLost(job: Record, other: Record)
    ensures DeletePrefix(map[JOBS_PATH + "ab" := job, JOBS_PATH + "abc" := other], JOBS_PATH + "ab") == map[]
  {
    var raw := map[JOBS_PATH + "ab" := job, JOBS_PATH + "abc" := other];
    PathsNestAsIds(JOBS_PATH, "ab", "abc");
    assert "abc"[..2] == "ab";
    assert raw.Keys <= UnderPrefix(raw, JOBS_PATH + "ab");
  }

  /** The records of a store whose ids have one length, by path. */
  ghost predicate SameRecords(kv: Store, raw: RawStore) {
    && (forall k :: Lookup(raw, Path(k)) == Lookup(kv, k))
    && (forall x :: x in raw ==> exists k :: k in kv && Path(k) == x)
  }

  /** For such a store a prefix read or delete by path is an exact one by key. */
  lemma EqualLengthIsExact(kv: Store, raw: RawStore, k: Key)
    requires SameRecords(kv, raw)
    ensures UnderPrefix(raw, Path(k)) == if k in kv then {Path(k)} else {}
    ensures SameRecords(kv - {k}, DeletePrefix(raw, Path(k)))
  {
    hide Path;
    forall x | x in UnderPrefix(raw, Path(k)) ensures x == Path(k) && k in kv {
      var y :| y in kv && Path(y) == x;
      PrefixIsExact(k, y);
    }
    assert k in kv ==> Lookup(raw, Path(k)).Some?;
    forall y | y != k ensures Path(y) != Path(k) {
      PrefixIsExact(k, y);
    }
    var rest := DeletePrefix(raw, Path(k));
    forall x | x in rest ensures exists y :: y in kv - {k} && Path(y) == x {
      var y :| y in kv && Path(y) == x;
      assert y in kv - {k};
    }
  }

  class Backend {
    var kv: Store
    ghost var faults: nat

    constructor ()
      ensures kv == map[] && faults == 0
    {
      kv := map[];
      faults := 0;
    }

    method GetRecord(k: Key) returns (r: Option<Record>)
      ensures r == Lookup(kv, k)
    {
      var hits := Reached(kv, k);
      ReachedIsExact(kv, k);
      if hits == {} {
        return None;
      }
      var first :| first in hits;
      return Some(kv[first]);
    }

    method PutRecord(k: Key, v: Record) returns (ok: bool)
      modifies this
      ensures ok ==> kv == old(kv)[k := v] && faults == old(faults)
      ensures !ok ==> kv == old(kv) && faults == old(faults) + 1
    {
      var fault: bool := *;
      if fault {
        faults := faults + 1;
        return false;
      }
      kv := kv[k := v];
      return true;
    }

    method DeleteRecord(k: Key) returns (ok: bool)
      modifies this
      ensures ok ==> kv == old(kv) - {k} && faults == old(faults)
      ensures !ok ==> kv == old(kv) && faults == old(faults) + 1
    {
      var fault: bool := *;
      if fault {
        faults := faults + 1;
        return false;
      }
      ReachedIsExact(kv, k);
      kv := kv - Reached(kv, k);
      return true;
    }

    /** Deletes the paths one by one, going on after a failure only when told to. */
    method DeletePaths(paths: seq<Key>, continueOnFailure: bool) returns (ok: bool)
      modifies this
      ensures faults >= old(faults)
      ensures kv.Keys <= old(kv).Keys && forall k :: k in kv ==> kv[k] == old(kv)[k]
      ensures forall k :: k in old(kv) && k !in paths ==> k in kv
      ensures faults == old(faults) ==> ok && forall k :: k in paths ==> k !in kv
      ensures !ok ==> faults > old(faults)
      ensures ok && !continueOnFailure ==> faults == old(faults)
    {
      for i := 0 to |paths|
        invariant faults >= old(faults) && (!continueOnFailure ==> faults == old(faults))
        invariant kv.Keys <= old(kv).Keys && forall k :: k in kv ==> kv[k] == old(kv)[k]
        invariant forall k :: k in old(kv) && k !in paths[..i] ==> k in kv
        invariant faults == old(faults) ==> forall k :: k in paths[..i] ==> k !in kv
      {
        var deleted := DeleteRecord(paths[i]);
        if !deleted && !continueOnFailure {
          return false;
        }
      }
      return true;
    }
  }
}
