/** The in-memory task status and its persisted copy. */
module StatusDb {
  import opened AppConfig
  import opened DataStore

  /** The status after rule `i` of a list has moved to `state`. */
  function Advanced(t: TaskStatus, kind: Kind, i: nat, state: nat): TaskStatus
    requires i < |StatusList(t, kind)|
  {
    var list := StatusList(t, kind);
    WithStatusList(t, kind, list[i := list[i].(state := state)])
      .(progress := if state == WAIT_CONFIG_DB_WRITE then t.progress + 1 else t.progress)
  }

  predicate IsFirst(list: seq<RuleStatus>, i: int, id: string) {
    0 <= i < |list| && list[i].id == id && forall j :: 0 <= j < i ==> list[j].id != id
  }

  class StatusDB {
    const app: Uuid
    const task: Uuid
    const backend: Backend
    var status: TaskStatus
    ghost const loaded: TaskStatus
    ghost var pushed: seq<TaskStatus>  // every status record written so far, oldest first

    constructor (app: Uuid, task: Uuid, backend: Backend, status: TaskStatus)
      ensures this.app == app && this.task == task && this.backend == backend
      ensures this.status == status && loaded == status && pushed == [status]
    {
      this.app := app;
      this.task := task;
      this.backend := backend;
      this.status := status;
      loaded := status;
      pushed := [status];
    }

    /** The stored record is the one that was written last, and the first one is the one that was loaded. */
    ghost predicate Synced()
      reads this, backend
    {
      && |pushed| > 0 && pushed[0] == loaded
      && Lookup(backend.kv, StatusKey(app, task)) == Some(StatusRecord(pushed[|pushed| - 1]))
    }

    static method SearchRule(list: seq<RuleStatus>, id: string) returns (index: int)
      ensures index == -1 <==> forall i :: 0 <= i < |list| ==> list[i].id != id
      ensures index != -1 ==> IsFirst(list, index, id)
    {
      for i := 0 to |list|
        invariant forall j :: 0 <= j < i ==> list[j].id != id
      {
        if list[i].id == id {
          return i;
        }
      }
      return -1;
    }

    method PushDB() returns (ok: bool)
      modifies backend, this`pushed
      ensures ok ==>
        && backend.kv == old(backend.kv)[StatusKey(app, task) := StatusRecord(status)]
        && backend.faults == old(backend.faults) && pushed == old(pushed) + [status]
      ensures !ok ==>
        backend.kv == old(backend.kv) && backend.faults == old(backend.faults) + 1 && pushed == old(pushed)
      ensures old(Synced()) ==> Synced()
    {
      ok := backend.PutRecord(StatusKey(app, task), StatusRecord(status));
      if ok {
        pushed := pushed + [status];
      }
    }

    /**
     * Moves the first rule with the id to `state`, counts it when it becomes
     * ready, and persists; when that fails the memory copy is put back.
     */
    method SetStateAndProgress(kind: Kind, id: string, state: nat) returns (ok: bool)
      modifies this, backend
      ensures ok ==>
        exists i ::
          && IsFirst(StatusList(old(status), kind), i, id)
          && status == Advanced(old(status), kind, i, state)
      ensures ok ==> backend.kv == old(backend.kv)[StatusKey(app, task) := StatusRecord(status)]
      ensures ok ==> backend.faults == old(backend.faults) && pushed == old(pushed) + [status]
      ensures !ok ==> status == old(status) && backend.kv == old(backend.kv) && pushed == old(pushed)
      ensures !ok ==>
        || backend.faults == old(backend.faults) + 1
        || (backend.faults == old(backend.faults) && !exists i :: IsFirst(StatusList(status, kind), i, id))
      ensures old(Synced()) ==> Synced()
    {
      var list := StatusList(status, kind);
      var index := SearchRule(list, id);
      if index == -1 {
        return false;
      }
      var oldState := list[index].state;
      status := WithStatusList(status, kind, list[index := list[index].(state := state)]);
      if state == WAIT_CONFIG_DB_WRITE {
        status := status.(progress := status.progress + 1);
      }
      ok := PushDB();
      if !ok {
        var changed := StatusList(status, kind);
        assert changed[index := changed[index].(state := oldState)] == list;
        status := WithStatusList(status, kind, changed[index := changed[index].(state := oldState)]);
        if state == WAIT_CONFIG_DB_WRITE {
          status := status.(progress := status.progress - 1);
        }
      }
    }

    /** Only the first failure reason is kept. */
    method SetFailureReason(reason: string)
      modifies this`status
      ensures status == if |old(status).details| == 0 then old(status).(details := reason) else old(status)
    {
      if |status.details| == 0 {
        status := status.(details := reason);
      }
    }
  }
}
