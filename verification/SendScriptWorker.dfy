/** The worker process: src/modules/send-script-main/send-script-worker.service.ts.  Its method run is
    the state machine of Lifecycle, taken without interruption. */
module SendScriptWorker {
  import opened Wrappers
  import opened TaskStore
  import opened ScriptTasks
  import opened Lifecycle

  /** The i-th database step of a run. */
  function RunEvent(id: string, recordId: string, ms: nat, sent: bool, i: nat): Event {
    match i
    case 0 => LoadTask(id)
    case 1 => Proceed(id, recordId, ms)
    case 2 => SaveRunning(id)
    case _ => if sent then SendOk(id) else SendFail(id, ms)
  }

  /** The first n database steps of a run. */
  function RunSteps(s: Life, id: string, recordId: string, ms: nat, sent: bool, n: nat): Life {
    if n == 0 then s
    else Step(RunSteps(s, id, recordId, ms, sent, n - 1), RunEvent(id, recordId, ms, sent, n - 1))
  }

  /** A run of a task whose device lock was just taken, with nothing else in flight. */
  function RunStart(db: Db, id: string, token: nat): Life {
    Life(db, map[id := Flight("", Locked(token))], map[], map[], map[], {}, map[])
  }

  function WithRecord(db: Db, id: string, token: nat, recordId: string): Db
    requires id in db.tasks
  {
    db.(records := db.records[recordId := NewRecord(id, db.tasks[id], token)], order := db.order + [recordId])
  }

  function Sent(db: Db, id: string, recordId: string, snap: Task, ms: nat, sent: bool): Db {
    if sent then SetTask(db, id, snap.(status := SendSuccess))
    else SetTask(db, id, RetryOrFail(snap, snap, ms)).(records := FailOneRecord(db.records, recordId, ms))
  }

  /** What an uninterrupted run has written when n of its steps are done. */
  function RunAlone(db: Db, id: string, token: nat, recordId: string, ms: nat, sent: bool, n: nat): Db {
    if n <= 1 || id !in db.tasks || !Runnable(db.tasks[id]) then db
    else if WaitExpired(db.tasks[id], ms) then SetTask(db, id, db.tasks[id].(status := WaitingTimeout))
    else
      var recorded, snap := WithRecord(db, id, token, recordId), Started(db.tasks[id]);
      if n == 2 then recorded
      else
        var saved := SetTask(recorded, id, snap);
        if n == 3 then saved else Sent(saved, id, recordId, snap, ms, sent)
  }

  lemma RunAloneIsRun(db: Db, id: string, token: nat, recordId: string, ms: nat, sent: bool, n: nat)
    requires n <= 4 && recordId !in db.records && recordId != ""
    ensures RunAlone(db, id, token, recordId, ms, sent, n)
         == RunSteps(RunStart(db, id, token), id, recordId, ms, sent, n).db
  {
    var s0 := RunStart(db, id, token);
    if id !in db.tasks || !Runnable(db.tasks[id]) {
      OverStaysOver(s0, id, recordId, ms, sent, 1, n);
    } else {
      var snap := db.tasks[id];
      var s1 := RunSteps(s0, id, recordId, ms, sent, 1);
      assert RunSteps(s0, id, recordId, ms, sent, 0) == s0 && RunEvent(id, recordId, ms, sent, 0) == LoadTask(id);
      assert s1 == Step(s0, LoadTask(id));
      var s2 := RunSteps(s0, id, recordId, ms, sent, 2);
      assert s2 == Step(s1, Proceed(id, recordId, ms));
      if WaitExpired(snap, ms) {
        OverStaysOver(s0, id, recordId, ms, sent, 2, n);
      } else {
        RecordedRun(s0, db, id, token, recordId, ms, sent, n);
      }
    }
  }

  lemma RecordedRun(s0: Life, db: Db, id: string, token: nat, recordId: string, ms: nat, sent: bool, n: nat)
    requires id in db.tasks && n <= 4 && s0.db == db && recordId !in db.records
    requires !WaitExpired(db.tasks[id], ms) && Runnable(db.tasks[id])
    requires RunSteps(s0, id, recordId, ms, sent, 1).db == db
    requires var s2 := RunSteps(s0, id, recordId, ms, sent, 2);
      s2.db == WithRecord(db, id, token, recordId) && PhaseOf(s2, id) == Some(Recorded(db.tasks[id], recordId))
    ensures RunAlone(db, id, token, recordId, ms, sent, n) == RunSteps(s0, id, recordId, ms, sent, n).db
  {
    var saved := SetTask(WithRecord(db, id, token, recordId), id, Started(db.tasks[id]));
    var s3 := RunSteps(s0, id, recordId, ms, sent, 3);
    assert s3 == Step(RunSteps(s0, id, recordId, ms, sent, 2), SaveRunning(id));
    assert s3.db == saved && PhaseOf(s3, id) == Some(Sending(Started(db.tasks[id]), recordId));
    var s4 := RunSteps(s0, id, recordId, ms, sent, 4);
    assert s4 == Step(s3, RunEvent(id, recordId, ms, sent, 3));
  }

  /** Once the flight is over the remaining steps of the run do nothing. */
  lemma {:induction false} OverStaysOver(s: Life, id: string, recordId: string, ms: nat, sent: bool, n: nat, m: nat)
    requires PhaseOf(RunSteps(s, id, recordId, ms, sent, n), id) == Some(Over)
    ensures n <= m ==> RunSteps(s, id, recordId, ms, sent, m) == RunSteps(s, id, recordId, ms, sent, n)
  {
    if n < m {
      OverStaysOver(s, id, recordId, ms, sent, n, m - 1);
    }
  }

  /** What a whole run makes of the database: nothing unless the task waits for it; a task that waited too
      long is given up without a record; else the run leaves a record with the device, the token of its lease
      and the deadline of the task, counts a retry, and ends sent, or failed with a retry in five minutes
      while the count is below three. */
  lemma RunFields(db: Db, id: string, token: nat, recordId: string, ms: nat, sent: bool)
    requires recordId !in db.records && recordId != ""
    ensures var db' := RunSteps(RunStart(db, id, token), id, recordId, ms, sent, 4).db;
      if id !in db.tasks || (db.tasks[id].status != Waiting && db.tasks[id].status != FailedWaitingRetry) then db' == db
      else
        var task := db.tasks[id];
        var count := task.retryCount + (if task.status == FailedWaitingRetry then 1 else 0);
        if 0 < task.waitTimeoutUnix < ms / 1000 then
          db' == db.(tasks := db.tasks[id := task.(status := WaitingTimeout)])
        else
          && db'.locks == db.locks && db'.order == db.order + [recordId]
          && db'.records == db.records[recordId :=
               ExecRecord(Some(id), task.deviceId, token, if sent then RecordRunning else RecordFailed,
                          if sent then 0 else ms / 1000, task.execTimeoutUnix)]
          && db'.tasks == db.tasks[id :=
               if sent then task.(retryCount := count, status := SendSuccess)
               else if task.isRetry && count < 3 then
                 task.(retryCount := count + 1, status := FailedWaitingRetry, nextExecTime := ms / 1000 + 300)
               else task.(retryCount := count, status := Failed, finishTime := ms / 1000)]
  {
    RunAloneIsRun(db, id, token, recordId, ms, sent, 4);
    if id in db.tasks && Runnable(db.tasks[id]) && !WaitExpired(db.tasks[id], ms) {
      SentFields(WithRecord(db, id, token, recordId), db.tasks[id], id, recordId, Started(db.tasks[id]), ms, sent);
    }
  }

  /** A run that breaks off after its record leaves the task as it was, and one that breaks off while sending
      leaves it running. */
  lemma BrokenRunFields(db: Db, id: string, token: nat, recordId: string, ms: nat, sent: bool)
    requires recordId !in db.records && recordId != "" && id in db.tasks && db.tasks[id].waitTimeoutUnix == 0
    requires db.tasks[id].status == Waiting || db.tasks[id].status == FailedWaitingRetry
    ensures var two, three := RunSteps(RunStart(db, id, token), id, recordId, ms, sent, 2).db,
                              RunSteps(RunStart(db, id, token), id, recordId, ms, sent, 3).db;
      && recordId in two.records && two.records[recordId].status == RecordRunning && two.tasks == db.tasks
      && three.records == two.records
      && three.tasks == db.tasks[id := db.tasks[id].(status := Running, retryCount :=
           db.tasks[id].retryCount + (if db.tasks[id].status == FailedWaitingRetry then 1 else 0))]
  {
    RunAloneIsRun(db, id, token, recordId, ms, sent, 2);
    RunAloneIsRun(db, id, token, recordId, ms, sent, 3);
  }

  lemma SentFields(db: Db, task: Task, id: string, recordId: string, snap: Task, ms: nat, sent: bool)
    requires recordId in db.records && id in db.tasks
    ensures var db' := Sent(SetTask(db, id, snap), id, recordId, snap, ms, sent);
      && db'.locks == db.locks && db'.order == db.order
      && db'.records == db.records[recordId :=
           if sent then db.records[recordId] else db.records[recordId].(status := RecordFailed, finishTime := ms / 1000)]
      && db'.tasks == db.tasks[id :=
           if sent then snap.(status := SendSuccess)
           else if snap.isRetry && snap.retryCount < 3 then
             snap.(retryCount := snap.retryCount + 1, status := FailedWaitingRetry, nextExecTime := ms / 1000 + 300)
           else snap.(status := Failed, finishTime := ms / 1000)]
  {
  }

  /** What the clients of both services see: a message of a waiting task is handled under a lease of its device,
      and a success of the run is reported while the lease is in force; then the device is free. */
  method HandleThenSucceed(worker: SendScriptWorkerService, id: string, token: nat, recordId: string, ms: nat, reportMs: nat)
    requires recordId !in worker.svc.records && recordId != "" && id in worker.svc.tasks
    requires worker.svc.tasks[id].status == Waiting || worker.svc.tasks[id].status == FailedWaitingRetry
    requires worker.svc.tasks[id].waitTimeoutUnix == 0 && token > 0
    requires var d := worker.svc.tasks[id].deviceId;
      && d != "" && d in worker.svc.locks
      && worker.svc.locks[d].token == token && reportMs < worker.svc.locks[d].expiresAt
    modifies worker`workingCount, worker`outbox, worker.svc`tasks, worker.svc`records, worker.svc`order, worker.svc`locks
    ensures old(worker.svc.tasks[id].deviceId) !in worker.svc.locks
    ensures id in worker.svc.tasks && worker.svc.tasks[id].status == Success
    ensures recordId in worker.svc.records && worker.svc.records[recordId].status == RecordSuccess
    ensures worker.svc.records[recordId].lockValue == token
  {
    ghost var db := worker.svc.View();
    RunFields(db, id, token, recordId, ms, true);
    worker.HandelMessage(Some((id, worker.svc.tasks[id].deviceId)), Some(token), recordId, ms, true, 4);
    worker.svc.UpdateTaskSucByRecordIds([recordId], reportMs);
  }

  class SendScriptWorkerService {
    const svc: ScriptTaskService
    var workingCount: int
    var outbox: seq<(string, string)>

    constructor (svc: ScriptTaskService)
      ensures this.svc == svc && workingCount == 0 && outbox == []
    {
      this.svc, workingCount, outbox := svc, 0, [];
    }

    /** sent: whether preprocessing, sending and the final save all succeed; steps: how many of the four
        database steps complete before one throws. */
    method RunTask(id: string, deviceLockValue: nat, recordId: string, ms: nat, sent: bool, steps: nat)
      returns (r: Result<()>)
      requires recordId !in svc.records && recordId != "" && steps <= 4
      modifies svc`tasks, svc`records, svc`order
      ensures svc.View() ==
        RunSteps(RunStart(old(svc.View()), id, deviceLockValue), id, recordId, ms, sent, steps).db
    {
      RunAloneIsRun(svc.View(), id, deviceLockValue, recordId, ms, sent, steps);
      if steps == 0 {
        return Err("find failed");
      }
      if id !in svc.tasks || !(svc.tasks[id].status == Waiting || svc.tasks[id].status == FailedWaitingRetry) {
        return Ok(());
      }
      var scriptTask := svc.tasks[id];
      if steps == 1 {
        return Err("save failed");
      }
      if 0 < scriptTask.waitTimeoutUnix < Unix(ms) {
        svc.tasks := svc.tasks[id := scriptTask.(status := WaitingTimeout)];
        return Ok(());
      }
      svc.records := svc.records[recordId :=
        ExecRecord(Some(id), scriptTask.deviceId, deviceLockValue, RecordRunning, 0, scriptTask.execTimeoutUnix)];
      svc.order := svc.order + [recordId];
      if steps == 2 {
        return Err("save failed");
      }
      if scriptTask.status == FailedWaitingRetry {
        scriptTask := scriptTask.(retryCount := scriptTask.retryCount + 1);
      }
      scriptTask := scriptTask.(status := Running);
      svc.tasks := svc.tasks[id := scriptTask];
      if steps == 3 {
        return Err("save failed");
      }
      if sent {
        svc.tasks := svc.tasks[id := scriptTask.(status := SendSuccess)];
      } else {
        svc.records := svc.records[recordId := svc.records[recordId].(status := RecordFailed, finishTime := Unix(ms))];
        SetTask2RetryOrFail(id, scriptTask, ms);
      }
      return Ok(());
    }

    method SetTask2RetryOrFail(id: string, task: Task, ms: nat)
      requires id in svc.tasks
      modifies svc`tasks
      ensures svc.tasks == old(svc.tasks)[id := RetryOrFail(old(svc.tasks)[id], task, ms)]
      ensures var stored := old(svc.tasks)[id];
        svc.tasks == old(svc.tasks)[id :=
          if task.isRetry && task.retryCount < 3 then
            stored.(status := FailedWaitingRetry, nextExecTime := ms / 1000 + 300, retryCount := stored.retryCount + 1)
          else stored.(status := Failed, finishTime := ms / 1000)]
    {
      var stored := svc.tasks[id];
      if task.isRetry && task.retryCount < MAX_RETRY_COUNT {
        svc.tasks := svc.tasks[id := stored.(status := FailedWaitingRetry, nextExecTime := Unix(ms) + RETRY_INTERVAL,
                                             retryCount := stored.retryCount + 1)];
      } else {
        svc.tasks := svc.tasks[id := stored.(status := Failed, finishTime := Unix(ms))];
      }
    }

    /** message: the parsed task id and device id, if it parses; lock: what the lock service answered. */
    method HandelMessage(message: Option<(string, string)>, lock: Option<nat>, recordId: string, ms: nat,
                         sent: bool, steps: nat)
      requires recordId !in svc.records && recordId != "" && steps <= 4
      modifies this`workingCount, this`outbox, svc`tasks, svc`records, svc`order
      ensures workingCount == old(workingCount)
      ensures outbox == old(outbox) + (if message.Some? then [message.value] else [])
      ensures svc.View() ==
        if message.None? || lock.None? then old(svc.View())
        else RunSteps(RunStart(old(svc.View()), message.value.0, lock.value), message.value.0, recordId, ms, sent, steps).db
    {
      if message.None? {
        return;
      }
      workingCount := workingCount + 1;
      if lock.Some? {
        var r := RunTask(message.value.0, lock.value, recordId, ms, sent, steps);
      }
      workingCount := workingCount - 1;
      outbox := outbox + [message.value];
    }
  }
}
