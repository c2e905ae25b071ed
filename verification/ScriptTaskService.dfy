/** The task service that applies reported outcomes: src/modules/script-task/script-task.service.ts.
    The collections and the lock store are fields; what other handlers do to them during an await is a
    parameter. */
module ScriptTasks {
  import opened Wrappers
  import opened Leases
  import opened TaskStore

  function NonBlank(ids: seq<string>): set<string> {
    set id | id in ids && id != ""
  }

  function IdSet(ids: seq<string>): set<string> {
    set id | id in ids
  }

  function Distinct(ids: seq<string>): seq<string> {
    if ids == [] then []
    else
      var init, last := ids[..|ids| - 1], ids[|ids| - 1];
      if last == "" || last in init then Distinct(init) else Distinct(init) + [last]
  }

  ghost predicate NoDuplicates<T>(s: seq<T>) {
    forall i, j :: 0 <= i < j < |s| ==> s[i] != s[j]
  }

  lemma {:induction false} DistinctKeeps(ids: seq<string>)
    ensures NoDuplicates(Distinct(ids))
    ensures forall id :: id in Distinct(ids) <==> id in NonBlank(ids)
  {
    if ids != [] {
      var init, last := ids[..|ids| - 1], ids[|ids| - 1];
      assert ids == init + [last];
      DistinctKeeps(init);
      assert last !in init ==> last !in Distinct(init);
    }
  }

  /** The blank ids dropped and each other id once, or None when nothing is left. */
  function ValidateAndCleanRecordIds(ids: seq<string>): (r: Option<seq<string>>)
    ensures r.None? <==> NonBlank(ids) == {}
    ensures r.Some? ==> NoDuplicates(r.value) && IdSet(r.value) == NonBlank(ids)
  {
    DistinctKeeps(ids);
    var clean := Distinct(ids);
    assert clean != [] ==> clean[0] in NonBlank(ids);
    if clean == [] then None else Some(clean)
  }

  /** The stored records among the given ids. */
  function Found(ids: seq<string>, records: map<string, ExecRecord>): seq<ExecRecord> {
    if ids == [] then []
    else if ids[0] in records then [records[ids[0]]] + Found(ids[1..], records)
    else Found(ids[1..], records)
  }

  /** The records of the given ids as they stand in the database. */
  ghost predicate IsLookup(found: seq<ExecRecord>, db: Db, ids: set<string>) {
    forall e :: e in found <==> exists r :: r in ids && r in db.records && db.records[r] == e
  }

  function TaskIdsIn(found: seq<ExecRecord>): set<string> {
    set e | e in found && e.taskId.Some? :: e.taskId.value
  }

  lemma LookupGivesTasks(found: seq<ExecRecord>, db: Db, ids: set<string>)
    requires IsLookup(found, db, ids)
    ensures TaskIdsIn(found) == TasksOf(db, ids)
  {
    forall t ensures t in TaskIdsIn(found) <==> t in TasksOf(db, ids) {
      if r :| r in ids && r in db.records && db.records[r].taskId == Some(t) {
        assert db.records[r] in found;
      }
      if e :| e in found && e.taskId == Some(t) {
        var r :| r in ids && r in db.records && db.records[r] == e;
      }
    }
  }

  lemma {:induction false} FoundIsLookup(ids: seq<string>, db: Db)
    ensures IsLookup(Found(ids, db.records), db, IdSet(ids))
  {
    if ids != [] {
      var all, rest := IdSet(ids), IdSet(ids[1..]);
      FoundIsLookup(ids[1..], db);
      assert ids == [ids[0]] + ids[1..];
      forall e ensures e in Found(ids, db.records) <==> exists r :: r in all && r in db.records && db.records[r] == e {
        if r :| r in all && r in db.records && db.records[r] == e {
          assert r == ids[0] || r in rest;
        }
        if e in Found(ids[1..], db.records) {
          var r :| r in rest && r in db.records && db.records[r] == e;
          assert r in all;
        }
        assert ids[0] in all;
      }
    }
  }

  /** m gives each device of the records the largest token they carry for it. */
  ghost predicate LatestTokens(m: map<string, nat>, found: seq<ExecRecord>) {
    && (forall e :: e in found && e.deviceId != "" && e.lockValue > 0 ==> e.deviceId in m && e.lockValue <= m[e.deviceId])
    && (forall d :: d in m ==> exists e :: e in found && e.deviceId == d != "" && e.lockValue == m[d] > 0)
  }

  lemma LatestTokensNext(m: map<string, nat>, found: seq<ExecRecord>, e: ExecRecord)
    requires LatestTokens(m, found) && e.deviceId != "" && e.lockValue > 0
    requires e.deviceId !in m || e.lockValue > m[e.deviceId]
    ensures LatestTokens(m[e.deviceId := e.lockValue], found + [e])
  {
    var m' := m[e.deviceId := e.lockValue];
    forall d | d in m' ensures exists o :: o in found + [e] && o.deviceId == d != "" && o.lockValue == m'[d] > 0 {
      if d == e.deviceId {
        assert e in found + [e];
      } else {
        var o :| o in found && o.deviceId == d != "" && o.lockValue == m[d] > 0;
        assert o in found + [e];
      }
    }
  }

  lemma LatestTokensFree(m: map<string, nat>, found: seq<ExecRecord>, db: Db, ids: set<string>, ms: nat, d: string)
    requires LatestTokens(m, found)
    requires IsLookup(found, db, ids)
    ensures Frees(db, ids, d, ms) <==> d in m && Holds(db.locks, d, m[d], ms)
  {
    if Frees(db, ids, d, ms) {
      var r :| r in ids && Carries(db, ids, r, d) && db.records[r].lockValue == db.locks[d].token;
      assert db.records[r] in found;
      var e :| e in found && e.deviceId == d != "" && e.lockValue == m[d] > 0;
      var q :| q in ids && q in db.records && db.records[q] == e;
      assert Carries(db, ids, q, d);
    } else if d in m && Holds(db.locks, d, m[d], ms) {
      var e :| e in found && e.deviceId == d != "" && e.lockValue == m[d] > 0;
      var q :| q in ids && q in db.records && db.records[q] == e;
      assert Carries(db, ids, q, d);
      forall r | r in ids && Carries(db, ids, r, d) ensures db.records[r].lockValue <= db.locks[d].token {
        assert db.records[r] in found;
      }
      assert false;
    }
  }

  lemma TasksOfNext(db: Db, ids: set<string>, id: string)
    ensures TasksOf(db, ids + {id}) ==
      TasksOf(db, ids) + (if id in db.records && db.records[id].taskId.Some? then {db.records[id].taskId.value} else {})
  {
    TasksOfUnion(db, ids, {id});
    assert forall t :: t in TasksOf(db, {id}) ==> id in db.records && db.records[id].taskId == Some(t);
    if id in db.records && db.records[id].taskId.Some? {
      assert db.records[id].taskId.value in TasksOf(db, {id});
    }
  }

  /** The tasks among those read that the given ids make the handler save. */
  function ToSave(seen: Db, ids: set<string>, read: map<string, Task>): map<string, Task> {
    map t | t in TasksOf(seen, ids) && t in read && read[t].status != Failed :: read[t]
  }

  lemma SavesSuffice(db: Db, ids: set<string>, found: map<string, ExecRecord>, read: map<string, Task>, ms: nat)
    requires found.Keys <= ids && read.Keys <= TasksOf(Seen(db, found), found.Keys)
    ensures WriteFailures(db, ids, ToSave(Seen(db, found), ids, read), ms) == WriteFailures(db, ids, read, ms)
  {
    var seen := Seen(db, found);
    forall t | t in read ensures t in TasksOf(seen, ids) {
      var r :| r in found && found[r].taskId == Some(t);
      assert r in ids && r in seen.records;
    }
    assert WriteTasks(db.tasks, ToSave(seen, ids, read), ms) == WriteTasks(db.tasks, read, ms);
  }

  lemma FoundIsSeen(ids: seq<string>, db: Db, found: map<string, ExecRecord>)
    requires found == FoundRecords(db, IdSet(ids))
    ensures IsLookup(Found(ids, db.records), Seen(db, found), found.Keys)
    ensures TaskIdsIn(Found(ids, db.records)) == TasksOf(Seen(db, found), found.Keys)
  {
    FoundIsLookup(ids, db);
    LookupGivesTasks(Found(ids, db.records), db, IdSet(ids));
    SeenIsStored(db, IdSet(ids));
    forall e ensures e in Found(ids, db.records) <==> exists r :: r in found.Keys && r in found && found[r] == e {
      if r :| r in IdSet(ids) && r in db.records && db.records[r] == e {
        assert r in found.Keys && found[r] == e;
      }
    }
  }

  /** Whether some of the ids names a stored record of the task. */
  ghost predicate Reported(records: map<string, ExecRecord>, recordIds: seq<string>, t: string) {
    exists r :: r in recordIds && r != "" && r in records && records[r].taskId == Some(t)
  }

  lemma InTasksOf(db: Db, recordIds: seq<string>, t: string)
    ensures t in TasksOf(db, NonBlank(recordIds)) <==> Reported(db.records, recordIds, t)
  {
    if r :| r in recordIds && r != "" && r in db.records && db.records[r].taskId == Some(t) {
      assert r in NonBlank(recordIds);
    }
  }

  /** What a batch of successes makes of every stored record, task and, alone, of its device's lock. */
  lemma SuccessFields(db: Db, recordIds: seq<string>, ms: nat)
    ensures var db' := SucceedBatch(db, NonBlank(recordIds), ms);
      && db'.records.Keys == db.records.Keys && db'.tasks.Keys == db.tasks.Keys
      && (forall r :: r in db.records ==>
            db'.records[r] == if r in recordIds && r != ""
                              then db.records[r].(status := RecordSuccess, finishTime := ms / 1000) else db.records[r])
      && (forall t :: t in db.tasks ==>
            db'.tasks[t] == if Reported(db.records, recordIds, t)
                            then db.tasks[t].(status := Success, finishTime := ms / 1000) else db.tasks[t])
  {
    forall t ensures t in TasksOf(db, NonBlank(recordIds)) <==> Reported(db.records, recordIds, t) {
      InTasksOf(db, recordIds, t);
    }
  }

  /** A failed record, an unknown one created; the others stay. */
  ghost predicate RecordsFail(records: map<string, ExecRecord>, records': map<string, ExecRecord>,
                              data: seq<string>, ms: nat)
  {
    && records'.Keys == records.Keys + NonBlank(data)
    && forall r :: r in records' ==>
         if r !in data || r == "" then records'[r] == records[r]
         else
           records'[r] == (if r in records then records[r] else ExecRecord(None, "", 0, RecordRunning, 0, 0)).(
             status := RecordFailed, finishTime := ms / 1000, execTimeoutUnix := ms / 1000 + 1800)
  }

  /** A retry in five minutes while the task may be retried and was fewer than three times, else failure. */
  ghost predicate TasksFail(db: Db, tasks': map<string, Task>, data: seq<string>, ms: nat) {
    && tasks'.Keys == db.tasks.Keys
    && forall t :: t in db.tasks ==>
         var task := db.tasks[t];
         tasks'[t] ==
           if !Reported(db.records, data, t) || task.isDeleted || task.status == Failed then task
           else if task.isRetry && task.retryCount < 3 then
             task.(status := FailedWaitingRetry, nextExecTime := ms / 1000 + 300)
           else task.(status := Failed, finishTime := ms / 1000)
  }

  /** What a batch of failures makes of every record and task. */
  lemma FailureFields(db: Db, data: seq<string>, ms: nat)
    ensures var db' := FailBatch(db, NonBlank(data), ms);
      RecordsFail(db.records, db'.records, data, ms) && TasksFail(db, db'.tasks, data, ms)
  {
    forall t ensures t in TasksOf(db, NonBlank(data)) <==> Reported(db.records, data, t) {
      InTasksOf(db, data, t);
    }
  }

  lemma NoneReported(db: Db, data: seq<string>, ms: nat)
    requires NonBlank(data) == {}
    ensures RecordsFail(db.records, db.records, data, ms) && TasksFail(db, db.tasks, data, ms)
  {
    EmptyBatch(db, ms);
    FailureFields(db, data, ms);
  }

  /** The k-th of the created records is the task's last. */
  predicate IsLast(db: Db, id: string, k: nat) {
    && k < |db.order| && db.order[k] in db.records && db.records[db.order[k]].taskId == Some(id)
    && forall l :: k < l < |db.order| && db.order[l] in db.records ==> db.records[db.order[l]].taskId != Some(id)
  }

  lemma {:induction false} LatestIsLast(db: Db, order: seq<string>, id: string)
    requires order <= db.order
    ensures var last := LatestRecord(db, order, id);
      if last.Some? then exists k: nat :: IsLast(db.(order := order), id, k) && order[k] == last.value
      else forall k :: 0 <= k < |order| && order[k] in db.records ==> db.records[order[k]].taskId != Some(id)
  {
    if order != [] {
      var n := |order| - 1;
      if order[n] in db.records && db.records[order[n]].taskId == Some(id) {
        assert IsLast(db.(order := order), id, n);
      } else {
        LatestIsLast(db, order[..n], id);
        if LatestRecord(db, order, id).Some? {
          var k: nat :| IsLast(db.(order := order[..n]), id, k) && order[..n][k] == LatestRecord(db, order, id).value;
          assert IsLast(db.(order := order), id, k);
        }
      }
    }
  }

  /** The last record that the task has in seen becomes canceled in db if it was running there; nothing else
      changes. */
  ghost predicate StopsLast(seen: Db, db: Db, db': Db, id: string) {
    && db' == db.(records := db'.records) && db'.records.Keys == db.records.Keys
    && (forall r :: r in db.records ==>
          || db'.records[r] == db.records[r]
          || (db'.records[r] == db.records[r].(status := RecordCanceled)
              && exists k: nat :: IsLast(seen, id, k) && seen.order[k] == r && seen.records[r].status == RecordRunning))
    && (forall k: nat :: IsLast(seen, id, k) && seen.records[seen.order[k]].status == RecordRunning ==>
          seen.order[k] in db.records ==> db'.records[seen.order[k]].status == RecordCanceled)
  }

  lemma CancelStopsLast(seen: Db, db: Db, id: string)
    ensures StopsLast(seen, db, CancelRecord(db, RunningRecord(seen, id)), id)
  {
    LatestIsLast(seen, seen.order, id);
    assert seen.(order := seen.order) == seen;
    forall k: nat, l: nat | IsLast(seen, id, k) && IsLast(seen, id, l) ensures k == l {
    }
  }

  /** What a cancellation makes of the database: the last record that it finds running is marked canceled, and
      the task too if at the save it waits, runs or waits for a retry. */
  ghost predicate Cancels(db: Db, id: string, others: (nat, Db) -> Db, db': Db) {
    exists stopped: Db ::
      && StopsLast(others(0, db), others(1, others(0, db)), stopped, id)
      && SavesCanceled(others(2, stopped), db', id)
  }

  predicate SavesCanceled(db: Db, db': Db, id: string) {
    db' == db.(tasks :=
      if id in db.tasks
         && (db.tasks[id].status == Waiting || db.tasks[id].status == Running || db.tasks[id].status == FailedWaitingRetry)
      then db.tasks[id := db.tasks[id].(status := Canceled)] else db.tasks)
  }

  lemma CancelFields(db: Db, id: string, others: (nat, Db) -> Db)
    ensures Cancels(db, id, others, CancelHandler(db, id, others))
  {
    var seen := others(0, db);
    CancelStopsLast(seen, others(1, seen), id);
    var stopped := CancelRecord(others(1, seen), RunningRecord(seen, id));
    assert SavesCanceled(others(2, stopped), CancelHandler(db, id, others), id);
  }

  /** A failure handler that nobody interrupts writes what one batch does. */
  lemma QuietHandler(db: Db, ids: set<string>, ms: nat, releaseMs: nat, others: (nat, Db) -> Db)
    requires forall i, d :: others(i, d) == d
    ensures var db' := FailHandler(db, ids, ms, releaseMs, others);
      db'.tasks == FailBatch(db, ids, ms).tasks && db'.records == FailBatch(db, ids, ms).records
  {
    HandlerAlone(db, ids, ms);
    var found := FoundRecords(db, ids);
    var saved := WriteFailures(db, ids, ReadTasks(db, found), ms);
    assert FailHandler(db, ids, ms, releaseMs, others) == ReleaseFound(saved, found, releaseMs);
    assert FailHandler(db, ids, ms, ms, Alone) == ReleaseFound(saved, found, ms);
  }

  /** A report of one record, of success or failure, frees the device whose lease in force it stands for. */
  lemma ReportFrees(db: Db, r: string, d: string, ms: nat)
    requires r != "" && r in db.records && Stands(db.records[r], db.locks, d, ms)
    ensures d !in SucceedBatch(db, NonBlank([r]), ms).locks
    ensures d !in FailBatch(db, NonBlank([r]), ms).locks
  {
    assert NonBlank([r]) == {r};
    assert Carries(db, {r}, r, d);
    BatchFreesExactly(db, {r}, r, ms, d);
  }

  class ScriptTaskService {
    var tasks: map<string, Task>
    var records: map<string, ExecRecord>
    var order: seq<string>
    var locks: Store
    var queue: seq<(string, string)>

    constructor ()
      ensures View() == Db(map[], map[], [], map[]) && queue == []
    {
      tasks, records, order, locks, queue := map[], map[], [], map[], [];
    }

    ghost function View(): Db
      reads this
    {
      Db(tasks, records, order, locks)
    }

    /** id: the fresh object id; deviceKnown: what the device service answers; times in seconds, 0 when
        not given. */
    method Create(id: string, deviceId: string, isRetry: bool, scriptBytes: nat, deviceKnown: bool,
                  expectedExecTime: nat, waitTimeoutUnix: nat, execTimeoutUnix: nat, ms: nat)
      returns (r: Result<string>)
      requires id !in tasks
      modifies this`tasks, this`queue
      ensures r.Ok? <==> scriptBytes <= 200 * 1024 && deviceKnown
      ensures r.Err? ==> tasks == old(tasks) && queue == old(queue)
      ensures r.Ok? ==> r.value == id && id in tasks && tasks == old(tasks)[id := tasks[id]]
      ensures r.Ok? ==>
        var t := tasks[id];
        && t.deviceId == deviceId && t.isRetry == isRetry && t.retryCount == 0
        && t.status == Waiting && !t.isDeleted && t.waitTimeoutUnix == waitTimeoutUnix
        && t.execTimeoutUnix == (if execTimeoutUnix > 0 then execTimeoutUnix else ms / 1000 + 1800)
        && t.nextExecTime == (if expectedExecTime > 0 then expectedExecTime else ms / 1000)
      ensures r.Ok? ==> queue == if expectedExecTime > 0 then old(queue) else old(queue) + [(id, deviceId)]
    {
      if scriptBytes > 200 * 1024 {
        return Err("script too large");
      }
      if !deviceKnown {
        return Err("unknown device");
      }
      var execTimeout := if execTimeoutUnix > 0 then execTimeoutUnix else Unix(ms) + TASK_EXEC_TIMEOUT;
      var next := if expectedExecTime > 0 then expectedExecTime else Unix(ms);
      tasks := tasks[id := Task(deviceId, isRetry, 0, Waiting, false, next, 0, waitTimeoutUnix, execTimeout)];
      if expectedExecTime == 0 {
        queue := queue + [(id, deviceId)];
      }
      return Ok(id);
    }

    /** The handler waits, and others(i, db) happens to the database. */
    method Await(i: nat, others: (nat, Db) -> Db)
      modifies this`tasks, this`records, this`order, this`locks
      ensures View() == others(i, old(View()))
    {
      var db := others(i, Db(tasks, records, order, locks));
      tasks, records, order, locks := db.tasks, db.records, db.order, db.locks;
    }

    /** The first await is the question to the device service, then come the search for the record and
        its update. */
    method Cancel(id: string, others: (nat, Db) -> Db) returns (r: Result<bool>)
      modifies this`tasks, this`records, this`order, this`locks
      ensures r.Err? <==> id !in old(tasks) || old(tasks[id].status) in {Canceled, Failed, Success, WaitingTimeout}
      ensures View() == if r.Ok? then CancelHandler(old(View()), id, others) else old(View())
      ensures r.Ok? ==> Cancels(old(View()), id, others, View())
    {
      ghost var db := View();
      if id !in tasks {
        return Err("no such task");
      }
      if Finished(tasks[id].status) {
        return Err("finished tasks cannot be canceled");
      }
      Await(0, others);
      var record := RunningRecord(Db(tasks, records, order, locks), id);
      Await(1, others);
      if record.Some? && record.value in records {
        records := records[record.value := records[record.value].(status := RecordCanceled)];
      }
      Await(2, others);
      if id in tasks && tasks[id].status in {Waiting, Running, FailedWaitingRetry} {
        tasks := tasks[id := tasks[id].(status := Canceled)];
      }
      CancelFields(db, id, others);
      return Ok(true);
    }

    /** The await is that of the read; the whole entity is saved. */
    method SoftDelete(id: string, others: (nat, Db) -> Db) returns (r: Result<bool>)
      modifies this`tasks, this`records, this`order, this`locks
      ensures r.Err? <==> id !in old(tasks) || old(tasks[id].isDeleted)
      ensures View() == if r.Ok? then DeleteHandler(old(View()), id, others) else old(View())
      ensures r.Ok? ==>
        var now := others(0, old(View()));
        View() == now.(tasks := now.tasks[id := old(tasks[id]).(isDeleted := true)])
    {
      if id !in tasks || tasks[id].isDeleted {
        return Err("no such task");
      }
      var record := tasks[id];
      Await(0, others);
      record := record.(isDeleted := true);
      tasks := tasks[id := record];
      return Ok(true);
    }

    /** Per device the largest token, so that each device is released once. */
    method CollectLatest(found: seq<ExecRecord>) returns (latest: map<string, nat>)
      ensures LatestTokens(latest, found)
    {
      latest := map[];
      for i := 0 to |found|
        invariant LatestTokens(latest, found[..i])
      {
        var e := found[i];
        assert found[..i + 1] == found[..i] + [e];
        if e.deviceId != "" && e.lockValue > 0 && (e.deviceId !in latest || e.lockValue > latest[e.deviceId]) {
          ghost var before := latest;
          latest := latest[e.deviceId := e.lockValue];
          LatestTokensNext(before, found[..i], e);
        }
      }
      assert found[..|found|] == found;
    }

    method ReleaseEach(latest: map<string, nat>, ms: nat)
      modifies this`locks
      ensures locks.Keys == set d | d in old(locks) && !(d in latest && Holds(old(locks), d, latest[d], ms))
      ensures forall d :: d in locks ==> locks[d] == old(locks[d])
    {
      var pending := latest.Keys;
      while pending != {}
        invariant pending <= latest.Keys
        invariant locks.Keys == set d | d in old(locks) &&
          (d in pending || !(d in latest && Holds(old(locks), d, latest[d], ms)))
        invariant forall d :: d in locks ==> locks[d] == old(locks[d])
      {
        var d :| d in pending;
        locks := CompareAndDelete(locks, d, latest[d], ms);
        pending := pending - {d};
      }
    }

    /** found: the records as they were read before the batch was saved. */
    method BatchReleaseDeviceLocks(found: seq<ExecRecord>, ms: nat, ghost db: Db, ghost ids: set<string>)
      requires db.locks == locks
      requires IsLookup(found, db, ids)
      modifies this`locks
      ensures locks == ReleaseLocks(db, ids, ms)
    {
      var latest := CollectLatest(found);
      forall d ensures Frees(db, ids, d, ms) <==> d in latest && Holds(db.locks, d, latest[d], ms) {
        LatestTokensFree(latest, found, db, ids, ms, d);
      }
      ReleaseEach(latest, ms);
    }

    method UpdateTaskSucByRecordIds(recordIds: seq<string>, ms: nat)
      modifies this`tasks, this`records, this`locks
      ensures View() == SucceedBatch(old(View()), NonBlank(recordIds), ms)
      ensures records.Keys == old(records.Keys) && tasks.Keys == old(tasks.Keys)
      ensures forall r :: r in records ==>
        records[r] == if r in recordIds && r != ""
                      then old(records[r]).(status := RecordSuccess, finishTime := ms / 1000) else old(records[r])
      ensures forall t :: t in tasks ==>
        tasks[t] == if Reported(old(records), recordIds, t)
                    then old(tasks[t]).(status := Success, finishTime := ms / 1000) else old(tasks[t])
      ensures forall r, d :: recordIds == [r] && r != "" && r in old(records) && Stands(old(records[r]), old(locks), d, ms) ==>
        d !in locks
    {
      ghost var db := View();
      SucceedReported(recordIds, ms);
      SuccessFields(db, recordIds, ms);
      forall r, d | recordIds == [r] && r != "" && r in db.records && Stands(db.records[r], db.locks, d, ms)
        ensures d !in locks
      {
        ReportFrees(db, r, d, ms);
      }
    }

    method SucceedReported(recordIds: seq<string>, ms: nat)
      modifies this`tasks, this`records, this`locks
      ensures View() == SucceedBatch(old(View()), NonBlank(recordIds), ms)
    {
      ghost var db, ids := View(), NonBlank(recordIds);
      var clean := ValidateAndCleanRecordIds(recordIds);
      if clean.None? {
        EmptyBatch(db, ms);
        return;
      }
      var found := Found(clean.value, records);
      assert IsLookup(found, db, ids) by {
        FoundIsLookup(clean.value, db);
      }
      var taskIds := TaskIdsIn(found);
      LookupGivesTasks(found, db, ids);
      tasks := map t | t in tasks :: if t in taskIds then tasks[t].(status := Success, finishTime := Unix(ms)) else tasks[t];
      records := map r | r in records ::
        if r in clean.value then records[r].(status := RecordSuccess, finishTime := Unix(ms)) else records[r];
      assert tasks == SucceedTasks(db.tasks, TasksOf(db, ids), ms);
      assert records == SucceedRecords(db.records, ids, ms);
      BatchReleaseDeviceLocks(found, ms, db, ids);
    }

    /** What a failure handler saves: the ids of the records and the copies it read of the tasks. */
    method BuildFailSaves(data: seq<string>, found: map<string, ExecRecord>, read: map<string, Task>)
      returns (recordSaves: set<string>, taskSaves: map<string, Task>)
      ensures recordSaves == IdSet(data)
      ensures taskSaves == ToSave(Seen(View(), found), IdSet(data), read)
    {
      recordSaves, taskSaves := {}, map[];
      ghost var seen := Seen(View(), found);
      for i := 0 to |data|
        invariant recordSaves == IdSet(data[..i])
        invariant taskSaves == ToSave(seen, recordSaves, read)
      {
        var id := data[i];
        assert data[..i + 1] == data[..i] + [id];
        TasksOfNext(seen, recordSaves, id);
        recordSaves := recordSaves + {id};
        if id in found && found[id].taskId.Some? && found[id].taskId.value in read {
          var taskId := found[id].taskId.value;
          if read[taskId].status != Failed {
            taskSaves := taskSaves[taskId := read[taskId]];
          }
        }
      }
      assert data[..|data|] == data;
    }

    method SaveFailures(recordSaves: set<string>, taskSaves: map<string, Task>, ms: nat)
      modifies this`tasks, this`records
      ensures View() == WriteFailures(old(View()), recordSaves, taskSaves, ms)
      ensures tasks.Keys == old(tasks.Keys)
      ensures forall t :: t in tasks ==>
        if t !in taskSaves || taskSaves[t].status == Failed then tasks[t] == old(tasks[t])
        else
          var read := taskSaves[t];
          var written := old(tasks[t]).(isRetry := read.isRetry, retryCount := read.retryCount, isDeleted := false);
          tasks[t] == if read.isRetry && read.retryCount < 3
                      then written.(status := FailedWaitingRetry, nextExecTime := ms / 1000 + 300)
                      else written.(status := Failed, finishTime := ms / 1000)
    {
      records := FailRecords(records, recordSaves, ms);
      tasks := map t | t in tasks ::
        if t !in taskSaves then tasks[t]
        else
          var read := taskSaves[t];
          var task := tasks[t].(isRetry := read.isRetry, retryCount := read.retryCount, isDeleted := false);
          if read.status == Failed then tasks[t]
          else if !read.isRetry || read.retryCount >= MAX_RETRY_COUNT then task.(status := Failed, finishTime := Unix(ms))
          else task.(status := FailedWaitingRetry, nextExecTime := Unix(ms) + RETRY_INTERVAL);
    }

    /** A blank id beside valid ones makes the object id constructor throw before anything is saved.  The
        awaits: after the search for the records, after that for the tasks, after the saves. */
    method UpdateTaskFailByRecordIds(data: seq<string>, ms: nat, releaseMs: nat, others: (nat, Db) -> Db)
      returns (r: Result<()>)
      modifies this`tasks, this`records, this`order, this`locks
      ensures r.Err? <==> "" in data && NonBlank(data) != {}
      ensures NonBlank(data) == {} ==> View() == old(View())
      ensures r.Ok? && NonBlank(data) != {} ==> View() == FailHandler(old(View()), NonBlank(data), ms, releaseMs, others)
      ensures r.Err? ==> View() == others(1, others(0, old(View())))
      ensures r.Ok? && (forall i, d :: others(i, d) == d) ==>
        RecordsFail(old(records), records, data, ms) && TasksFail(old(View()), tasks, data, ms)
    {
      ghost var db := View();
      if forall i, d :: others(i, d) == d {
        FailureFields(db, data, ms);
        QuietHandler(db, NonBlank(data), ms, releaseMs, others);
        if NonBlank(data) == {} {
          NoneReported(db, data, ms);
        }
      }
      var clean := ValidateAndCleanRecordIds(data);
      if clean.None? {
        return Ok(());
      }
      var list, found, read := ReadForFailure(clean.value, others);
      Await(1, others);
      if "" in data {
        return Err("invalid object id");
      }
      assert IdSet(data) == NonBlank(data);
      SaveAndRelease(data, list, found, read, ms, releaseMs, others);
      return Ok(());
    }

    /** The two reads of a failure handler. */
    method ReadForFailure(ids: seq<string>, others: (nat, Db) -> Db)
      returns (list: seq<ExecRecord>, found: map<string, ExecRecord>, read: map<string, Task>)
      modifies this`tasks, this`records, this`order, this`locks
      ensures View() == others(0, old(View()))
      ensures found == FoundRecords(old(View()), IdSet(ids)) && read == ReadTasks(View(), found)
      ensures forall db: Db :: IsLookup(list, Seen(db, found), found.Keys)
    {
      found := map id | id in ids && id in records :: records[id];
      list := Found(ids, records);
      FoundIsSeen(ids, View(), found);
      Await(0, others);
      read := map t | t in TaskIdsIn(list) && t in tasks && !tasks[t].isDeleted :: tasks[t];
    }

    /** The rest of a failure handler; list: the records it found, without their ids. */
    method SaveAndRelease(data: seq<string>, list: seq<ExecRecord>, found: map<string, ExecRecord>,
                          read: map<string, Task>, ms: nat, releaseMs: nat, others: (nat, Db) -> Db)
      requires found.Keys <= IdSet(data) && read.Keys <= TasksOf(Seen(View(), found), found.Keys)
      requires forall db: Db :: IsLookup(list, Seen(db, found), found.Keys)
      modifies this`tasks, this`records, this`order, this`locks
      ensures View() ==
        ReleaseFound(others(2, WriteFailures(old(View()), IdSet(data), read, ms)), found, releaseMs)
    {
      var recordSaves, taskSaves := BuildFailSaves(data, found, read);
      SavesSuffice(View(), IdSet(data), found, read, ms);
      SaveFailures(recordSaves, taskSaves, ms);
      Await(2, others);
      BatchReleaseDeviceLocks(list, releaseMs, Seen(View(), found), found.Keys);
    }
  }
}
