/** Tasks, execution records and device locks as the services see them, and what one batch of
    reported outcomes does to them: src/modules/script-task/script-task.service.ts. */
module TaskStore {
  import opened Wrappers
  import opened Leases

  const MAX_RETRY_COUNT := 3
  const RETRY_INTERVAL := 5 * 60
  const TASK_EXEC_TIMEOUT := 30 * 60

  datatype TaskStatus =
    | Waiting
    | Running
    | SendSuccess
    | Success
    | Failed
    | FailedWaitingRetry
    | Canceled
    | WaitingTimeout

  datatype RecordStatus = RecordRunning | RecordSuccess | RecordFailed | RecordCanceled

  datatype Task = Task(deviceId: string, isRetry: bool, retryCount: nat, status: TaskStatus, isDeleted: bool,
                       nextExecTime: nat, finishTime: nat, waitTimeoutUnix: nat, execTimeoutUnix: nat)

  // lockValue 0 and deviceId "" stand for a missing field.
  datatype ExecRecord = ExecRecord(taskId: Option<string>, deviceId: string, lockValue: nat,
                                   status: RecordStatus, finishTime: nat, execTimeoutUnix: nat)

  /** order: the records that runs created, oldest first.  locks: the device locks by device id. */
  datatype Db = Db(tasks: map<string, Task>, records: map<string, ExecRecord>, order: seq<string>, locks: Store)

  function Unix(ms: nat): nat {
    ms / 1000
  }

  /** The tasks that the given records belong to. */
  function TasksOf(db: Db, ids: set<string>): set<string> {
    set r | r in ids && r in db.records && db.records[r].taskId.Some? :: db.records[r].taskId.value
  }

  predicate Carries(db: Db, ids: set<string>, r: string, device: string) {
    r in ids && r in db.records && db.records[r].deviceId == device != "" && db.records[r].lockValue > 0
  }

  /** The live token of the device is carried by one of the records and none carries a larger one. */
  predicate Frees(db: Db, ids: set<string>, device: string, ms: nat) {
    && Live(db.locks, device, ms)
    && (exists r :: r in ids && Carries(db, ids, r, device) && db.records[r].lockValue == db.locks[device].token)
    && (forall r :: r in ids && Carries(db, ids, r, device) ==> db.records[r].lockValue <= db.locks[device].token)
  }

  function ReleaseLocks(db: Db, ids: set<string>, ms: nat): Store {
    map device | device in db.locks && !Frees(db, ids, device, ms) :: db.locks[device]
  }

  /** What a reported failure makes of a task: deleted and failed tasks are skipped, and the retry
      count is written back as it was read. */
  function FailTask(task: Task, ms: nat): Task {
    if task.isDeleted || task.status == Failed then task
    else if !task.isRetry || task.retryCount >= MAX_RETRY_COUNT then
      task.(status := Failed, finishTime := Unix(ms))
    else
      task.(status := FailedWaitingRetry, nextExecTime := Unix(ms) + RETRY_INTERVAL)
  }

  function FailTasks(tasks: map<string, Task>, hit: set<string>, ms: nat): map<string, Task> {
    map t | t in tasks :: if t in hit then FailTask(tasks[t], ms) else tasks[t]
  }

  /** A failure saved under an unknown record id creates a record with nothing but the failure. */
  function FailedRecord(records: map<string, ExecRecord>, r: string, ms: nat): ExecRecord {
    var base := if r in records then records[r] else ExecRecord(None, "", 0, RecordFailed, 0, 0);
    base.(status := RecordFailed, finishTime := Unix(ms), execTimeoutUnix := Unix(ms) + TASK_EXEC_TIMEOUT)
  }

  function FailRecords(records: map<string, ExecRecord>, ids: set<string>, ms: nat): map<string, ExecRecord> {
    map r | r in records.Keys + ids :: if r in ids then FailedRecord(records, r, ms) else records[r]
  }

  function FailBatch(db: Db, ids: set<string>, ms: nat): Db {
    db.(tasks := FailTasks(db.tasks, TasksOf(db, ids), ms),
        records := FailRecords(db.records, ids, ms),
        locks := ReleaseLocks(db, ids, ms))
  }

  /** The stored records among the given ids. */
  function FoundRecords(db: Db, ids: set<string>): map<string, ExecRecord> {
    map r | r in ids && r in db.records :: db.records[r]
  }

  /** The database as a handler sees it that read the given records before. */
  function Seen(db: Db, found: map<string, ExecRecord>): Db {
    db.(records := found)
  }

  /** The tasks that a failure handler reads for the records it found. */
  function ReadTasks(db: Db, found: map<string, ExecRecord>): map<string, Task> {
    map t | t in TasksOf(Seen(db, found), found.Keys) && t in db.tasks && !db.tasks[t].isDeleted :: db.tasks[t]
  }

  /** What the handler writes to a task from the copy it read: a new entity with the retry fields as read,
      and not deleted, which is the default of a new entity. */
  function WriteBack(task: Task, read: Task, ms: nat): Task {
    if read.status == Failed then task
    else
      var saved := task.(isRetry := read.isRetry, retryCount := read.retryCount, isDeleted := false);
      if !read.isRetry || read.retryCount >= MAX_RETRY_COUNT then saved.(status := Failed, finishTime := Unix(ms))
      else saved.(status := FailedWaitingRetry, nextExecTime := Unix(ms) + RETRY_INTERVAL)
  }

  function WriteTasks(tasks: map<string, Task>, read: map<string, Task>, ms: nat): map<string, Task> {
    map t | t in tasks :: if t in read then WriteBack(tasks[t], read[t], ms) else tasks[t]
  }

  function WriteFailures(db: Db, ids: set<string>, read: map<string, Task>, ms: nat): Db {
    db.(tasks := WriteTasks(db.tasks, read, ms), records := FailRecords(db.records, ids, ms))
  }

  function ReleaseFound(db: Db, found: map<string, ExecRecord>, ms: nat): Db {
    db.(locks := ReleaseLocks(Seen(db, found), found.Keys, ms))
  }

  /** A whole failure handler; others(i, db): what other handlers make of the database during its i-th
      await; releaseMs: when the locks are released. */
  function FailHandler(db: Db, ids: set<string>, ms: nat, releaseMs: nat, others: (nat, Db) -> Db): Db {
    var found := FoundRecords(db, ids);
    var read := ReadTasks(others(0, db), found);
    var saved := WriteFailures(others(1, others(0, db)), ids, read, ms);
    ReleaseFound(others(2, saved), found, releaseMs)
  }

  function Alone(i: nat, db: Db): Db {
    db
  }

  /** A handler that nobody interrupts is one batch. */
  lemma HandlerAlone(db: Db, ids: set<string>, ms: nat)
    ensures FailHandler(db, ids, ms, ms, Alone) == FailBatch(db, ids, ms)
  {
    var found := FoundRecords(db, ids);
    SeenIsStored(db, ids);
    var saved := WriteFailures(db, ids, ReadTasks(db, found), ms);
    assert saved.tasks == FailTasks(db.tasks, TasksOf(db, ids), ms);
    assert ReleaseLocks(Seen(saved, found), found.Keys, ms) == ReleaseLocks(Seen(db, found), found.Keys, ms) by {
      assert forall d :: Frees(Seen(saved, found), found.Keys, d, ms) <==> Frees(Seen(db, found), found.Keys, d, ms);
    }
  }

  /** The records that a handler found speak for the same tasks and locks as its ids. */
  lemma SeenIsStored(db: Db, ids: set<string>)
    ensures var found := FoundRecords(db, ids);
      && TasksOf(Seen(db, found), found.Keys) == TasksOf(db, ids)
      && (forall ms :: ReleaseLocks(Seen(db, found), found.Keys, ms) == ReleaseLocks(db, ids, ms))
  {
    var found := FoundRecords(db, ids);
    forall t ensures t in TasksOf(Seen(db, found), found.Keys) <==> t in TasksOf(db, ids) {
      if r :| r in ids && r in db.records && db.records[r].taskId == Some(t) {
        assert r in found.Keys && found[r].taskId == Some(t);
      }
    }
    forall ms ensures ReleaseLocks(Seen(db, found), found.Keys, ms) == ReleaseLocks(db, ids, ms) {
      forall d ensures Frees(Seen(db, found), found.Keys, d, ms) <==> Frees(db, ids, d, ms) {
        SeenFrees(db, ids, d, ms);
      }
    }
  }

  lemma SeenFrees(db: Db, ids: set<string>, d: string, ms: nat)
    ensures var found := FoundRecords(db, ids);
      Frees(Seen(db, found), found.Keys, d, ms) <==> Frees(db, ids, d, ms)
  {
    var found := FoundRecords(db, ids);
    forall r ensures Carries(Seen(db, found), found.Keys, r, d) <==> Carries(db, ids, r, d) {
    }
    if Frees(db, ids, d, ms) {
      var r :| r in ids && Carries(db, ids, r, d) && db.records[r].lockValue == db.locks[d].token;
      assert r in found.Keys && Carries(Seen(db, found), found.Keys, r, d);
      assert forall q :: q in found.Keys && Carries(Seen(db, found), found.Keys, q, d) ==> Carries(db, ids, q, d);
    }
    if Frees(Seen(db, found), found.Keys, d, ms) {
      assert forall q :: q in ids && Carries(db, ids, q, d) ==> Carries(Seen(db, found), found.Keys, q, d);
    }
  }

  /** The write-back keeps the retry fields exactly when the copy is still up to date in them (or is that
      of a failed task, which is not written). */
  predicate Outdated(task: Task, read: Task) {
    read.status != Failed && (read.retryCount != task.retryCount || read.isRetry != task.isRetry)
  }

  lemma WriteBackKeepsCountIff(task: Task, read: Task, ms: nat)
    ensures var task' := WriteBack(task, read, ms);
      task'.retryCount == task.retryCount && task'.isRetry == task.isRetry <==> !Outdated(task, read)
  {
  }

  /** A reported success overrides whatever status the task has. */
  function SucceedTask(task: Task, ms: nat): Task {
    task.(status := Success, finishTime := Unix(ms))
  }

  function SucceedTasks(tasks: map<string, Task>, hit: set<string>, ms: nat): map<string, Task> {
    map t | t in tasks :: if t in hit then SucceedTask(tasks[t], ms) else tasks[t]
  }

  function SucceedRecords(records: map<string, ExecRecord>, ids: set<string>, ms: nat): map<string, ExecRecord> {
    map r | r in records ::
      if r in ids then records[r].(status := RecordSuccess, finishTime := Unix(ms)) else records[r]
  }

  function SucceedBatch(db: Db, ids: set<string>, ms: nat): Db {
    db.(tasks := SucceedTasks(db.tasks, TasksOf(db, ids), ms),
        records := SucceedRecords(db.records, ids, ms),
        locks := ReleaseLocks(db, ids, ms))
  }

  /** Equal statuses and retry counts. */
  predicate SameStatuses(a: Db, b: Db) {
    && a.tasks.Keys == b.tasks.Keys
    && a.records.Keys == b.records.Keys
    && (forall t :: t in a.tasks ==> a.tasks[t].status == b.tasks[t].status && a.tasks[t].retryCount == b.tasks[t].retryCount)
    && (forall r :: r in a.records ==> a.records[r].status == b.records[r].status)
  }

  predicate SameLinks(db: Db, db': Db) {
    && (forall r :: r in db.records ==>
          && r in db'.records
          && db'.records[r].taskId == db.records[r].taskId
          && db'.records[r].deviceId == db.records[r].deviceId
          && db'.records[r].lockValue == db.records[r].lockValue)
    && (forall r :: r in db'.records && r !in db.records ==>
          db'.records[r].taskId == None && db'.records[r].deviceId == "")
  }

  /** Links decide which tasks and which device tokens a set of records speaks for. */
  lemma LinksDecide(db: Db, db': Db, ids: set<string>)
    requires SameLinks(db, db')
    ensures TasksOf(db', ids) == TasksOf(db, ids)
    ensures forall r, d :: Carries(db', ids, r, d) <==> Carries(db, ids, r, d)
  {
    forall t ensures t in TasksOf(db', ids) <==> t in TasksOf(db, ids) {
      if t in TasksOf(db, ids) {
        var r :| r in ids && r in db.records && db.records[r].taskId == Some(t);
        assert db'.records[r].taskId == Some(t);
      }
      if t in TasksOf(db', ids) {
        var r :| r in ids && r in db'.records && db'.records[r].taskId == Some(t);
        assert r in db.records;
      }
    }
  }

  lemma FailKeepsLinks(db: Db, ids: set<string>, others: set<string>, ms: nat)
    ensures var db' := FailBatch(db, ids, ms);
      && SameLinks(db, db')
      && TasksOf(db', others) == TasksOf(db, others)
      && TasksOf(db, ids + others) == TasksOf(db, ids) + TasksOf(db, others)
      && (forall r, d :: Carries(db', others, r, d) <==> Carries(db, others, r, d))
  {
    LinksDecide(db, FailBatch(db, ids, ms), others);
    TasksOfUnion(db, ids, others);
  }

  lemma SucceedKeepsLinks(db: Db, ids: set<string>, others: set<string>, ms: nat)
    ensures var db' := SucceedBatch(db, ids, ms);
      && SameLinks(db, db')
      && TasksOf(db', others) == TasksOf(db, others)
      && TasksOf(db, ids + others) == TasksOf(db, ids) + TasksOf(db, others)
      && (forall r, d :: Carries(db', others, r, d) <==> Carries(db, others, r, d))
  {
    LinksDecide(db, SucceedBatch(db, ids, ms), others);
    TasksOfUnion(db, ids, others);
  }

  lemma EmptyBatch(db: Db, ms: nat)
    ensures FailBatch(db, {}, ms) == db && SucceedBatch(db, {}, ms) == db
  {
    assert TasksOf(db, {}) == {};
    assert ReleaseLocks(db, {}, ms) == db.locks;
    assert FailTasks(db.tasks, {}, ms) == db.tasks && SucceedTasks(db.tasks, {}, ms) == db.tasks;
    assert FailRecords(db.records, {}, ms) == db.records && SucceedRecords(db.records, {}, ms) == db.records;
  }

  lemma TasksOfUnion(db: Db, a: set<string>, b: set<string>)
    ensures TasksOf(db, a + b) == TasksOf(db, a) + TasksOf(db, b)
  {
    forall t | t in TasksOf(db, a + b) ensures t in TasksOf(db, a) + TasksOf(db, b) {
      var r :| r in a + b && r in db.records && db.records[r].taskId == Some(t);
      assert r in a ==> t in TasksOf(db, a);
      assert r in b ==> t in TasksOf(db, b);
    }
  }

  /** What a batch did not free, the same batch does not free later. */
  lemma NothingLeftToFree(db: Db, once: Db, ids: set<string>, ms: nat, later: nat)
    requires ms <= later && once.locks == ReleaseLocks(db, ids, ms) && SameLinks(db, once)
    ensures ReleaseLocks(once, ids, later) == once.locks
  {
    LinksDecide(db, once, ids);
    forall d | d in once.locks ensures !Frees(once, ids, d, later) {
      assert !Frees(db, ids, d, ms);
    }
  }

  lemma FailTasksAgain(tasks: map<string, Task>, a: set<string>, b: set<string>, ms: nat, later: nat, t: string)
    requires t in tasks
    ensures var twice, once := FailTasks(FailTasks(tasks, a, ms), b, later)[t], FailTasks(tasks, a + b, ms)[t];
      twice.status == once.status && twice.retryCount == once.retryCount == tasks[t].retryCount
  {
  }

  lemma FailRecordsAgain(records: map<string, ExecRecord>, a: set<string>, b: set<string>, ms: nat, later: nat)
    ensures var twice, once := FailRecords(FailRecords(records, a, ms), b, later), FailRecords(records, a + b, ms);
      twice.Keys == once.Keys && forall r :: r in once ==> twice[r].status == once[r].status
  {
    assert FailRecords(records, a, ms).Keys == records.Keys + a;
  }

  /** How reported failures are cut into batches, in which order the batches come and which reports
      come twice makes no difference to any status or retry count. */
  lemma FailuresCommute(db: Db, a: set<string>, b: set<string>, ms: nat, later: nat)
    ensures SameStatuses(FailBatch(FailBatch(db, a, ms), b, later), FailBatch(db, a + b, ms))
    ensures forall t :: t in db.tasks ==> FailBatch(db, a, ms).tasks[t].retryCount == db.tasks[t].retryCount
  {
    assert TasksOf(FailBatch(db, a, ms), b) == TasksOf(db, b) && TasksOf(db, a + b) == TasksOf(db, a) + TasksOf(db, b) by {
      FailKeepsLinks(db, a, b, ms);
    }
    FailRecordsAgain(db.records, a, b, ms, later);
    var twice, union := FailBatch(FailBatch(db, a, ms), b, later), FailBatch(db, a + b, ms);
    forall t | t in db.tasks
      ensures twice.tasks[t].status == union.tasks[t].status
      ensures twice.tasks[t].retryCount == union.tasks[t].retryCount
    {
      FailTasksAgain(db.tasks, TasksOf(db, a), TasksOf(db, b), ms, later, t);
    }
  }

  lemma SuccessesCommute(db: Db, a: set<string>, b: set<string>, ms: nat, later: nat)
    ensures SameStatuses(SucceedBatch(SucceedBatch(db, a, ms), b, later), SucceedBatch(db, a + b, ms))
  {
    assert TasksOf(SucceedBatch(db, a, ms), b) == TasksOf(db, b) && TasksOf(db, a + b) == TasksOf(db, a) + TasksOf(db, b) by {
      SucceedKeepsLinks(db, a, b, ms);
    }
  }

  /** One message of reported outcomes: its records and the time it is handled. */
  datatype Report = Report(success: bool, ids: set<string>, ms: nat)

  function Deliver(db: Db, report: Report): Db {
    if report.success then SucceedBatch(db, report.ids, report.ms) else FailBatch(db, report.ids, report.ms)
  }

  function DeliverAll(db: Db, reports: seq<Report>): Db
    decreases |reports|
  {
    if reports == [] then db else DeliverAll(Deliver(db, reports[0]), reports[1..])
  }

  function AllIds(reports: seq<Report>): set<string> {
    if reports == [] then {} else reports[0].ids + AllIds(reports[1..])
  }

  /** Any number of messages of one kind leave the statuses and retry counts of a single message with
      all their records. */
  lemma {:induction false} ReportsAreOne(db: Db, reports: seq<Report>, success: bool, ms: nat)
    requires forall report :: report in reports ==> report.success == success
    ensures SameStatuses(DeliverAll(db, reports), Deliver(db, Report(success, AllIds(reports), ms)))
    decreases |reports|
  {
    if reports == [] {
      EmptyBatch(db, ms);
    } else {
      var first, rest := reports[0], Report(success, AllIds(reports[1..]), ms);
      ReportsAreOne(Deliver(db, first), reports[1..], success, ms);
      TwoAreOne(db, first, rest);
      StatusesChain(DeliverAll(db, reports), Deliver(Deliver(db, first), rest), Deliver(db, Report(success, AllIds(reports), ms)));
    }
  }

  lemma TwoAreOne(db: Db, first: Report, second: Report)
    requires first.success == second.success
    ensures SameStatuses(Deliver(Deliver(db, first), second), Deliver(db, second.(ids := first.ids + second.ids)))
  {
    if first.success {
      SuccessesCommute(db, first.ids, second.ids, first.ms, second.ms);
      SucceedTimeless(db, first.ids + second.ids, first.ms, second.ms);
    } else {
      FailuresCommute(db, first.ids, second.ids, first.ms, second.ms);
      FailTimeless(db, first.ids + second.ids, first.ms, second.ms);
    }
  }

  lemma StatusesChain(a: Db, b: Db, c: Db)
    requires SameStatuses(a, b) && SameStatuses(b, c)
    ensures SameStatuses(a, c)
  {
  }

  lemma FailTimeless(db: Db, ids: set<string>, ms: nat, later: nat)
    ensures SameStatuses(FailBatch(db, ids, ms), FailBatch(db, ids, later))
  {
  }

  lemma SucceedTimeless(db: Db, ids: set<string>, ms: nat, later: nat)
    ensures SameStatuses(SucceedBatch(db, ids, ms), SucceedBatch(db, ids, later))
  {
  }

  /** Redelivery over whole message histories: histories of one kind that report the same records, in
      whatever order, batches and repetitions, end in the same statuses and retry counts. */
  lemma {:induction false} HistoriesAgree(db: Db, p: seq<Report>, q: seq<Report>, success: bool)
    requires forall report :: report in p + q ==> report.success == success
    requires AllIds(p) == AllIds(q)
    ensures SameStatuses(DeliverAll(db, p), DeliverAll(db, q))
  {
    assert forall report :: report in p ==> report in p + q;
    assert forall report :: report in q ==> report in p + q;
    ReportsAreOne(db, p, success, 0);
    ReportsAreOne(db, q, success, 0);
  }

  /** Whether a message speaks for the task. */
  predicate Hits(db: Db, report: Report, t: string) {
    t in TasksOf(db, report.ids)
  }

  /** The kinds of the messages that speak for the task, oldest first. */
  function KindsOf(db: Db, reports: seq<Report>, t: string): seq<bool> {
    if reports == [] then []
    else (if Hits(db, reports[0], t) then [reports[0].success] else []) + KindsOf(db, reports[1..], t)
  }

  /** The final status of a task under a mixed history: its last message decides; a last failure gives way
      to a deletion, and to an earlier failure for good that no success came after. */
  function FinalStatus(task: Task, kinds: seq<bool>): TaskStatus {
    if kinds == [] then task.status
    else if kinds[|kinds| - 1] then Success
    else if task.isDeleted then (if true in kinds then Success else task.status)
    else if !task.isRetry || task.retryCount >= MAX_RETRY_COUNT then Failed
    else if task.status == Failed && true !in kinds then Failed
    else FailedWaitingRetry
  }

  lemma {:induction false} KindsStay(db: Db, db': Db, reports: seq<Report>, t: string)
    requires SameLinks(db, db')
    ensures KindsOf(db', reports, t) == KindsOf(db, reports, t)
  {
    if reports != [] {
      LinksDecide(db, db', reports[0].ids);
      KindsStay(db, db', reports[1..], t);
    }
  }

  lemma DeliverKeepsLinks(db: Db, report: Report)
    ensures SameLinks(db, Deliver(db, report))
  {
    FailKeepsLinks(db, report.ids, {}, report.ms);
    SucceedKeepsLinks(db, report.ids, {}, report.ms);
  }

  lemma FinalStatusStep(task: Task, success: bool, kinds: seq<bool>, ms: nat)
    ensures FinalStatus(task, [success] + kinds)
         == FinalStatus(if success then SucceedTask(task, ms) else FailTask(task, ms), kinds)
  {
    var all := [success] + kinds;
    assert true in all <==> success || true in kinds;
    if kinds != [] {
      assert all[|all| - 1] == kinds[|kinds| - 1];
    }
  }

  /** What any mixed history makes of any task. */
  lemma {:induction false} MixedHistory(db: Db, reports: seq<Report>, t: string)
    requires t in db.tasks
    ensures t in DeliverAll(db, reports).tasks
    ensures DeliverAll(db, reports).tasks[t].status == FinalStatus(db.tasks[t], KindsOf(db, reports, t))
    ensures DeliverAll(db, reports).tasks[t].retryCount == db.tasks[t].retryCount
    decreases |reports|
  {
    if reports != [] {
      var next := Deliver(db, reports[0]);
      DeliverKeepsLinks(db, reports[0]);
      MixedHistory(next, reports[1..], t);
      KindsStay(db, next, reports[1..], t);
      var rest := KindsOf(db, reports[1..], t);
      if Hits(db, reports[0], t) {
        FinalStatusStep(db.tasks[t], reports[0].success, rest, reports[0].ms);
      } else {
        assert [] + rest == rest;
      }
    }
  }

  /** When the order of a mixed history matters: two histories that both hold successes and failures of a
      task agree on it exactly when the same kind comes last, or the task is deleted. */
  lemma {:induction false} MixedOrderMattersExactly(db: Db, p: seq<Report>, q: seq<Report>, t: string)
    requires t in db.tasks
    requires true in KindsOf(db, p, t) && false in KindsOf(db, p, t)
    requires true in KindsOf(db, q, t) && false in KindsOf(db, q, t)
    ensures t in DeliverAll(db, p).tasks && t in DeliverAll(db, q).tasks
    ensures var kp, kq := KindsOf(db, p, t), KindsOf(db, q, t);
      DeliverAll(db, p).tasks[t].status == DeliverAll(db, q).tasks[t].status
      <==> db.tasks[t].isDeleted || kp[|kp| - 1] == kq[|kq| - 1]
  {
    MixedHistory(db, p, t);
    MixedHistory(db, q, t);
  }

  /** Delivering a batch again changes nothing but times: no status, no retry count, no lock. */
  lemma FailTwice(db: Db, ids: set<string>, ms: nat, later: nat)
    requires ms <= later
    ensures SameStatuses(FailBatch(FailBatch(db, ids, ms), ids, later), FailBatch(db, ids, ms))
    ensures FailBatch(FailBatch(db, ids, ms), ids, later).locks == FailBatch(db, ids, ms).locks
  {
    assert ids + ids == ids;
    FailuresCommute(db, ids, ids, ms, later);
    FailKeepsLinks(db, ids, ids, ms);
    NothingLeftToFree(db, FailBatch(db, ids, ms), ids, ms, later);
  }

  lemma SucceedTwice(db: Db, ids: set<string>, ms: nat, later: nat)
    requires ms <= later
    ensures SameStatuses(SucceedBatch(SucceedBatch(db, ids, ms), ids, later), SucceedBatch(db, ids, ms))
    ensures SucceedBatch(SucceedBatch(db, ids, ms), ids, later).locks == SucceedBatch(db, ids, ms).locks
  {
    assert ids + ids == ids;
    SuccessesCommute(db, ids, ids, ms, later);
    SucceedKeepsLinks(db, ids, ids, ms);
    NothingLeftToFree(db, SucceedBatch(db, ids, ms), ids, ms, later);
  }

  /** A batch never frees a foreign lease: a lock whose token no record of the batch carries stays. */
  lemma ForeignLeaseStays(db: Db, ids: set<string>, ms: nat, device: string)
    requires device in db.locks
    requires forall r :: r in ids && Carries(db, ids, r, device) ==> db.records[r].lockValue != db.locks[device].token
    ensures device in FailBatch(db, ids, ms).locks && FailBatch(db, ids, ms).locks[device] == db.locks[device]
    ensures device in SucceedBatch(db, ids, ms).locks && SucceedBatch(db, ids, ms).locks[device] == db.locks[device]
  {
  }

  /** No history of reports, of whatever kinds, frees a lease whose token none of its records carries. */
  lemma {:induction false} ForeignLeaseOutlivesReports(db: Db, reports: seq<Report>, device: string)
    requires device in db.locks
    requires forall r :: r in AllIds(reports) && Carries(db, AllIds(reports), r, device) ==>
      db.records[r].lockValue != db.locks[device].token
    ensures device in DeliverAll(db, reports).locks && DeliverAll(db, reports).locks[device] == db.locks[device]
    decreases |reports|
  {
    if reports != [] {
      var ids, rest := reports[0].ids, AllIds(reports[1..]);
      var next := Deliver(db, reports[0]);
      assert forall r :: r in ids && Carries(db, ids, r, device) ==> Carries(db, AllIds(reports), r, device);
      ForeignLeaseStays(db, ids, reports[0].ms, device);
      FailKeepsLinks(db, ids, rest, reports[0].ms);
      SucceedKeepsLinks(db, ids, rest, reports[0].ms);
      forall r | r in rest && Carries(next, rest, r, device) ensures next.records[r].lockValue != next.locks[device].token {
        assert Carries(db, rest, r, device);
        assert Carries(db, AllIds(reports), r, device);
      }
      ForeignLeaseOutlivesReports(next, reports[1..], device);
    }
  }

  ghost predicate TokensGrow(history: seq<Acquisition>) {
    forall i, j :: 0 <= i < j < |history| && history[i].key == history[j].key ==> history[i].token < history[j].token
  }

  /** When tokens grow per device and records carry tokens that were really handed out, a batch that
      holds the record of the lease in force frees the device, older records of it notwithstanding. */
  lemma GrowingTokensFree(w: World, db: Db, ids: set<string>, r: string, n: nat)
    requires Past(w) && Backed(w) && Exclusive(w.history) && TokensGrow(w.history) && db.locks == w.store
    requires n < |w.history| && w.history[n].Active(w.now)
    requires Carries(db, ids, r, w.history[n].key) && db.records[r].lockValue == w.history[n].token
    requires forall q :: q in ids && Carries(db, ids, q, w.history[n].key) ==>
      exists i :: 0 <= i < |w.history| && w.history[i].key == w.history[n].key && w.history[i].token == db.records[q].lockValue
    ensures w.history[n].key !in FailBatch(db, ids, w.now).locks
    ensures w.history[n].key !in SucceedBatch(db, ids, w.now).locks
  {
    var a := w.history[n];
    assert a in w.history;
    forall q | q in ids && Carries(db, ids, q, a.key) ensures db.records[q].lockValue <= a.token {
      var i :| 0 <= i < |w.history| && w.history[i].key == a.key && w.history[i].token == db.records[q].lockValue;
      assert w.history[i] in w.history;
      // A later acquisition would have started only after this one ended.
      assert i <= n;
    }
    assert Frees(db, ids, a.key, w.now);
  }

  /** The record stands for the lease in force of the device: it carries its positive token. */
  predicate Stands(record: ExecRecord, locks: Store, d: string, ms: nat) {
    && record.deviceId == d && d != "" && d in locks
    && record.lockValue == locks[d].token && record.lockValue > 0 && ms < locks[d].expiresAt
  }

  /** Exactly: a batch that holds a record of the lease in force frees the device if and only if none of
      its records carries a larger token for the device. */
  lemma BatchFreesExactly(db: Db, ids: set<string>, r: string, ms: nat, device: string)
    requires Live(db.locks, device, ms)
    requires Carries(db, ids, r, device) && db.records[r].lockValue == db.locks[device].token
    ensures device !in FailBatch(db, ids, ms).locks <==>
      forall q :: q in ids && Carries(db, ids, q, device) ==> db.records[q].lockValue <= db.records[r].lockValue
    ensures device !in SucceedBatch(db, ids, ms).locks <==> device !in FailBatch(db, ids, ms).locks
  {
    assert Frees(db, ids, device, ms) <==>
      forall q :: q in ids && Carries(db, ids, q, device) ==> db.records[q].lockValue <= db.records[r].lockValue;
  }

  /** So growth is needed: two runs of a device locked it for ten minutes each, the second under a smaller
      token; a batch with both records misses the lease in force. */
  lemma LargerStaleTokenKeepsLease()
    ensures exists db: Db, ids: set<string>, r: string, ms: nat ::
      && Live(db.locks, "d", ms)
      && Carries(db, ids, r, "d") && db.records[r].lockValue == db.locks["d"].token
      && "d" in FailBatch(db, ids, ms).locks
  {
    var now := 1700000600000;
    var stale := ExecRecord(Some("t"), "d", 1700000009000, RecordFailed, 0, 0);
    var cur := ExecRecord(Some("u"), "d", 1700000008000, RecordRunning, 0, 0);
    var db := Db(map[], map["old" := stale, "cur" := cur], ["old", "cur"], map["d" := Entry(1700000008000, now + 1000)]);
    var ids := {"old", "cur"};
    assert Carries(db, ids, "old", "d") && Carries(db, ids, "cur", "d");
    assert Live(db.locks, "d", now) && db.records["cur"].lockValue == db.locks["d"].token;
    BatchFreesExactly(db, ids, "cur", now, "d");
    assert "d" in FailBatch(db, ids, now).locks;
  }

  /** What a deletion saves: the whole task as it read it, marked deleted. */
  function SaveDeletion(db: Db, id: string, read: Task): Db {
    db.(tasks := db.tasks[id := read.(isDeleted := true)])
  }

  /** A deletion of a task; others(i, db): what other handlers make of the database during its await. */
  function DeleteHandler(db: Db, id: string, others: (nat, Db) -> Db): Db
    requires id in db.tasks
  {
    SaveDeletion(others(0, db), id, db.tasks[id])
  }

  /** The last record created for the task. */
  function LatestRecord(db: Db, order: seq<string>, taskId: string): Option<string> {
    if order == [] then None
    else
      var r := order[|order| - 1];
      if r in db.records && db.records[r].taskId == Some(taskId) then Some(r)
      else LatestRecord(db, order[..|order| - 1], taskId)
  }

  predicate Finished(status: TaskStatus) {
    status in {Canceled, Failed, Success, WaitingTimeout}
  }

  /** The last record of the task if it is running. */
  function RunningRecord(db: Db, id: string): Option<string> {
    var last := LatestRecord(db, db.order, id);
    if last.Some? && last.value in db.records && db.records[last.value].status == RecordRunning then last else None
  }

  function CancelRecord(db: Db, record: Option<string>): Db {
    if record.Some? && record.value in db.records
    then db.(records := db.records[record.value := db.records[record.value].(status := RecordCanceled)])
    else db
  }

  /** Canceling leaves a task alone whose script was already sent, and every finished one. */
  function CancelSave(db: Db, id: string): Db {
    if id in db.tasks && db.tasks[id].status in {Waiting, Running, FailedWaitingRetry}
    then db.(tasks := db.tasks[id := db.tasks[id].(status := Canceled)])
    else db
  }

  /** Canceling an unfinished task; others(i, db): what other handlers make of the database during its
      i-th await. */
  function CancelHandler(db: Db, id: string, others: (nat, Db) -> Db): Db {
    var found := others(0, db);
    var record := RunningRecord(found, id);
    CancelSave(others(2, CancelRecord(others(1, found), record)), id)
  }
}
