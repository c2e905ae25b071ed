/** The life of tasks and execution records under every interleaving of runs, reported outcomes,
    timeouts and cancellations: the worker's run (src/modules/send-script-main/
    send-script-worker.service.ts) cut at its awaits, beside the batches of TaskStore. */
module Lifecycle {
  import opened Wrappers
  import opened Leases
  import opened TaskStore

  const LOCK_TTL_MS := 600 * 1000

  /** How far the worker is with a task it was handed.  snap is the entity the run holds in memory and
      writes back whole. */
  datatype Phase =
    | Received
    | Locked(token: nat)
    | Loaded(snap: Task, token: nat)
    | Recorded(snap: Task, record: string)
    | Sending(snap: Task, record: string)
    | Over

  datatype Flight = Flight(deviceId: string, phase: Phase)

  /** How far a failure handler is: it found the records of its message, then read their tasks, then saved
      both; releasing the locks ends it. */
  datatype Handling =
    | Found(ids: set<string>, found: map<string, ExecRecord>)
    | Read(ids: set<string>, found: map<string, ExecRecord>, tasks: map<string, Task>)
    | Saved(found: map<string, ExecRecord>)

  /** How far a cancellation is: it checked the task, then looked for a running record. */
  datatype Canceling =
    | Checked(t: string)
    | Picked(t: string, record: Option<string>)

  /** A deletion that read the task and will save this copy of it; runs: how many runs the task had had. */
  datatype Deleting = Deleting(t: string, snap: Task, runs: nat)

  /** orphans: records of runs that broke off between saving the record and saving the task.
      drift: by how much in all the write-backs of outdated copies set a task back: for a failure handler, by
      how much it moved the retry count; for a deletion, the larger of that and the runs it forgot. */
  datatype Life = Life(db: Db, flights: map<string, Flight>, handlings: map<nat, Handling>,
                       cancels: map<nat, Canceling>, deletes: map<nat, Deleting>,
                       orphans: set<string>, drift: map<string, nat>)

  datatype Event =
    | Receive(t: string, deviceId: string)
    | TakeLock(t: string, token: nat, ms: nat)
    | LoadTask(t: string)
    | Proceed(t: string, record: string, ms: nat)
    | SaveRunning(t: string)
    | SendOk(t: string)
    | SendFail(t: string, ms: nat)
    | Abort(t: string)
    | Done(t: string)
    | FindRecords(b: nat, ids: set<string>)
    | FindTasks(b: nat)
    | SaveFailures(b: nat, ms: nat)
    | ReleaseLocksOf(b: nat, ms: nat)
    | ReportSuccesses(ids: set<string>, ms: nat)
    | CheckCancel(c: nat, t: string)
    | PickRecord(c: nat)
    | StopRecord(c: nat)
    | SaveCanceled(c: nat)
    | Create(t: string, task: Task)
    | ReadToDelete(d: nat, t: string)
    | SaveDeleted(d: nat)

  predicate Runnable(task: Task) {
    task.status == Waiting || task.status == FailedWaitingRetry
  }

  predicate WaitExpired(snap: Task, ms: nat) {
    0 < snap.waitTimeoutUnix < Unix(ms)
  }

  /** The run's entity once it counts a retry and marks the task running. */
  function Started(snap: Task): Task {
    snap.(retryCount := snap.retryCount + (if snap.status == FailedWaitingRetry then 1 else 0), status := Running)
  }

  /** A run that could not send: retry with one more counted, judged by the run's own copy, or fail. */
  function RetryOrFail(task: Task, snap: Task, ms: nat): Task {
    if snap.isRetry && snap.retryCount < MAX_RETRY_COUNT then
      task.(status := FailedWaitingRetry, nextExecTime := Unix(ms) + RETRY_INTERVAL, retryCount := task.retryCount + 1)
    else
      task.(status := Failed, finishTime := Unix(ms))
  }

  function NewRecord(t: string, snap: Task, token: nat): ExecRecord {
    ExecRecord(Some(t), snap.deviceId, token, RecordRunning, 0, snap.execTimeoutUnix)
  }

  function SetTask(db: Db, t: string, task: Task): Db {
    db.(tasks := db.tasks[t := task])
  }

  function FailOneRecord(records: map<string, ExecRecord>, r: string, ms: nat): map<string, ExecRecord> {
    if r in records then records[r := records[r].(status := RecordFailed, finishTime := Unix(ms))] else records
  }

  function PhaseOf(s: Life, t: string): Option<Phase> {
    if t in s.flights then Some(s.flights[t].phase) else None
  }

  function SetPhase(s: Life, t: string, phase: Phase): Life
    requires t in s.flights
  {
    s.(flights := s.flights[t := s.flights[t].(phase := phase)])
  }

  // ----- the steps of a run

  function LockDevice(s: Life, t: string, token: nat, ms: nat): Life
    requires t in s.flights && !Live(s.db.locks, s.flights[t].deviceId, ms)
  {
    SetPhase(s, t, Locked(token)).(
      db := s.db.(locks := SetNx(s.db.locks, s.flights[t].deviceId, token, LOCK_TTL_MS, ms).value))
  }

  function Load(s: Life, t: string): Life
    requires t in s.flights && s.flights[t].phase.Locked?
  {
    if t in s.db.tasks && Runnable(s.db.tasks[t]) then SetPhase(s, t, Loaded(s.db.tasks[t], s.flights[t].phase.token))
    else SetPhase(s, t, Over)
  }

  /** Gives up a task that waited too long. */
  function GiveUp(s: Life, t: string): Life
    requires t in s.flights && s.flights[t].phase.Loaded?
  {
    SetPhase(s, t, Over).(db := SetTask(s.db, t, s.flights[t].phase.snap.(status := WaitingTimeout)))
  }

  function AddRecord(s: Life, t: string, record: string): Life
    requires t in s.flights && s.flights[t].phase.Loaded?
  {
    var snap, token := s.flights[t].phase.snap, s.flights[t].phase.token;
    SetPhase(s, t, Recorded(snap, record)).(
      db := s.db.(records := s.db.records[record := NewRecord(t, snap, token)], order := s.db.order + [record]))
  }

  function Start(s: Life, t: string): Life
    requires t in s.flights && s.flights[t].phase.Recorded?
  {
    var snap := Started(s.flights[t].phase.snap);
    SetPhase(s, t, Sending(snap, s.flights[t].phase.record)).(db := SetTask(s.db, t, snap))
  }

  function FinishSend(s: Life, t: string): Life
    requires t in s.flights && s.flights[t].phase.Sending?
  {
    SetPhase(s, t, Over).(db := SetTask(s.db, t, s.flights[t].phase.snap.(status := SendSuccess)))
  }

  function FailSend(s: Life, t: string, ms: nat): Life
    requires t in s.flights && s.flights[t].phase.Sending? && t in s.db.tasks
  {
    var phase := s.flights[t].phase;
    SetPhase(s, t, Over).(
      db := SetTask(s.db, t, RetryOrFail(s.db.tasks[t], phase.snap, ms)).(
        records := FailOneRecord(s.db.records, phase.record, ms)))
  }

  function BreakOff(s: Life, t: string): Life
    requires t in s.flights
  {
    var phase := s.flights[t].phase;
    SetPhase(s, t, Over).(orphans := if phase.Recorded? then s.orphans + {phase.record} else s.orphans)
  }

  // ----- the steps of the failure handler, of a cancellation and of a deletion

  function DriftOf(s: Life, t: string): nat {
    if t in s.drift then s.drift[t] else 0
  }

  function Distance(a: nat, b: nat): nat {
    if a < b then b - a else a - b
  }

  /** By how much a write-back moves the retry count. */
  function Moved(task: Task, read: Task): nat {
    if read.status == Failed then 0 else Distance(task.retryCount, read.retryCount)
  }

  /** The runs of the task so far: its charged records, without that of a run not yet under way. */
  function RunsOf(s: Life, t: string): nat {
    if t in s.flights && s.flights[t].phase.Recorded? && Charged(s, t) > 0 then Charged(s, t) - 1 else Charged(s, t)
  }

  /** By how much saving a deletion sets its task back. */
  function SetBack(s: Life, d: Deleting): nat {
    var forgotten := if d.runs < RunsOf(s, d.t) then RunsOf(s, d.t) - d.runs else 0;
    var moved := if d.t in s.db.tasks then Distance(s.db.tasks[d.t].retryCount, d.snap.retryCount) else 0;
    if forgotten < moved then moved else forgotten
  }

  function DeleteSaved(s: Life, d: nat): Life
    requires d in s.deletes
  {
    var del := s.deletes[d];
    s.(db := SaveDeletion(s.db, del.t, del.snap), deletes := s.deletes - {d},
       drift := s.drift[del.t := DriftOf(s, del.t) + SetBack(s, del)])
  }

  function SaveHandled(s: Life, b: nat, ms: nat): Life
    requires b in s.handlings && s.handlings[b].Read?
  {
    var h := s.handlings[b];
    s.(db := WriteFailures(s.db, h.ids, h.tasks, ms),
       handlings := s.handlings[b := Saved(h.found)],
       drift := map t | t in s.db.tasks ::
         DriftOf(s, t) + if t in h.tasks then Moved(s.db.tasks[t], h.tasks[t]) else 0)
  }

  predicate HandlerEnabled(s: Life, e: Event) {
    match e
    case FindRecords(b, ids) => b !in s.handlings
    case FindTasks(b) => b in s.handlings && s.handlings[b].Found?
    case SaveFailures(b, _) => b in s.handlings && s.handlings[b].Read?
    case ReleaseLocksOf(b, _) => b in s.handlings && s.handlings[b].Saved?
    case _ => false
  }

  function Handle(s: Life, e: Event): Life
    requires HandlerEnabled(s, e)
  {
    match e
    case FindRecords(b, ids) => s.(handlings := s.handlings[b := Found(ids, FoundRecords(s.db, ids))])
    case FindTasks(b) =>
      var h := s.handlings[b];
      s.(handlings := s.handlings[b := Read(h.ids, h.found, ReadTasks(s.db, h.found))])
    case SaveFailures(b, ms) => SaveHandled(s, b, ms)
    case ReleaseLocksOf(b, ms) =>
      s.(db := ReleaseFound(s.db, s.handlings[b].found, ms), handlings := s.handlings - {b})
  }

  predicate CancelEnabled(s: Life, e: Event) {
    match e
    case CheckCancel(c, t) => c !in s.cancels && t in s.db.tasks && !Finished(s.db.tasks[t].status)
    case PickRecord(c) => c in s.cancels && s.cancels[c].Checked?
    case StopRecord(c) => c in s.cancels && s.cancels[c].Picked? && s.cancels[c].record.Some?
    case SaveCanceled(c) => c in s.cancels && s.cancels[c].Picked? && s.cancels[c].record.None?
    case _ => false
  }

  function Cancel(s: Life, e: Event): Life
    requires CancelEnabled(s, e)
  {
    match e
    case CheckCancel(c, t) => s.(cancels := s.cancels[c := Checked(t)])
    case PickRecord(c) =>
      s.(cancels := s.cancels[c := Picked(s.cancels[c].t, RunningRecord(s.db, s.cancels[c].t))])
    case StopRecord(c) =>
      s.(db := CancelRecord(s.db, s.cancels[c].record), cancels := s.cancels[c := Picked(s.cancels[c].t, None)])
    case SaveCanceled(c) => s.(db := CancelSave(s.db, s.cancels[c].t), cancels := s.cancels - {c})
  }

  predicate DeleteEnabled(s: Life, e: Event) {
    match e
    case ReadToDelete(d, t) => d !in s.deletes && t in s.db.tasks && !s.db.tasks[t].isDeleted
    case SaveDeleted(d) => d in s.deletes
    case _ => false
  }

  function Delete(s: Life, e: Event): Life
    requires DeleteEnabled(s, e)
  {
    match e
    case ReadToDelete(d, t) => s.(deletes := s.deletes[d := Deleting(t, s.db.tasks[t], RunsOf(s, t))])
    case SaveDeleted(d) => DeleteSaved(s, d)
  }

  /** Whether the event can happen; a receipt needs that the task is not in flight already. */
  predicate Enabled(s: Life, e: Event) {
    match e
    case Receive(t, _) => t !in s.flights
    case TakeLock(t, _, ms) =>
      PhaseOf(s, t) == Some(Received) && !Live(s.db.locks, s.flights[t].deviceId, ms)
    case LoadTask(t) => t in s.flights && s.flights[t].phase.Locked?
    case Proceed(t, record, ms) =>
      t in s.flights && s.flights[t].phase.Loaded? && record !in s.db.records && record != ""
    case SaveRunning(t) => t in s.flights && s.flights[t].phase.Recorded?
    case SendOk(t) => t in s.flights && s.flights[t].phase.Sending?
    case SendFail(t, _) => t in s.flights && s.flights[t].phase.Sending? && t in s.db.tasks
    case Abort(t) => t in s.flights && !s.flights[t].phase.Over?
    case Done(t) => t in s.flights && s.flights[t].phase.Over?
    case ReportSuccesses(ids, _) => true
    case Create(t, task) => t !in s.db.tasks && task.status == Waiting && task.retryCount == 0
    case _ => HandlerEnabled(s, e) || CancelEnabled(s, e) || DeleteEnabled(s, e)
  }

  function Apply(s: Life, e: Event): Life
    requires Enabled(s, e)
  {
    match e
    case Receive(t, deviceId) => s.(flights := s.flights[t := Flight(deviceId, Received)])
    case TakeLock(t, token, ms) => LockDevice(s, t, token, ms)
    case LoadTask(t) => Load(s, t)
    case Proceed(t, record, ms) =>
      if WaitExpired(s.flights[t].phase.snap, ms) then GiveUp(s, t) else AddRecord(s, t, record)
    case SaveRunning(t) => Start(s, t)
    case SendOk(t) => FinishSend(s, t)
    case SendFail(t, ms) => FailSend(s, t, ms)
    case Abort(t) => BreakOff(s, t)
    case Done(t) => s.(flights := s.flights - {t})
    case ReportSuccesses(ids, ms) => s.(db := SucceedBatch(s.db, ids, ms))
    case Create(t, task) => s.(db := SetTask(s.db, t, task))
    case _ => if HandlerEnabled(s, e) then Handle(s, e) else if CancelEnabled(s, e) then Cancel(s, e) else Delete(s, e)
  }

  function Step(s: Life, e: Event): Life {
    if Enabled(s, e) then Apply(s, e) else s
  }

  function Run(start: Life, events: seq<Event>): Life {
    if events == [] then start
    else Step(Run(start, events[..|events| - 1]), events[|events| - 1])
  }

  /** The execution records created for a task. */
  function RecordsOf(records: map<string, ExecRecord>, t: string): set<string> {
    set r | r in records && records[r].taskId == Some(t)
  }

  /** How many records of the task come from runs that did not break off before they counted. */
  function Charged(s: Life, t: string): nat {
    |RecordsOf(s.db.records, t) - s.orphans|
  }

  /** What a task may look like after n records and write-backs that set it back by d in all. */
  predicate Budget(task: Task, n: int, d: nat) {
    && 0 <= n <= MAX_RETRY_COUNT + 1 + d
    && task.retryCount <= MAX_RETRY_COUNT + 1 + d
    && n <= task.retryCount + 1 + d
    && (task.status == Waiting ==> n <= d && task.retryCount == 0)
    && (task.status == FailedWaitingRetry ==>
          task.isRetry && task.retryCount <= MAX_RETRY_COUNT + d && n <= MAX_RETRY_COUNT + d)
    && (!task.isRetry ==> n <= 1 + d && task.retryCount == 0)
  }

  /** A copy that a run took of a task and has not written back yet. */
  predicate CopyOk(snap: Task, task: Task, n: int, d: nat) {
    snap.isRetry == task.isRetry && Runnable(snap) && Budget(snap, n, d)
  }

  /** n counts the records of the task; one that the run has not accounted for yet is not charged. */
  predicate TaskInv(task: Task, n: int, d: nat, phase: Option<Phase>) {
    match phase
    case Some(Loaded(snap, _)) => Budget(task, n, d) && CopyOk(snap, task, n, d)
    case Some(Recorded(snap, _)) => Budget(task, n - 1, d) && CopyOk(snap, task, n - 1, d)
    case Some(Sending(snap, _)) =>
      Budget(task, n, d) && n >= 1 && snap.status == Running
      && task.retryCount <= snap.retryCount + d && snap.isRetry == task.isRetry && Budget(snap, n, d)
    case _ => Budget(task, n, d)
  }

  predicate HasCopy(phase: Phase) {
    phase.Loaded? || phase.Recorded? || phase.Sending?
  }

  predicate TaskOk(s: Life, t: string) {
    t in s.db.tasks ==> TaskInv(s.db.tasks[t], Charged(s, t), DriftOf(s, t), PhaseOf(s, t))
  }

  predicate FlightOk(s: Life, t: string) {
    t in s.flights ==>
      && (HasCopy(s.flights[t].phase) ==> t in s.db.tasks)
      && (s.flights[t].phase.Recorded? ==> s.flights[t].phase.record in RecordsOf(s.db.records, t) - s.orphans)
      && (s.flights[t].phase.Sending? ==> s.flights[t].phase.record in RecordsOf(s.db.records, t))
  }

  predicate RecordsOk(s: Life) {
    && (forall r :: r in s.db.records && s.db.records[r].taskId.Some? ==> s.db.records[r].taskId.value in s.db.tasks)
    && s.orphans <= s.db.records.Keys
  }

  /** The records that a handler found are still stored and of the same tasks; the tasks it read are
      theirs. */
  ghost predicate HandlingOk(records: map<string, ExecRecord>, h: Handling) {
    && (forall r :: r in h.found ==> r in records && records[r].taskId == h.found[r].taskId)
    && (h.Read? ==> forall t :: t in h.tasks ==> exists r :: r in h.found && h.found[r].taskId == Some(t))
  }

  /** Whether a task may be retried never changes, and without retries its count stays zero. */
  predicate RetryOk(tasks: map<string, Task>, h: Handling) {
    h.Read? ==> forall t :: t in h.tasks ==>
      t in tasks && h.tasks[t].isRetry == tasks[t].isRetry && (!tasks[t].isRetry ==> h.tasks[t].retryCount == 0)
  }

  ghost predicate HandlingsOk(s: Life) {
    forall b :: b in s.handlings ==> HandlingOk(s.db.records, s.handlings[b]) && RetryOk(s.db.tasks, s.handlings[b])
  }

  /** A pending deletion holds a copy that was within the budget when it was read. */
  predicate DeleteOk(s: Life, d: Deleting) {
    && d.t in s.db.tasks && d.snap.isRetry == s.db.tasks[d.t].isRetry
    && Budget(d.snap, d.runs, DriftOf(s, d.t))
  }

  predicate DeletesOk(s: Life) {
    forall d :: d in s.deletes ==> DeleteOk(s, s.deletes[d])
  }

  ghost predicate Inv(s: Life) {
    (forall t :: TaskOk(s, t)) && (forall t :: FlightOk(s, t)) && RecordsOk(s) && HandlingsOk(s) && DeletesOk(s)
  }

  predicate SameTaskIds(records: map<string, ExecRecord>, records': map<string, ExecRecord>) {
    && (forall r :: r in records ==> r in records' && records'[r].taskId == records[r].taskId)
    && (forall r :: r in records' && r !in records ==> records'[r].taskId == None)
  }

  lemma SameRecordsOf(records: map<string, ExecRecord>, records': map<string, ExecRecord>, t: string)
    requires SameTaskIds(records, records')
    ensures RecordsOf(records', t) == RecordsOf(records, t)
  {
  }

  lemma HandlingsStay(s: Life, s': Life)
    requires HandlingsOk(s) && SameTaskIds(s.db.records, s'.db.records)
    requires forall t :: t in s.db.tasks ==> t in s'.db.tasks && s'.db.tasks[t].isRetry == s.db.tasks[t].isRetry
    requires forall b :: b in s'.handlings && (b !in s.handlings || s'.handlings[b] != s.handlings[b]) ==>
      HandlingOk(s.db.records, s'.handlings[b]) && RetryOk(s.db.tasks, s'.handlings[b])
    ensures HandlingsOk(s')
  {
    forall b | b in s'.handlings
      ensures HandlingOk(s'.db.records, s'.handlings[b]) && RetryOk(s'.db.tasks, s'.handlings[b])
    {
      assert HandlingOk(s.db.records, s'.handlings[b]) && RetryOk(s.db.tasks, s'.handlings[b]);
    }
  }

  lemma DeletesStay(s: Life, s': Life)
    requires DeletesOk(s) && forall d :: d in s'.deletes ==> d in s.deletes && s'.deletes[d] == s.deletes[d]
    requires forall t :: t in s.db.tasks ==> t in s'.db.tasks && s'.db.tasks[t].isRetry == s.db.tasks[t].isRetry
    requires forall t :: t in s.db.tasks ==> DriftOf(s, t) <= DriftOf(s', t)
    ensures DeletesOk(s')
  {
    forall d | d in s'.deletes ensures DeleteOk(s', s'.deletes[d]) {
      assert DeleteOk(s, s.deletes[d]);
      BudgetGrows(s.deletes[d].snap, s.deletes[d].runs, DriftOf(s, s.deletes[d].t), DriftOf(s', s.deletes[d].t));
    }
  }

  lemma BudgetGrows(task: Task, n: int, d: nat, d': nat)
    requires Budget(task, n, d) && d <= d'
    ensures Budget(task, n, d')
  {
  }

  lemma RecordsStay(s: Life, s': Life)
    requires RecordsOk(s) && SameTaskIds(s.db.records, s'.db.records)
    requires s.db.tasks.Keys <= s'.db.tasks.Keys && s'.orphans == s.orphans
    ensures RecordsOk(s')
  {
  }

  /** A step that only moves the flight of t and writes task t keeps the invariant when it does so for t. */
  lemma InvAt(s: Life, s': Life, t: string)
    requires Inv(s) && s'.orphans == s.orphans && SameTaskIds(s.db.records, s'.db.records)
    requires s'.handlings == s.handlings && forall d :: d in s'.deletes ==> d in s.deletes && s'.deletes[d] == s.deletes[d]
    requires DriftOf(s, t) <= DriftOf(s', t) && forall u :: u != t ==> DriftOf(s', u) == DriftOf(s, u)
    requires s'.db.tasks.Keys == s.db.tasks.Keys
    requires forall u :: u in s.db.tasks && u != t ==> s'.db.tasks[u] == s.db.tasks[u]
    requires forall u :: u != t ==> PhaseOf(s', u) == PhaseOf(s, u)
    requires t in s.db.tasks ==>
      && s'.db.tasks[t].isRetry == s.db.tasks[t].isRetry
      && TaskInv(s'.db.tasks[t], Charged(s, t), DriftOf(s', t), PhaseOf(s', t))
    requires PhaseOf(s', t).Some? ==>
      && !PhaseOf(s', t).value.Recorded? && (HasCopy(PhaseOf(s', t).value) ==> t in s.db.tasks)
      && (PhaseOf(s', t).value.Sending? ==> PhaseOf(s', t).value.record in RecordsOf(s.db.records, t))
    ensures Inv(s')
  {
    HandlingsStay(s, s');
    DeletesStay(s, s');
    RecordsStay(s, s');
    forall u ensures TaskOk(s', u) && FlightOk(s', u) {
      SameRecordsOf(s.db.records, s'.db.records, u);
      assert TaskOk(s, u) && FlightOk(s, u);
      if u != t {
        assert PhaseOf(s', u) == PhaseOf(s, u);
      }
    }
  }

  /** A step that moves the run of t to the phase and writes at most task t. */
  lemma PhaseKeepsInv(s: Life, t: string, phase: Phase, db: Db)
    requires Inv(s) && t in s.flights && SameTaskIds(s.db.records, db.records)
    requires t in s.db.tasks ==> t in db.tasks
    requires db.tasks == if t in s.db.tasks then s.db.tasks[t := db.tasks[t]] else s.db.tasks
    requires t in s.db.tasks ==>
      db.tasks[t].isRetry == s.db.tasks[t].isRetry && TaskInv(db.tasks[t], Charged(s, t), DriftOf(s, t), Some(phase))
    requires !phase.Recorded? && (HasCopy(phase) ==> t in s.db.tasks)
    requires phase.Sending? ==> phase.record in RecordsOf(s.db.records, t)
    ensures Inv(SetPhase(s, t, phase).(db := db))
  {
    InvAt(s, SetPhase(s, t, phase).(db := db), t);
  }

  lemma ReceiptKeepsInv(s: Life, t: string, deviceId: string)
    requires Inv(s) && t !in s.flights
    ensures Inv(s.(flights := s.flights[t := Flight(deviceId, Received)]))
  {
    assert TaskOk(s, t);
    InvAt(s, s.(flights := s.flights[t := Flight(deviceId, Received)]), t);
  }

  lemma DoneKeepsInv(s: Life, t: string)
    requires Inv(s) && PhaseOf(s, t) == Some(Over)
    ensures Inv(s.(flights := s.flights - {t}))
  {
    assert TaskOk(s, t);
    InvAt(s, s.(flights := s.flights - {t}), t);
  }

  lemma LockKeepsInv(s: Life, t: string, token: nat, ms: nat)
    requires Inv(s) && PhaseOf(s, t) == Some(Received) && !Live(s.db.locks, s.flights[t].deviceId, ms)
    ensures Inv(LockDevice(s, t, token, ms))
  {
    assert TaskOk(s, t);
    PhaseKeepsInv(s, t, Locked(token), LockDevice(s, t, token, ms).db);
  }

  lemma LoadKeepsInv(s: Life, t: string)
    requires Inv(s) && t in s.flights && s.flights[t].phase.Locked?
    ensures Inv(Load(s, t))
  {
    assert TaskOk(s, t);
    if t in s.db.tasks && Runnable(s.db.tasks[t]) {
      LoadedInv(s.db.tasks[t], Charged(s, t), DriftOf(s, t), s.flights[t].phase.token);
      PhaseKeepsInv(s, t, Loaded(s.db.tasks[t], s.flights[t].phase.token), s.db);
    } else {
      PhaseKeepsInv(s, t, Over, s.db);
    }
  }

  lemma LoadedInv(task: Task, n: int, d: nat, token: nat)
    requires Budget(task, n, d) && Runnable(task)
    ensures TaskInv(task, n, d, Some(Loaded(task, token)))
  {
  }

  lemma StartedOk(snap: Task, task: Task, n: int, d: nat)
    requires CopyOk(snap, task, n, d)
    ensures Budget(Started(snap), n + 1, d)
  {
  }

  lemma SaveKeepsInv(s: Life, t: string)
    requires Inv(s) && t in s.flights && s.flights[t].phase.Recorded?
    ensures Inv(Start(s, t))
  {
    assert TaskOk(s, t) && FlightOk(s, t);
    StartedOk(s.flights[t].phase.snap, s.db.tasks[t], Charged(s, t) - 1, DriftOf(s, t));
    PhaseKeepsInv(s, t, Sending(Started(s.flights[t].phase.snap), s.flights[t].phase.record), Start(s, t).db);
  }

  lemma FinishKeepsInv(s: Life, t: string)
    requires Inv(s) && t in s.flights && s.flights[t].phase.Sending?
    ensures Inv(FinishSend(s, t))
  {
    assert TaskOk(s, t) && FlightOk(s, t);
    PhaseKeepsInv(s, t, Over, FinishSend(s, t).db);
  }

  lemma FailKeepsInv(s: Life, t: string, ms: nat)
    requires Inv(s) && t in s.flights && s.flights[t].phase.Sending? && t in s.db.tasks
    ensures Inv(FailSend(s, t, ms))
  {
    assert TaskOk(s, t) && FlightOk(s, t);
    PhaseKeepsInv(s, t, Over, FailSend(s, t, ms).db);
  }

  lemma NewRecordCharges(s: Life, s': Life, t: string, record: string, u: string)
    requires record !in s.db.records && s'.orphans == s.orphans && s.orphans <= s.db.records.Keys
    requires record in s'.db.records && s'.db.records == s.db.records[record := s'.db.records[record]]
    requires s'.db.records[record].taskId == Some(t)
    ensures RecordsOf(s'.db.records, u) - s'.orphans
         == (RecordsOf(s.db.records, u) - s.orphans) + (if u == t then {record} else {})
    ensures Charged(s', u) == Charged(s, u) + (if u == t then 1 else 0)
  {
    assert RecordsOf(s'.db.records, u) - s'.orphans
        == (RecordsOf(s.db.records, u) - s.orphans) + (if u == t then {record} else {});
  }

  lemma GiveUpKeepsInv(s: Life, t: string)
    requires Inv(s) && t in s.flights && s.flights[t].phase.Loaded?
    ensures Inv(GiveUp(s, t))
  {
    assert TaskOk(s, t) && FlightOk(s, t);
    PhaseKeepsInv(s, t, Over, GiveUp(s, t).db);
  }

  lemma RecordKeepsTask(s: Life, t: string, record: string, u: string)
    requires t in s.flights && s.flights[t].phase.Loaded? && record !in s.db.records
    requires TaskOk(s, u) && s.orphans <= s.db.records.Keys
    ensures TaskOk(AddRecord(s, t, record), u)
  {
    var s' := AddRecord(s, t, record);
    NewRecordCharges(s, s', t, record, u);
    if u in s.db.tasks {
      if u == t {
        var Loaded(snap, token) := s.flights[t].phase;
        RecordedInv(s.db.tasks[t], Charged(s, t), DriftOf(s, t), snap, token, record);
      } else {
        assert PhaseOf(s', u) == PhaseOf(s, u);
      }
    }
  }

  lemma RecordedInv(task: Task, n: int, d: nat, snap: Task, token: nat, record: string)
    requires TaskInv(task, n, d, Some(Loaded(snap, token)))
    ensures TaskInv(task, n + 1, d, Some(Recorded(snap, record)))
  {
  }

  lemma RecordKeepsFlight(s: Life, t: string, record: string, u: string)
    requires t in s.flights && s.flights[t].phase.Loaded? && record !in s.db.records
    requires FlightOk(s, t) && FlightOk(s, u) && s.orphans <= s.db.records.Keys
    ensures FlightOk(AddRecord(s, t, record), u)
  {
    NewRecordCharges(s, AddRecord(s, t, record), t, record, u);
  }

  lemma RecordKeepsInv(s: Life, t: string, record: string)
    requires Inv(s) && t in s.flights && s.flights[t].phase.Loaded? && record !in s.db.records
    ensures Inv(AddRecord(s, t, record))
  {
    assert FlightOk(s, t);
    DeletesStay(s, AddRecord(s, t, record));
    forall u ensures TaskOk(AddRecord(s, t, record), u) && FlightOk(AddRecord(s, t, record), u) {
      assert TaskOk(s, u) && FlightOk(s, u);
      RecordKeepsTask(s, t, record, u);
      RecordKeepsFlight(s, t, record, u);
    }
  }

  lemma OrphanCharges(s: Life, s': Life, t: string, record: string, u: string)
    requires s'.db == s.db && s'.orphans == s.orphans + {record}
    requires record in RecordsOf(s.db.records, t) - s.orphans
    ensures RecordsOf(s'.db.records, u) - s'.orphans
         == (RecordsOf(s.db.records, u) - s.orphans) - (if u == t then {record} else {})
    ensures Charged(s', u) == Charged(s, u) - (if u == t then 1 else 0)
  {
    assert RecordsOf(s'.db.records, u) - s'.orphans
        == (RecordsOf(s.db.records, u) - s.orphans) - (if u == t then {record} else {});
  }

  lemma AbortKeepsInv(s: Life, t: string)
    requires Inv(s) && t in s.flights && !s.flights[t].phase.Over?
    ensures Inv(BreakOff(s, t))
  {
    assert TaskOk(s, t) && FlightOk(s, t);
    if s.flights[t].phase.Recorded? {
      OrphanKeepsInv(s, t);
    } else {
      InvAt(s, BreakOff(s, t), t);
    }
  }

  lemma OrphanKeepsTask(s: Life, t: string, u: string)
    requires t in s.flights && s.flights[t].phase.Recorded?
    requires TaskOk(s, u) && FlightOk(s, t)
    ensures TaskOk(BreakOff(s, t), u)
  {
    OrphanCharges(s, BreakOff(s, t), t, s.flights[t].phase.record, u);
    if u == t && t in s.db.tasks {
      OrphanedInv(s.db.tasks[t], Charged(s, t), DriftOf(s, t), s.flights[t].phase.snap, s.flights[t].phase.record);
    } else {
      assert PhaseOf(BreakOff(s, t), u) == PhaseOf(s, u);
    }
  }

  lemma OrphanedInv(task: Task, n: int, d: nat, snap: Task, record: string)
    requires TaskInv(task, n, d, Some(Recorded(snap, record)))
    ensures TaskInv(task, n - 1, d, Some(Over))
  {
  }

  lemma OrphanKeepsFlight(s: Life, t: string, u: string)
    requires t in s.flights && s.flights[t].phase.Recorded?
    requires FlightOk(s, t) && FlightOk(s, u)
    ensures FlightOk(BreakOff(s, t), u)
  {
  }

  lemma OrphanKeepsInv(s: Life, t: string)
    requires Inv(s) && t in s.flights && s.flights[t].phase.Recorded?
    ensures Inv(BreakOff(s, t))
  {
    assert FlightOk(s, t);
    DeletesStay(s, BreakOff(s, t));
    forall u ensures TaskOk(BreakOff(s, t), u) && FlightOk(BreakOff(s, t), u) {
      assert TaskOk(s, u) && FlightOk(s, u);
      OrphanKeepsTask(s, t, u);
      OrphanKeepsFlight(s, t, u);
    }
  }

  /** What the outside world may do to a task: move its retry counter by no more than the drift grows, make it
      wait for a retry only while the counter is below the maximum, and never make it fresh again. */
  predicate KeepsBudget(task: Task, d: nat, task': Task, d': nat) {
    && task'.isRetry == task.isRetry
    && (!task.isRetry && task.retryCount == 0 ==> task'.retryCount == 0)
    && d <= d' && task.retryCount - (d' - d) <= task'.retryCount <= task.retryCount + (d' - d)
    && (|| (task'.status == task.status && task'.retryCount == task.retryCount)
        || !Runnable(task')
        || (task'.status == FailedWaitingRetry && task'.isRetry && task'.retryCount < MAX_RETRY_COUNT))
  }

  lemma BudgetKept(task: Task, task': Task, n: int, d: nat, d': nat, phase: Option<Phase>)
    requires TaskInv(task, n, d, phase) && KeepsBudget(task, d, task', d')
    ensures TaskInv(task', n, d', phase)
  {
  }

  /** A step outside the runs keeps the invariant when it keeps the budget of every task. */
  lemma WorldStepKeepsInv(s: Life, s': Life)
    requires Inv(s) && s'.flights == s.flights && s'.orphans == s.orphans && s'.deletes == s.deletes
    requires SameTaskIds(s.db.records, s'.db.records) && s'.db.tasks.Keys == s.db.tasks.Keys
    requires forall t :: t in s.db.tasks ==> KeepsBudget(s.db.tasks[t], DriftOf(s, t), s'.db.tasks[t], DriftOf(s', t))
    requires forall b :: b in s'.handlings && (b !in s.handlings || s'.handlings[b] != s.handlings[b]) ==>
      HandlingOk(s.db.records, s'.handlings[b]) && RetryOk(s.db.tasks, s'.handlings[b])
    ensures Inv(s')
  {
    HandlingsStay(s, s');
    RecordsStay(s, s');
    DeletesStay(s, s');
    forall t ensures TaskOk(s', t) && FlightOk(s', t) {
      SameRecordsOf(s.db.records, s'.db.records, t);
      assert TaskOk(s, t) && FlightOk(s, t);
      if t in s.db.tasks {
        BudgetKept(s.db.tasks[t], s'.db.tasks[t], Charged(s, t), DriftOf(s, t), DriftOf(s', t), PhaseOf(s, t));
      }
    }
  }

  lemma FoundRead(s: Life, h: Handling)
    requires h.Found? && HandlingOk(s.db.records, h) && forall t :: TaskOk(s, t)
    ensures var h' := Read(h.ids, h.found, ReadTasks(s.db, h.found)); HandlingOk(s.db.records, h') && RetryOk(s.db.tasks, h')
  {
    var tasks := ReadTasks(s.db, h.found);
    forall t | t in tasks
      ensures exists r :: r in h.found && h.found[r].taskId == Some(t)
      ensures !s.db.tasks[t].isRetry ==> s.db.tasks[t].retryCount == 0
    {
      var r :| r in h.found && h.found[r].taskId.Some? && h.found[r].taskId.value == t;
      assert TaskOk(s, t);
    }
  }

  lemma HandledKeepsInv(s: Life, b: nat, ms: nat)
    requires Inv(s) && b in s.handlings && s.handlings[b].Read?
    ensures Inv(SaveHandled(s, b, ms))
  {
    SaveKeepsBudgets(s, b, ms);
    WorldStepKeepsInv(s, SaveHandled(s, b, ms));
  }

  lemma HandlingKeepsInv(s: Life, e: Event)
    requires Inv(s) && HandlerEnabled(s, e)
    ensures Inv(Handle(s, e))
  {
    if e.SaveFailures? {
      HandledKeepsInv(s, e.b, e.ms);
    } else {
      if e.FindTasks? {
        assert HandlingOk(s.db.records, s.handlings[e.b]);
        FoundRead(s, s.handlings[e.b]);
      }
      WorldStepKeepsInv(s, Handle(s, e));
    }
  }

  lemma SaveKeepsBudgets(s: Life, b: nat, ms: nat)
    requires HandlingsOk(s) && b in s.handlings && s.handlings[b].Read?
    ensures var s' := SaveHandled(s, b, ms);
      forall t :: t in s.db.tasks ==> KeepsBudget(s.db.tasks[t], DriftOf(s, t), s'.db.tasks[t], DriftOf(s', t))
  {
    assert RetryOk(s.db.tasks, s.handlings[b]);
  }

  lemma CancelKeepsInv(s: Life, e: Event)
    requires Inv(s) && CancelEnabled(s, e)
    ensures Inv(Cancel(s, e))
  {
    WorldStepKeepsInv(s, Cancel(s, e));
  }

  lemma CreateKeepsTask(s: Life, t: string, task: Task, u: string)
    requires t !in s.db.tasks && task.status == Waiting && task.retryCount == 0 && RecordsOk(s)
    requires TaskOk(s, u) && FlightOk(s, u)
    ensures var s' := s.(db := SetTask(s.db, t, task)); TaskOk(s', u) && FlightOk(s', u)
  {
    var s' := s.(db := SetTask(s.db, t, task));
    assert Charged(s', u) == Charged(s, u);
    if u == t {
      assert RecordsOf(s.db.records, t) == {};
      assert RecordsOf(s.db.records, t) - s.orphans == {};
    }
  }

  lemma CreateKeepsInv(s: Life, t: string, task: Task)
    requires Inv(s) && t !in s.db.tasks && task.status == Waiting && task.retryCount == 0
    ensures Inv(s.(db := SetTask(s.db, t, task)))
  {
    var s' := s.(db := SetTask(s.db, t, task));
    HandlingsStay(s, s');
    RecordsStay(s, s');
    DeletesStay(s, s');
    forall u ensures TaskOk(s', u) && FlightOk(s', u) {
      assert TaskOk(s, u) && FlightOk(s, u);
      CreateKeepsTask(s, t, task, u);
    }
  }

  lemma StepKeepsInv(s: Life, e: Event)
    requires Inv(s)
    ensures Inv(Step(s, e))
  {
    if Enabled(s, e) {
      match e
      case Receive(t, deviceId) => ReceiptKeepsInv(s, t, deviceId);
      case Done(t) => DoneKeepsInv(s, t);
      case TakeLock(t, token, ms) => LockKeepsInv(s, t, token, ms);
      case LoadTask(t) => LoadKeepsInv(s, t);
      case Proceed(t, record, ms) =>
        if WaitExpired(s.flights[t].phase.snap, ms) {
          GiveUpKeepsInv(s, t);
        } else {
          RecordKeepsInv(s, t, record);
        }
      case SaveRunning(t) => SaveKeepsInv(s, t);
      case SendOk(t) => FinishKeepsInv(s, t);
      case SendFail(t, ms) => FailKeepsInv(s, t, ms);
      case Abort(t) => AbortKeepsInv(s, t);
      case ReportSuccesses(ids, ms) => SuccessKeepsInv(s, ids, ms);
      case Create(t, task) => CreateKeepsInv(s, t, task);
      case ReadToDelete(d, t) => ReadKeepsInv(s, d, t);
      case SaveDeleted(d) => DeleteKeepsInv(s, d);
      case _ =>
        if HandlerEnabled(s, e) {
          HandlingKeepsInv(s, e);
        } else {
          CancelKeepsInv(s, e);
        }
    }
  }

  lemma SuccessKeepsInv(s: Life, ids: set<string>, ms: nat)
    requires Inv(s)
    ensures Inv(s.(db := SucceedBatch(s.db, ids, ms)))
  {
    WorldStepKeepsInv(s, s.(db := SucceedBatch(s.db, ids, ms)));
  }

  lemma ReadDeleteOk(s: Life, t: string)
    requires t in s.db.tasks && TaskOk(s, t) && FlightOk(s, t)
    ensures DeleteOk(s, Deleting(t, s.db.tasks[t], RunsOf(s, t)))
  {
  }

  /** Only what is pending of deletions changes. */
  lemma DeletesKeepInv(s: Life, s': Life)
    requires Inv(s) && s' == s.(deletes := s'.deletes)
    requires forall d :: d in s'.deletes && (d !in s.deletes || s'.deletes[d] != s.deletes[d]) ==> DeleteOk(s, s'.deletes[d])
    ensures Inv(s')
  {
    HandlingsStay(s, s');
    RecordsStay(s, s');
    forall d | d in s'.deletes ensures DeleteOk(s', s'.deletes[d]) {
      assert DeleteOk(s, s'.deletes[d]);
    }
    forall u ensures TaskOk(s', u) && FlightOk(s', u) {
      assert TaskOk(s, u) && FlightOk(s, u);
    }
  }

  lemma ReadKeepsInv(s: Life, d: nat, t: string)
    requires Inv(s) && t in s.db.tasks
    ensures Inv(s.(deletes := s.deletes[d := Deleting(t, s.db.tasks[t], RunsOf(s, t))]))
  {
    assert TaskOk(s, t) && FlightOk(s, t);
    ReadDeleteOk(s, t);
    DeletesKeepInv(s, s.(deletes := s.deletes[d := Deleting(t, s.db.tasks[t], RunsOf(s, t))]));
  }

  /** A deletion restores a copy that was within the budget after fewer runs. */
  lemma DeletedInv(task: Task, snap: Task, n: int, d: nat, runs: nat, c: nat, phase: Option<Phase>)
    requires TaskInv(task, n, d, phase) && Budget(snap, runs, d) && snap.isRetry == task.isRetry
    requires (if phase.Some? && phase.value.Recorded? then n - 1 else n) <= runs + c
    requires Distance(task.retryCount, snap.retryCount) <= c
    ensures TaskInv(snap.(isDeleted := true), n, d + c, phase)
  {
  }

  lemma DeleteKeepsTask(s: Life, d: nat, u: string)
    requires d in s.deletes && DeleteOk(s, s.deletes[d]) && FlightOk(s, s.deletes[d].t) && TaskOk(s, u)
    ensures TaskOk(DeleteSaved(s, d), u)
  {
    var s', del := DeleteSaved(s, d), s.deletes[d];
    assert Charged(s', u) == Charged(s, u) && PhaseOf(s', u) == PhaseOf(s, u);
    if u == del.t {
      var c := SetBack(s, del);
      assert DriftOf(s', u) == DriftOf(s, u) + c;
      DeletedInv(s.db.tasks[u], del.snap, Charged(s, u), DriftOf(s, u), del.runs, c, PhaseOf(s, u));
    } else {
      assert DriftOf(s', u) == DriftOf(s, u);
    }
  }

  lemma DeleteKeepsInv(s: Life, d: nat)
    requires Inv(s) && d in s.deletes
    ensures Inv(DeleteSaved(s, d))
  {
    var s' := DeleteSaved(s, d);
    assert DeleteOk(s, s.deletes[d]) && FlightOk(s, s.deletes[d].t);
    HandlingsStay(s, s');
    RecordsStay(s, s');
    DeletesStay(s, s');
    forall u ensures TaskOk(s', u) && FlightOk(s', u) {
      assert TaskOk(s, u) && FlightOk(s, u);
      DeleteKeepsTask(s, d, u);
    }
  }

  lemma {:induction false} RunKeepsInv(start: Life, events: seq<Event>)
    requires Inv(start)
    ensures Inv(Run(start, events))
  {
    if events != [] {
      RunKeepsInv(start, events[..|events| - 1]);
      StepKeepsInv(Run(start, events[..|events| - 1]), events[|events| - 1]);
    }
  }

  const EMPTY := Life(Db(map[], map[], [], map[]), map[], map[], map[], map[], {}, map[])

  /** Retry budget over every run from an empty system: however sends, reports (late or repeated),
      timeouts, cancellations, deletions and breakdowns interleave, a task has at most four charged records, and
      one more for every step by which outdated write-backs set it back; without retries one instead of four. */
  lemma {:induction false} RetryBudget(events: seq<Event>, t: string)
    requires t in Run(EMPTY, events).db.tasks
    ensures var s := Run(EMPTY, events);
      && Charged(s, t) <= MAX_RETRY_COUNT + 1 + DriftOf(s, t)
      && s.db.tasks[t].retryCount <= MAX_RETRY_COUNT + 1 + DriftOf(s, t)
      && (s.db.tasks[t].status == FailedWaitingRetry ==> s.db.tasks[t].retryCount <= MAX_RETRY_COUNT + DriftOf(s, t))
      && (!s.db.tasks[t].isRetry ==> Charged(s, t) <= 1 + DriftOf(s, t))
  {
    RunKeepsInv(EMPTY, events);
    var s := Run(EMPTY, events);
    assert TaskOk(s, t);
    BudgetOfInv(s.db.tasks[t], Charged(s, t), DriftOf(s, t), PhaseOf(s, t));
  }

  lemma BudgetOfInv(task: Task, n: int, d: nat, phase: Option<Phase>)
    requires TaskInv(task, n, d, phase)
    ensures n <= MAX_RETRY_COUNT + 1 + d && task.retryCount <= MAX_RETRY_COUNT + 1 + d
    ensures task.status == FailedWaitingRetry ==> task.retryCount <= MAX_RETRY_COUNT + d
    ensures !task.isRetry ==> n <= 1 + d
  {
  }

  /** The account of the records themselves: at most four, one more for every run of the task that broke off
      between its record and its task, and one for every step of its drift. */
  lemma {:induction false} RecordBudget(events: seq<Event>, t: string)
    requires t in Run(EMPTY, events).db.tasks
    ensures var s := Run(EMPTY, events);
      && |RecordsOf(s.db.records, t)| == Charged(s, t) + |RecordsOf(s.db.records, t) * s.orphans|
      && |RecordsOf(s.db.records, t)|
         <= MAX_RETRY_COUNT + 1 + |RecordsOf(s.db.records, t) * s.orphans| + DriftOf(s, t)
  {
    RetryBudget(events, t);
    RecordsSplit(Run(EMPTY, events), t);
  }

  lemma RecordsSplit(s: Life, t: string)
    ensures |RecordsOf(s.db.records, t)| == Charged(s, t) + |RecordsOf(s.db.records, t) * s.orphans|
  {
    var all := RecordsOf(s.db.records, t);
    assert all == (all - s.orphans) + (all * s.orphans);
  }

  // ----- when nothing drifts

  /** The event writes no outdated copy back over the task. */
  predicate UpToDate(s: Life, e: Event, t: string) {
    match e
    case SaveFailures(b, _) =>
      b in s.handlings && s.handlings[b].Read? && t in s.handlings[b].tasks && t in s.db.tasks ==>
        Moved(s.db.tasks[t], s.handlings[b].tasks[t]) == 0
    case SaveDeleted(d) => d in s.deletes && s.deletes[d].t == t ==> SetBack(s, s.deletes[d]) == 0
    case _ => true
  }

  lemma DriftGrowsExactly(s: Life, e: Event, t: string)
    requires t in s.db.tasks
    ensures DriftOf(s, t) <= DriftOf(Step(s, e), t)
    ensures DriftOf(Step(s, e), t) == DriftOf(s, t) <==> UpToDate(s, e, t)
  {
    if Enabled(s, e) && OfTask(e) {
      OfTaskKeepsDrift(s, e);
    }
  }

  lemma OfTaskKeepsDrift(s: Life, e: Event)
    requires Enabled(s, e) && OfTask(e)
    ensures Apply(s, e).drift == s.drift
  {
  }

  /** A handler that saves right after its read, and a deletion that does, are up to date. */
  lemma ReadThenSave(s: Life, b: nat, ms: nat, t: string)
    ensures Enabled(s, FindTasks(b)) ==> UpToDate(Step(s, FindTasks(b)), SaveFailures(b, ms), t)
    ensures Enabled(s, ReadToDelete(b, t)) ==> UpToDate(Step(s, ReadToDelete(b, t)), SaveDeleted(b), t)
  {
  }

  lemma {:induction false} NoDrift(events: seq<Event>, t: string)
    requires forall k :: 0 <= k < |events| ==> UpToDate(Run(EMPTY, events[..k]), events[k], t)
    ensures DriftOf(Run(EMPTY, events), t) == 0
  {
    if events != [] {
      var n := |events| - 1;
      var init := events[..n];
      forall k | 0 <= k < n ensures UpToDate(Run(EMPTY, init[..k]), init[k], t) {
        assert init[..k] == events[..k];
      }
      NoDrift(init, t);
      RunKeepsInv(EMPTY, init);
      var s := Run(EMPTY, init);
      if t in s.db.tasks {
        DriftGrowsExactly(s, events[n], t);
      } else {
        UnknownKeepsDrift(s, events[n], t);
      }
    }
  }

  lemma UnknownKeepsDrift(s: Life, e: Event, t: string)
    requires t !in s.db.tasks && DriftOf(s, t) == 0 && DeletesOk(s)
    ensures DriftOf(Step(s, e), t) == 0
  {
    if Enabled(s, e) && OfTask(e) {
      OfTaskKeepsDrift(s, e);
    } else if e.SaveDeleted? && e.d in s.deletes {
      assert DeleteOk(s, s.deletes[e.d]);
    }
  }

  /** So the plain bounds hold for a task over whose count no outdated copy is ever written back. */
  lemma {:induction false} PlainBudget(events: seq<Event>, t: string)
    requires t in Run(EMPTY, events).db.tasks
    requires forall k :: 0 <= k < |events| ==> UpToDate(Run(EMPTY, events[..k]), events[k], t)
    ensures var s := Run(EMPTY, events);
      && Charged(s, t) <= MAX_RETRY_COUNT + 1
      && s.db.tasks[t].retryCount <= MAX_RETRY_COUNT + 1
      && (s.db.tasks[t].status == FailedWaitingRetry ==> s.db.tasks[t].retryCount <= MAX_RETRY_COUNT)
      && (!s.db.tasks[t].isRetry ==> Charged(s, t) <= 1)
  {
    NoDrift(events, t);
    RetryBudget(events, t);
  }

  // ----- canceling before the first execution

  ghost predicate CanceledForGood(s: Life, t: string) {
    forall events :: var s' := Run(s, events);
      t in s'.db.tasks && s'.db.tasks[t].status == Canceled && RecordsOf(s'.db.records, t) == {}
  }

  /** No run holds a copy of the task. */
  predicate NoCopy(s: Life, t: string) {
    t in s.flights ==> !HasCopy(s.flights[t].phase)
  }

  /** Pending deletions hold copies of this status only. */
  predicate DeletesHold(s: Life, t: string, status: TaskStatus) {
    forall d :: d in s.deletes && s.deletes[d].t == t ==> s.deletes[d].snap.status == status
  }

  /** Canceled, and nobody holds a copy taken before. */
  predicate CanceledUnstarted(s: Life, t: string) {
    && t in s.db.tasks && s.db.tasks[t].status == Canceled && RecordsOf(s.db.records, t) == {}
    && NoCopy(s, t) && DeletesHold(s, t, Canceled)
  }

  lemma BatchSkipsUnstarted(db: Db, ids: set<string>, ms: nat, t: string)
    requires t in db.tasks && RecordsOf(db.records, t) == {}
    ensures SucceedBatch(db, ids, ms).tasks[t] == db.tasks[t]
    ensures RecordsOf(SucceedBatch(db, ids, ms).records, t) == {}
  {
    assert forall r :: r in db.records && db.records[r].taskId == Some(t) ==> r in RecordsOf(db.records, t);
    assert t !in TasksOf(db, ids);
    SameRecordsOf(db.records, SucceedBatch(db, ids, ms).records, t);
  }

  lemma HandlerSkipsUnstarted(s: Life, b: nat, ms: nat, t: string)
    requires HandlingsOk(s) && b in s.handlings && s.handlings[b].Read?
    requires t in s.db.tasks && RecordsOf(s.db.records, t) == {}
    ensures SaveHandled(s, b, ms).db.tasks[t] == s.db.tasks[t]
    ensures RecordsOf(SaveHandled(s, b, ms).db.records, t) == {}
  {
    var h := s.handlings[b];
    ReadHasRecord(s.db.records, h, t);
    SameRecordsOf(s.db.records, FailRecords(s.db.records, h.ids, ms), t);
  }

  lemma ReadHasRecord(records: map<string, ExecRecord>, h: Handling, t: string)
    requires HandlingOk(records, h) && h.Read?
    ensures t in h.tasks ==> RecordsOf(records, t) != {}
  {
    if t in h.tasks {
      var r :| r in h.found && h.found[r].taskId == Some(t);
      assert r in RecordsOf(records, t);
    }
  }

  lemma HandlerKeepsCanceled(s: Life, e: Event, t: string)
    requires CanceledUnstarted(s, t) && HandlingsOk(s) && HandlerEnabled(s, e)
    ensures CanceledUnstarted(Handle(s, e), t)
  {
    if e.SaveFailures? {
      HandlerSkipsUnstarted(s, e.b, e.ms, t);
    }
  }

  lemma CancelKeepsCanceled(s: Life, e: Event, t: string)
    requires CanceledUnstarted(s, t) && CancelEnabled(s, e)
    ensures CanceledUnstarted(Cancel(s, e), t)
  {
    if e.StopRecord? {
      SameRecordsOf(s.db.records, CancelRecord(s.db, s.cancels[e.c].record).records, t);
    }
  }

  lemma RecordKeepsCanceled(s: Life, u: string, record: string, t: string)
    requires CanceledUnstarted(s, t) && u in s.flights && s.flights[u].phase.Loaded?
    ensures CanceledUnstarted(AddRecord(s, u, record), t)
  {
    assert forall q :: q in RecordsOf(AddRecord(s, u, record).db.records, t) ==> q in RecordsOf(s.db.records, t);
  }

  lemma FailKeepsCanceled(s: Life, u: string, ms: nat, t: string)
    requires CanceledUnstarted(s, t) && u in s.flights && s.flights[u].phase.Sending? && u in s.db.tasks
    ensures CanceledUnstarted(FailSend(s, u, ms), t)
  {
    SameRecordsOf(s.db.records, FailOneRecord(s.db.records, s.flights[u].phase.record, ms), t);
  }

  lemma StepKeepsCanceled(s: Life, e: Event, t: string)
    requires CanceledUnstarted(s, t) && HandlingsOk(s)
    ensures CanceledUnstarted(Step(s, e), t)
  {
    if Enabled(s, e) {
      if OfTask(e) {
        RunStepKeepsCanceled(s, e, t);
      } else if e.ReportSuccesses? {
        BatchSkipsUnstarted(s.db, e.ids, e.ms, t);
      } else if HandlerEnabled(s, e) {
        HandlerKeepsCanceled(s, e, t);
      } else if CancelEnabled(s, e) {
        CancelKeepsCanceled(s, e, t);
      } else {
        DeleteKeepsCanceled(s, e, t);
      }
    }
  }

  lemma DeleteKeepsCanceled(s: Life, e: Event, t: string)
    requires CanceledUnstarted(s, t) && DeleteEnabled(s, e)
    ensures CanceledUnstarted(Delete(s, e), t)
  {
  }

  /** A step of a run, of its message or of the creation of one task. */
  predicate OfTask(e: Event) {
    || e.Receive? || e.TakeLock? || e.LoadTask? || e.Proceed? || e.SaveRunning?
    || e.SendOk? || e.SendFail? || e.Abort? || e.Done? || e.Create?
  }

  lemma RunStepKeepsCanceled(s: Life, e: Event, t: string)
    requires CanceledUnstarted(s, t) && Enabled(s, e) && OfTask(e)
    ensures CanceledUnstarted(Apply(s, e), t)
  {
    if e.SendFail? {
      FailKeepsCanceled(s, e.t, e.ms, t);
    } else if e.Proceed? {
      RecordKeepsCanceled(s, e.t, e.record, t);
    } else if e.t == t {
      OwnStepKeepsCanceled(s, e);
    } else {
      OtherStepKeepsCanceled(s, e, t);
    }
  }

  lemma OtherStepKeepsCanceled(s: Life, e: Event, t: string)
    requires Enabled(s, e) && OfTask(e) && CanceledUnstarted(s, t) && e.t != t && !e.SendFail? && !e.Proceed?
    ensures CanceledUnstarted(Apply(s, e), t)
  {
    OtherStepLeaves(s, e, t);
  }

  lemma OtherStepLeaves(s: Life, e: Event, t: string)
    requires Enabled(s, e) && OfTask(e) && t in s.db.tasks && e.t != t && !e.SendFail? && !e.Proceed?
    ensures var s' := Apply(s, e);
      && t in s'.db.tasks && s'.db.tasks[t] == s.db.tasks[t] && PhaseOf(s', t) == PhaseOf(s, t)
      && s'.db.records == s.db.records && s'.deletes == s.deletes && s'.handlings == s.handlings
  {
    match e
    case TakeLock(u, token, ms) => assert Apply(s, e) == LockDevice(s, u, token, ms);
    case LoadTask(u) => assert Apply(s, e) == Load(s, u);
    case SaveRunning(u) => assert Apply(s, e) == Start(s, u);
    case SendOk(u) => assert Apply(s, e) == FinishSend(s, u);
    case Abort(u) => assert Apply(s, e) == BreakOff(s, u);
    case _ =>
  }

  lemma OwnStepKeepsCanceled(s: Life, e: Event)
    requires Enabled(s, e) && OfTask(e) && CanceledUnstarted(s, e.t)
    ensures CanceledUnstarted(Apply(s, e), e.t)
  {
  }

  lemma {:induction false} RunKeepsCanceled(s: Life, events: seq<Event>, t: string)
    requires CanceledUnstarted(s, t) && Inv(s)
    ensures CanceledUnstarted(Run(s, events), t)
  {
    if events != [] {
      RunKeepsCanceled(s, events[..|events| - 1], t);
      RunKeepsInv(s, events[..|events| - 1]);
      StepKeepsCanceled(Run(s, events[..|events| - 1]), events[|events| - 1], t);
    }
  }

  /** A task canceled before its first record stays canceled and unexecuted, however often it is queued
      and handed out again, exactly when no run has loaded it by then and no pending deletion read it before
      it was canceled. */
  lemma CanceledBeforeFirstRun(s: Life, t: string, newId: string)
    requires Inv(s) && t in s.db.tasks && s.db.tasks[t].status == Canceled && RecordsOf(s.db.records, t) == {}
    requires newId !in s.db.records && newId != ""
    ensures CanceledForGood(s, t) <==>
      !(t in s.flights && s.flights[t].phase.Loaded?) && DeletesHold(s, t, Canceled)
  {
    if t in s.flights && s.flights[t].phase.Loaded? {
      RunOne(s, Proceed(t, newId, 0));
      LoadedGoesOn(s, t, newId);
    } else if d :| d in s.deletes && s.deletes[d].t == t && s.deletes[d].snap.status != Canceled {
      RunOne(s, SaveDeleted(d));
      DeletionGoesOn(s, d);
    } else {
      UnloadedHasNoCopy(s, t);
      forall events ensures CanceledUnstarted(Run(s, events), t) {
        RunKeepsCanceled(s, events, t);
      }
    }
  }

  lemma UnloadedHasNoCopy(s: Life, t: string)
    requires Inv(s) && RecordsOf(s.db.records, t) == {} && !(t in s.flights && s.flights[t].phase.Loaded?)
    ensures NoCopy(s, t)
  {
    assert FlightOk(s, t);
  }

  lemma DeletionGoesOn(s: Life, d: nat)
    requires d in s.deletes
    ensures var t, tasks := s.deletes[d].t, Step(s, SaveDeleted(d)).db.tasks;
      t in tasks && tasks[t] == s.deletes[d].snap.(isDeleted := true)
  {
    assert Step(s, SaveDeleted(d)) == DeleteSaved(s, d);
  }

  /** A run that has loaded the task makes a record or gives the task up. */
  lemma LoadedGoesOn(s: Life, t: string, newId: string)
    requires t in s.flights && s.flights[t].phase.Loaded? && newId !in s.db.records && newId != ""
    ensures newId in RecordsOf(Step(s, Proceed(t, newId, 0)).db.records, t)
  {
  }

  lemma RunOne(s: Life, e: Event)
    ensures Run(s, [e]) == Step(s, e)
  {
    assert [e][..0] == [];
  }
}
