/** The master scheduler as a state machine: src/modules/send-script-main/send-script-master.service.ts.
    One event is one turn of the event loop, from one await to the next. */
module MasterModel {
  import opened Wrappers
  import opened WorkerSelection

  const MAX_WAITS := 10

  datatype Item = Item(taskId: string, deviceId: string)

  datatype Assignment = Assignment(worker: nat, item: Item)

  /** sleeping: the item whose dispatch waits for a ready worker, and how often it has waited before.
      The last four fields record the past: items assigned without Done, items that can never leave the
      sets (undeliverable, or done under a blank id), items admitted and items handled. */
  datatype Master = Master(
    workers: seq<Worker>,
    freshSet: set<string>,
    freshQueue: seq<Item>,
    waitQueue: seq<Item>,
    processingSet: set<string>,
    processing: bool,
    sleeping: Option<(Item, nat)>,
    out: seq<Assignment>,
    lost: seq<Item>,
    admitted: seq<Item>,
    handled: seq<Item>)

  function Initial(workerNumber: nat): Master {
    Master(seq(workerNumber, i => Worker(false, 0, map[])), {}, [], [], {}, false, None, [], [], [], [])
  }

  function Ready(m: Master): seq<nat> {
    ReadyAmong(m.workers, |m.workers|)
  }

  function Loaded(w: Worker, d: string): Worker {
    w.(taskCount := w.taskCount + 1,
       deviceTasks := if d != "" then w.deviceTasks[d := DeviceCount(w, d) + 1] else w.deviceTasks)
  }

  function Assign(m: Master, i: nat, item: Item): Master
    requires i < |m.workers|
  {
    m.(workers := m.workers[i := Loaded(m.workers[i], item.deviceId)],
       sleeping := None,
       out := m.out + [Assignment(i, item)],
       handled := m.handled + [item])
  }

  /** dispatchToWorker up to its next await. */
  function Dispatch(m: Master, item: Item, waited: nat): Master {
    if waited > MAX_WAITS then
      m.(sleeping := None, lost := m.lost + [item], handled := m.handled + [item])
    else if Ready(m) == [] then
      m.(sleeping := Some((item, waited)))
    else
      ReadyAmongIs(m.workers, |m.workers|);
      MemberInRange(m.workers, Ready(m), item.deviceId);
      Assign(m, SelectWorker(m.workers, Ready(m), item.deviceId), item)
  }

  lemma MemberInRange(ws: seq<Worker>, ready: seq<nat>, d: string)
    requires ready != [] && Indices(ws, ready)
    ensures SelectWorker(ws, ready, d) < |ws|
  {
  }

  /** The loop from its test of the queue to the next await. */
  function RunLoop(m: Master): Master {
    if m.waitQueue == [] then m.(processing := false, sleeping := None)
    else
      var item := m.waitQueue[0];
      var taken := m.(waitQueue := m.waitQueue[1..], sleeping := None);
      if item.taskId in m.processingSet then taken.(handled := m.handled + [item])
      else Dispatch(taken.(processingSet := m.processingSet + {item.taskId}), item, 0)
  }

  function HandleLoop(m: Master): Master {
    if m.processing then m else RunLoop(m.(processing := true))
  }

  /** The loop goes on after an await: a sleeping dispatch tries again, else the next item is taken. */
  function Resume(m: Master): Master {
    match m.sleeping
    case Some((item, waited)) => Dispatch(m, item, waited + 1)
    case None => RunLoop(m)
  }

  function CheckTask(m: Master): Master {
    if m.freshQueue == [] then m
    else HandleLoop(m.(freshQueue := [], waitQueue := m.waitQueue + m.freshQueue))
  }

  function Admit(m: Master, item: Item): Master {
    if item.taskId in m.freshSet then m
    else
      m.(freshQueue := m.freshQueue + [item],
         freshSet := m.freshSet + {item.taskId},
         admitted := m.admitted + [item])
  }

  /** One task less for the worker; a device entry that reaches zero disappears. */
  function Unloaded(w: Worker, d: string): Worker {
    var current := DeviceCount(w, d);
    var lowered := if d != "" && current > 0 then w.deviceTasks[d := current - 1] else w.deviceTasks;
    w.(taskCount := w.taskCount - 1,
       deviceTasks := if d != "" && d in lowered && lowered[d] == 0 then lowered - {d} else lowered)
  }

  /** What the handler of a worker's Done does; result: the id and device id, if the data parses. */
  function Reported(m: Master, i: nat, result: Option<(string, string)>): Master
    requires i < |m.workers|
  {
    match result
    case None => m.(workers := m.workers[i := m.workers[i].(taskCount := m.workers[i].taskCount - 1)])
    case Some((id, d)) =>
      m.(workers := m.workers[i := Unloaded(m.workers[i], d)],
         processingSet := if id != "" then m.processingSet - {id} else m.processingSet,
         freshSet := if id != "" then m.freshSet - {id} else m.freshSet)
  }

  /** The k-th outstanding assignment is settled; a blank id stays in both sets for good. */
  function Settled(m: Master, k: nat): Master
    requires k < |m.out|
  {
    var item := m.out[k].item;
    m.(out := m.out[..k] + m.out[k + 1..], lost := if item.taskId != "" then m.lost else m.lost + [item])
  }

  /** The k-th outstanding assignment is reported done by its worker. */
  function TaskDone(m: Master, k: nat): Master
    requires k < |m.out| && m.out[k].worker < |m.workers|
  {
    var Assignment(i, item) := m.out[k];
    Settled(Reported(m, i, Some((item.taskId, item.deviceId))), k)
  }

  function Online(m: Master, i: nat): Master
    requires i < |m.workers|
  {
    m.(workers := m.workers[i := m.workers[i].(ready := true)])
  }

  /** A worker process died: the handler gets an event object where it expects the id, so it finds no
      worker to remove and only appends a new one. */
  function WorkerExit(m: Master): Master {
    m.(workers := m.workers + [Worker(false, 0, map[])])
  }

  datatype Event =
    | Arrive(item: Item)
    | Check
    | LoopTurn
    | WorkerOnline(i: nat)
    | Exit
    | Done(k: nat)

  predicate Enabled(m: Master, e: Event) {
    match e
    case LoopTurn => m.processing
    case WorkerOnline(i) => i < |m.workers|
    case Done(k) => k < |m.out| && m.out[k].worker < |m.workers|
    case _ => true
  }

  function Step(m: Master, e: Event): Master {
    if !Enabled(m, e) then m
    else
      match e
      case Arrive(item) => Admit(m, item)
      case Check => CheckTask(m)
      case LoopTurn => Resume(m)
      case WorkerOnline(i) => Online(m, i)
      case Exit => WorkerExit(m)
      case Done(k) => TaskDone(m, k)
  }

  function Run(start: Master, events: seq<Event>): Master {
    if events == [] then start
    else Step(Run(start, events[..|events| - 1]), events[|events| - 1])
  }

  // ----- where every id is

  function Ids(items: seq<Item>): multiset<string> {
    if items == [] then multiset{} else Ids(items[..|items| - 1]) + multiset{items[|items| - 1].taskId}
  }

  function OutIds(out: seq<Assignment>): multiset<string> {
    if out == [] then multiset{} else OutIds(out[..|out| - 1]) + multiset{out[|out| - 1].item.taskId}
  }

  function SleepingItems(m: Master): seq<Item> {
    if m.sleeping.Some? then [m.sleeping.value.0] else []
  }

  /** Single flight: the dedupe set is the disjoint union of the ids that are fresh, queued, being
      dispatched, assigned without Done and lost; the processing set is the last three parts. */
  predicate Placed(m: Master) {
    && multiset(m.processingSet) == Ids(SleepingItems(m)) + OutIds(m.out) + Ids(m.lost)
    && multiset(m.freshSet) == Ids(m.freshQueue) + Ids(m.waitQueue) + multiset(m.processingSet)
  }

  /** Admission order is handling order. */
  predicate InOrder(m: Master) {
    m.admitted == m.handled + SleepingItems(m) + m.waitQueue + m.freshQueue
  }

  /** No lost wake-up. */
  predicate Awake(m: Master) {
    && (m.waitQueue != [] ==> m.processing)
    && (m.sleeping.Some? ==> m.processing && m.sleeping.value.1 <= MAX_WAITS)
  }

  // ----- the ledger of assigned tasks

  predicate Matches(a: Assignment, worker: Option<nat>, device: Option<string>) {
    && (worker.Some? ==> a.worker == worker.value)
    && (device.Some? ==> a.item.deviceId == device.value)
  }

  /** How many outstanding assignments are of the given worker and the given device. */
  function Count(out: seq<Assignment>, worker: Option<nat>, device: Option<string>): nat {
    if out == [] then 0
    else Count(out[..|out| - 1], worker, device) + (if Matches(out[|out| - 1], worker, device) then 1 else 0)
  }

  /** The counters of the i-th worker tell its outstanding assignments; no entry is zero. */
  ghost predicate LedgerAt(w: Worker, out: seq<Assignment>, i: nat) {
    && w.taskCount == Count(out, Some(i), None)
    && (forall d :: DeviceCount(w, d) == if d == "" then 0 else Count(out, Some(i), Some(d)))
    && (forall d :: d in w.deviceTasks ==> w.deviceTasks[d] > 0)
  }

  ghost predicate Ledger(workers: seq<Worker>, out: seq<Assignment>) {
    && (forall i :: 0 <= i < |workers| ==> LedgerAt(workers[i], out, i))
    && (forall k :: 0 <= k < |out| ==> out[k].worker < |workers| && workers[out[k].worker].ready)
  }

  ghost predicate Inv(m: Master) {
    Placed(m) && InOrder(m) && Awake(m) && Ledger(m.workers, m.out)
  }
}
