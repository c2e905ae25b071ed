/** What every reachable state of the master keeps: single flight, admission order, no lost wake-up and
    an accurate ledger. */
module MasterInvariant {
  import opened Wrappers
  import opened WorkerSelection
  import opened MasterModel

  lemma {:induction false} IdsConcat(a: seq<Item>, b: seq<Item>)
    ensures Ids(a + b) == Ids(a) + Ids(b)
  {
    if b == [] {
      assert a + b == a;
    } else {
      assert (a + b)[..|a + b| - 1] == a + b[..|b| - 1];
      IdsConcat(a, b[..|b| - 1]);
    }
  }

  lemma IdsOfOne(item: Item)
    ensures Ids([item]) == multiset{item.taskId}
  {
    assert [item][..0] == [];
  }

  lemma {:induction false} OutIdsConcat(a: seq<Assignment>, b: seq<Assignment>)
    ensures OutIds(a + b) == OutIds(a) + OutIds(b)
  {
    if b == [] {
      assert a + b == a;
    } else {
      assert (a + b)[..|a + b| - 1] == a + b[..|b| - 1];
      OutIdsConcat(a, b[..|b| - 1]);
    }
  }

  lemma {:induction false} CountConcat(a: seq<Assignment>, b: seq<Assignment>, w: Option<nat>, d: Option<string>)
    ensures Count(a + b, w, d) == Count(a, w, d) + Count(b, w, d)
  {
    if b == [] {
      assert a + b == a;
    } else {
      assert (a + b)[..|a + b| - 1] == a + b[..|b| - 1];
      CountConcat(a, b[..|b| - 1], w, d);
    }
  }

  lemma CountAppend(out: seq<Assignment>, a: Assignment, w: Option<nat>, d: Option<string>)
    ensures Count(out + [a], w, d) == Count(out, w, d) + (if Matches(a, w, d) then 1 else 0)
  {
    assert (out + [a])[..|out|] == out;
  }

  lemma OutRemoved(out: seq<Assignment>, k: nat, w: Option<nat>, d: Option<string>)
    requires k < |out|
    ensures Count(out[..k] + out[k + 1..], w, d) == Count(out, w, d) - (if Matches(out[k], w, d) then 1 else 0)
    ensures OutIds(out) == OutIds(out[..k] + out[k + 1..]) + multiset{out[k].item.taskId}
  {
    var a, b := out[..k], out[k + 1..];
    assert out == (a + [out[k]]) + b;
    CountConcat(a + [out[k]], b, w, d);
    CountAppend(a, out[k], w, d);
    CountConcat(a, b, w, d);
    OutIdsConcat(a + [out[k]], b);
    OutIdsConcat(a, [out[k]]);
    assert [out[k]][..0] == [];
    OutIdsConcat(a, b);
  }

  lemma FirstOff(queue: seq<Item>)
    requires queue != []
    ensures Ids(queue) == multiset{queue[0].taskId} + Ids(queue[1..])
  {
    assert queue == [queue[0]] + queue[1..];
    IdsConcat([queue[0]], queue[1..]);
    IdsOfOne(queue[0]);
  }

  /** An item taken from the queue but not yet assigned, lost or put to sleep. */
  ghost predicate InHand(m: Master, item: Item) {
    && multiset(m.processingSet) == multiset{item.taskId} + OutIds(m.out) + Ids(m.lost)
    && multiset(m.freshSet) == Ids(m.freshQueue) + Ids(m.waitQueue) + multiset(m.processingSet)
    && m.admitted == m.handled + [item] + m.waitQueue + m.freshQueue
    && m.processing && Ledger(m.workers, m.out)
  }

  lemma LedgerAfterAssign(m: Master, i: nat, item: Item)
    requires Ledger(m.workers, m.out) && i < |m.workers| && m.workers[i].ready
    ensures Ledger(Assign(m, i, item).workers, Assign(m, i, item).out)
  {
    var m' := Assign(m, i, item);
    forall j | 0 <= j < |m'.workers| ensures LedgerAt(m'.workers[j], m'.out, j) {
      LedgerAfterAppend(m.workers[j], m.out, j, Assignment(i, item));
    }
  }

  lemma LedgerAfterAppend(w: Worker, out: seq<Assignment>, j: nat, a: Assignment)
    requires LedgerAt(w, out, j)
    ensures LedgerAt(if j == a.worker then Loaded(w, a.item.deviceId) else w, out + [a], j)
  {
    var w' := if j == a.worker then Loaded(w, a.item.deviceId) else w;
    CountAppend(out, a, Some(j), None);
    forall d ensures DeviceCount(w', d) == if d == "" then 0 else Count(out + [a], Some(j), Some(d)) {
      CountAppend(out, a, Some(j), Some(d));
      assert DeviceCount(w, d) == if d == "" then 0 else Count(out, Some(j), Some(d));
    }
  }

  lemma LoseKeepsInv(m: Master, item: Item, m': Master)
    requires InHand(m, item)
    requires m' == m.(sleeping := None, lost := m.lost + [item], handled := m.handled + [item])
    ensures Inv(m')
  {
    IdsOfOne(item);
    IdsConcat(m.lost, [item]);
    assert SleepingItems(m') == [];
    assert Ids(SleepingItems(m')) == multiset{};
  }

  lemma SleepKeepsInv(m: Master, item: Item, waited: nat, m': Master)
    requires InHand(m, item) && waited <= MAX_WAITS
    requires m' == m.(sleeping := Some((item, waited)))
    ensures Inv(m')
  {
    IdsOfOne(item);
    assert SleepingItems(m') == [item];
  }

  lemma AssignKeepsInv(m: Master, item: Item, i: nat)
    requires InHand(m, item) && i < |m.workers| && m.workers[i].ready
    ensures Inv(Assign(m, i, item))
  {
    var m' := Assign(m, i, item);
    LedgerAfterAssign(m, i, item);
    OutIdsConcat(m.out, [Assignment(i, item)]);
    assert [Assignment(i, item)][..0] == [];
    assert SleepingItems(m') == [];
    assert Ids(SleepingItems(m')) == multiset{};
  }

  lemma DispatchKeepsInv(m: Master, item: Item, waited: nat)
    requires InHand(m, item) && waited <= MAX_WAITS + 1
    ensures Inv(Dispatch(m, item, waited))
  {
    if waited > MAX_WAITS {
      LoseKeepsInv(m, item, Dispatch(m, item, waited));
    } else if Ready(m) == [] {
      SleepKeepsInv(m, item, waited, Dispatch(m, item, waited));
    } else {
      ReadyAmongIs(m.workers, |m.workers|);
      SelectedIsListed(m.workers, Ready(m), item.deviceId);
      AssignKeepsInv(m, item, SelectWorker(m.workers, Ready(m), item.deviceId));
    }
  }

  lemma SelectedIsListed(ws: seq<Worker>, ready: seq<nat>, d: string)
    requires ready != [] && Indices(ws, ready)
    ensures SelectWorker(ws, ready, d) in ready
  {
    if d != "" && WithoutDevice(ws, ready, d) == [] {
      SortHeadIsFirstBest(ws, d, ready);
    }
  }

  /** What the loop takes from the queue is not being processed yet: the branch for an id that already
      is stays unreachable. */
  lemma TakeFirst(m: Master)
    requires Placed(m) && m.waitQueue != []
    ensures m.waitQueue[0].taskId !in m.processingSet
  {
    FirstOff(m.waitQueue);
    assert multiset(m.freshSet)[m.waitQueue[0].taskId] <= 1;
  }

  lemma TakenPlaced(m: Master, processing: set<string>)
    requires Placed(m) && m.sleeping.None? && m.waitQueue != []
    requires processing == m.processingSet + {m.waitQueue[0].taskId}
    ensures multiset(processing) == multiset{m.waitQueue[0].taskId} + OutIds(m.out) + Ids(m.lost)
    ensures multiset(m.freshSet) == Ids(m.freshQueue) + Ids(m.waitQueue[1..]) + multiset(processing)
  {
    TakeFirst(m);
    FirstOff(m.waitQueue);
    SetMinus(processing, m.waitQueue[0].taskId);
    assert processing - {m.waitQueue[0].taskId} == m.processingSet;
    assert SleepingItems(m) == [] && Ids([]) == multiset{};
  }

  lemma TakenInOrder(handled: seq<Item>, queue: seq<Item>, rest: seq<Item>)
    requires queue != []
    ensures handled + [] + queue + rest == handled + [queue[0]] + queue[1..] + rest
  {
    assert queue == [queue[0]] + queue[1..];
    assert handled + [] == handled && handled + ([queue[0]] + queue[1..]) == handled + [queue[0]] + queue[1..];
  }

  lemma TakenInHand(m: Master, taken: Master)
    requires Placed(m) && InOrder(m) && Ledger(m.workers, m.out) && m.processing && m.sleeping.None? && m.waitQueue != []
    requires taken == m.(waitQueue := m.waitQueue[1..], sleeping := None,
                         processingSet := m.processingSet + {m.waitQueue[0].taskId})
    ensures InHand(taken, m.waitQueue[0])
  {
    TakenPlaced(m, taken.processingSet);
    assert SleepingItems(m) == [];
    TakenInOrder(m.handled, m.waitQueue, m.freshQueue);
  }

  lemma RunLoopKeepsInv(m: Master)
    requires Placed(m) && InOrder(m) && Ledger(m.workers, m.out) && m.processing && m.sleeping.None?
    ensures Inv(RunLoop(m))
  {
    if m.waitQueue != [] {
      TakeFirst(m);
      var taken := m.(waitQueue := m.waitQueue[1..], sleeping := None,
                      processingSet := m.processingSet + {m.waitQueue[0].taskId});
      TakenInHand(m, taken);
      DispatchKeepsInv(taken, m.waitQueue[0], 0);
    }
  }

  lemma ResumeKeepsInv(m: Master)
    requires Inv(m) && m.processing
    ensures Inv(Resume(m))
  {
    match m.sleeping
    case Some((item, waited)) =>
      IdsOfOne(item);
      assert InHand(m, item);
      DispatchKeepsInv(m, item, waited + 1);
    case None => RunLoopKeepsInv(m);
  }

  lemma MoveKeeps(m: Master, moved: Master)
    requires Inv(m) && moved == m.(freshQueue := [], waitQueue := m.waitQueue + m.freshQueue, processing := true)
    ensures Placed(moved) && InOrder(moved) && Ledger(moved.workers, moved.out)
  {
    assert Ids(moved.waitQueue) == Ids(m.waitQueue) + Ids(m.freshQueue) by {
      IdsConcat(m.waitQueue, m.freshQueue);
    }
    assert Ids(moved.freshQueue) == multiset{};
    assert InOrder(moved) by {
      Regroup(m.handled + SleepingItems(m), m.waitQueue, m.freshQueue);
    }
  }

  lemma Regroup(a: seq<Item>, b: seq<Item>, c: seq<Item>)
    ensures a + b + c == a + (b + c) + []
  {
  }

  lemma SetMinus(s: set<string>, id: string)
    requires id in s
    ensures multiset(s) == multiset(s - {id}) + multiset{id}
  {
  }

  lemma CheckKeepsInv(m: Master)
    requires Inv(m)
    ensures Inv(CheckTask(m))
  {
    if m.freshQueue != [] {
      var moved := m.(freshQueue := [], waitQueue := m.waitQueue + m.freshQueue, processing := true);
      MoveKeeps(m, moved);
      if !m.processing {
        RunLoopKeepsInv(moved);
        assert CheckTask(m) == RunLoop(moved);
      } else {
        assert CheckTask(m) == moved;
      }
    }
  }

  lemma AdmitKeepsInv(m: Master, item: Item)
    requires Inv(m)
    ensures Inv(Admit(m, item))
  {
    var m' := Admit(m, item);
    if item.taskId !in m.freshSet {
      IdsConcat(m.freshQueue, [item]);
      IdsOfOne(item);
      assert SleepingItems(m') == SleepingItems(m);
      assert multiset(m'.freshSet) == multiset(m.freshSet) + multiset{item.taskId};
      assert m.handled + SleepingItems(m) + m.waitQueue + (m.freshQueue + [item])
          == (m.handled + SleepingItems(m) + m.waitQueue + m.freshQueue) + [item];
    }
  }

  lemma LedgerAfterRemove(w: Worker, out: seq<Assignment>, j: nat, k: nat)
    requires LedgerAt(w, out, j) && k < |out|
    ensures LedgerAt(if j == out[k].worker then Unloaded(w, out[k].item.deviceId) else w, out[..k] + out[k + 1..], j)
  {
    var w' := if j == out[k].worker then Unloaded(w, out[k].item.deviceId) else w;
    OutRemoved(out, k, Some(j), None);
    forall d ensures DeviceCount(w', d) == if d == "" then 0 else Count(out[..k] + out[k + 1..], Some(j), Some(d)) {
      OutRemoved(out, k, Some(j), Some(d));
      assert DeviceCount(w, d) == if d == "" then 0 else Count(out, Some(j), Some(d));
    }
  }

  lemma Cancel(a: multiset<string>, b: multiset<string>, id: string)
    requires a + multiset{id} == b + multiset{id}
    ensures a == b
  {
    forall x ensures a[x] == b[x] {
      assert (a + multiset{id})[x] == (b + multiset{id})[x];
    }
  }

  /** The reported task stands in both sets: the branch for an unknown task stays unreachable. */
  lemma DoneIsProcessing(m: Master, k: nat)
    requires Placed(m) && k < |m.out|
    ensures m.out[k].item.taskId in m.processingSet && m.out[k].item.taskId in m.freshSet
  {
    OutRemoved(m.out, k, None, None);
    assert m.out[k].item.taskId in multiset(m.processingSet);
    assert m.out[k].item.taskId in multiset(m.freshSet);
  }

  lemma DonePlaced(m: Master, k: nat)
    requires Placed(m) && k < |m.out| && m.out[k].worker < |m.workers|
    ensures Placed(TaskDone(m, k))
  {
    var m' := TaskDone(m, k);
    var id := m.out[k].item.taskId;
    DoneIsProcessing(m, k);
    assert OutIds(m.out) == OutIds(m'.out) + multiset{id} by {
      OutRemoved(m.out, k, None, None);
    }
    if id == "" {
      IdsConcat(m.lost, [m.out[k].item]);
      IdsOfOne(m.out[k].item);
    } else {
      SetMinus(m.processingSet, id);
      SetMinus(m.freshSet, id);
      Cancel(multiset(m'.processingSet), Ids(SleepingItems(m)) + OutIds(m'.out) + Ids(m.lost), id);
      Cancel(multiset(m'.freshSet), Ids(m.freshQueue) + Ids(m.waitQueue) + multiset(m'.processingSet), id);
    }
  }

  lemma DoneKeepsInv(m: Master, k: nat)
    requires Inv(m) && k < |m.out|
    ensures m.out[k].worker < |m.workers| && Inv(TaskDone(m, k))
  {
    var m' := TaskDone(m, k);
    DonePlaced(m, k);
    forall j | 0 <= j < |m'.workers| ensures LedgerAt(m'.workers[j], m'.out, j) {
      LedgerAfterRemove(m.workers[j], m.out, j, k);
    }
  }

  lemma OnlineKeepsInv(m: Master, i: nat)
    requires Inv(m) && i < |m.workers|
    ensures Inv(Online(m, i))
  {
    var online := Online(m, i);
    forall j | 0 <= j < |online.workers| ensures LedgerAt(online.workers[j], online.out, j) {
      LedgerIgnoresReady(m.workers[j], online.workers[j], m.out, j);
    }
    assert Placed(online) && InOrder(online) && Awake(online);
  }

  lemma ExitKeepsInv(m: Master)
    requires Inv(m)
    ensures Inv(WorkerExit(m))
  {
    NoneOfNewWorker(m.out, |m.workers|);
    var exited := WorkerExit(m);
    forall j | 0 <= j < |exited.workers| ensures LedgerAt(exited.workers[j], exited.out, j) {
      assert j < |m.workers| ==> LedgerAt(m.workers[j], m.out, j);
    }
    assert Placed(exited) && InOrder(exited) && Awake(exited);
  }

  lemma LedgerIgnoresReady(w: Worker, w': Worker, out: seq<Assignment>, j: nat)
    requires LedgerAt(w, out, j) && w'.taskCount == w.taskCount && w'.deviceTasks == w.deviceTasks
    ensures LedgerAt(w', out, j)
  {
    forall d ensures DeviceCount(w', d) == DeviceCount(w, d) {
    }
  }

  lemma {:induction false} NoneOfNewWorker(out: seq<Assignment>, n: nat)
    requires forall k :: 0 <= k < |out| ==> out[k].worker < n
    ensures LedgerAt(Worker(false, 0, map[]), out, n)
  {
    if out != [] {
      NoneOfNewWorker(out[..|out| - 1], n);
      LedgerAfterAppend(Worker(false, 0, map[]), out[..|out| - 1], n, out[|out| - 1]);
      assert out == out[..|out| - 1] + [out[|out| - 1]];
    }
  }

  lemma StepKeepsInv(m: Master, e: Event)
    requires Inv(m)
    ensures Inv(Step(m, e))
  {
    if Enabled(m, e) {
      match e
      case Arrive(item) => AdmitKeepsInv(m, item);
      case Check => CheckKeepsInv(m);
      case LoopTurn => ResumeKeepsInv(m);
      case WorkerOnline(i) => OnlineKeepsInv(m, i);
      case Exit => ExitKeepsInv(m);
      case Done(k) => DoneKeepsInv(m, k);
    }
  }

  lemma InitialInv(workerNumber: nat)
    ensures Inv(Initial(workerNumber))
  {
  }

  lemma {:induction false} RunKeepsInv(start: Master, events: seq<Event>)
    requires Inv(start)
    ensures Inv(Run(start, events))
  {
    if events != [] {
      RunKeepsInv(start, events[..|events| - 1]);
      StepKeepsInv(Run(start, events[..|events| - 1]), events[|events| - 1]);
    }
  }

  /** Every reachable state. */
  lemma {:induction false} ReachableInv(workerNumber: nat, events: seq<Event>)
    ensures Inv(Run(Initial(workerNumber), events))
  {
    InitialInv(workerNumber);
    RunKeepsInv(Initial(workerNumber), events);
  }
}
