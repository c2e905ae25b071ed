/** The master's promises over whole runs: single flight, conservation, draining and device balance. */
module MasterTheorems {
  import opened Wrappers
  import opened WorkerSelection
  import opened MasterModel
  import opened MasterInvariant

  /** In every reachable state each admitted id is in exactly one place, and the processing set holds
      exactly the ids that are being dispatched, assigned without Done or undeliverable. */
  lemma {:induction false} SingleFlight(workerNumber: nat, events: seq<Event>, id: string)
    ensures var m := Run(Initial(workerNumber), events);
      var underWay := Ids(SleepingItems(m)) + OutIds(m.out) + Ids(m.lost);
      && (Ids(m.freshQueue) + Ids(m.waitQueue) + underWay)[id] == (if id in m.freshSet then 1 else 0)
      && underWay[id] == (if id in m.processingSet then 1 else 0)
  {
    ReachableInv(workerNumber, events);
    var m := Run(Initial(workerNumber), events);
    assert multiset(m.freshSet)[id] == if id in m.freshSet then 1 else 0;
    assert multiset(m.processingSet)[id] == if id in m.processingSet then 1 else 0;
  }

  /** So neither the branch for a queued id that is already being processed nor the one for a Done that
      is not expected is ever taken. */
  lemma UnreachableBranches(workerNumber: nat, events: seq<Event>, k: nat)
    ensures var m := Run(Initial(workerNumber), events);
      && (m.waitQueue != [] ==> m.waitQueue[0].taskId !in m.processingSet)
      && (k < |m.out| ==> m.out[k].item.taskId in m.processingSet && m.out[k].worker < |m.workers|)
  {
    ReachableInv(workerNumber, events);
    var m := Run(Initial(workerNumber), events);
    if m.waitQueue != [] {
      TakeFirst(m);
    }
    if k < |m.out| {
      DoneIsProcessing(m, k);
    }
  }

  /** Items are handled in the order of their admission and none is dropped; a nonempty queue has a
      running loop. */
  lemma {:induction false} FirstInFirstOut(workerNumber: nat, events: seq<Event>)
    ensures var m := Run(Initial(workerNumber), events);
      && m.admitted == m.handled + SleepingItems(m) + m.waitQueue + m.freshQueue
      && (m.waitQueue != [] ==> m.processing)
  {
    ReachableInv(workerNumber, events);
  }

  // ----- the loop drains

  /** Strictly less after every turn of a running loop. */
  function Measure(m: Master): int {
    if !m.processing then 0
    else 1 + 13 * |m.waitQueue| + (if m.sleeping.Some? then 12 - m.sleeping.value.1 else 0)
  }

  lemma TurnDecreases(m: Master)
    requires m.processing && Awake(m)
    ensures Awake(Resume(m)) && 0 <= Measure(Resume(m)) < Measure(m)
  {
  }

  /** Everything but a turn of the loop and the move of fresh items leaves the loop where it is. */
  lemma OthersLeaveLoop(m: Master, e: Event)
    requires !e.LoopTurn? && !e.Check?
    ensures var m' := Step(m, e);
      && m'.processing == m.processing && m'.sleeping == m.sleeping && m'.waitQueue == m.waitQueue
      && m'.handled == m.handled
  {
  }

  function LoopTurns(events: seq<Event>): nat {
    if events == [] then 0
    else LoopTurns(events[..|events| - 1]) + (if events[|events| - 1].LoopTurn? then 1 else 0)
  }

  lemma {:induction false} LoopAdvances(m: Master, events: seq<Event>)
    requires Inv(m) && Check !in events
    ensures var m' := Run(m, events);
      && Inv(m')
      && m'.handled + SleepingItems(m') + m'.waitQueue == m.handled + SleepingItems(m) + m.waitQueue
      && (m'.processing ==> Measure(m') + LoopTurns(events) <= Measure(m))
  {
    if events != [] {
      var init, e := events[..|events| - 1], events[|events| - 1];
      LoopAdvances(m, init);
      var before := Run(m, init);
      StepKeepsInv(before, e);
      if e.LoopTurn? && before.processing {
        TurnDecreases(before);
        TurnKeepsOrder(before);
      } else if !e.LoopTurn? {
        OthersLeaveLoop(before, e);
      }
    }
  }

  /** Until more items are moved over, the loop empties the queue within so many of its turns, handling
      every item in order, whatever arrives, comes online, gets done or dies in between and even when no
      worker ever gets ready. */
  lemma LoopDrains(m: Master, events: seq<Event>)
    requires Inv(m) && Check !in events && LoopTurns(events) >= Measure(m)
    ensures var m' := Run(m, events);
      && !m'.processing && m'.waitQueue == [] && m'.sleeping.None?
      && m'.handled == m.handled + SleepingItems(m) + m.waitQueue
  {
    LoopAdvances(m, events);
    var m' := Run(m, events);
    assert m'.handled + [] + [] == m'.handled;
  }

  lemma TurnKeepsRest(m: Master)
    ensures Resume(m).admitted == m.admitted && Resume(m).freshQueue == m.freshQueue
  {
  }

  lemma CancelSuffix(a: seq<Item>, b: seq<Item>, f: seq<Item>)
    requires a + f == b + f
    ensures a == b
  {
    assert (a + f)[..|a|] == a && (b + f)[..|b|] == b;
  }

  lemma TurnKeepsOrder(m: Master)
    requires Inv(m) && m.processing
    ensures var m' := Resume(m);
      && m'.handled + SleepingItems(m') + m'.waitQueue == m.handled + SleepingItems(m) + m.waitQueue
      && m'.freshQueue == m.freshQueue
  {
    var m' := Resume(m);
    TurnKeepsRest(m);
    assert InOrder(m') by {
      ResumeKeepsInv(m);
    }
    CancelSuffix(m'.handled + SleepingItems(m') + m'.waitQueue, m.handled + SleepingItems(m) + m.waitQueue, m.freshQueue);
  }

  // ----- the counters add up

  function SumOver(ds: seq<string>, counts: map<string, int>): int
    requires forall d :: d in ds ==> d in counts
  {
    if ds == [] then 0 else SumOver(ds[..|ds| - 1], counts) + counts[ds[|ds| - 1]]
  }

  /** Outstanding assignments of a worker whose device is in the set. */
  function CountIn(out: seq<Assignment>, i: nat, s: set<string>): nat {
    if out == [] then 0
    else
      var a := out[|out| - 1];
      CountIn(out[..|out| - 1], i, s) + (if a.worker == i && a.item.deviceId in s then 1 else 0)
  }

  lemma {:induction false} CountInAdds(out: seq<Assignment>, i: nat, s: set<string>, d: string)
    requires d !in s
    ensures CountIn(out, i, s + {d}) == CountIn(out, i, s) + Count(out, Some(i), Some(d))
    ensures CountIn(out, i, {}) == 0
  {
    if out != [] {
      CountInAdds(out[..|out| - 1], i, s, d);
    }
  }

  lemma {:induction false} CountInAll(out: seq<Assignment>, i: nat, s: set<string>)
    requires forall k :: 0 <= k < |out| && out[k].worker == i ==> out[k].item.deviceId in s
    ensures CountIn(out, i, s) == Count(out, Some(i), None)
  {
    if out != [] {
      CountInAll(out[..|out| - 1], i, s);
    }
  }

  lemma {:induction false} CountPositive(out: seq<Assignment>, k: nat)
    requires k < |out|
    ensures Count(out, Some(out[k].worker), Some(out[k].item.deviceId)) > 0
  {
    if k < |out| - 1 {
      CountPositive(out[..|out| - 1], k);
    }
  }

  function Elements(ds: seq<string>): set<string> {
    set d | d in ds
  }

  lemma {:induction false} SumIsCountIn(w: Worker, out: seq<Assignment>, i: nat, ds: seq<string>, n: nat)
    requires LedgerAt(w, out, i) && n <= |ds|
    requires forall d :: d in ds ==> d in w.deviceTasks
    requires forall k, l :: 0 <= k < l < |ds| ==> ds[k] != ds[l]
    ensures SumOver(ds[..n], w.deviceTasks) == CountIn(out, i, Elements(ds[..n]))
  {
    if n == 0 {
      CountInAdds(out, i, {}, "");
      assert Elements(ds[..0]) == {};
    } else {
      var d, before := ds[n - 1], Elements(ds[..n - 1]);
      assert ds[..n][..n - 1] == ds[..n - 1];
      SumIsCountIn(w, out, i, ds, n - 1);
      assert Elements(ds[..n]) == before + {d} by {
        assert ds[..n] == ds[..n - 1] + [d];
      }
      CountInAdds(out, i, before, d);
      assert d != "" by {
        assert DeviceCount(w, "") == 0;
      }
      assert DeviceCount(w, d) == w.deviceTasks[d];
    }
  }

  /** A worker's task count is the sum of its device counters plus its outstanding tasks without device;
      it counts exactly the outstanding assignments, so nothing is negative.  ds lists its devices. */
  lemma LedgerAddsUp(m: Master, i: nat, ds: seq<string>)
    requires Inv(m) && i < |m.workers|
    requires forall d :: d in ds <==> d in m.workers[i].deviceTasks
    requires forall k, l :: 0 <= k < l < |ds| ==> ds[k] != ds[l]
    ensures m.workers[i].taskCount == SumOver(ds, m.workers[i].deviceTasks) + Count(m.out, Some(i), Some(""))
    ensures 0 <= m.workers[i].taskCount == Count(m.out, Some(i), None)
  {
    var w, devices := m.workers[i], Elements(ds);
    assert LedgerAt(w, m.out, i);
    assert ds[..|ds|] == ds;
    SumIsCountIn(w, m.out, i, ds, |ds|);
    assert "" !in devices by {
      assert DeviceCount(w, "") == 0;
    }
    CountInAdds(m.out, i, devices, "");
    forall k | 0 <= k < |m.out| && m.out[k].worker == i ensures m.out[k].item.deviceId in devices + {""} {
      CountPositive(m.out, k);
      assert DeviceCount(w, m.out[k].item.deviceId)
          == if m.out[k].item.deviceId == "" then 0 else Count(m.out, Some(i), Some(m.out[k].item.deviceId));
    }
    CountInAll(m.out, i, devices + {""});
  }

  // ----- device balance

  function CountBelow(out: seq<Assignment>, n: nat, d: string): nat {
    if out == [] then 0
    else
      var a := out[|out| - 1];
      CountBelow(out[..|out| - 1], n, d) + (if a.worker < n && a.item.deviceId == d then 1 else 0)
  }

  lemma {:induction false} CountBelowAdds(out: seq<Assignment>, n: nat, d: string)
    ensures CountBelow(out, n + 1, d) == CountBelow(out, n, d) + Count(out, Some(n), Some(d))
    ensures CountBelow(out, n, d) <= Count(out, None, Some(d))
  {
    if out != [] {
      CountBelowAdds(out[..|out| - 1], n, d);
    }
  }

  lemma Distribute(k: nat, c: nat)
    ensures (k + 1) * c == k * c + c
  {
  }

  /** When each of the ready workers holds at least c tasks of the device, all of them together do. */
  lemma {:induction false} LeastTimesReady(m: Master, n: nat, d: string, c: nat)
    requires n <= |m.workers|
    requires forall j :: j in ReadyAmong(m.workers, n) ==> Count(m.out, Some(j), Some(d)) >= c
    ensures |ReadyAmong(m.workers, n)| * c <= CountBelow(m.out, n, d)
  {
    if n > 0 {
      var init := ReadyAmong(m.workers, n - 1);
      LeastTimesReady(m, n - 1, d, c);
      CountBelowAdds(m.out, n - 1, d);
      if m.workers[n - 1].ready {
        assert n - 1 in ReadyAmong(m.workers, n);
        Distribute(|init|, c);
      }
    }
  }

  /** An assignment goes to a ready worker, with a device to the first best one. */
  ghost predicate AssignedBest(m: Master, out: seq<Assignment>, i: nat, item: Item) {
    && i < |m.workers| && out == m.out + [Assignment(i, item)]
    && (item.deviceId != "" ==> FirstBest(m.workers, item.deviceId, Ready(m), i))
    && LeastLoaded(m.workers, item.deviceId, i)
  }

  function TasksOn(w: Worker, d: string): int {
    if d != "" && d in w.deviceTasks then w.deviceTasks[d] else 0
  }

  /** The worker is ready, and every other ready one has more tasks of the device, or as many and more tasks in
      all, or as many of both and comes later. */
  ghost predicate LeastLoaded(ws: seq<Worker>, d: string, i: nat) {
    && i < |ws| && ws[i].ready
    && forall j :: 0 <= j < |ws| && ws[j].ready && j != i ==>
         || TasksOn(ws[i], d) < TasksOn(ws[j], d)
         || (TasksOn(ws[i], d) == TasksOn(ws[j], d) && ws[i].taskCount < ws[j].taskCount)
         || (TasksOn(ws[i], d) == TasksOn(ws[j], d) && ws[i].taskCount == ws[j].taskCount && i < j)
  }

  lemma SelectedIsLeast(m: Master, d: string)
    requires Ledger(m.workers, m.out) && Ready(m) != []
    ensures var i := SelectWorker(m.workers, Ready(m), d);
      LeastLoaded(m.workers, d, i) && (d != "" ==> FirstBest(m.workers, d, Ready(m), i))
  {
    ReadyAmongIs(m.workers, |m.workers|);
    var i := SelectWorker(m.workers, Ready(m), d);
    if d != "" {
      forall j | j in Ready(m) ensures DeviceCount(m.workers[j], d) >= 0 {
        assert LedgerAt(m.workers[j], m.out, j);
      }
      SelectionIsFirstBest(m.workers, Ready(m), d, i);
    } else {
      MinIsFirstBest(m.workers, Ready(m));
    }
    forall j | 0 <= j < |m.workers| && m.workers[j].ready ensures j in Ready(m) {
    }
  }

  /** What a step assigns goes to the least loaded ready worker. */
  lemma AssignedToLeast(m: Master, e: Event, i: nat, item: Item)
    requires Inv(m) && Step(m, e).out == m.out + [Assignment(i, item)]
    ensures LeastLoaded(m.workers, item.deviceId, i)
  {
    StepOnLedger(m, e);
    var out := Step(m, e).out;
    if !(e.Done? && e.k < |m.out|) {
      assert out != m.out;
      var k, other :| AssignedBest(m, out, k, other);
      assert out[|m.out|] == Assignment(k, other) == Assignment(i, item);
    }
  }

  /** A check moves every fresh item behind the queue and leaves a running loop. */
  lemma CheckMoves(m: Master)
    requires Inv(m)
    ensures var m' := Step(m, Check);
      && m'.freshQueue == []
      && m'.handled + SleepingItems(m') + m'.waitQueue == m.handled + SleepingItems(m) + m.waitQueue + m.freshQueue
      && (m.freshQueue != [] ==> m'.processing)
  {
    StepKeepsInv(m, Check);
    CheckLeaves(m);
    NothingBehind(Step(m, Check), m.admitted);
  }

  lemma CheckLeaves(m: Master)
    ensures var m' := Step(m, Check);
      m'.freshQueue == [] && m'.admitted == m.admitted && (m.freshQueue != [] ==> m'.processing)
  {
  }

  lemma NothingBehind(m: Master, admitted: seq<Item>)
    requires InOrder(m) && m.freshQueue == [] && m.admitted == admitted
    ensures m.handled + SleepingItems(m) + m.waitQueue == admitted
  {
    assert m.handled + SleepingItems(m) + m.waitQueue + [] == m.handled + SleepingItems(m) + m.waitQueue;
  }

  ghost predicate AtMostOneAssigned(m: Master, out: seq<Assignment>) {
    out == m.out || exists i, item :: AssignedBest(m, out, i, item)
  }

  /** What one event does to the ledger: nothing, one assignment or one removal. */
  lemma StepOnLedger(m: Master, e: Event)
    requires Ledger(m.workers, m.out)
    ensures var m' := Step(m, e);
      if e.Done? && e.k < |m.out| then m'.out == m.out[..e.k] + m.out[e.k + 1..] else AtMostOneAssigned(m, m'.out)
  {
    match e
    case Check => CheckOnLedger(m);
    case LoopTurn => TurnOnLedger(m);
    case _ =>
  }

  lemma CheckOnLedger(m: Master)
    requires Ledger(m.workers, m.out)
    ensures AtMostOneAssigned(m, CheckTask(m).out)
  {
    if m.freshQueue != [] && !m.processing {
      RunLoopOnLedger(m.(freshQueue := [], waitQueue := m.waitQueue + m.freshQueue, processing := true), m);
    }
  }

  lemma TurnOnLedger(m: Master)
    requires Ledger(m.workers, m.out)
    ensures AtMostOneAssigned(m, Resume(m).out)
  {
    match m.sleeping
    case Some((item, waited)) => DispatchOnLedger(m, item, waited + 1, m);
    case None => RunLoopOnLedger(m, m);
  }

  lemma RunLoopOnLedger(m: Master, before: Master)
    requires m.workers == before.workers && m.out == before.out && Ledger(m.workers, m.out)
    ensures AtMostOneAssigned(before, RunLoop(m).out)
  {
    if m.waitQueue != [] && m.waitQueue[0].taskId !in m.processingSet {
      DispatchOnLedger(m.(waitQueue := m.waitQueue[1..], sleeping := None,
                          processingSet := m.processingSet + {m.waitQueue[0].taskId}), m.waitQueue[0], 0, before);
    }
  }

  lemma DispatchOnLedger(m: Master, item: Item, waited: nat, before: Master)
    requires m.workers == before.workers && m.out == before.out && Ledger(m.workers, m.out)
    ensures AtMostOneAssigned(before, Dispatch(m, item, waited).out)
  {
    if waited <= MAX_WAITS && Ready(m) != [] {
      var i := SelectWorker(m.workers, Ready(m), item.deviceId);
      ReadyAmongIs(m.workers, |m.workers|);
      MemberInRange(m.workers, Ready(m), item.deviceId);
      SelectedIsLeast(m, item.deviceId);
      assert AssignedBest(before, Dispatch(m, item, waited).out, i, item);
    }
  }

  /** The most tasks of the device outstanding at once so far. */
  function Peak(start: Master, events: seq<Event>, d: string): nat {
    var now := Count(Run(start, events).out, None, Some(d));
    if events == [] then now
    else
      var before := Peak(start, events[..|events| - 1], d);
      if now > before then now else before
  }

  /** No worker holds more than its even share of c tasks, rounded up. */
  ghost predicate Balanced(out: seq<Assignment>, d: string, k: nat, peak: nat) {
    forall i: nat :: k * Count(out, Some(i), Some(d)) <= peak + k - 1
  }

  lemma {:induction false} ReadyGrows(ws: seq<Worker>, ws': seq<Worker>, n: nat, n': nat)
    requires n <= n' && n <= |ws| && n' <= |ws'|
    requires forall i :: 0 <= i < n && ws[i].ready ==> ws'[i].ready
    ensures |ReadyAmong(ws, n)| <= |ReadyAmong(ws', n')|
  {
    if n' > n {
      ReadyGrows(ws, ws', n, n' - 1);
    } else if n > 0 {
      ReadyGrows(ws, ws', n - 1, n' - 1);
    }
  }

  ghost predicate MoreReady(ws: seq<Worker>, ws': seq<Worker>) {
    |ws| <= |ws'| && forall i :: 0 <= i < |ws| && ws[i].ready ==> ws'[i].ready
  }

  lemma DispatchMoreReady(m: Master, item: Item, waited: nat)
    ensures MoreReady(m.workers, Dispatch(m, item, waited).workers)
  {
  }

  lemma RunLoopMoreReady(m: Master)
    ensures MoreReady(m.workers, RunLoop(m).workers)
  {
    if m.waitQueue != [] {
      DispatchMoreReady(m.(waitQueue := m.waitQueue[1..], sleeping := None,
                           processingSet := m.processingSet + {m.waitQueue[0].taskId}), m.waitQueue[0], 0);
    }
  }

  lemma StepReadyGrows(m: Master, e: Event)
    ensures |Ready(m)| <= |Ready(Step(m, e))|
  {
    match e {
      case Check =>
        RunLoopMoreReady(m.(freshQueue := [], waitQueue := m.waitQueue + m.freshQueue, processing := true));
      case LoopTurn =>
        RunLoopMoreReady(m);
        if m.sleeping.Some? {
          DispatchMoreReady(m, m.sleeping.value.0, m.sleeping.value.1 + 1);
        }
      case _ =>
    }
    assert MoreReady(m.workers, Step(m, e).workers);
    ReadyGrows(m.workers, Step(m, e).workers, |m.workers|, |Step(m, e).workers|);
  }

  /** The chosen worker has the fewest tasks of the device, so a share of the outstanding ones bounds them. */
  lemma BestHasShare(m: Master, d: string, k: nat, i: nat)
    requires Inv(m) && d != "" && i < |m.workers| && k <= |Ready(m)|
    requires FirstBest(m.workers, d, Ready(m), i)
    ensures k * Count(m.out, Some(i), Some(d)) <= Count(m.out, None, Some(d))
  {
    var c := Count(m.out, Some(i), Some(d));
    assert LedgerAt(m.workers[i], m.out, i);
    assert DeviceCount(m.workers[i], d) == c;
    forall j | j in Ready(m) ensures Count(m.out, Some(j), Some(d)) >= c {
      assert LedgerAt(m.workers[j], m.out, j);
      assert DeviceCount(m.workers[j], d) == Count(m.out, Some(j), Some(d));
      assert !Before(m.workers, d, j, i);
    }
    LeastTimesReady(m, |m.workers|, d, c);
    CountBelowAdds(m.out, |m.workers|, d);
    Monotone(k, |Ready(m)|, c);
  }

  lemma Monotone(k: nat, n: nat, c: nat)
    requires k <= n
    ensures k * c <= n * c
  {
  }

  function Max(a: nat, b: nat): nat {
    if a > b then a else b
  }

  lemma DoneKeepsShare(out: seq<Assignment>, l: nat, d: string, k: nat, i: nat)
    requires l < |out|
    ensures var rest := out[..l] + out[l + 1..];
      && Count(rest, None, Some(d)) <= Count(out, None, Some(d))
      && k * Count(rest, Some(i), Some(d)) <= k * Count(out, Some(i), Some(d))
  {
    OutRemoved(out, l, None, Some(d));
    OutRemoved(out, l, Some(i), Some(d));
    Monotone(Count(out[..l] + out[l + 1..], Some(i), Some(d)), Count(out, Some(i), Some(d)), k);
  }

  lemma DoneKeepsBalance(out: seq<Assignment>, l: nat, d: string, k: nat, peak: nat)
    requires l < |out| && Balanced(out, d, k, peak) && Count(out, None, Some(d)) <= peak
    ensures var rest := out[..l] + out[l + 1..];
      Balanced(rest, d, k, peak) && Max(Count(rest, None, Some(d)), peak) == peak
  {
    var rest := out[..l] + out[l + 1..];
    forall i: nat ensures k * Count(rest, Some(i), Some(d)) <= peak + k - 1 {
      DoneKeepsShare(out, l, d, k, i);
      assert k * Count(out, Some(i), Some(d)) <= peak + k - 1;
    }
    DoneKeepsShare(out, l, d, k, 0);
  }

  lemma AssignKeepsBalance(m: Master, out: seq<Assignment>, i: nat, item: Item, d: string, k: nat, peak: nat)
    requires Inv(m) && d != "" && 1 <= k <= |Ready(m)| && Balanced(m.out, d, k, peak)
    requires AssignedBest(m, out, i, item)
    ensures Balanced(out, d, k, Max(Count(out, None, Some(d)), peak))
  {
    forall j: nat ensures k * Count(out, Some(j), Some(d)) <= Max(Count(out, None, Some(d)), peak) + k - 1 {
      AssignKeepsShare(m, out, i, item, d, k, peak, j);
    }
  }

  lemma StepKeepsBalance(m: Master, e: Event, d: string, k: nat, peak: nat)
    requires Inv(m) && d != "" && 1 <= k <= |Ready(m)| && Balanced(m.out, d, k, peak)
    requires Count(m.out, None, Some(d)) <= peak
    ensures var out := Step(m, e).out;
      Balanced(out, d, k, Max(Count(out, None, Some(d)), peak))
  {
    StepOnLedger(m, e);
    OutKeepsBalance(m, e, Step(m, e).out, d, k, peak);
  }

  lemma OutKeepsBalance(m: Master, e: Event, out: seq<Assignment>, d: string, k: nat, peak: nat)
    requires Inv(m) && d != "" && 1 <= k <= |Ready(m)| && Balanced(m.out, d, k, peak)
    requires Count(m.out, None, Some(d)) <= peak
    requires if e.Done? && e.k < |m.out| then out == m.out[..e.k] + m.out[e.k + 1..] else AtMostOneAssigned(m, out)
    ensures Balanced(out, d, k, Max(Count(out, None, Some(d)), peak))
  {
    if e.Done? && e.k < |m.out| {
      DoneKeepsBalance(m.out, e.k, d, k, peak);
    } else if out != m.out {
      var i, item :| AssignedBest(m, out, i, item);
      AssignKeepsBalance(m, out, i, item, d, k, peak);
    }
  }

  lemma AssignKeepsShare(m: Master, out: seq<Assignment>, i: nat, item: Item, d: string, k: nat, peak: nat, j: nat)
    requires Inv(m) && d != "" && 1 <= k <= |Ready(m)| && Balanced(m.out, d, k, peak)
    requires AssignedBest(m, out, i, item)
    ensures k * Count(out, Some(j), Some(d)) <= Max(Count(out, None, Some(d)), peak) + k - 1
  {
    var a := Assignment(i, item);
    CountAppend(m.out, a, None, Some(d));
    CountAppend(m.out, a, Some(j), Some(d));
    var c, total := Count(m.out, Some(j), Some(d)), Count(m.out, None, Some(d));
    assert k * c <= peak + k - 1;
    if i == j && item.deviceId == d {
      BestHasShare(m, d, k, i);
      OneMore(k, c, total);
    }
  }

  lemma OneMore(k: nat, c: nat, total: nat)
    requires k * c <= total
    ensures k * (c + 1) <= total + 1 + k - 1
  {
  }

  lemma {:induction false} RunKeepsBalance(start: Master, events: seq<Event>, d: string, k: nat)
    requires Inv(start) && start.out == [] && d != "" && 1 <= k <= |Ready(start)|
    ensures var m := Run(start, events);
      Inv(m) && k <= |Ready(m)| && Count(m.out, None, Some(d)) <= Peak(start, events, d)
      && Balanced(m.out, d, k, Peak(start, events, d))
  {
    if events != [] {
      var before := events[..|events| - 1];
      RunKeepsBalance(start, before, d, k);
      var m, e := Run(start, before), events[|events| - 1];
      StepKeepsInv(m, e);
      StepReadyGrows(m, e);
      StepKeepsBalance(m, e, d, k, Peak(start, before, d));
    }
  }

  /** Device balance: once k workers are ready, no worker ever holds more than the k-th part, rounded up,
      of the most tasks of a device outstanding at once, through any dispatches, completions, arrivals,
      newly ready workers and crashes. */
  lemma {:induction false} DeviceBalance(start: Master, events: seq<Event>, d: string, k: nat, i: nat)
    requires Inv(start) && start.out == [] && d != "" && 1 <= k <= |Ready(start)|
    ensures Count(Run(start, events).out, Some(i), Some(d)) <= (Peak(start, events, d) + k - 1) / k
  {
    RunKeepsBalance(start, events, d, k);
    var c, p := Count(Run(start, events).out, Some(i), Some(d)), Peak(start, events, d);
    assert k * c <= p + k - 1;
    DivideBoth(k, c, p + k - 1);
  }

  lemma DivideBoth(k: nat, c: nat, n: nat)
    requires k > 0 && k * c <= n
    ensures c <= n / k
  {
    if c > n / k {
      Monotone(n / k + 1, c, k);
    }
  }

  /** Ready workers hold the same number of tasks of the device, give or take one. */
  ghost predicate EvenlySpread(m: Master, d: string) {
    forall i, j :: i in Ready(m) && j in Ready(m) ==>
      Count(m.out, Some(i), Some(d)) <= Count(m.out, Some(j), Some(d)) + 1
  }

  ghost predicate SameReady(ws: seq<Worker>, ws': seq<Worker>) {
    |ws| <= |ws'| && forall i :: 0 <= i < |ws'| ==> ws'[i].ready == (i < |ws| && ws[i].ready)
  }

  lemma DispatchSameReady(m: Master, item: Item, waited: nat)
    ensures SameReady(m.workers, Dispatch(m, item, waited).workers)
  {
  }

  lemma RunLoopSameReady(m: Master)
    ensures SameReady(m.workers, RunLoop(m).workers)
  {
    if m.waitQueue != [] {
      DispatchSameReady(m.(waitQueue := m.waitQueue[1..], sleeping := None,
                           processingSet := m.processingSet + {m.waitQueue[0].taskId}), m.waitQueue[0], 0);
    }
  }

  lemma StepSameReady(m: Master, e: Event)
    requires !e.WorkerOnline?
    ensures forall i: nat :: i in Ready(Step(m, e)) <==> i in Ready(m)
  {
    var m' := Step(m, e);
    match e {
      case Check =>
        RunLoopSameReady(m.(freshQueue := [], waitQueue := m.waitQueue + m.freshQueue, processing := true));
      case LoopTurn =>
        RunLoopSameReady(m);
        if m.sleeping.Some? {
          DispatchSameReady(m, m.sleeping.value.0, m.sleeping.value.1 + 1);
        }
      case _ =>
    }
    assert SameReady(m.workers, m'.workers);
    ReadyAmongIs(m.workers, |m.workers|);
    ReadyAmongIs(m'.workers, |m'.workers|);
  }

  lemma StepKeepsSpread(m: Master, e: Event, d: string)
    requires Inv(m) && d != "" && !e.WorkerOnline? && !e.Done? && EvenlySpread(m, d)
    ensures EvenlySpread(Step(m, e), d)
  {
    var m' := Step(m, e);
    StepOnLedger(m, e);
    StepSameReady(m, e);
    if m'.out != m.out {
      var i, item :| AssignedBest(m, m'.out, i, item);
      forall j, l | j in Ready(m) && l in Ready(m)
        ensures Count(m'.out, Some(j), Some(d)) <= Count(m'.out, Some(l), Some(d)) + 1
      {
        AssignKeepsSpread(m, m'.out, i, item, d, j, l);
      }
    }
  }

  lemma AssignKeepsSpread(m: Master, out: seq<Assignment>, i: nat, item: Item, d: string, j: nat, l: nat)
    requires Inv(m) && d != "" && EvenlySpread(m, d) && AssignedBest(m, out, i, item) && j in Ready(m) && l in Ready(m)
    ensures Count(out, Some(j), Some(d)) <= Count(out, Some(l), Some(d)) + 1
  {
    CountAppend(m.out, Assignment(i, item), Some(j), Some(d));
    CountAppend(m.out, Assignment(i, item), Some(l), Some(d));
    if i == j && item.deviceId == d {
      ReadyAmongIs(m.workers, |m.workers|);
      assert LedgerAt(m.workers[j], m.out, j) && LedgerAt(m.workers[l], m.out, l);
      assert DeviceCount(m.workers[j], d) == Count(m.out, Some(j), Some(d));
      assert DeviceCount(m.workers[l], d) == Count(m.out, Some(l), Some(d));
      assert !Before(m.workers, d, l, j);
    }
  }

  /** While the ready workers stay the same and nothing completes, a device's tasks are spread over them
      as evenly as whole numbers allow. */
  lemma {:induction false} EvenWithoutCompletions(start: Master, events: seq<Event>, d: string)
    requires Inv(start) && start.out == [] && d != ""
    requires forall e :: e in events ==> !e.WorkerOnline? && !e.Done?
    ensures Inv(Run(start, events)) && EvenlySpread(Run(start, events), d)
  {
    if events != [] {
      var before, e := events[..|events| - 1], events[|events| - 1];
      assert e in events;
      EvenWithoutCompletions(start, before, d);
      StepKeepsInv(Run(start, before), e);
      StepKeepsSpread(Run(start, before), e, d);
    }
  }
}
