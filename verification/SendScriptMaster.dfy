/** The master service itself: src/modules/send-script-main/send-script-master.service.ts.  A method is
    what the source runs between two awaits, proved to be the matching event of MasterModel; only a load
    goes on over many awaits and takes the turns in between as a parameter. */
module SendScriptMaster {
  import opened Wrappers
  import opened TaskStore
  import opened WorkerSelection
  import opened MasterModel
  import opened MasterReload

  const PERIOD := 100

  class TaskWorker {
    var ready: bool
    var taskCount: int
    var deviceTasks: map<string, int>

    constructor ()
      ensures View() == Worker(false, 0, map[])
    {
      ready, taskCount, deviceTasks := false, 0, map[];
    }

    function View(): Worker
      reads this
    {
      Worker(ready, taskCount, deviceTasks)
    }

    method CountTask(deviceId: string)
      modifies this
      ensures View() == Loaded(old(View()), deviceId)
    {
      taskCount := taskCount + 1;
      if deviceId != "" {
        var currentCount := if deviceId in deviceTasks then deviceTasks[deviceId] else 0;
        deviceTasks := deviceTasks[deviceId := currentCount + 1];
      }
    }

    method DiscountTask(deviceId: string)
      modifies this
      ensures View() == Unloaded(old(View()), deviceId)
    {
      taskCount := taskCount - 1;
      if deviceId != "" {
        var currentCount := if deviceId in deviceTasks then deviceTasks[deviceId] else 0;
        if currentCount > 0 {
          deviceTasks := deviceTasks[deviceId := currentCount - 1];
        }
        if deviceId in deviceTasks && deviceTasks[deviceId] == 0 {
          deviceTasks := deviceTasks - {deviceId};
        }
      }
    }
  }

  function Views(workers: seq<TaskWorker>): (views: seq<Worker>)
    reads workers
    ensures |views| == |workers| && forall i :: 0 <= i < |views| ==> views[i] == workers[i].View()
  {
    seq(|workers|, i requires 0 <= i < |workers| reads workers => workers[i].View())
  }

  class SendScriptMasterService {
    var workers: seq<TaskWorker>
    var waitFreshQueueSet: set<string>
    var waitFreshQueue: seq<Item>
    var waitQueue: seq<Item>
    var processingSet: set<string>
    var processing: bool
    // Where the loop is suspended inside a dispatch, if it is.
    var sleeping: Option<(Item, nat)>
    // The past, which the source does not keep.
    var out: seq<Assignment>
    var lost: seq<Item>
    var admitted: seq<Item>
    var handled: seq<Item>

    ghost function View(): Master
      reads this, workers
    {
      Master(Views(workers), waitFreshQueueSet, waitFreshQueue, waitQueue, processingSet, processing, sleeping,
             out, lost, admitted, handled)
    }

    ghost predicate Valid()
      reads this
    {
      forall i, j :: 0 <= i < j < |workers| ==> workers[i] != workers[j]
    }

    function Objects(): set<TaskWorker>
      reads this
    {
      set w | w in workers
    }

    constructor (workerNumber: nat)
      ensures Valid() && View() == Initial(workerNumber) && fresh(workers)
    {
      workers, waitFreshQueueSet, waitFreshQueue, waitQueue := [], {}, [], [];
      processingSet, processing, sleeping := {}, false, None;
      out, lost, admitted, handled := [], [], [], [];
      new;
      for i := 0 to workerNumber
        invariant Valid() && |workers| == i && fresh(workers)
        invariant forall j :: 0 <= j < i ==> workers[j].View() == Worker(false, 0, map[])
        invariant View() == Initial(0).(workers := Views(workers))
      {
        var worker := new TaskWorker();
        workers := workers + [worker];
      }
      assert Views(workers) == Initial(workerNumber).workers;
    }

    /** Up to the next await. */
    method DispatchToWorker(item: Item, waitReadyCount: nat)
      requires Valid()
      modifies this`sleeping, this`out, this`lost, this`handled, workers
      ensures Valid() && View() == Dispatch(old(View()), item, waitReadyCount)
    {
      if waitReadyCount > MAX_WAITS {
        sleeping, lost, handled := None, lost + [item], handled + [item];
        return;
      }
      var views := Views(workers);
      var ready := ReadyAmong(views, |views|);
      if ready == [] {
        sleeping := Some((item, waitReadyCount));
        return;
      }
      ReadyAmongIs(views, |views|);
      var i: nat;
      if item.deviceId != "" {
        i := SelectWorkerForDevice(views, ready, item.deviceId);
      } else {
        i := MinByTaskCount(views, ready);
      }
      MemberInRange(views, ready, item.deviceId);
      AssignTo(i, item);
    }

    method AssignTo(i: nat, item: Item)
      requires Valid() && i < |workers|
      modifies this`sleeping, this`out, this`handled, workers
      ensures Valid() && View() == Assign(old(View()), i, item)
    {
      ghost var views := Views(workers);
      workers[i].CountTask(item.deviceId);
      sleeping, out, handled := None, out + [Assignment(i, item)], handled + [item];
      assert Views(workers) == views[i := Loaded(views[i], item.deviceId)];
    }

    method SendWorker(item: Item)
      requires Valid()
      modifies this`sleeping, this`out, this`lost, this`handled, this`processingSet, workers
      ensures Valid()
      ensures View() == var m := old(View()).(sleeping := None);
        if item.taskId in m.processingSet then m.(handled := m.handled + [item])
        else Dispatch(m.(processingSet := m.processingSet + {item.taskId}), item, 0)
    {
      sleeping := None;
      if item.taskId in processingSet {
        handled := handled + [item];
        return;
      }
      processingSet := processingSet + {item.taskId};
      DispatchToWorker(item, 0);
    }

    /** The while loop of handleLoop from its test to the next await. */
    method LoopBody()
      requires Valid()
      modifies this`sleeping, this`out, this`lost, this`handled, this`processingSet, this`waitQueue, this`processing, workers
      ensures Valid() && View() == RunLoop(old(View()))
    {
      if waitQueue == [] {
        processing, sleeping := false, None;
        return;
      }
      var temp := waitQueue[0];
      waitQueue := waitQueue[1..];
      SendWorker(temp);
    }

    method HandleLoop()
      requires Valid()
      modifies this`sleeping, this`out, this`lost, this`handled, this`processingSet, this`waitQueue, this`processing, workers
      ensures Valid() && View() == MasterModel.HandleLoop(old(View()))
    {
      if !processing {
        processing := true;
        LoopBody();
      }
    }

    /** The loop continues after an await. */
    method ResumeLoop()
      requires Valid() && processing
      modifies this`sleeping, this`out, this`lost, this`handled, this`processingSet, this`waitQueue, this`processing, workers
      ensures Valid() && View() == Step(old(View()), LoopTurn)
    {
      match sleeping {
        case Some(suspended) => DispatchToWorker(suspended.0, suspended.1 + 1);
        case None => LoopBody();
      }
    }

    /** Moves one chunk over and starts the loop; m: the state before the first chunk, moved: the chunks so far. */
    method MoveChunk(handleRecords: seq<Item>, ghost m: Master, ghost moved: seq<Item>)
      requires Valid() && handleRecords != [] && View() == AfterChunks(m, moved)
      modifies this`sleeping, this`out, this`lost, this`handled, this`processingSet, this`waitQueue, this`processing, workers
      ensures Valid() && View() == AfterChunks(m, moved + handleRecords)
    {
      NextChunk(m, moved, handleRecords);
      waitQueue := waitQueue + handleRecords;
      HandleLoop();
    }

    /** Moves the fresh items over in chunks, starting the loop after each chunk. */
    method CheckTask()
      requires Valid()
      modifies this`sleeping, this`out, this`lost, this`handled, this`processingSet, this`waitQueue, this`processing,
               this`waitFreshQueue, workers
      ensures Valid() && View() == Step(old(View()), Check)
    {
      ghost var m := View();
      var data := waitFreshQueue;
      waitFreshQueue := [];
      ghost var moved := [];
      while data != []
        invariant Valid() && workers == old(workers) && m.freshQueue == moved + data
        invariant View() == AfterChunks(m, moved)
        decreases |data|
      {
        var n := if |data| < PERIOD then |data| else PERIOD;
        var handleRecords := data[..n];
        TakeChunk(moved, data, n);
        data := data[n..];
        MoveChunk(handleRecords, m, moved);
        moved := moved + handleRecords;
      }
      AllChunks(m, moved, data);
    }

    method WorkerOnline(i: nat)
      requires Valid() && i < |workers|
      modifies workers[i]
      ensures View() == Step(old(View()), MasterModel.WorkerOnline(i))
      ensures workers[i].ready && workers[i].taskCount == old(workers[i].taskCount)
      ensures workers[i].deviceTasks == old(workers[i].deviceTasks)
    {
      ghost var m := View();
      workers[i].ready := true;
      assert Views(workers) == m.workers[i := m.workers[i].(ready := true)];
    }

    /** The handler of the i-th worker's Done; result: the id and device id, if the data parses; known:
        whether the id was being processed; k: the assignment that is settled by it, if any. */
    method TaskDone(i: nat, result: Option<(string, string)>, k: Option<nat>) returns (known: bool)
      requires Valid() && i < |workers|
      requires k.Some? ==> k.value < |out| && result.Some? && out[k.value] == Assignment(i, Item(result.value.0, result.value.1))
      modifies this`processingSet, this`waitFreshQueueSet, this`out, this`lost, workers[i]
      ensures Valid()
      ensures k.None? ==> View() == Reported(old(View()), i, result)
      ensures k.Some? ==> View() == Step(old(View()), Done(k.value))
      ensures known <==> result.Some? && result.value.0 != "" && result.value.0 in old(processingSet)
    {
      ghost var m := View();
      known := UnregisterDone(i, result);
      assert View() == Reported(m, i, result);
      if k.Some? {
        lost := if out[k.value].item.taskId != "" then lost else lost + [out[k.value].item];
        out := out[..k.value] + out[k.value + 1..];
      }
    }

    method UnregisterDone(i: nat, result: Option<(string, string)>) returns (known: bool)
      requires Valid() && i < |workers|
      modifies this`processingSet, this`waitFreshQueueSet, workers[i]
      ensures Valid() && View() == Reported(old(View()), i, result)
      ensures known <==> result.Some? && result.value.0 != "" && result.value.0 in old(processingSet)
      ensures workers[i].taskCount == old(workers[i].taskCount) - 1 && workers[i].ready == old(workers[i].ready)
      ensures result.None? ==>
        workers[i].deviceTasks == old(workers[i].deviceTasks) && processingSet == old(processingSet)
        && waitFreshQueueSet == old(waitFreshQueueSet)
      ensures result.Some? ==>
        var (id, d) := result.value;
        && processingSet == old(processingSet) - {id} + (if id == "" then {""} * old(processingSet) else {})
        && waitFreshQueueSet == old(waitFreshQueueSet) - {id} + (if id == "" then {""} * old(waitFreshQueueSet) else {})
        && OneTaskLess(old(workers[i].deviceTasks), workers[i].deviceTasks, d)
    {
      ghost var views := Views(workers);
      known := false;
      if result.None? {
        workers[i].taskCount := workers[i].taskCount - 1;
        assert Views(workers) == views[i := views[i].(taskCount := views[i].taskCount - 1)];
        return;
      }
      workers[i].DiscountTask(result.value.1);
      assert Views(workers) == views[i := Unloaded(views[i], result.value.1)];
      if result.value.0 != "" {
        known := result.value.0 in processingSet;
        processingSet := processingSet - {result.value.0};
        waitFreshQueueSet := waitFreshQueueSet - {result.value.0};
      }
    }

    /** The handler compares worker ids with an event object, so it removes nobody and always forks. */
    method WorkerDead()
      requires Valid()
      modifies this`workers
      ensures Valid() && View() == Step(old(View()), Exit)
      ensures |workers| > 0 && workers[..|workers| - 1] == old(workers) && fresh(workers[|workers| - 1])
      ensures var worker := workers[|workers| - 1]; !worker.ready && worker.taskCount == 0 && worker.deviceTasks == map[]
    {
      ghost var m := View();
      var worker := new TaskWorker();
      workers := workers + [worker];
      assert Views(workers) == m.workers + [Worker(false, 0, map[])];
    }

    method ListenNotice(res: Option<Item>)
      modifies this`waitFreshQueue, this`waitFreshQueueSet, this`admitted
      ensures View() == if res.Some? then Step(old(View()), Arrive(res.value)) else old(View())
      ensures res.Some? ==>
        && waitFreshQueueSet == old(waitFreshQueueSet) + {res.value.taskId}
        && waitFreshQueue ==
           old(waitFreshQueue) + (if res.value.taskId in old(waitFreshQueueSet) then [] else [res.value])
    {
      if res.Some? {
        Enqueue(res.value);
      }
    }

    method Enqueue(item: Item)
      modifies this`waitFreshQueue, this`waitFreshQueueSet, this`admitted
      ensures View() == Step(old(View()), Arrive(item))
      ensures waitFreshQueueSet == old(waitFreshQueueSet) + {item.taskId}
      ensures waitFreshQueue == old(waitFreshQueue) + (if item.taskId in old(waitFreshQueueSet) then [] else [item])
    {
      if item.taskId !in waitFreshQueueSet {
        waitFreshQueue := waitFreshQueue + [item];
        waitFreshQueueSet := waitFreshQueueSet + {item.taskId};
        admitted := admitted + [item];
      }
    }

    /** One turn of the event loop: the handler that the event calls. */
    method Turn(e: Event)
      requires Valid()
      modifies this, Objects()
      ensures Valid() && View() == Step(old(View()), e)
      ensures fresh(Objects() - old(Objects()))
    {
      match e
      case Arrive(item) => ListenNotice(Some(item));
      case Check => CheckTask();
      case LoopTurn => if processing { ResumeLoop(); }
      case WorkerOnline(i) => if i < |workers| { WorkerOnline(i); }
      case Exit =>
        WorkerDead();
        assert forall w :: w in workers ==> w in workers[..|workers| - 1] || w == workers[|workers| - 1];
      case Done(k) =>
        if k < |out| && out[k].worker < |workers| {
          var known := TaskDone(out[k].worker, Some((out[k].item.taskId, out[k].item.deviceId)), Some(k));
        }
    }

    method Turns(events: seq<Event>)
      requires Valid()
      modifies this, Objects()
      ensures Valid() && View() == Run(old(View()), events)
      ensures fresh(Objects() - old(Objects()))
    {
      for i := 0 to |events|
        invariant Valid() && View() == Run(old(View()), events[..i])
        invariant fresh(Objects() - old(Objects()))
      {
        assert events[..i + 1][..i] == events[..i];
        Turn(events[i]);
      }
      assert events[..|events|] == events;
    }

    /** collection: the stored tasks in the order of their ids, as the cursor meets them; meanwhile(k): the
        turns of others while it moves to the k-th. */
    method LoadDelayScriptTaskData(collection: seq<(string, Task)>, unix: nat, meanwhile: nat -> seq<Event>)
      requires Valid()
      modifies this, Objects()
      ensures Valid() && View() == Run(old(View()), LoadTurns(collection, unix, meanwhile))
      ensures (forall k :: meanwhile(k) == []) ==>
        && AdmittedFrom(old(View()), View(), collection, unix)
        && forall id :: id in waitFreshQueueSet <==>
             id in old(waitFreshQueueSet) || (id != "" && StoredDue(collection, unix, id))
      ensures fresh(Objects() - old(Objects()))
    {
      ghost var m := View();
      for k := 0 to |collection|
        invariant Valid() && View() == Run(m, LoadTurns(collection[..k], unix, meanwhile))
        invariant fresh(Objects() - old(Objects()))
      {
        var (taskId, entity) := collection[k];
        Turns(meanwhile(k));
        if Due(entity, unix) && taskId != "" {
          Enqueue(Item(taskId, entity.deviceId));
        }
        LoadNext(m, collection, unix, meanwhile, k);
      }
      assert collection[..|collection|] == collection;
      if forall k :: meanwhile(k) == [] {
        LoadAdmitsExactly(m, collection, unix, meanwhile);
      }
    }
  }

  /** The device has one task less, and no entry once it has none; the other devices keep theirs. */
  predicate OneTaskLess(counts: map<string, int>, counts': map<string, int>, d: string) {
    && counts' - {d} == counts - {d}
    && (if d == "" || d !in counts then counts' == counts
        else if counts[d] == 0 || counts[d] == 1 then d !in counts'
        else d in counts' && counts'[d] == (if counts[d] < 0 then counts[d] else counts[d] - 1))
  }

  lemma LoadNext(m: Master, collection: seq<(string, Task)>, unix: nat, meanwhile: nat -> seq<Event>, k: nat)
    requires k < |collection|
    ensures Run(m, LoadTurns(collection[..k + 1], unix, meanwhile)) ==
      var m' := Run(Run(m, LoadTurns(collection[..k], unix, meanwhile)), meanwhile(k));
      if Due(collection[k].1, unix) && collection[k].0 != ""
      then Step(m', Arrive(Item(collection[k].0, collection[k].1.deviceId))) else m'
  {
    var upto := collection[..k + 1];
    assert |upto| - 1 == k && upto[k] == collection[k] && upto[..k] == collection[..k];
    var turns := LoadTurns(collection[..k], unix, meanwhile);
    RunConcat(m, turns, meanwhile(k));
    RunThen(m, turns + meanwhile(k), Arrive(Item(collection[k].0, collection[k].1.deviceId)));
  }

  lemma RunThen(m: Master, events: seq<Event>, e: Event)
    ensures Run(m, events + [e]) == Step(Run(m, events), e)
  {
    assert (events + [e])[..|events|] == events;
  }

  lemma {:induction false} RunConcat(m: Master, a: seq<Event>, b: seq<Event>)
    ensures Run(m, a + b) == Run(Run(m, a), b)
  {
    if b == [] {
      assert a + b == a;
    } else {
      assert a + b == (a + b[..|b| - 1]) + [b[|b| - 1]];
      RunThen(m, a + b[..|b| - 1], b[|b| - 1]);
      RunConcat(m, a, b[..|b| - 1]);
    }
  }

  /** The state once a prefix of the fresh items has been moved over, the loop started if any was. */
  ghost function AfterChunks(m: Master, moved: seq<Item>): Master {
    if moved == [] then m.(freshQueue := [])
    else MasterModel.HandleLoop(m.(freshQueue := [], waitQueue := m.waitQueue + moved))
  }

  lemma TakeChunk(moved: seq<Item>, data: seq<Item>, n: nat)
    requires n <= |data|
    ensures moved + data == moved + data[..n] + data[n..]
  {
    assert data == data[..n] + data[n..];
  }

  lemma AllChunks(m: Master, moved: seq<Item>, data: seq<Item>)
    requires m.freshQueue == moved + data && data == []
    ensures AfterChunks(m, moved) == Step(m, Check)
  {
    assert moved == m.freshQueue;
  }

  lemma DispatchIgnoresQueue(m: Master, queue: seq<Item>, item: Item, waited: nat)
    ensures Dispatch(m.(waitQueue := queue), item, waited) == Dispatch(m, item, waited).(waitQueue := queue)
  {
  }

  lemma RunLoopIgnoresTail(m: Master, tail: seq<Item>)
    requires m.waitQueue != [] && m.processing
    ensures RunLoop(m).processing
    ensures RunLoop(m.(waitQueue := m.waitQueue + tail))
         == RunLoop(m).(waitQueue := RunLoop(m).waitQueue + tail)
  {
    var q := m.waitQueue;
    assert (q + tail)[1..] == q[1..] + tail;
    var taken := m.(waitQueue := q[1..], sleeping := None, processingSet := m.processingSet + {q[0].taskId});
    DispatchIgnoresQueue(taken, q[1..] + tail, q[0], 0);
  }

  /** Chunk boundaries do not show: the loop takes the head before later chunks arrive and never looks
      at what stands behind it. */
  lemma NextChunk(m: Master, moved: seq<Item>, chunk: seq<Item>)
    requires chunk != []
    ensures AfterChunks(m, moved + chunk)
         == MasterModel.HandleLoop(AfterChunks(m, moved).(waitQueue := AfterChunks(m, moved).waitQueue + chunk))
  {
    assert m.waitQueue + (moved + chunk) == (m.waitQueue + moved) + chunk;
    if moved == [] {
      assert moved + chunk == chunk && m.waitQueue + moved == m.waitQueue;
    } else if !m.processing {
      RunLoopIgnoresTail(m.(freshQueue := [], waitQueue := m.waitQueue + moved, processing := true), chunk);
    }
  }
}
