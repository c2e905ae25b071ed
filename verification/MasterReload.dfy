/** The reload of due tasks from the database: loadDelayScriptTaskData in
    src/modules/send-script-main/send-script-master.service.ts. */
module MasterReload {
  import opened TaskStore
  import opened MasterModel
  import opened MasterInvariant

  const DAY := 24 * 3600

  /** The query of a load at the given time. */
  predicate Due(task: Task, unix: nat) {
    task.status in {Waiting, FailedWaitingRetry} && task.nextExecTime <= unix <= task.nextExecTime + DAY
  }

  /** The turns of a load over the given stored tasks, in the order of their ids: each due one arrives when
      the cursor comes by it.  meanwhile(k): the turns of others while the cursor moves to the k-th. */
  function LoadTurns(collection: seq<(string, Task)>, unix: nat, meanwhile: nat -> seq<Event>): seq<Event> {
    if collection == [] then []
    else
      var k := |collection| - 1;
      var (id, task) := collection[k];
      var before := LoadTurns(collection[..k], unix, meanwhile) + meanwhile(k);
      if id != "" && Due(task, unix) then before + [Arrive(Item(id, task.deviceId))] else before
  }

  /** An outstanding assignment of the id is reported done. */
  predicate DoneOf(m: Master, e: Event, id: string) {
    e.Done? && Enabled(m, e) && m.out[e.k].item.taskId == id != ""
  }

  predicate ArrivalOf(e: Event, id: string) {
    e.Arrive? && e.item.taskId == id
  }

  /** The j-th of the first n events is a Done of the id, and the id does not arrive after it. */
  ghost predicate DoneAt(m: Master, events: seq<Event>, id: string, j: nat, n: nat) {
    && j < n <= |events|
    && DoneOf(Run(m, events[..j]), events[j], id)
    && forall l :: j < l < n ==> !ArrivalOf(events[l], id)
  }

  /** Some Done of the id comes after its last arrival. */
  ghost predicate TakenOut(m: Master, events: seq<Event>, id: string) {
    TakenOutBy(m, events, id, |events|)
  }

  ghost predicate TakenOutBy(m: Master, events: seq<Event>, id: string, n: nat) {
    exists j :: DoneAt(m, events, id, j, n)
  }

  lemma StepOnFresh(m: Master, e: Event, id: string)
    ensures id in Step(m, e).freshSet <==> ArrivalOf(e, id) || (id in m.freshSet && !DoneOf(m, e, id))
  {
  }

  lemma TakenOutNext(m: Master, events: seq<Event>, id: string, n: nat)
    requires n < |events|
    ensures TakenOutBy(m, events, id, n + 1) <==>
      !ArrivalOf(events[n], id) && (TakenOutBy(m, events, id, n) || DoneOf(Run(m, events[..n]), events[n], id))
  {
    if ArrivalOf(events[n], id) {
    } else if DoneOf(Run(m, events[..n]), events[n], id) {
      assert DoneAt(m, events, id, n, n + 1);
    } else if TakenOutBy(m, events, id, n) {
      var j :| DoneAt(m, events, id, j, n);
      assert DoneAt(m, events, id, j, n + 1);
    } else if TakenOutBy(m, events, id, n + 1) {
      var j :| DoneAt(m, events, id, j, n + 1);
      assert DoneAt(m, events, id, j, n);
    }
  }

  lemma {:induction false} InSetUpTo(m: Master, events: seq<Event>, id: string, i: nat, n: nat)
    requires i < n <= |events| && ArrivalOf(events[i], id)
    ensures id in Run(m, events[..n]).freshSet <==> !TakenOutBy(m, events, id, n)
  {
    assert events[..n][..n - 1] == events[..n - 1];
    StepOnFresh(Run(m, events[..n - 1]), events[n - 1], id);
    TakenOutNext(m, events, id, n - 1);
    if !ArrivalOf(events[n - 1], id) {
      InSetUpTo(m, events, id, i, n - 1);
    }
  }

  /** An id that arrived during a run is in the dedupe set at its end exactly when no Done of it came after
      its last arrival. */
  lemma InSetExactly(m: Master, events: seq<Event>, id: string)
    requires exists i :: 0 <= i < |events| && ArrivalOf(events[i], id)
    ensures id in Run(m, events).freshSet <==> !TakenOut(m, events, id)
  {
    var i :| 0 <= i < |events| && ArrivalOf(events[i], id);
    InSetUpTo(m, events, id, i, |events|);
    assert events[..|events|] == events;
  }

  lemma {:induction false} DueArrives(collection: seq<(string, Task)>, unix: nat, meanwhile: nat -> seq<Event>, k: nat)
    requires k < |collection| && collection[k].0 != "" && Due(collection[k].1, unix)
    ensures Arrive(Item(collection[k].0, collection[k].1.deviceId)) in LoadTurns(collection, unix, meanwhile)
  {
    if k < |collection| - 1 {
      DueArrives(collection[..|collection| - 1], unix, meanwhile, k);
    }
  }

  /** What a load achieves for a due task, whatever turns come while its cursor moves and afterwards: the
      id has arrived, so it is in the dedupe set, and then in exactly one place, unless a Done of it came
      after its last arrival. */
  lemma {:induction false} LoadIsComplete(m: Master, collection: seq<(string, Task)>, unix: nat,
                                          meanwhile: nat -> seq<Event>, more: seq<Event>, k: nat)
    requires Inv(m) && k < |collection| && collection[k].0 != "" && Due(collection[k].1, unix)
    ensures var id, events := collection[k].0, LoadTurns(collection, unix, meanwhile) + more;
      var m' := Run(m, events);
      && (id in m'.freshSet <==> !TakenOut(m, events, id))
      && (Ids(m'.freshQueue) + Ids(m'.waitQueue) + Ids(SleepingItems(m')) + OutIds(m'.out) + Ids(m'.lost))[id]
         == if TakenOut(m, events, id) then 0 else 1
  {
    var id, turns := collection[k].0, LoadTurns(collection, unix, meanwhile);
    DueArrives(collection, unix, meanwhile, k);
    var i :| 0 <= i < |turns| && turns[i] == Arrive(Item(id, collection[k].1.deviceId));
    assert ArrivalOf((turns + more)[i], id);
    InSetExactly(m, turns + more, id);
    RunKeepsInv(m, turns + more);
    var m' := Run(m, turns + more);
    assert multiset(m'.freshSet)[id] == if id in m'.freshSet then 1 else 0;
  }

  /** The c-th stored task waits, and its due time is past by at most a day. */
  predicate WaitsDue(collection: seq<(string, Task)>, unix: nat, c: nat) {
    && c < |collection|
    && (collection[c].1.status == Waiting || collection[c].1.status == FailedWaitingRetry)
    && unix - 86400 <= collection[c].1.nextExecTime <= unix
  }

  ghost predicate StoredDue(collection: seq<(string, Task)>, unix: nat, id: string) {
    exists c: nat :: WaitsDue(collection, unix, c) && collection[c].0 == id
  }

  lemma StoredDueNext(collection: seq<(string, Task)>, unix: nat, id: string)
    requires collection != []
    ensures var n := |collection| - 1;
      StoredDue(collection, unix, id) <==>
        StoredDue(collection[..n], unix, id) || (WaitsDue(collection, unix, n) && collection[n].0 == id)
  {
    var n := |collection| - 1;
    var init := collection[..n];
    if c: nat :| WaitsDue(init, unix, c) && init[c].0 == id {
      assert WaitsDue(collection, unix, c) && collection[c].0 == id;
    }
    if c: nat :| WaitsDue(collection, unix, c) && collection[c].0 == id {
      assert c < n ==> WaitsDue(init, unix, c) && init[c].0 == id;
    }
  }

  /** The item is of a stored task that waits and fell due within the last day. */
  ghost predicate OfWaiting(collection: seq<(string, Task)>, unix: nat, item: Item) {
    exists c: nat :: WaitsDue(collection, unix, c) && item == Item(collection[c].0, collection[c].1.deviceId)
  }

  /** The items that a run admitted: those of these stored tasks, with their devices. */
  ghost predicate AdmittedFrom(m: Master, m': Master, collection: seq<(string, Task)>, unix: nat) {
    && |m.admitted| <= |m'.admitted| && m'.admitted[..|m.admitted|] == m.admitted
    && forall k :: |m.admitted| <= k < |m'.admitted| ==>
         && m'.admitted[k].taskId !in m.freshSet
         && OfWaiting(collection, unix, m'.admitted[k])
  }

  lemma AdmittedNext(m: Master, m': Master, collection: seq<(string, Task)>, unix: nat)
    requires collection != [] && AdmittedFrom(m, m', collection[..|collection| - 1], unix) && m.freshSet <= m'.freshSet
    ensures AdmittedFrom(m, m', collection, unix)
    ensures var n := |collection| - 1;
      WaitsDue(collection, unix, n) ==>
        AdmittedFrom(m, Admit(m', Item(collection[n].0, collection[n].1.deviceId)), collection, unix)
  {
    var n := |collection| - 1;
    forall k | |m.admitted| <= k < |m'.admitted|
      ensures OfWaiting(collection, unix, m'.admitted[k])
    {
      var init := collection[..n];
      assert OfWaiting(init, unix, m'.admitted[k]);
      var c: nat :| WaitsDue(init, unix, c) && m'.admitted[k] == Item(init[c].0, init[c].1.deviceId);
      assert WaitsDue(collection, unix, c);
    }
    if WaitsDue(collection, unix, n) {
      var item := Item(collection[n].0, collection[n].1.deviceId);
      assert Admit(m', item).admitted[..|m'.admitted|] == m'.admitted;
    }
  }

  /** What a load takes in, exactly: an id is in the dedupe set afterwards if it was before or stands in the
      collection, nonblank, with a task that waits and fell due within the last day; and what it admits are
      such tasks that were not in the set, with their devices. */
  lemma {:induction false} LoadAdmitsExactly(m: Master, collection: seq<(string, Task)>, unix: nat,
                                             meanwhile: nat -> seq<Event>)
    requires forall k :: meanwhile(k) == []
    ensures var m' := Run(m, LoadTurns(collection, unix, meanwhile));
      && (forall id :: id in m'.freshSet <==> id in m.freshSet || (id != "" && StoredDue(collection, unix, id)))
      && AdmittedFrom(m, m', collection, unix)
      && m' == m.(freshSet := m'.freshSet, freshQueue := m'.freshQueue, admitted := m'.admitted)
      && m'.freshQueue == m.freshQueue + m'.admitted[|m.admitted|..]
  {
    if collection == [] {
      assert forall id :: !StoredDue([], unix, id);
    } else {
      var n := |collection| - 1;
      var init := collection[..n];
      LoadAdmitsExactly(m, init, unix, meanwhile);
      AdmittedNext(m, Run(m, LoadTurns(init, unix, meanwhile)), collection, unix);
      LoadEnds(m, collection, unix, meanwhile);
      forall id ensures StoredDue(collection, unix, id) <==>
        StoredDue(init, unix, id) || (WaitsDue(collection, unix, n) && collection[n].0 == id)
      {
        StoredDueNext(collection, unix, id);
      }
    }
  }

  lemma LoadEnds(m: Master, collection: seq<(string, Task)>, unix: nat, meanwhile: nat -> seq<Event>)
    requires collection != [] && forall k :: meanwhile(k) == []
    ensures var n := |collection| - 1;
      var before := Run(m, LoadTurns(collection[..n], unix, meanwhile));
      Run(m, LoadTurns(collection, unix, meanwhile)) ==
        if collection[n].0 != "" && WaitsDue(collection, unix, n)
        then Admit(before, Item(collection[n].0, collection[n].1.deviceId)) else before
  {
    var n := |collection| - 1;
    var turns := LoadTurns(collection[..n], unix, meanwhile);
    assert turns + meanwhile(n) == turns;
    assert (turns + [Arrive(Item(collection[n].0, collection[n].1.deviceId))])[..|turns|] == turns;
  }

  /** When loads are at most a day apart, every due time between a day before the first load and the last
      load falls into the window of some load, and at that load the waiting task is taken in. */
  lemma {:induction false} LoadsLeaveNoGap(loads: seq<nat>, task: Task)
    requires loads != [] && forall i :: 0 <= i < |loads| - 1 ==> loads[i] <= loads[i + 1] <= loads[i] + DAY
    requires loads[0] <= task.nextExecTime + DAY && task.nextExecTime <= loads[|loads| - 1]
    requires task.status in {Waiting, FailedWaitingRetry}
    ensures exists i :: 0 <= i < |loads| && Due(task, loads[i])
  {
    var last := |loads| - 1;
    if loads[last] <= task.nextExecTime + DAY {
      assert Due(task, loads[last]);
    } else {
      LoadsLeaveNoGap(loads[..last], task);
      var i :| 0 <= i < last && Due(task, loads[..last][i]);
      assert Due(task, loads[i]);
    }
  }
}
