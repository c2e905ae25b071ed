/** How long an item waits for a worker: it is looked at eleven times, at its taking and at ten wake-ups, and
    the first look that finds a ready worker assigns it. */
module MasterWaiting {
  import opened Wrappers
  import opened WorkerSelection
  import opened MasterModel
  import opened MasterInvariant

  predicate SomeReady(m: Master) {
    exists i :: 0 <= i < |m.workers| && m.workers[i].ready
  }

  /** The event takes the item from the queue: the loop goes on with it, or a check of the fresh items starts
      the loop with it. */
  predicate Takes(m: Master, e: Event, item: Item) {
    || (e == LoopTurn && m.processing && m.sleeping.None? && m.waitQueue != [] && m.waitQueue[0] == item)
    || (e == Check && !m.processing && m.freshQueue != [] && m.freshQueue[0] == item)
  }

  function Bit(b: bool): nat {
    if b then 1 else 0
  }

  /** Whether a worker was ready at each turn of the loop in a run. */
  function Looks(m: Master, events: seq<Event>): seq<bool> {
    if events == [] then []
    else
      var init, last := events[..|events| - 1], events[|events| - 1];
      Looks(m, init) + if last == LoopTurn then [SomeReady(Run(m, init))] else []
  }

  /** The looks at an item that the event takes from the queue. */
  function LooksAt(m: Master, e: Event, events: seq<Event>): seq<bool> {
    [SomeReady(m)] + Looks(Step(m, e), events)
  }

  ghost predicate AssignedNow(m: Master, m': Master, item: Item) {
    m'.lost == m.lost &&
    exists i: nat :: i < |m.workers| && m.workers[i].ready && m'.out == m.out + [Assignment(i, item)]
  }

  lemma ReadyIff(m: Master)
    ensures Ready(m) == [] <==> !SomeReady(m)
  {
    ReadyAmongIs(m.workers, |m.workers|);
    if Ready(m) != [] {
      assert Ready(m)[0] in Ready(m);
    }
    if i: nat :| i < |m.workers| && m.workers[i].ready {
      assert i in Ready(m);
    }
  }

  /** One look at an item that has waited so often. */
  lemma Look(m: Master, item: Item, waited: nat)
    ensures var m' := Dispatch(m, item, waited);
      if waited >= 11 then m'.lost == m.lost + [item] && m'.out == m.out && m'.sleeping.None?
      else if SomeReady(m) then AssignedNow(m, m', item) && m'.sleeping.None?
      else m'.out == m.out && m'.lost == m.lost && m'.sleeping == Some((item, waited))
    ensures Dispatch(m, item, waited).processing == m.processing
  {
    ReadyIff(m);
    if waited < 11 && SomeReady(m) {
      ReadyAmongIs(m.workers, |m.workers|);
      SelectedIsListed(m.workers, Ready(m), item.deviceId);
      var i := SelectWorker(m.workers, Ready(m), item.deviceId);
      assert m.workers[i].ready && Dispatch(m, item, waited).out == m.out + [Assignment(i, item)];
    }
  }

  /** The taking of the item is the first look. */
  lemma FirstLook(m: Master, e: Event, item: Item)
    requires Inv(m) && Takes(m, e, item)
    ensures var m' := Step(m, e);
      if SomeReady(m) then AssignedNow(m, m', item) && m'.sleeping.None?
      else m'.out == m.out && m'.lost == m.lost && m'.sleeping == Some((item, 0)) && m'.processing
  {
    var q := m.waitQueue + m.freshQueue;
    var moved := if e == Check then m.(freshQueue := [], waitQueue := q, processing := true) else m;
    if e == Check {
      MoveKeeps(m, moved);
      assert q[0] == item;
    }
    TakeFirst(moved);
    var taken := moved.(waitQueue := moved.waitQueue[1..], sleeping := None,
                        processingSet := moved.processingSet + {item.taskId});
    Look(taken, item, 0);
    assert SomeReady(taken) == SomeReady(m);
    assert Step(m, e) == Dispatch(taken, item, 0);
  }

  lemma NextLook(m: Master, item: Item, n: nat)
    requires m.sleeping == Some((item, n)) && m.processing
    ensures var m' := Step(m, LoopTurn);
      if n >= 10 then m'.lost == m.lost + [item] && m'.out == m.out
      else if SomeReady(m) then AssignedNow(m, m', item)
      else m'.out == m.out && m'.lost == m.lost && m'.sleeping == Some((item, n + 1)) && m'.processing
  {
    Look(m, item, n + 1);
  }

  lemma BetweenLooks(m: Master, e: Event)
    requires m.sleeping.Some? && m.processing && e != LoopTurn
    ensures Step(m, e).sleeping == m.sleeping && Step(m, e).processing
  {
  }

  /** The loop waits with the item, which was looked at so often. */
  predicate WaitsAfter(m: Master, item: Item, looks: nat) {
    m.processing && m.sleeping.Some? && m.sleeping.value.0 == item && m.sleeping.value.1 + 1 == looks
  }

  /** One more event is at most one more look. */
  lemma LooksNext(m: Master, e: Event, events: seq<Event>)
    requires events != []
    ensures var init, last := events[..|events| - 1], events[|events| - 1];
      && LooksAt(m, e, events) == LooksAt(m, e, init) + (if last == LoopTurn then [SomeReady(Run(Step(m, e), init))] else [])
      && |LooksAt(m, e, events)| == |LooksAt(m, e, init)| + Bit(last == LoopTurn)
  {
  }

  lemma WaitsMore(before: Master, e: Event, after: Master, item: Item, looks: nat)
    requires WaitsAfter(before, item, looks) && after == Step(before, e)
    requires e == LoopTurn ==> !SomeReady(before) && looks <= 10
    ensures WaitsAfter(after, item, looks + Bit(e == LoopTurn))
  {
    if e == LoopTurn {
      NextLook(before, item, looks - 1);
    } else {
      BetweenLooks(before, e);
    }
  }

  /** Up to eleven looks that find nobody leave the item waiting, whatever happens in between. */
  lemma {:induction false} StillWaiting(m: Master, e: Event, events: seq<Event>, item: Item)
    requires Inv(m) && Takes(m, e, item)
    requires true !in LooksAt(m, e, events) && |LooksAt(m, e, events)| <= 11
    ensures WaitsAfter(Run(Step(m, e), events), item, |LooksAt(m, e, events)|)
  {
    if events == [] {
      FirstLook(m, e, item);
      assert LooksAt(m, e, events)[0] == SomeReady(m);
    } else {
      var init, last := events[..|events| - 1], events[|events| - 1];
      var looks, before := LooksAt(m, e, init), Run(Step(m, e), init);
      LooksNext(m, e, events);
      assert last == LoopTurn ==> LooksAt(m, e, events)[|looks|] == SomeReady(before);
      StillWaiting(m, e, init, item);
      WaitsMore(before, last, Run(Step(m, e), events), item, |looks|);
    }
  }

  /** The fate of an item taken from the queue, whatever events come between the looks: the first look among
      eleven that finds a ready worker assigns it to a ready worker; while looks among the eleven find nobody,
      it waits on; and after eleven that found nobody the twelfth turn gives it up, ready workers or not. */
  lemma {:induction false} ElevenLooks(m: Master, e: Event, events: seq<Event>, item: Item)
    requires Inv(m) && Takes(m, e, item) && (events == [] || events[|events| - 1] == LoopTurn)
    requires true !in LooksAt(m, e, events)[..|LooksAt(m, e, events)| - 1] && |LooksAt(m, e, events)| <= 12
    ensures var looks := LooksAt(m, e, events);
      var before := if events == [] then m else Run(Step(m, e), events[..|events| - 1]);
      var after := Run(Step(m, e), events);
      && (|looks| <= 11 && looks[|looks| - 1] ==> AssignedNow(before, after, item))
      && (|looks| <= 11 && !looks[|looks| - 1] ==>
            after.out == before.out && after.lost == before.lost && SleepingItems(after) == [item])
      && (|looks| == 12 ==> after.lost == before.lost + [item] && after.out == before.out)
  {
    var looks := LooksAt(m, e, events);
    if events == [] {
      FirstLook(m, e, item);
    } else {
      var init := events[..|events| - 1];
      assert looks == LooksAt(m, e, init) + [SomeReady(Run(Step(m, e), init))];
      assert LooksAt(m, e, init) == looks[..|looks| - 1];
      StillWaiting(m, e, init, item);
      NextLook(Run(Step(m, e), init), item, |looks| - 2);
    }
  }

  // ----- nothing else gives an item up

  /** The j-th event took the item, and the looks since then all found nobody. */
  ghost predicate WaitsSince(start: Master, events: seq<Event>, j: nat, item: Item, looks: nat) {
    && j < |events|
    && Takes(Run(start, events[..j]), events[j], item)
    && true !in LooksAt(Run(start, events[..j]), events[j], events[j + 1..])
    && |LooksAt(Run(start, events[..j]), events[j], events[j + 1..])| == looks
  }

  /** Since it was taken, the item was looked at so often, each time without a ready worker. */
  ghost predicate FoundNobody(start: Master, events: seq<Event>, item: Item, looks: nat) {
    exists j :: WaitsSince(start, events, j, item, looks)
  }

  lemma RunFrom(start: Master, events: seq<Event>, j: nat)
    requires j < |events|
    ensures Run(start, events[..j + 1]) == Step(Run(start, events[..j]), events[j])
  {
    assert events[..j + 1][..j] == events[..j];
  }

  lemma {:induction false} RunSplit(start: Master, events: seq<Event>, j: nat)
    requires j <= |events|
    ensures Run(start, events) == Run(Run(start, events[..j]), events[j..])
  {
    if j == |events| {
      assert events[..j] == events && events[j..] == [];
    } else {
      var init := events[..|events| - 1];
      RunSplit(start, init, j);
      assert init[..j] == events[..j] && init[j..] == events[j..][..|events| - j - 1];
    }
  }

  lemma WaitsOn(start: Master, events: seq<Event>, j: nat, item: Item, looks: nat)
    requires events != [] && WaitsSince(start, events[..|events| - 1], j, item, looks)
    requires events[|events| - 1] == LoopTurn ==> !SomeReady(Run(start, events[..|events| - 1]))
    ensures WaitsSince(start, events, j, item, looks + Bit(events[|events| - 1] == LoopTurn))
  {
    var n := |events| - 1;
    var init, m := events[..n], Run(start, events[..j]);
    assert init[..j] == events[..j] && init[j + 1..] == events[j + 1..][..n - j - 1];
    RunFrom(start, init, j);
    RunSplit(start, init, j + 1);
    assert events[j + 1..][n - j - 1] == events[n];
    LooksNext(m, events[j], events[j + 1..]);
  }

  /** What the loop waits with was taken before and looked at in vain ever since. */
  ghost predicate TakenBefore(start: Master, events: seq<Event>, sleeping: Option<(Item, nat)>) {
    sleeping.Some? ==> FoundNobody(start, events, sleeping.value.0, sleeping.value.1 + 1)
  }

  lemma {:induction false} SleepingSince(start: Master, events: seq<Event>)
    requires Inv(start) && start.sleeping.None?
    ensures TakenBefore(start, events, Run(start, events).sleeping)
  {
    if events != [] {
      var n := |events| - 1;
      SleepingSince(start, events[..n]);
      RunKeepsInv(start, events[..n]);
      SleepingNext(start, events);
    }
  }

  lemma SleepingNext(start: Master, events: seq<Event>)
    requires events != [] && Inv(Run(start, events[..|events| - 1]))
    requires TakenBefore(start, events[..|events| - 1], Run(start, events[..|events| - 1]).sleeping)
    ensures TakenBefore(start, events, Run(start, events).sleeping)
  {
    var m, m' := Run(start, events[..|events| - 1]), Run(start, events);
    if m'.sleeping.Some? {
      if m.sleeping.Some? {
        StillTaken(start, events, m, m');
      } else {
        NewlyTaken(start, events, m, m');
      }
    }
  }

  lemma StillTaken(start: Master, events: seq<Event>, m: Master, m': Master)
    requires events != [] && m == Run(start, events[..|events| - 1]) && Inv(m) && m' == Step(m, events[|events| - 1])
    requires m.sleeping.Some? && m'.sleeping.Some? && TakenBefore(start, events[..|events| - 1], m.sleeping)
    ensures TakenBefore(start, events, m'.sleeping)
  {
    WakesTo(m, events[|events| - 1], m');
    SleepsOn(start, events, m'.sleeping.value.0, m.sleeping.value.1 + 1, m'.sleeping.value.1 + 1);
  }

  lemma NewlyTaken(start: Master, events: seq<Event>, m: Master, m': Master)
    requires events != [] && m == Run(start, events[..|events| - 1]) && Inv(m) && m' == Step(m, events[|events| - 1])
    requires m.sleeping.None? && m'.sleeping.Some?
    ensures TakenBefore(start, events, m'.sleeping)
  {
    FallsAsleepIn(m, events[|events| - 1], m');
    JustTaken(start, events, m'.sleeping.value.0, m'.sleeping.value.1 + 1);
  }

  lemma WakesTo(m: Master, e: Event, m': Master)
    requires Inv(m) && m.sleeping.Some? && m' == Step(m, e) && m'.sleeping.Some?
    ensures m'.sleeping.value.0 == m.sleeping.value.0
    ensures m'.sleeping.value.1 == m.sleeping.value.1 + Bit(e == LoopTurn)
    ensures e == LoopTurn ==> !SomeReady(m)
  {
    Wakes(m, e);
  }

  lemma FallsAsleepIn(m: Master, e: Event, m': Master)
    requires Inv(m) && m.sleeping.None? && m' == Step(m, e) && m'.sleeping.Some?
    ensures m'.sleeping.value.1 == 0 && Takes(m, e, m'.sleeping.value.0) && !SomeReady(m)
  {
    AtRest(m, e);
    if e == LoopTurn {
      AsleepWith(m, e, m', m.waitQueue[0]);
    } else {
      AsleepWith(m, e, m', m.freshQueue[0]);
    }
  }

  lemma AsleepWith(m: Master, e: Event, m': Master, item: Item)
    requires Inv(m) && Takes(m, e, item) && m' == Step(m, e) && m'.sleeping.Some?
    ensures m'.sleeping.value.0 == item && m'.sleeping.value.1 == 0 && !SomeReady(m)
  {
    FirstLook(m, e, item);
  }

  lemma SleepsOn(start: Master, events: seq<Event>, item: Item, looks: nat, more: nat)
    requires events != [] && FoundNobody(start, events[..|events| - 1], item, looks)
    requires events[|events| - 1] == LoopTurn ==> !SomeReady(Run(start, events[..|events| - 1]))
    requires more == looks + Bit(events[|events| - 1] == LoopTurn)
    ensures FoundNobody(start, events, item, more)
  {
    var j :| WaitsSince(start, events[..|events| - 1], j, item, looks);
    WaitsOn(start, events, j, item, looks);
    assert WaitsSince(start, events, j, item, more);
  }

  lemma JustTaken(start: Master, events: seq<Event>, item: Item, looks: nat)
    requires events != [] && looks == 1
    requires var n := |events| - 1;
      Takes(Run(start, events[..n]), events[n], item) && !SomeReady(Run(start, events[..n]))
    ensures FoundNobody(start, events, item, looks)
  {
    var n := |events| - 1;
    assert events[n + 1..] == [];
    assert LooksAt(Run(start, events[..n]), events[n], []) == [SomeReady(Run(start, events[..n]))];
    assert WaitsSince(start, events, n, item, 1);
  }

  lemma Wakes(m: Master, e: Event)
    requires Inv(m) && m.sleeping.Some? && Step(m, e).sleeping.Some?
    ensures Step(m, e).sleeping.value.0 == m.sleeping.value.0
    ensures if e == LoopTurn then !SomeReady(m) && Step(m, e).sleeping.value.1 == m.sleeping.value.1 + 1
            else Step(m, e).sleeping == m.sleeping
  {
    if e == LoopTurn {
      Look(m, m.sleeping.value.0, m.sleeping.value.1 + 1);
    } else {
      BetweenLooks(m, e);
    }
  }

  /** A step of a loop that waits for nothing takes the next item, if there is one, or does nothing to the
      items. */
  lemma AtRest(m: Master, e: Event)
    requires Inv(m) && m.sleeping.None?
    ensures || (e == LoopTurn && m.waitQueue != [] && Takes(m, e, m.waitQueue[0]))
            || (e == Check && m.freshQueue != [] && Takes(m, e, m.freshQueue[0]))
            || (Step(m, e).sleeping.None? && (e == LoopTurn || e == Check ==> Step(m, e).lost == m.lost))
  {
  }

  /** The loop gives an item up only after eleven looks at it that found nobody. */
  lemma {:induction false} LostOnlyAfterEleven(workerNumber: nat, events: seq<Event>, item: Item)
    requires events != [] && (events[|events| - 1] == LoopTurn || events[|events| - 1] == Check)
    requires var n := |events| - 1;
      Run(Initial(workerNumber), events).lost == Run(Initial(workerNumber), events[..n]).lost + [item]
    ensures FoundNobody(Initial(workerNumber), events[..|events| - 1], item, 11)
  {
    var n := |events| - 1;
    var start := Initial(workerNumber);
    var m, e := Run(start, events[..n]), events[n];
    InitialInv(workerNumber);
    RunKeepsInv(start, events[..n]);
    SleepingSince(start, events[..n]);
    GivesUp(m, e, item);
  }

  lemma GivesUp(m: Master, e: Event, item: Item)
    requires Inv(m) && (e == LoopTurn || e == Check) && Step(m, e).lost == m.lost + [item]
    ensures m.sleeping == Some((item, 10))
  {
    if m.sleeping.Some? {
      WakesOrLoses(m, e, item);
    } else {
      AtRest(m, e);
      if e == LoopTurn && m.waitQueue != [] && Takes(m, e, m.waitQueue[0]) {
        FirstLook(m, e, m.waitQueue[0]);
      } else if e == Check && m.freshQueue != [] && Takes(m, e, m.freshQueue[0]) {
        FirstLook(m, e, m.freshQueue[0]);
      }
    }
  }

  lemma WakesOrLoses(m: Master, e: Event, item: Item)
    requires Inv(m) && m.sleeping.Some? && (e == LoopTurn || e == Check) && Step(m, e).lost == m.lost + [item]
    ensures m.sleeping == Some((item, 10))
  {
    if e == LoopTurn {
      NextLook(m, m.sleeping.value.0, m.sleeping.value.1);
      assert (m.lost + [item])[|m.lost|] == item;
    }
  }
}
