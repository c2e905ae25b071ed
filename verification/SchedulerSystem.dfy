/** Master and workers together: a task is in flight at a worker exactly while the master has it assigned
    without Done.  Single flight at the master is what keeps runs of one task from overlapping, on which
    the retry budget rests. */
module SchedulerSystem {
  import opened Wrappers
  import opened TaskStore
  import M = MasterModel
  import MasterInvariant
  import MasterTheorems
  import L = Lifecycle

  datatype System = System(m: M.Master, life: L.Life)

  /** A worker's message handler sends Done once, when the flight is over; receipts follow assignments. */
  datatype Event = AtMaster(me: M.Event) | Elsewhere(le: L.Event)

  /** What the workers see of a step of the master from m to m'. */
  function Linked(m: M.Master, e: M.Event, m': M.Master): Option<L.Event> {
    if e.Done? && e.k < |m.out| then Some(L.Done(m.out[e.k].item.taskId))
    else if |m'.out| > |m.out| then
      var item := m'.out[|m'.out| - 1].item;
      Some(L.Receive(item.taskId, item.deviceId))
    else None
  }

  function LifeStep(life: L.Life, e: Option<L.Event>): L.Life {
    if e.Some? then L.Step(life, e.value) else life
  }

  predicate CanHappen(s: System, e: M.Event) {
    e.Done? ==> e.k < |s.m.out| && L.PhaseOf(s.life, s.m.out[e.k].item.taskId) == Some(L.Over)
  }

  function MasterStep(s: System, e: M.Event): System {
    if CanHappen(s, e) then System(M.Step(s.m, e), LifeStep(s.life, Linked(s.m, e, M.Step(s.m, e)))) else s
  }

  function Step(s: System, e: Event): System {
    match e
    case AtMaster(me) => MasterStep(s, me)
    case Elsewhere(le) => if le.Receive? || le.Done? then s else s.(life := L.Step(s.life, le))
  }

  function Run(start: System, events: seq<Event>): System {
    if events == [] then start
    else Step(Run(start, events[..|events| - 1]), events[|events| - 1])
  }

  function Initial(workerNumber: nat): System {
    System(M.Initial(workerNumber), L.EMPTY)
  }

  function Members(ids: multiset<string>): set<string> {
    set t | t in ids
  }

  /** In flight is assigned without Done. */
  predicate InStep(s: System) {
    s.life.flights.Keys == Members(M.OutIds(s.m.out))
  }

  ghost predicate Inv(s: System) {
    M.Inv(s.m) && L.Inv(s.life) && InStep(s)
  }

  lemma OutIsOnce(m: M.Master, id: string)
    requires M.Placed(m)
    ensures M.OutIds(m.out)[id] <= 1
  {
    assert multiset(m.processingSet)[id] <= 1;
  }

  /** An assigned task is not in flight yet, so no receipt is ever refused. */
  lemma AssignedIsNew(m: M.Master, m': M.Master, a: M.Assignment)
    requires M.Placed(m') && m'.out == m.out + [a]
    ensures a.item.taskId !in M.OutIds(m.out)
    ensures M.OutIds(m'.out) == M.OutIds(m.out) + multiset{a.item.taskId}
  {
    MasterInvariant.OutIdsConcat(m.out, [a]);
    assert [a][..0] == [];
    OutIsOnce(m', a.item.taskId);
  }

  lemma DoneLeaves(m: M.Master, k: nat)
    requires M.Placed(m) && k < |m.out|
    ensures var id := m.out[k].item.taskId;
      var rest := M.OutIds(m.out[..k] + m.out[k + 1..]);
      id !in rest && M.OutIds(m.out) == rest + multiset{id}
  {
    MasterInvariant.OutRemoved(m.out, k, None, None);
    OutIsOnce(m, m.out[k].item.taskId);
  }

  lemma DoneKeepsInStep(s: System, k: nat)
    requires M.Placed(s.m) && InStep(s) && k < |s.m.out|
    requires L.PhaseOf(s.life, s.m.out[k].item.taskId) == Some(L.Over)
    ensures L.Step(s.life, L.Done(s.m.out[k].item.taskId)).flights.Keys
         == Members(M.OutIds(s.m.out[..k] + s.m.out[k + 1..]))
  {
    var id := s.m.out[k].item.taskId;
    var rest := M.OutIds(s.m.out[..k] + s.m.out[k + 1..]);
    DoneLeaves(s.m, k);
    MembersWithout(rest, id);
    assert L.Step(s.life, L.Done(id)).flights == s.life.flights - {id};
  }

  lemma MembersWithout(rest: multiset<string>, id: string)
    requires id !in rest
    ensures Members(rest + multiset{id}) - {id} == Members(rest)
  {
  }

  lemma ReceiptKeepsInStep(s: System, m': M.Master, a: M.Assignment)
    requires InStep(s) && M.Placed(m') && m'.out == s.m.out + [a]
    ensures L.Step(s.life, L.Receive(a.item.taskId, a.item.deviceId)).flights.Keys == Members(M.OutIds(m'.out))
  {
    AssignedIsNew(s.m, m', a);
  }

  lemma LinkKeepsInStep(s: System, e: M.Event, m': M.Master)
    requires M.Placed(s.m) && M.Placed(m') && InStep(s) && CanHappen(s, e)
    requires if e.Done? then m'.out == s.m.out[..e.k] + s.m.out[e.k + 1..] else MasterTheorems.AtMostOneAssigned(s.m, m'.out)
    ensures LifeStep(s.life, Linked(s.m, e, m')).flights.Keys == Members(M.OutIds(m'.out))
  {
    if e.Done? {
      DoneKeepsInStep(s, e.k);
    } else if m'.out != s.m.out {
      var i, item :| MasterTheorems.AssignedBest(s.m, m'.out, i, item);
      ReceiptKeepsInStep(s, m', M.Assignment(i, item));
    }
  }

  lemma LifeStepKeepsInv(life: L.Life, e: Option<L.Event>)
    requires L.Inv(life)
    ensures L.Inv(LifeStep(life, e))
  {
    if e.Some? {
      L.StepKeepsInv(life, e.value);
    }
  }

  lemma MasterStepKeepsInv(s: System, e: M.Event)
    requires Inv(s)
    ensures Inv(MasterStep(s, e))
  {
    if CanHappen(s, e) {
      MasterInvariant.StepKeepsInv(s.m, e);
      MasterTheorems.StepOnLedger(s.m, e);
      LinkKeepsInStep(s, e, M.Step(s.m, e));
      LifeStepKeepsInv(s.life, Linked(s.m, e, M.Step(s.m, e)));
    }
  }

  lemma FlightsStay(life: L.Life, e: L.Event)
    requires !e.Receive? && !e.Done?
    ensures L.Step(life, e).flights.Keys == life.flights.Keys
  {
    if L.Enabled(life, e) {
      if L.OfTask(e) {
        RunLeavesFlights(life, e);
      } else if L.HandlerEnabled(life, e) {
        assert L.Step(life, e) == L.Handle(life, e);
      } else if L.CancelEnabled(life, e) {
        assert L.Step(life, e) == L.Cancel(life, e);
      }
    }
  }

  lemma RunLeavesFlights(life: L.Life, e: L.Event)
    requires L.Enabled(life, e) && L.OfTask(e) && !e.Receive? && !e.Done?
    ensures L.Apply(life, e).flights.Keys == life.flights.Keys
  {
    match e
    case TakeLock(t, token, ms) => assert L.Apply(life, e) == L.LockDevice(life, t, token, ms);
    case LoadTask(t) => assert L.Apply(life, e) == L.Load(life, t);
    case SaveRunning(t) => assert L.Apply(life, e) == L.Start(life, t);
    case SendOk(t) => assert L.Apply(life, e) == L.FinishSend(life, t);
    case SendFail(t, ms) => assert L.Apply(life, e) == L.FailSend(life, t, ms);
    case Abort(t) => assert L.Apply(life, e) == L.BreakOff(life, t);
    case _ =>
  }

  lemma {:induction false} RunKeepsInv(workerNumber: nat, events: seq<Event>)
    ensures Inv(Run(Initial(workerNumber), events))
  {
    if events == [] {
      MasterInvariant.InitialInv(workerNumber);
    } else {
      var s, e := Run(Initial(workerNumber), events[..|events| - 1]), events[|events| - 1];
      RunKeepsInv(workerNumber, events[..|events| - 1]);
      match e
      case AtMaster(me) => MasterStepKeepsInv(s, me);
      case Elsewhere(le) =>
        L.StepKeepsInv(s.life, le);
        if !le.Receive? && !le.Done? {
          FlightsStay(s.life, le);
        }
    }
  }

  /** Runs of one task never overlap: it is assigned at most once at a time, and it is in flight exactly
      while it is assigned. */
  lemma NoOverlap(workerNumber: nat, events: seq<Event>, t: string)
    ensures var s := Run(Initial(workerNumber), events);
      M.OutIds(s.m.out)[t] == if t in s.life.flights then 1 else 0
  {
    RunKeepsInv(workerNumber, events);
    OutIsOnce(Run(Initial(workerNumber), events).m, t);
  }

  /** The retry budget in the whole system, with nothing assumed about overlapping runs, and the account of
      the records: one more for every run of the task that broke off between its record and its task, and one
      for every step by which outdated write-backs of failure handlers and deletions set it back. */
  lemma {:induction false} RetryBudget(workerNumber: nat, events: seq<Event>, t: string)
    requires t in Run(Initial(workerNumber), events).life.db.tasks
    ensures var life := Run(Initial(workerNumber), events).life;
      var task, records, drift := life.db.tasks[t], L.RecordsOf(life.db.records, t), L.DriftOf(life, t);
      && L.Charged(life, t) <= MAX_RETRY_COUNT + 1 + drift
      && |records| <= MAX_RETRY_COUNT + 1 + |records * life.orphans| + drift
      && task.retryCount <= MAX_RETRY_COUNT + 1 + drift
      && (task.status == FailedWaitingRetry ==> task.retryCount <= MAX_RETRY_COUNT + drift)
      && (!task.isRetry ==> L.Charged(life, t) <= 1 + drift)
  {
    RunKeepsInv(workerNumber, events);
    var life := Run(Initial(workerNumber), events).life;
    assert L.TaskOk(life, t);
    L.BudgetOfInv(life.db.tasks[t], L.Charged(life, t), L.DriftOf(life, t), L.PhaseOf(life, t));
    L.RecordsSplit(life, t);
  }
}
