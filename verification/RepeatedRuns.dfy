/** Runs of the whole system, master and reload included, that show that two bounds are needed: two kinds of
    rounds that collect execution records without end. */
module RepeatedRuns {
  import opened Wrappers
  import opened Leases
  import opened TaskStore
  import opened WorkerSelection
  import MasterReload
  import M = MasterModel
  import L = Lifecycle
  import S = SchedulerSystem

  const ITEM := M.Item("t", "d")
  const TASK := Task("d", true, 0, Waiting, false, 0, 0, 0, 0)

  /** The single worker is ready and nothing is under way. */
  predicate Idle(m: M.Master) {
    && m.workers == [Worker(true, 0, map[])] && m.freshSet == {} && m.processingSet == {}
    && m.freshQueue == [] && m.waitQueue == [] && m.out == [] && !m.processing && m.sleeping.None?
  }

  predicate Busy(m: M.Master) {
    && m.workers == [Worker(true, 1, map["d" := 1])] && m.freshSet == {"t"} && m.processingSet == {"t"}
    && m.freshQueue == [] && m.waitQueue == [] && m.out == [M.Assignment(0, ITEM)] && !m.processing && m.sleeping.None?
  }

  lemma RunThen(s: S.System, events: seq<S.Event>, e: S.Event)
    ensures S.Run(s, events + [e]) == S.Step(S.Run(s, events), e)
  {
    assert (events + [e])[..|events|] == events;
  }

  lemma {:induction false} RunConcat(s: S.System, a: seq<S.Event>, b: seq<S.Event>)
    ensures S.Run(s, a + b) == S.Run(S.Run(s, a), b)
  {
    if b == [] {
      assert a + b == a;
    } else {
      var init, last := b[..|b| - 1], b[|b| - 1];
      assert a + b == (a + init) + [last] && b == init + [last];
      RunConcat(s, a, init);
      RunThen(s, a + init, last);
      RunThen(S.Run(s, a), init, last);
    }
  }

  lemma RunThree(s: S.System, a: S.Event, b: S.Event, c: S.Event)
    ensures S.Run(s, [a, b, c]) == S.Step(S.Step(S.Step(s, a), b), c)
  {
    assert [] + [a] == [a] && [a] + [b] == [a, b] && [a, b] + [c] == [a, b, c];
    RunThen(s, [], a);
    RunThen(s, [a], b);
    RunThen(s, [a, b], c);
  }

  // ----- the master hands the task out and gets it back

  lemma Moved(m: M.Master)
    requires Idle(m)
    ensures var m1 := M.Step(m, M.Arrive(ITEM));
      && m1 == m.(freshSet := {"t"}, freshQueue := [ITEM], admitted := m.admitted + [ITEM])
      && M.Step(m1, M.Check) ==
         M.Dispatch(m1.(freshQueue := [], waitQueue := [], processing := true, processingSet := {"t"}), ITEM, 0)
  {
    var m1 := M.Step(m, M.Arrive(ITEM));
    assert m.waitQueue + m1.freshQueue == [ITEM] && [ITEM][1..] == [];
    assert m.processingSet + {"t"} == {"t"};
  }

  lemma OnlyOneToSelect(ws: seq<Worker>)
    requires ws == [Worker(true, 0, map[])]
    ensures ReadyAmong(ws, 1) == [0] && SelectWorker(ws, [0], "d") == 0
  {
    assert ReadyAmong(ws, 0) == [];
    assert [0][..0] == [] && WithoutDevice(ws, [], "d") == [];
    assert WithoutDevice(ws, [0], "d") == [0];
  }

  lemma FirstIsChosen(m: M.Master)
    requires m.workers == [Worker(true, 0, map[])] && m.out == []
    ensures M.Dispatch(m, ITEM, 0) == m.(workers := [Worker(true, 1, map["d" := 1])], sleeping := None,
                                         out := [M.Assignment(0, ITEM)], handled := m.handled + [ITEM])
  {
    OnlyOneToSelect(m.workers);
    assert M.Ready(m) == [0];
    assert M.Dispatch(m, ITEM, 0) == M.Assign(m, 0, ITEM);
    assert M.Loaded(m.workers[0], "d") == Worker(true, 1, map["d" := 1]);
  }

  lemma HandedOut(m: M.Master)
    requires Idle(m)
    ensures var m1 := M.Step(m, M.Arrive(ITEM));
      var m2 := M.Step(m1, M.Check);
      && m1.out == [] && m2.out == [M.Assignment(0, ITEM)] && M.Step(m2, M.LoopTurn).out == m2.out
      && Busy(M.Step(m2, M.LoopTurn))
  {
    Moved(m);
    var m1 := M.Step(m, M.Arrive(ITEM));
    FirstIsChosen(m1.(freshQueue := [], waitQueue := [], processing := true, processingSet := {"t"}));
  }

  lemma TakenBack(m: M.Master)
    requires Busy(m)
    ensures Idle(M.Step(m, M.Done(0)))
  {
    var d := map["d" := 1];
    assert d["d" := 0] - {"d"} == map[];
    assert M.Unloaded(m.workers[0], "d") == Worker(true, 0, map[]);
    assert m.out[..0] + m.out[1..] == [];
    assert m.processingSet - {"t"} == {} && m.freshSet - {"t"} == {};
  }


  /** The reload's arrival, the move of fresh items and the end of the loop. */
  const HANDOUT := [S.AtMaster(M.Arrive(ITEM)), S.AtMaster(M.Check), S.AtMaster(M.LoopTurn)]

  lemma HandedToWorker(s: S.System)
    requires Idle(s.m) && "t" !in s.life.flights
    ensures var s' := S.Run(s, HANDOUT);
      Busy(s'.m) && s'.life == s.life.(flights := s.life.flights["t" := L.Flight("d", L.Received)])
  {
    HandedOut(s.m);
    var m1 := M.Step(s.m, M.Arrive(ITEM));
    var m2 := M.Step(m1, M.Check);
    RunThree(s, S.AtMaster(M.Arrive(ITEM)), S.AtMaster(M.Check), S.AtMaster(M.LoopTurn));
    var s1 := S.Step(s, S.AtMaster(M.Arrive(ITEM)));
    assert s1 == S.System(m1, s.life);
    assert S.Linked(m1, M.Check, m2) == Some(L.Receive("t", "d"));
    assert S.Step(s1, S.AtMaster(M.Check)) == S.System(m2, L.Step(s.life, L.Receive("t", "d")));
    assert S.Linked(m2, M.LoopTurn, M.Step(m2, M.LoopTurn)) == None;
  }

  lemma LifeSteps(s: S.System, a: L.Event, b: L.Event, c: L.Event)
    requires !a.Receive? && !a.Done? && !b.Receive? && !b.Done? && !c.Receive? && !c.Done?
    ensures S.Run(s, [S.Elsewhere(a), S.Elsewhere(b), S.Elsewhere(c)])
         == s.(life := L.Step(L.Step(L.Step(s.life, a), b), c))
  {
    RunThree(s, S.Elsewhere(a), S.Elsewhere(b), S.Elsewhere(c));
  }

  lemma DoneSteps(s: S.System, a: L.Event, c: L.Event)
    requires !a.Receive? && !a.Done? && !c.Receive? && !c.Done?
    requires Busy(s.m) && L.PhaseOf(L.Step(s.life, a), "t") == Some(L.Over)
    ensures var s' := S.Run(s, [S.Elsewhere(a), S.AtMaster(M.Done(0)), S.Elsewhere(c)]);
      Idle(s'.m) && s'.life == L.Step(L.Step(L.Step(s.life, a), L.Done("t")), c)
  {
    RunThree(s, S.Elsewhere(a), S.AtMaster(M.Done(0)), S.Elsewhere(c));
    TakenBack(s.m);
  }

  /** LifeSteps for events whose effect is known. */
  lemma LifeBecomes(s: S.System, a: L.Event, b: L.Event, c: L.Event, life: L.Life)
    requires !a.Receive? && !a.Done? && !b.Receive? && !b.Done? && !c.Receive? && !c.Done?
    requires L.Step(L.Step(L.Step(s.life, a), b), c) == life
    ensures S.Run(s, [S.Elsewhere(a), S.Elsewhere(b), S.Elsewhere(c)]) == S.System(s.m, life)
  {
    LifeSteps(s, a, b, c);
  }

  lemma DoneBecomes(s: S.System, a: L.Event, c: L.Event, life: L.Life)
    requires !a.Receive? && !a.Done? && !c.Receive? && !c.Done?
    requires Busy(s.m) && L.PhaseOf(L.Step(s.life, a), "t") == Some(L.Over)
    requires L.Step(L.Step(L.Step(s.life, a), L.Done("t")), c) == life
    ensures var s' := S.Run(s, [S.Elsewhere(a), S.AtMaster(M.Done(0)), S.Elsewhere(c)]);
      Idle(s'.m) && s'.life == life
  {
    DoneSteps(s, a, c);
  }

  // ----- what a round does to the task

  /** The i-th round begins at this time in milliseconds, when the lock of the one before has run out. */
  function RoundAt(i: nat): nat {
    i * L.LOCK_TTL_MS
  }

  /** The failure of the i-th round is reported so that the retry is due when the next one begins. */
  function ReportAt(i: nat): nat {
    RoundAt(i) + L.LOCK_TTL_MS - RETRY_INTERVAL * 1000
  }

  function RecordId(i: nat): (id: string)
    ensures |id| == i + 1
  {
    seq(i + 1, k => 'a')
  }

  predicate Retryable(task: Task) {
    task.isRetry && task.retryCount == 0 && !task.isDeleted && task.waitTimeoutUnix == 0 && task.deviceId == "d"
  }

  /** Before the i-th round: the task, with n records so far, is due for a reload and its device free. */
  predicate Waits(life: L.Life, i: nat, n: nat) {
    && life.flights == map[] && life.handlings == map[]
    && life.db.tasks.Keys == {"t"} && Retryable(life.db.tasks["t"])
    && MasterReload.Due(life.db.tasks["t"], Unix(RoundAt(i)))
    && !Live(life.db.locks, "d", RoundAt(i))
    && |L.RecordsOf(life.db.records, "t")| == n
    && (forall r :: r in life.db.records ==> |r| <= n)
    && (n > 0 ==> RecordId(n - 1) in L.RecordsOf(life.db.records, "t"))
  }

  /** A run of the task can begin at the time, with a new record. */
  predicate Startable(life: L.Life, ms: nat, record: string) {
    && life.db.tasks.Keys == {"t"} && L.Runnable(life.db.tasks["t"]) && life.db.tasks["t"].waitTimeoutUnix == 0
    && !Live(life.db.locks, "d", ms) && record !in life.db.records && record != ""
  }

  function Received(life: L.Life): L.Life {
    life.(flights := map["t" := L.Flight("d", L.Received)])
  }

  /** The run has taken the lock, loaded the task and saved its record. */
  function Recorded(life: L.Life, i: nat, n: nat): L.Life
    requires "t" in life.db.tasks
  {
    var task := life.db.tasks["t"];
    life.(flights := map["t" := L.Flight("d", L.Recorded(task, RecordId(n)))],
          db := Db(life.db.tasks, life.db.records[RecordId(n) := L.NewRecord("t", task, 1)],
                   life.db.order + [RecordId(n)], life.db.locks["d" := Entry(1, RoundAt(i) + L.LOCK_TTL_MS)]))
  }

  lemma Locks(life: L.Life, ms: nat)
    requires L.PhaseOf(life, "t") == Some(L.Received) && life.flights == Received(life).flights
    requires !Live(life.db.locks, "d", ms)
    ensures L.Step(life, L.TakeLock("t", 1, ms)) ==
      life.(flights := map["t" := L.Flight("d", L.Locked(1))],
            db := life.db.(locks := life.db.locks["d" := Entry(1, ms + L.LOCK_TTL_MS)]))
  {
  }

  lemma Loads(life: L.Life)
    requires life.flights == map["t" := L.Flight("d", L.Locked(1))]
    requires "t" in life.db.tasks && L.Runnable(life.db.tasks["t"])
    ensures L.Step(life, L.LoadTask("t")) ==
      life.(flights := map["t" := L.Flight("d", L.Loaded(life.db.tasks["t"], 1))])
  {
  }

  lemma Records(life: L.Life, task: Task, record: string, ms: nat)
    requires life.flights == map["t" := L.Flight("d", L.Loaded(task, 1))]
    requires task.waitTimeoutUnix == 0 && record !in life.db.records && record != ""
    ensures L.Step(life, L.Proceed("t", record, ms)) ==
      life.(flights := map["t" := L.Flight("d", L.Recorded(task, record))],
            db := life.db.(records := life.db.records[record := L.NewRecord("t", task, 1)],
                           order := life.db.order + [record]))
  {
  }

  /** A handler of one record of the task that nobody interrupts makes the task wait for its retry. */
  lemma Reports(life: L.Life, r: string, ms: nat)
    requires life.handlings == map[0 := L.Found({r}, FoundRecords(life.db, {r}))]
    requires r in L.RecordsOf(life.db.records, "t") && "t" in life.db.tasks && Retryable(life.db.tasks["t"])
    requires life.db.tasks["t"].status != Failed
    ensures var found := FoundRecords(life.db, {r});
      L.Step(life, L.FindTasks(0)) == life.(handlings := map[0 := L.Read({r}, found, map["t" := life.db.tasks["t"]])])
  {
    var found := FoundRecords(life.db, {r});
    assert found.Keys == {r};
    assert TasksOf(Seen(life.db, found), {r}) == {"t"} by {
      assert r in found && found[r].taskId == Some("t");
    }
    assert ReadTasks(life.db, found) == map["t" := life.db.tasks["t"]];
  }

  function Retried(task: Task, ms: nat): Task {
    task.(isRetry := true, retryCount := 0, isDeleted := false, status := FailedWaitingRetry, nextExecTime := Unix(ms) + RETRY_INTERVAL)
  }

  lemma SaveStep(life: L.Life, ms: nat)
    requires 0 in life.handlings && life.handlings[0].Read?
    ensures L.Step(life, L.SaveFailures(0, ms)) == L.SaveHandled(life, 0, ms)
  {
  }

  lemma Saves(life: L.Life, r: string, found: map<string, ExecRecord>, read: Task, ms: nat)
    requires life.handlings == map[0 := L.Read({r}, found, map["t" := read])]
    requires life.db.tasks.Keys == {"t"} && Retryable(read) && read.status != Failed && life.db.tasks["t"].isRetry
    ensures L.SaveHandled(life, 0, ms) ==
      life.(db := life.db.(tasks := map["t" := Retried(life.db.tasks["t"], ms)],
                           records := FailRecords(life.db.records, {r}, ms)),
            handlings := map[0 := L.Saved(found)],
            drift := map["t" := L.DriftOf(life, "t") + life.db.tasks["t"].retryCount])
  {
    var tasks, copies := life.db.tasks, map["t" := read];
    assert WriteTasks(tasks, copies, ms) == map["t" := Retried(tasks["t"], ms)];
    assert L.Moved(tasks["t"], read) == tasks["t"].retryCount;
    assert L.SaveHandled(life, 0, ms).drift == map["t" := L.DriftOf(life, "t") + tasks["t"].retryCount];
  }

  lemma Releases(life: L.Life, found: map<string, ExecRecord>, ms: nat)
    requires life.handlings == map[0 := L.Saved(found)]
    ensures L.Step(life, L.ReleaseLocksOf(0, ms)) == life.(db := ReleaseFound(life.db, found, ms), handlings := map[])
    ensures forall d, later :: Live(ReleaseFound(life.db, found, ms).locks, d, later) ==> Live(life.db.locks, d, later)
  {
  }

  /** The records of the task after one more, and after a failure report. */
  lemma OneRecordMore(life: L.Life, i: nat, n: nat, id: string, ms: nat)
    requires Waits(life, i, n)
    ensures var records := life.db.records[RecordId(n) := L.NewRecord("t", life.db.tasks["t"], 1)];
      && |L.RecordsOf(records, "t")| == n + 1 && RecordId(n) in L.RecordsOf(records, "t")
      && L.RecordsOf(records, "t") == L.RecordsOf(life.db.records, "t") + {RecordId(n)}
      && (id in records ==> ReportedKeeps(records, FailRecords(records, {id}, ms)))
      && (forall r :: r in records ==> |r| <= n + 1)
  {
    var records := life.db.records[RecordId(n) := L.NewRecord("t", life.db.tasks["t"], 1)];
    assert L.RecordsOf(records, "t") == L.RecordsOf(life.db.records, "t") + {RecordId(n)};
    if id in records {
      assert FailRecords(records, {id}, ms).Keys == records.Keys;
    }
  }

  predicate ReportedKeeps(records: map<string, ExecRecord>, records': map<string, ExecRecord>) {
    records'.Keys == records.Keys && L.RecordsOf(records', "t") == L.RecordsOf(records, "t")
  }

  // ----- runs that break off

  function LockAndRecord(i: nat, n: nat): seq<S.Event> {
    [S.Elsewhere(L.TakeLock("t", 1, RoundAt(i))), S.Elsewhere(L.LoadTask("t")),
     S.Elsewhere(L.Proceed("t", RecordId(n), RoundAt(i)))]
  }

  function BreakAndFind(i: nat): seq<S.Event> {
    [S.Elsewhere(L.Abort("t")), S.AtMaster(M.Done(0)), S.Elsewhere(L.FindRecords(0, {RecordId(i)}))]
  }

  function Report(i: nat): seq<S.Event> {
    [S.Elsewhere(L.FindTasks(0)), S.Elsewhere(L.SaveFailures(0, ReportAt(i))),
     S.Elsewhere(L.ReleaseLocksOf(0, ReportAt(i)))]
  }

  /** A reload, a run that breaks off between its record and its task, and the failure of that record. */
  function BrokenRound(i: nat): seq<S.Event> {
    HANDOUT + LockAndRecord(i, i) + BreakAndFind(i) + Report(i)
  }

  lemma RecordedByRun(s: S.System, life: L.Life, i: nat, n: nat)
    requires Startable(life, RoundAt(i), RecordId(n)) && s.life == Received(life)
    ensures S.Run(s, LockAndRecord(i, n)) == S.System(s.m, Recorded(life, i, n))
  {
    LifeSteps(s, L.TakeLock("t", 1, RoundAt(i)), L.LoadTask("t"), L.Proceed("t", RecordId(n), RoundAt(i)));
    RecordedLife(life, i, n);
  }

  lemma RecordedLife(life: L.Life, i: nat, n: nat)
    requires Startable(life, RoundAt(i), RecordId(n))
    ensures L.Step(L.Step(L.Step(Received(life), L.TakeLock("t", 1, RoundAt(i))), L.LoadTask("t")),
                   L.Proceed("t", RecordId(n), RoundAt(i))) == Recorded(life, i, n)
  {
    Locks(Received(life), RoundAt(i));
    var locked := L.Step(Received(life), L.TakeLock("t", 1, RoundAt(i)));
    Loads(locked);
    Records(L.Step(locked, L.LoadTask("t")), life.db.tasks["t"], RecordId(n), RoundAt(i));
  }

  /** The run broke off, and a handler found its record. */
  function BrokenOff(life: L.Life, r: string): L.Life {
    life.(flights := map[], orphans := life.orphans + {r}, handlings := map[0 := L.Found({r}, FoundRecords(life.db, {r}))])
  }

  lemma BrokenLife(life: L.Life, task: Task, r: string)
    requires life.flights == map["t" := L.Flight("d", L.Recorded(task, r))] && life.handlings == map[]
    ensures L.PhaseOf(L.Step(life, L.Abort("t")), "t") == Some(L.Over)
    ensures L.Step(L.Step(L.Step(life, L.Abort("t")), L.Done("t")), L.FindRecords(0, {r})) == BrokenOff(life, r)
  {
    var over := L.Step(life, L.Abort("t"));
    assert over == L.BreakOff(life, "t");
    var done := L.Step(over, L.Done("t"));
    assert done == over.(flights := map[]);
    FindsRecord(done, r);
  }

  lemma BrokenAndFound(s: S.System, life: L.Life, i: nat)
    requires "t" in life.db.tasks && life.handlings == map[] && s.life == Recorded(life, i, i) && Busy(s.m)
    ensures var s' := S.Run(s, BreakAndFind(i)); Idle(s'.m) && s'.life == BrokenOff(s.life, RecordId(i))
  {
    BrokenLife(s.life, life.db.tasks["t"], RecordId(i));
    DoneBecomes(s, L.Abort("t"), L.FindRecords(0, {RecordId(i)}), BrokenOff(s.life, RecordId(i)));
  }

  /** The life cycle after a handler of the record that nobody interrupts. */
  function AfterReport(life: L.Life, r: string, ms: nat): L.Life
    requires "t" in life.db.tasks
  {
    var found := FoundRecords(life.db, {r});
    var saved := life.db.(tasks := map["t" := Retried(life.db.tasks["t"], ms)], records := FailRecords(life.db.records, {r}, ms));
    life.(db := ReleaseFound(saved, found, ms), drift := map["t" := L.DriftOf(life, "t")], handlings := map[])
  }

  lemma ReportedLife(life: L.Life, r: string, ms: nat)
    requires life.handlings == map[0 := L.Found({r}, FoundRecords(life.db, {r}))]
    requires r in L.RecordsOf(life.db.records, "t") && life.db.tasks.Keys == {"t"}
    requires Retryable(life.db.tasks["t"]) && life.db.tasks["t"].status != Failed
    ensures L.Step(L.Step(L.Step(life, L.FindTasks(0)), L.SaveFailures(0, ms)), L.ReleaseLocksOf(0, ms))
         == AfterReport(life, r, ms)
  {
    Reports(life, r, ms);
    var read := L.Step(life, L.FindTasks(0));
    SaveStep(read, ms);
    Saves(read, r, FoundRecords(life.db, {r}), life.db.tasks["t"], ms);
    Releases(L.SaveHandled(read, 0, ms), FoundRecords(life.db, {r}), ms);
  }

  lemma Reported(s: S.System, r: string, i: nat)
    requires s.life.handlings == map[0 := L.Found({r}, FoundRecords(s.life.db, {r}))]
    requires r in L.RecordsOf(s.life.db.records, "t") && s.life.db.tasks.Keys == {"t"}
    requires Retryable(s.life.db.tasks["t"]) && s.life.db.tasks["t"].status != Failed
    ensures S.Run(s, Report(i)) == S.System(s.m, AfterReport(s.life, r, ReportAt(i)))
  {
    ReportedLife(s.life, r, ReportAt(i));
    LifeBecomes(s, L.FindTasks(0), L.SaveFailures(0, ReportAt(i)), L.ReleaseLocksOf(0, ReportAt(i)),
                AfterReport(s.life, r, ReportAt(i)));
  }

  lemma ReportFreesOnly(life: L.Life, r: string, ms: nat)
    requires "t" in life.db.tasks
    ensures forall d, later :: Live(AfterReport(life, r, ms).db.locks, d, later) ==> Live(life.db.locks, d, later)
  {
  }

  lemma LockRunsOut(i: nat, locks: Store, locks': Store)
    requires locks["d" := Entry(1, RoundAt(i) + L.LOCK_TTL_MS)] == locks'
    ensures !Live(locks', "d", RoundAt(i + 1))
  {
  }

  lemma DueAgain(task: Task, i: nat)
    requires Retryable(task)
    ensures Retryable(Retried(task, ReportAt(i)))
    ensures MasterReload.Due(Retried(task, ReportAt(i)), Unix(RoundAt(i + 1)))
  {
    assert Unix(ReportAt(i)) + RETRY_INTERVAL == Unix(RoundAt(i + 1));
  }

  /** Between the rounds of runs that break off: all records are of such runs. */
  predicate Broken(s: S.System, i: nat) {
    Idle(s.m) && Waits(s.life, i, i) && L.DriftOf(s.life, "t") == 0 && L.RecordsOf(s.life.db.records, "t") <= s.life.orphans
  }

  /** The first two parts of a round. */
  lemma UpToRecord(s: S.System, i: nat, n: nat)
    requires Idle(s.m) && s.life.flights == map[] && Startable(s.life, RoundAt(i), RecordId(n))
    ensures var s' := S.Run(s, HANDOUT + LockAndRecord(i, n)); Busy(s'.m) && s'.life == Recorded(s.life, i, n)
  {
    RunConcat(s, HANDOUT, LockAndRecord(i, n));
    HandedToWorker(s);
    RecordedByRun(S.Run(s, HANDOUT), s.life, i, n);
  }

  lemma UpToBreak(s: S.System, i: nat)
    requires Idle(s.m) && Waits(s.life, i, i)
    ensures var s' := S.Run(s, HANDOUT + LockAndRecord(i, i) + BreakAndFind(i));
      Idle(s'.m) && s'.life == BrokenOff(Recorded(s.life, i, i), RecordId(i))
  {
    RunConcat(s, HANDOUT + LockAndRecord(i, i), BreakAndFind(i));
    UpToRecord(s, i, i);
    BrokenAndFound(S.Run(s, HANDOUT + LockAndRecord(i, i)), s.life, i);
  }

  lemma UpToReport(s: S.System, i: nat)
    requires Idle(s.m) && Waits(s.life, i, i)
    ensures var s' := S.Run(s, BrokenRound(i));
      Idle(s'.m) && s'.life == AfterReport(BrokenOff(Recorded(s.life, i, i), RecordId(i)), RecordId(i), ReportAt(i))
  {
    RunConcat(s, HANDOUT + LockAndRecord(i, i) + BreakAndFind(i), Report(i));
    UpToBreak(s, i);
    Reported(S.Run(s, HANDOUT + LockAndRecord(i, i) + BreakAndFind(i)), RecordId(i), i);
  }

  /** A broken-off run whose record is reported leaves the task waiting again, not counted. */
  lemma BrokenWaits(life: L.Life, i: nat)
    requires Waits(life, i, i)
    ensures var life' := AfterReport(BrokenOff(Recorded(life, i, i), RecordId(i)), RecordId(i), ReportAt(i));
      && Waits(life', i + 1, i + 1) && L.DriftOf(life', "t") == L.DriftOf(life, "t")
      && life'.orphans == life.orphans + {RecordId(i)}
      && L.RecordsOf(life'.db.records, "t") == L.RecordsOf(life.db.records, "t") + {RecordId(i)}
  {
    var found := BrokenOff(Recorded(life, i, i), RecordId(i));
    OneRecordMore(life, i, i, RecordId(i), ReportAt(i));
    ReportFreesOnly(found, RecordId(i), ReportAt(i));
    DueAgain(life.db.tasks["t"], i);
    LockRunsOut(i, life.db.locks, found.db.locks);
  }

  lemma BrokenRoundAgain(s: S.System, i: nat)
    requires Broken(s, i)
    ensures Broken(S.Run(s, BrokenRound(i)), i + 1)
  {
    UpToReport(s, i);
    BrokenWaits(s.life, i);
  }

  const SETUP := [S.AtMaster(M.WorkerOnline(0)), S.Elsewhere(L.Create("t", TASK))]

  lemma SetUp()
    ensures var s := S.Run(S.Initial(1), SETUP);
      && Idle(s.m) && Waits(s.life, 0, 0) && s.life == L.EMPTY.(db := L.EMPTY.db.(tasks := map["t" := TASK]))
  {
    var s := S.Initial(1);
    RunThen(s, [], SETUP[0]);
    RunThen(s, [SETUP[0]], SETUP[1]);
    assert [] + [SETUP[0]] == [SETUP[0]] && [SETUP[0]] + [SETUP[1]] == SETUP;
    CameOnline(s);
    TaskCreated();
  }

  lemma CameOnline(s: S.System)
    requires s.m == M.Initial(1)
    ensures var s' := S.Step(s, S.AtMaster(M.WorkerOnline(0))); Idle(s'.m) && s'.life == s.life
  {
    assert s.m.workers == [Worker(false, 0, map[])];
    assert M.Online(s.m, 0).workers == [Worker(true, 0, map[])];
  }

  lemma TaskCreated()
    ensures var life := L.Step(L.EMPTY, L.Create("t", TASK));
      Waits(life, 0, 0) && life == L.EMPTY.(db := L.EMPTY.db.(tasks := map["t" := TASK]))
  {
    assert L.RecordsOf(map[], "t") == {};
  }

  function BrokenRounds(n: nat): seq<S.Event> {
    if n == 0 then SETUP else BrokenRounds(n - 1) + BrokenRound(n - 1)
  }

  /** Runs that break off between their record and their task are free: in the whole system, where the
      reload hands out what is due and every failure is reported, a task can collect any number of records
      and still wait for a retry that is due within the window of the next reload. */
  lemma {:induction false} BrokenRunsAreFree(n: nat)
    ensures var life := S.Run(S.Initial(1), BrokenRounds(n)).life;
      && "t" in life.db.tasks && life.db.tasks["t"].retryCount == 0 && L.DriftOf(life, "t") == 0
      && MasterReload.Due(life.db.tasks["t"], Unix(RoundAt(n)))
      && |L.RecordsOf(life.db.records, "t")| == n && L.RecordsOf(life.db.records, "t") <= life.orphans
  {
    BrokenReach(n);
  }

  lemma {:induction false} BrokenReach(n: nat)
    ensures Broken(S.Run(S.Initial(1), BrokenRounds(n)), n)
  {
    if n == 0 {
      SetUp();
      assert L.RecordsOf(map[], "t") == {};
    } else {
      BrokenReach(n - 1);
      RunConcat(S.Initial(1), BrokenRounds(n - 1), BrokenRound(n - 1));
      BrokenRoundAgain(S.Run(S.Initial(1), BrokenRounds(n - 1)), n - 1);
    }
  }

  // ----- write-backs of outdated copies

  function SendAndFind(n: nat): seq<S.Event> {
    [S.Elsewhere(L.SendOk("t")), S.AtMaster(M.Done(0)), S.Elsewhere(L.FindRecords(0, {RecordId(n)}))]
  }

  /** The first run is sent and then reported failed. */
  const FIRST_ROUND := HANDOUT + LockAndRecord(0, 0) + [S.Elsewhere(L.SaveRunning("t"))] + SendAndFind(0) + Report(0)

  function ReadAndLock(i: nat): seq<S.Event>
    requires i > 0
  {
    [S.Elsewhere(L.FindRecords(0, {RecordId(i - 1)})), S.Elsewhere(L.FindTasks(0)),
     S.Elsewhere(L.TakeLock("t", 1, RoundAt(i)))]
  }

  function LoadAndSave(i: nat): seq<S.Event> {
    [S.Elsewhere(L.LoadTask("t")), S.Elsewhere(L.Proceed("t", RecordId(i), RoundAt(i))), S.Elsewhere(L.SaveRunning("t"))]
  }

  function SendAndWriteBack(i: nat): seq<S.Event> {
    [S.Elsewhere(L.SendOk("t")), S.AtMaster(M.Done(0)), S.Elsewhere(L.SaveFailures(0, ReportAt(i)))]
  }

  /** A repeated report of the last failure reads the task, the retry runs, and then the report is saved. */
  function OutdatedRound(i: nat): seq<S.Event>
    requires i > 0
  {
    HANDOUT + ReadAndLock(i) + LoadAndSave(i) + SendAndWriteBack(i) + [S.Elsewhere(L.ReleaseLocksOf(0, ReportAt(i)))]
  }

  /** Between the rounds of outdated write-backs: no run broke off. */
  predicate WrittenBack(s: S.System, i: nat) {
    && Idle(s.m) && Waits(s.life, i, i) && s.life.orphans == {}
    && (i > 0 ==> s.life.db.tasks["t"].status == FailedWaitingRetry && L.DriftOf(s.life, "t") == i - 1)
  }

  lemma OneLifeStep(s: S.System, a: L.Event)
    requires !a.Receive? && !a.Done?
    ensures S.Run(s, [S.Elsewhere(a)]) == s.(life := L.Step(s.life, a))
  {
    RunThen(s, [], S.Elsewhere(a));
    assert [] + [S.Elsewhere(a)] == [S.Elsewhere(a)];
  }

  lemma SavesRunning(life: L.Life, task: Task, record: string)
    requires life.flights == map["t" := L.Flight("d", L.Recorded(task, record))] && life.db.tasks.Keys == {"t"}
    ensures L.Step(life, L.SaveRunning("t")) ==
      life.(flights := map["t" := L.Flight("d", L.Sending(L.Started(task), record))],
            db := life.db.(tasks := map["t" := L.Started(task)]))
  {
    assert life.db.tasks["t" := L.Started(task)] == map["t" := L.Started(task)];
  }

  lemma Sends(life: L.Life, snap: Task, record: string)
    requires life.flights == map["t" := L.Flight("d", L.Sending(snap, record))] && life.db.tasks.Keys == {"t"}
    ensures var over := L.Step(life, L.SendOk("t"));
      && over == life.(flights := map["t" := L.Flight("d", L.Over)],
                       db := life.db.(tasks := map["t" := snap.(status := SendSuccess)]))
      && L.PhaseOf(over, "t") == Some(L.Over)
      && L.Step(over, L.Done("t")) == over.(flights := map[])
  {
    var sent := snap.(status := SendSuccess);
    assert life.db.tasks["t" := sent] == map["t" := sent];
  }

  lemma SentAndFound(s: S.System, snap: Task, n: nat)
    requires s.life.flights == map["t" := L.Flight("d", L.Sending(snap, RecordId(n)))]
    requires s.life.db.tasks.Keys == {"t"} && s.life.handlings == map[] && Busy(s.m)
    ensures var s' := S.Run(s, SendAndFind(n));
      && Idle(s'.m)
      && s'.life == s.life.(
           flights := map[], db := s.life.db.(tasks := map["t" := snap.(status := SendSuccess)]),
           handlings := map[0 := L.Found({RecordId(n)}, FoundRecords(s.life.db, {RecordId(n)}))])
  {
    Sends(s.life, snap, RecordId(n));
    DoneSteps(s, L.SendOk("t"), L.FindRecords(0, {RecordId(n)}));
  }

  /** A run has marked the task running: its record is the n-th. */
  function UnderWay(life: L.Life, i: nat, n: nat): L.Life
    requires "t" in life.db.tasks
  {
    var recorded, snap := Recorded(life, i, n), L.Started(life.db.tasks["t"]);
    recorded.(flights := map["t" := L.Flight("d", L.Sending(snap, RecordId(n)))],
              db := recorded.db.(tasks := map["t" := snap]))
  }

  lemma FirstIsRunning(s: S.System)
    requires Idle(s.m) && s.life.flights == map[] && Startable(s.life, RoundAt(0), RecordId(0))
    ensures var s' := S.Run(s, HANDOUT + LockAndRecord(0, 0) + [S.Elsewhere(L.SaveRunning("t"))]);
      Busy(s'.m) && s'.life == UnderWay(s.life, 0, 0)
  {
    RunConcat(s, HANDOUT + LockAndRecord(0, 0), [S.Elsewhere(L.SaveRunning("t"))]);
    UpToRecord(s, 0, 0);
    var s2 := S.Run(s, HANDOUT + LockAndRecord(0, 0));
    OneLifeStep(s2, L.SaveRunning("t"));
    SavesRunning(s2.life, s.life.db.tasks["t"], RecordId(0));
  }

  /** What a report on the record r makes of a run that has just been sent. */
  lemma WaitsAgain(life: L.Life, i: nat, r: string, sent: L.Life, life': L.Life)
    requires Waits(life, i, i) && (r == RecordId(i) || (i > 0 && r == RecordId(i - 1)))
    requires sent.db == UnderWay(life, i, i).db.(tasks := sent.db.tasks) && sent.db.tasks.Keys == {"t"}
    requires sent.db.tasks["t"].(retryCount := 0) == life.db.tasks["t"].(status := SendSuccess)
    requires life'.flights == map[] && life'.handlings == map[]
    requires life'.db.tasks == map["t" := Retried(sent.db.tasks["t"], ReportAt(i))]
    requires life'.db.records == FailRecords(sent.db.records, {r}, ReportAt(i))
    requires forall d, later :: Live(life'.db.locks, d, later) ==> Live(sent.db.locks, d, later)
    ensures Waits(life', i + 1, i + 1)
  {
    OneRecordMore(life, i, i, r, ReportAt(i));
    DueAgain(sent.db.tasks["t"].(retryCount := 0), i);
    LockRunsOut(i, life.db.locks, sent.db.locks);
  }

  /** The first run was sent, and a handler found its record. */
  function SentFirst(life: L.Life): L.Life
    requires "t" in life.db.tasks
  {
    var running := UnderWay(life, 0, 0);
    running.(flights := map[], db := running.db.(tasks := map["t" := L.Started(life.db.tasks["t"]).(status := SendSuccess)]),
             handlings := map[0 := L.Found({RecordId(0)}, FoundRecords(running.db, {RecordId(0)}))])
  }

  lemma UpToSend(s: S.System)
    requires Idle(s.m) && Waits(s.life, 0, 0)
    ensures var s' := S.Run(s, HANDOUT + LockAndRecord(0, 0) + [S.Elsewhere(L.SaveRunning("t"))] + SendAndFind(0));
      Idle(s'.m) && s'.life == SentFirst(s.life)
  {
    var started := HANDOUT + LockAndRecord(0, 0) + [S.Elsewhere(L.SaveRunning("t"))];
    RunConcat(s, started, SendAndFind(0));
    FirstIsRunning(s);
    SentAndFound(S.Run(s, started), L.Started(s.life.db.tasks["t"]), 0);
  }

  lemma FirstRound(s: S.System)
    requires Idle(s.m) && Waits(s.life, 0, 0) && s.life.orphans == {} && s.life.drift == map[]
    requires s.life.db.tasks["t"].status == Waiting
    ensures WrittenBack(S.Run(s, FIRST_ROUND), 1)
  {
    var sent := HANDOUT + LockAndRecord(0, 0) + [S.Elsewhere(L.SaveRunning("t"))] + SendAndFind(0);
    RunConcat(s, sent, Report(0));
    UpToSend(s);
    OneRecordMore(s.life, 0, 0, RecordId(0), 0);
    Reported(S.Run(s, sent), RecordId(0), 0);
    FirstWaits(s.life);
  }

  lemma FirstWaits(life: L.Life)
    requires Waits(life, 0, 0) && life.db.tasks["t"].status == Waiting
    ensures Waits(AfterReport(SentFirst(life), RecordId(0), ReportAt(0)), 1, 1)
  {
    var sent := SentFirst(life);
    ReportFreesOnly(sent, RecordId(0), ReportAt(0));
    WaitsAgain(life, 0, RecordId(0), sent, AfterReport(sent, RecordId(0), ReportAt(0)));
  }

  lemma ReadBeforeRun(s: S.System, life: L.Life, i: nat)
    requires i > 0 && Waits(life, i, i) && s.life == Received(life)
    ensures S.Run(s, ReadAndLock(i)) == S.System(s.m, ReadFirst(life, RecordId(i - 1), RoundAt(i)))
  {
    var r := RecordId(i - 1);
    var a, b, c := L.FindRecords(0, {r}), L.FindTasks(0), L.TakeLock("t", 1, RoundAt(i));
    ReadLife(Received(life), r, RoundAt(i));
    LifeBecomes(s, a, b, c, ReadFirst(life, r, RoundAt(i)));
  }

  /** A handler of the record has read the task, and a run holds the lock. */
  function ReadFirst(life: L.Life, r: string, ms: nat): L.Life
    requires "t" in life.db.tasks
  {
    life.(flights := map["t" := L.Flight("d", L.Locked(1))],
          db := life.db.(locks := life.db.locks["d" := Entry(1, ms + L.LOCK_TTL_MS)]),
          handlings := map[0 := L.Read({r}, FoundRecords(life.db, {r}), map["t" := life.db.tasks["t"]])])
  }

  lemma ReadLife(life: L.Life, r: string, ms: nat)
    requires life == Received(life) && life.handlings == map[] && !Live(life.db.locks, "d", ms)
    requires r in L.RecordsOf(life.db.records, "t") && "t" in life.db.tasks && Retryable(life.db.tasks["t"])
    requires life.db.tasks["t"].status != Failed
    ensures L.Step(L.Step(L.Step(life, L.FindRecords(0, {r})), L.FindTasks(0)), L.TakeLock("t", 1, ms))
      == ReadFirst(life, r, ms)
  {
    FindsRecord(life, r);
    var found := L.Step(life, L.FindRecords(0, {r}));
    Reports(found, r, 0);
    Locks(L.Step(found, L.FindTasks(0)), ms);
  }

  lemma FindsRecord(life: L.Life, r: string)
    requires life.handlings == map[]
    ensures L.Step(life, L.FindRecords(0, {r})) == life.(handlings := map[0 := L.Found({r}, FoundRecords(life.db, {r}))])
  {
  }

  lemma RetryIsRunning(s: S.System, life: L.Life, i: nat)
    requires Waits(life, i, i)
    requires s.life == life.(flights := map["t" := L.Flight("d", L.Locked(1))], handlings := s.life.handlings,
      db := life.db.(locks := life.db.locks["d" := Entry(1, RoundAt(i) + L.LOCK_TTL_MS)]))
    ensures S.Run(s, LoadAndSave(i)) == S.System(s.m, UnderWay(life, i, i).(handlings := s.life.handlings))
  {
    var a, b, c := L.LoadTask("t"), L.Proceed("t", RecordId(i), RoundAt(i)), L.SaveRunning("t");
    assert L.Step(L.Step(L.Step(s.life, a), b), c) == UnderWay(life, i, i).(handlings := s.life.handlings) by {
      assert life.db.tasks == map["t" := life.db.tasks["t"]];
      RunningLife(s.life, life.db.tasks["t"], RecordId(i), RoundAt(i));
      RunningIs(life, i);
    }
    LifeBecomes(s, a, b, c, UnderWay(life, i, i).(handlings := s.life.handlings));
  }

  lemma RunningIs(life: L.Life, i: nat)
    requires "t" in life.db.tasks
    ensures var task, record := life.db.tasks["t"], RecordId(i);
      UnderWay(life, i, i) ==
      life.(flights := map["t" := L.Flight("d", L.Sending(L.Started(task), record))],
            db := Db(map["t" := L.Started(task)], life.db.records[record := L.NewRecord("t", task, 1)],
                     life.db.order + [record], life.db.locks["d" := Entry(1, RoundAt(i) + L.LOCK_TTL_MS)]))
  {
  }

  lemma RunningLife(life: L.Life, task: Task, record: string, ms: nat)
    requires life.flights == map["t" := L.Flight("d", L.Locked(1))]
    requires life.db.tasks == map["t" := task] && L.Runnable(task) && task.waitTimeoutUnix == 0
    requires record !in life.db.records && record != ""
    ensures L.Step(L.Step(L.Step(life, L.LoadTask("t")), L.Proceed("t", record, ms)), L.SaveRunning("t")) ==
      life.(flights := map["t" := L.Flight("d", L.Sending(L.Started(task), record))],
            db := Db(map["t" := L.Started(task)], life.db.records[record := L.NewRecord("t", task, 1)],
                     life.db.order + [record], life.db.locks))
  {
    Loads(life);
    var loaded := L.Step(life, L.LoadTask("t"));
    Records(loaded, task, record, ms);
    SavesRunning(L.Step(loaded, L.Proceed("t", record, ms)), task, record);
  }

  /** The retry was sent and done, and then the outdated copy of the task was written back. */
  function Written(life: L.Life, snap: Task, r: string, found: map<string, ExecRecord>, i: nat): L.Life {
    life.(flights := map[], drift := map["t" := L.DriftOf(life, "t") + 1], handlings := map[0 := L.Saved(found)],
          db := life.db.(tasks := map["t" := Retried(snap.(status := SendSuccess), ReportAt(i))],
                         records := FailRecords(life.db.records, {r}, ReportAt(i))))
  }

  lemma WrittenLife(life: L.Life, snap: Task, record: string, r: string, found: map<string, ExecRecord>, read: Task, i: nat)
    requires life.flights == map["t" := L.Flight("d", L.Sending(snap, record))] && life.db.tasks.Keys == {"t"}
    requires life.handlings == map[0 := L.Read({r}, found, map["t" := read])]
    requires Retryable(read) && read.status != Failed && snap.isRetry && snap.retryCount == 1
    ensures L.Step(L.Step(L.Step(life, L.SendOk("t")), L.Done("t")), L.SaveFailures(0, ReportAt(i)))
         == Written(life, snap, r, found, i)
  {
    Sends(life, snap, record);
    var sent := life.(flights := map[], db := life.db.(tasks := map["t" := snap.(status := SendSuccess)]));
    assert L.Step(L.Step(life, L.SendOk("t")), L.Done("t")) == sent;
    SavedSent(sent, r, found, read, i);
  }

  lemma SentAndWritten(s: S.System, snap: Task, r: string, found: map<string, ExecRecord>, read: Task, i: nat)
    requires Busy(s.m) && s.life.db.tasks.Keys == {"t"}
    requires s.life.flights == map["t" := L.Flight("d", L.Sending(snap, RecordId(i)))]
    requires s.life.handlings == map[0 := L.Read({r}, found, map["t" := read])]
    requires Retryable(read) && read.status != Failed && snap.isRetry && snap.retryCount == 1
    ensures var s' := S.Run(s, SendAndWriteBack(i));
      Idle(s'.m) && s'.life == Written(s.life, snap, r, found, i)
  {
    WrittenLife(s.life, snap, RecordId(i), r, found, read, i);
    Sends(s.life, snap, RecordId(i));
    DoneBecomes(s, L.SendOk("t"), L.SaveFailures(0, ReportAt(i)), Written(s.life, snap, r, found, i));
  }

  lemma SavedSent(life: L.Life, r: string, found: map<string, ExecRecord>, read: Task, i: nat)
    requires life.handlings == map[0 := L.Read({r}, found, map["t" := read])] && life.db.tasks.Keys == {"t"}
    requires Retryable(read) && read.status != Failed
    requires life.db.tasks["t"].isRetry && life.db.tasks["t"].retryCount == 1
    ensures L.Step(life, L.SaveFailures(0, ReportAt(i))) ==
      life.(drift := map["t" := L.DriftOf(life, "t") + 1], handlings := map[0 := L.Saved(found)],
            db := life.db.(tasks := map["t" := Retried(life.db.tasks["t"], ReportAt(i))],
                           records := FailRecords(life.db.records, {r}, ReportAt(i))))
  {
    SaveStep(life, ReportAt(i));
    Saves(life, r, found, read, ReportAt(i));
  }

  lemma UpToRead(s: S.System, i: nat)
    requires i > 0 && Idle(s.m) && Waits(s.life, i, i)
    ensures var s' := S.Run(s, HANDOUT + ReadAndLock(i));
      Busy(s'.m) && s'.life == ReadFirst(s.life, RecordId(i - 1), RoundAt(i))
  {
    RunConcat(s, HANDOUT, ReadAndLock(i));
    HandedToWorker(s);
    ReadBeforeRun(S.Run(s, HANDOUT), s.life, i);
  }

  /** The retry is running, and a handler has read the task before. */
  function RunningRead(life: L.Life, i: nat): L.Life
    requires i > 0 && "t" in life.db.tasks
  {
    UnderWay(life, i, i).(handlings := ReadFirst(life, RecordId(i - 1), RoundAt(i)).handlings)
  }

  lemma UpToRunning(s: S.System, i: nat)
    requires i > 0 && Idle(s.m) && Waits(s.life, i, i)
    ensures var s' := S.Run(s, HANDOUT + ReadAndLock(i) + LoadAndSave(i)); Busy(s'.m) && s'.life == RunningRead(s.life, i)
  {
    RunConcat(s, HANDOUT + ReadAndLock(i), LoadAndSave(i));
    UpToRead(s, i);
    RetryIsRunning(S.Run(s, HANDOUT + ReadAndLock(i)), s.life, i);
  }

  function RunningWritten(life: L.Life, i: nat): L.Life
    requires i > 0 && "t" in life.db.tasks
  {
    Written(RunningRead(life, i), L.Started(life.db.tasks["t"]), RecordId(i - 1),
            FoundRecords(life.db, {RecordId(i - 1)}), i)
  }

  lemma UpToWrite(s: S.System, i: nat)
    requires i > 0 && Idle(s.m) && Waits(s.life, i, i) && s.life.db.tasks["t"].status == FailedWaitingRetry
    ensures var s' := S.Run(s, HANDOUT + ReadAndLock(i) + LoadAndSave(i) + SendAndWriteBack(i));
      Idle(s'.m) && s'.life == RunningWritten(s.life, i)
  {
    var r, task := RecordId(i - 1), s.life.db.tasks["t"];
    RunConcat(s, HANDOUT + ReadAndLock(i) + LoadAndSave(i), SendAndWriteBack(i));
    UpToRunning(s, i);
    SentAndWritten(S.Run(s, HANDOUT + ReadAndLock(i) + LoadAndSave(i)), L.Started(task), r, FoundRecords(s.life.db, {r}), task, i);
  }

  lemma WrittenWaits(life: L.Life, i: nat)
    requires i > 0 && Waits(life, i, i) && life.db.tasks["t"].status == FailedWaitingRetry
    ensures var written, found := RunningWritten(life, i), FoundRecords(life.db, {RecordId(i - 1)});
      var life' := written.(db := ReleaseFound(written.db, found, ReportAt(i)), handlings := map[]);
      && L.Step(written, L.ReleaseLocksOf(0, ReportAt(i))) == life'
      && Waits(life', i + 1, i + 1) && life'.orphans == life.orphans
      && L.DriftOf(life', "t") == L.DriftOf(life, "t") + 1 && life'.db.tasks["t"].status == FailedWaitingRetry
  {
    var running, written, found := RunningRead(life, i), RunningWritten(life, i), FoundRecords(life.db, {RecordId(i - 1)});
    var sent := running.(db := running.db.(tasks := map["t" := L.Started(life.db.tasks["t"]).(status := SendSuccess)]));
    Releases(written, found, ReportAt(i));
    WaitsAgain(life, i, RecordId(i - 1), sent, written.(db := ReleaseFound(written.db, found, ReportAt(i)), handlings := map[]));
  }

  lemma WrittenBackAgain(s: S.System, i: nat)
    requires i > 0 && WrittenBack(s, i)
    ensures WrittenBack(S.Run(s, OutdatedRound(i)), i + 1)
  {
    var written := HANDOUT + ReadAndLock(i) + LoadAndSave(i) + SendAndWriteBack(i);
    RunConcat(s, written, [S.Elsewhere(L.ReleaseLocksOf(0, ReportAt(i)))]);
    UpToWrite(s, i);
    OneLifeStep(S.Run(s, written), L.ReleaseLocksOf(0, ReportAt(i)));
    WrittenWaits(s.life, i);
  }

  function OutdatedRounds(n: nat): seq<S.Event> {
    if n == 0 then SETUP + FIRST_ROUND else OutdatedRounds(n - 1) + OutdatedRound(n)
  }

  /** Outdated write-backs are free too: when a repeated report saves, after a retry, the copy of the task
      that it read before, the retry does not count, and without any run breaking off a task can collect any
      number of records and still wait for a due retry. */
  lemma {:induction false} OutdatedWritesAreFree(n: nat)
    ensures var life := S.Run(S.Initial(1), OutdatedRounds(n)).life;
      && "t" in life.db.tasks && life.db.tasks["t"].retryCount == 0 && life.orphans == {}
      && MasterReload.Due(life.db.tasks["t"], Unix(RoundAt(n + 1)))
      && |L.RecordsOf(life.db.records, "t")| == L.Charged(life, "t") == n + 1 && L.DriftOf(life, "t") == n
  {
    OutdatedReach(n);
    var life := S.Run(S.Initial(1), OutdatedRounds(n)).life;
    assert L.RecordsOf(life.db.records, "t") - {} == L.RecordsOf(life.db.records, "t");
  }

  lemma {:induction false} OutdatedReach(n: nat)
    ensures WrittenBack(S.Run(S.Initial(1), OutdatedRounds(n)), n + 1)
  {
    if n == 0 {
      SetUp();
      RunConcat(S.Initial(1), SETUP, FIRST_ROUND);
      FirstRound(S.Run(S.Initial(1), SETUP));
    } else {
      OutdatedReach(n - 1);
      RunConcat(S.Initial(1), OutdatedRounds(n - 1), OutdatedRound(n));
      WrittenBackAgain(S.Run(S.Initial(1), OutdatedRounds(n - 1)), n);
    }
  }
}
