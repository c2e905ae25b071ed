/** Single runs of the whole system that show what the conditions of other theorems shut out: a load that
    misses a due task, a report that is lost, and deletions that revive a task. */
module SpecialRuns {
  import opened Wrappers
  import opened TaskStore
  import opened RepeatedRuns
  import MasterReload
  import FailingRuns
  import M = MasterModel
  import L = Lifecycle
  import S = SchedulerSystem

  // ----- a load that misses a due task

  /** The task is out; its worker could not lock the device. */
  const NOT_LOCKED := SETUP + HANDOUT + [S.Elsewhere(L.Abort("t"))]

  lemma NotLocked()
    ensures var s := S.Run(S.Initial(1), NOT_LOCKED);
      && Busy(s.m) && L.PhaseOf(s.life, "t") == Some(L.Over)
      && "t" in s.life.db.tasks && s.life.db.tasks["t"] == TASK
  {
    SetUp();
    var s := S.Run(S.Initial(1), SETUP);
    RunConcat(S.Initial(1), SETUP + HANDOUT, [S.Elsewhere(L.Abort("t"))]);
    RunConcat(S.Initial(1), SETUP, HANDOUT);
    HandedToWorker(s);
    Aborted(S.Run(s, HANDOUT));
  }

  lemma Aborted(s: S.System)
    requires L.PhaseOf(s.life, "t") == Some(L.Received)
    ensures var s' := S.Run(s, [S.Elsewhere(L.Abort("t"))]);
      s'.m == s.m && s'.life.db == s.life.db && L.PhaseOf(s'.life, "t") == Some(L.Over)
  {
    OneLifeStep(s, L.Abort("t"));
    assert L.Step(s.life, L.Abort("t")) == L.BreakOff(s.life, "t");
  }

  /** A load comes by the waiting task, which is due, and the Done of its futile assignment comes before the
      load ends: the task is still due and no longer in the dedupe set. */
  lemma LoadCanMiss()
    ensures MasterReload.LoadTurns([("t", TASK)], 0, k => []) == [M.Arrive(ITEM)]
    ensures var s := S.Run(S.Initial(1), NOT_LOCKED + [S.AtMaster(M.Arrive(ITEM)), S.AtMaster(M.Done(0))]);
      && "t" !in s.m.freshSet
      && "t" in s.life.db.tasks && MasterReload.Due(s.life.db.tasks["t"], 0)
  {
    assert MasterReload.LoadTurns([], 0, k => []) == [];
    assert [("t", TASK)][..0] == [] && [] + [M.Arrive(ITEM)] == [M.Arrive(ITEM)];
    NotLocked();
    var s := S.Run(S.Initial(1), NOT_LOCKED);
    var arrive, done := S.AtMaster(M.Arrive(ITEM)), S.AtMaster(M.Done(0));
    assert NOT_LOCKED + [arrive, done] == NOT_LOCKED + [arrive] + [done];
    RunThen(S.Initial(1), NOT_LOCKED, arrive);
    RunThen(S.Initial(1), NOT_LOCKED + [arrive], done);
    Futile(s);
  }

  lemma Futile(s: S.System)
    requires Busy(s.m) && L.PhaseOf(s.life, "t") == Some(L.Over)
    ensures var s' := S.Step(S.Step(s, S.AtMaster(M.Arrive(ITEM))), S.AtMaster(M.Done(0)));
      Idle(s'.m) && s'.life.db == s.life.db
  {
    TakenBack(s.m);
    assert S.Step(s, S.AtMaster(M.Arrive(ITEM))) == s;
  }

  // ----- a report that is lost

  /** While the run is sending, a failure of it is reported and saved. */
  const EARLY_REPORT := [S.Elsewhere(L.FindRecords(0, {RecordId(0)})), S.Elsewhere(L.FindTasks(0)),
                         S.Elsewhere(L.SaveFailures(0, 0))]

  /** Then the run's last save comes. */
  const SENT_AFTER := [S.Elsewhere(L.SendOk("t")), S.AtMaster(M.Done(0)), S.Elsewhere(L.ReleaseLocksOf(0, 0))]

  const STARTED := HANDOUT + LockAndRecord(0, 0) + [S.Elsewhere(L.SaveRunning("t"))]

  function ReportedEarly(life: L.Life): L.Life
    requires "t" in life.db.tasks
  {
    var found := FoundRecords(life.db, {RecordId(0)});
    life.(db := life.db.(tasks := map["t" := Retried(life.db.tasks["t"], 0)],
                         records := FailRecords(life.db.records, {RecordId(0)}, 0)),
          handlings := map[0 := L.Saved(found)], drift := map["t" := L.DriftOf(life, "t")])
  }

  lemma EarlyLife(life: L.Life)
    requires life.handlings == map[] && life.db.tasks.Keys == {"t"} && RecordId(0) in L.RecordsOf(life.db.records, "t")
    requires Retryable(life.db.tasks["t"]) && life.db.tasks["t"].status != Failed
    ensures L.Step(L.Step(L.Step(life, L.FindRecords(0, {RecordId(0)})), L.FindTasks(0)), L.SaveFailures(0, 0))
         == ReportedEarly(life)
  {
    var r := RecordId(0);
    FindsRecord(life, r);
    var found := L.Step(life, L.FindRecords(0, {r}));
    Reports(found, r, 0);
    var copies := map["t" := life.db.tasks["t"]];
    var read := life.(handlings := map[0 := L.Read({r}, FoundRecords(life.db, {r}), copies)]);
    assert L.Step(found, L.FindTasks(0)) == read;
    SaveStep(read, 0);
    Saves(read, r, FoundRecords(life.db, {r}), life.db.tasks["t"], 0);
  }

  function SentLate(life: L.Life, snap: Task, found: map<string, ExecRecord>): L.Life {
    life.(flights := map[], handlings := map[],
          db := ReleaseFound(life.db.(tasks := map["t" := snap.(status := SendSuccess)]), found, 0))
  }

  lemma LateLife(life: L.Life, snap: Task, record: string, found: map<string, ExecRecord>)
    requires life.flights == map["t" := L.Flight("d", L.Sending(snap, record))] && life.db.tasks.Keys == {"t"}
    requires life.handlings == map[0 := L.Saved(found)]
    ensures L.PhaseOf(L.Step(life, L.SendOk("t")), "t") == Some(L.Over)
    ensures L.Step(L.Step(L.Step(life, L.SendOk("t")), L.Done("t")), L.ReleaseLocksOf(0, 0)) == SentLate(life, snap, found)
  {
    Sends(life, snap, record);
    var done := life.(flights := map[], db := life.db.(tasks := map["t" := snap.(status := SendSuccess)]));
    assert L.Step(L.Step(life, L.SendOk("t")), L.Done("t")) == done;
    Releases(done, found, 0);
  }

  lemma RunningReported(life: L.Life)
    requires Waits(life, 0, 0) && life.db.tasks["t"].status == Waiting
    ensures L.Step(L.Step(L.Step(UnderWay(life, 0, 0), L.FindRecords(0, {RecordId(0)})), L.FindTasks(0)), L.SaveFailures(0, 0))
         == ReportedEarly(UnderWay(life, 0, 0))
  {
    OneRecordMore(life, 0, 0, RecordId(0), 0);
    EarlyLife(UnderWay(life, 0, 0));
  }

  lemma UpToEarlyReport(s: S.System)
    requires Idle(s.m) && Waits(s.life, 0, 0) && s.life.db.tasks["t"].status == Waiting
    ensures var s' := S.Run(s, STARTED + EARLY_REPORT);
      Busy(s'.m) && s'.life == ReportedEarly(UnderWay(s.life, 0, 0))
  {
    RunConcat(s, STARTED, EARLY_REPORT);
    FirstIsRunning(s);
    var running := UnderWay(s.life, 0, 0);
    RunningReported(s.life);
    LifeBecomes(S.Run(s, STARTED), L.FindRecords(0, {RecordId(0)}), L.FindTasks(0), L.SaveFailures(0, 0),
                ReportedEarly(running));
  }

  lemma UpToLateSend(s: S.System)
    requires Idle(s.m) && Waits(s.life, 0, 0) && s.life.db.tasks["t"].status == Waiting
    ensures var running := UnderWay(s.life, 0, 0);
      S.Run(s, STARTED + EARLY_REPORT + SENT_AFTER).life ==
      SentLate(ReportedEarly(running), L.Started(s.life.db.tasks["t"]), FoundRecords(running.db, {RecordId(0)}))
  {
    var running, snap := UnderWay(s.life, 0, 0), L.Started(s.life.db.tasks["t"]);
    var found := FoundRecords(running.db, {RecordId(0)});
    RunConcat(s, STARTED + EARLY_REPORT, SENT_AFTER);
    UpToEarlyReport(s);
    LateLife(ReportedEarly(running), snap, RecordId(0), found);
    DoneBecomes(S.Run(s, STARTED + EARLY_REPORT), L.SendOk("t"), L.ReleaseLocksOf(0, 0),
                SentLate(ReportedEarly(running), snap, found));
  }

  lemma LateIsStuck(life: L.Life)
    requires Waits(life, 0, 0)
    ensures var running := UnderWay(life, 0, 0);
      var life' := SentLate(ReportedEarly(running), L.Started(life.db.tasks["t"]), FoundRecords(running.db, {RecordId(0)}));
      FailingRuns.Stuck(life', "t") && |L.RecordsOf(life'.db.records, "t")| == 1 && life'.deletes == life.deletes
  {
    OneRecordMore(life, 0, 0, RecordId(0), 0);
    var running := UnderWay(life, 0, 0);
    var records := FailRecords(running.db.records, {RecordId(0)}, 0);
    assert L.RecordsOf(life.db.records, "t") == {};
    assert L.RecordsOf(records, "t") == {RecordId(0)};
    assert FailingRuns.Unfailed(records, "t") == {};
  }

  /** A failure that is handled while the run is still sending is lost: the task, with retries left, stays
      sent for good after a single record. */
  lemma ReportIsLost()
    ensures var life := S.Run(S.Initial(1), SETUP + (STARTED + EARLY_REPORT + SENT_AFTER)).life;
      && FailingRuns.Stuck(life, "t") && L.DeletesHold(life, "t", SendSuccess)
      && |L.RecordsOf(life.db.records, "t")| == 1
  {
    SetUp();
    RunConcat(S.Initial(1), SETUP, STARTED + EARLY_REPORT + SENT_AFTER);
    var s := S.Run(S.Initial(1), SETUP);
    UpToLateSend(s);
    LateIsStuck(s.life);
  }

  // ----- deletions that save an old copy

  /** The same task without retries. */
  const ONCE := TASK.(isRetry := false)

  const SETUP_ONCE := [S.AtMaster(M.WorkerOnline(0)), S.Elsewhere(L.Create("t", ONCE)), S.Elsewhere(L.ReadToDelete(0, "t"))]

  /** The run is sent, and only then the deletion saves the task as it was before. */
  const SENT_AND_DELETED := [S.Elsewhere(L.SendOk("t")), S.AtMaster(M.Done(0)), S.Elsewhere(L.SaveDeleted(0))]

  function DeletionPending(): L.Life {
    L.EMPTY.(db := L.EMPTY.db.(tasks := map["t" := ONCE]), deletes := map[0 := L.Deleting("t", ONCE, 0)])
  }

  lemma OnceSetUp()
    ensures var s := S.Run(S.Initial(1), SETUP_ONCE); Idle(s.m) && s.life == DeletionPending()
  {
    var s := S.Initial(1);
    RunThree(s, SETUP_ONCE[0], SETUP_ONCE[1], SETUP_ONCE[2]);
    CameOnline(s);
    OnceCreated();
  }

  lemma OnceCreated()
    ensures L.Step(L.Step(L.EMPTY, L.Create("t", ONCE)), L.ReadToDelete(0, "t")) == DeletionPending()
  {
    var created := L.Step(L.EMPTY, L.Create("t", ONCE));
    assert created == L.EMPTY.(db := L.EMPTY.db.(tasks := map["t" := ONCE]));
    assert L.RecordsOf(map[], "t") - {} == {};
    assert L.RunsOf(created, "t") == 0;
  }

  /** What saving the deletion leaves: the task waits again, deleted. */
  function Revived(life: L.Life): L.Life {
    life.(flights := map[], deletes := map[], db := life.db.(tasks := map["t" := ONCE.(isDeleted := true)]),
          drift := map["t" := 1])
  }

  lemma RevivedLife(life: L.Life)
    requires life == UnderWay(DeletionPending(), 0, 0)
    ensures L.PhaseOf(L.Step(life, L.SendOk("t")), "t") == Some(L.Over)
    ensures L.Step(L.Step(L.Step(life, L.SendOk("t")), L.Done("t")), L.SaveDeleted(0)) == Revived(life)
  {
    var snap := L.Started(ONCE);
    Sends(life, snap, RecordId(0));
    var done := life.(flights := map[], db := life.db.(tasks := map["t" := snap.(status := SendSuccess)]));
    assert L.Step(L.Step(life, L.SendOk("t")), L.Done("t")) == done;
    DoneRevives(done);
  }

  lemma DoneRevives(done: L.Life)
    requires done.flights == map[] && done.deletes == map[0 := L.Deleting("t", ONCE, 0)] && done.drift == map[]
    requires done.orphans == {} && L.RecordsOf(done.db.records, "t") == {RecordId(0)}
    requires done.db.tasks.Keys == {"t"} && done.db.tasks["t"].retryCount == 0
    ensures L.Step(done, L.SaveDeleted(0)) == Revived(done)
  {
    assert L.RecordsOf(done.db.records, "t") - done.orphans == {RecordId(0)};
    assert L.RunsOf(done, "t") == 1 && L.SetBack(done, done.deletes[0]) == 1;
    assert L.Step(done, L.SaveDeleted(0)) == L.DeleteSaved(done, 0);
    assert done.db.tasks["t" := ONCE.(isDeleted := true)] == map["t" := ONCE.(isDeleted := true)];
    assert done.deletes - {0} == map[];
  }

  lemma UpToRevival(s: S.System)
    requires Idle(s.m) && s.life == DeletionPending()
    ensures var s' := S.Run(s, STARTED + SENT_AND_DELETED);
      Idle(s'.m) && s'.life == Revived(UnderWay(DeletionPending(), 0, 0))
  {
    RunConcat(s, STARTED, SENT_AND_DELETED);
    FirstIsRunning(s);
    RevivedLife(UnderWay(s.life, 0, 0));
    DoneBecomes(S.Run(s, STARTED), L.SendOk("t"), L.SaveDeleted(0), Revived(UnderWay(s.life, 0, 0)));
  }

  lemma RevivedStarts()
    ensures var life := Revived(UnderWay(DeletionPending(), 0, 0));
      && life.flights == map[] && Startable(life, RoundAt(1), RecordId(1))
      && MasterReload.Due(life.db.tasks["t"], Unix(RoundAt(1)))
      && life.orphans == {} && L.DriftOf(life, "t") == 1
      && L.RecordsOf(Recorded(life, 1, 1).db.records, "t") == {RecordId(0), RecordId(1)}
  {
  }

  /** An outdated deletion is a way to one more record: a task without retries, deleted by a client while its
      only run is under way, waits again, is due for the next reload, and gets a second record. */
  lemma DeletionRevives()
    ensures var life := S.Run(S.Initial(1), SETUP_ONCE + (STARTED + SENT_AND_DELETED) + (HANDOUT + LockAndRecord(1, 1))).life;
      && "t" in life.db.tasks && !life.db.tasks["t"].isRetry && life.orphans == {}
      && |L.RecordsOf(life.db.records, "t")| == 2 && L.DriftOf(life, "t") == 1
  {
    var s0 := S.Run(S.Initial(1), SETUP_ONCE);
    RunConcat(S.Initial(1), SETUP_ONCE + (STARTED + SENT_AND_DELETED), HANDOUT + LockAndRecord(1, 1));
    RunConcat(S.Initial(1), SETUP_ONCE, STARTED + SENT_AND_DELETED);
    OnceSetUp();
    UpToRevival(s0);
    RevivedStarts();
    UpToRecord(S.Run(s0, STARTED + SENT_AND_DELETED), 1, 1);
    assert |RecordId(0)| != |RecordId(1)|;
    assert |{RecordId(0), RecordId(1)}| == 2;
  }

  /** A deletion reads the waiting task, and then the task is canceled. */
  const READ_AND_PICK := [S.Elsewhere(L.ReadToDelete(0, "t")), S.Elsewhere(L.CheckCancel(0, "t")), S.Elsewhere(L.PickRecord(0))]

  const READ_AND_CANCEL := READ_AND_PICK + [S.Elsewhere(L.SaveCanceled(0))]

  /** The deletion is saved, and the reload finds the task. */
  const TAKEN_UP := [S.Elsewhere(L.SaveDeleted(0))] + (HANDOUT + LockAndRecord(0, 0))

  lemma ReadAndPicked(life: L.Life)
    requires life.db.tasks == map["t" := TASK] && life.deletes == map[] && life.cancels == map[] && life.db.order == []
    ensures L.Step(L.Step(L.Step(life, L.ReadToDelete(0, "t")), L.CheckCancel(0, "t")), L.PickRecord(0)) ==
      life.(deletes := map[0 := L.Deleting("t", TASK, L.RunsOf(life, "t"))], cancels := map[0 := L.Picked("t", None)])
  {
    var read := L.Step(life, L.ReadToDelete(0, "t"));
    assert read == life.(deletes := map[0 := L.Deleting("t", TASK, L.RunsOf(life, "t"))]);
    Picked(read);
  }

  lemma Picked(read: L.Life)
    requires read.db.tasks == map["t" := TASK] && read.cancels == map[] && read.db.order == []
    ensures L.Step(L.Step(read, L.CheckCancel(0, "t")), L.PickRecord(0)) == read.(cancels := map[0 := L.Picked("t", None)])
  {
    var checked := L.Step(read, L.CheckCancel(0, "t"));
    assert checked == read.(cancels := map[0 := L.Checked("t")]);
    assert L.Step(checked, L.PickRecord(0)) == L.Cancel(checked, L.PickRecord(0));
  }

  lemma CanceledThen(life: L.Life)
    requires life.cancels == map[0 := L.Picked("t", None)] && life.db.tasks == map["t" := TASK]
    ensures L.Step(life, L.SaveCanceled(0)) ==
      life.(cancels := map[], db := life.db.(tasks := map["t" := TASK.(status := Canceled)]))
  {
    assert L.Step(life, L.SaveCanceled(0)) == L.Cancel(life, L.SaveCanceled(0));
    assert life.db.tasks["t" := TASK.(status := Canceled)] == map["t" := TASK.(status := Canceled)];
    assert life.cancels - {0} == map[];
  }

  /** The task is canceled and was never loaded, and the deletion still holds its old copy. */
  function CanceledLife(life: L.Life): L.Life {
    life.(deletes := map[0 := L.Deleting("t", TASK, L.RunsOf(life, "t"))], cancels := map[],
          db := life.db.(tasks := map["t" := TASK.(status := Canceled)]))
  }

  lemma UpToPick(s: S.System)
    requires s.life.db.tasks == map["t" := TASK] && s.life.deletes == map[] && s.life.cancels == map[] && s.life.db.order == []
    ensures S.Run(s, READ_AND_PICK) == S.System(s.m, s.life.(
      deletes := map[0 := L.Deleting("t", TASK, L.RunsOf(s.life, "t"))], cancels := map[0 := L.Picked("t", None)]))
  {
    ReadAndPicked(s.life);
    LifeSteps(s, L.ReadToDelete(0, "t"), L.CheckCancel(0, "t"), L.PickRecord(0));
  }

  lemma UpToCancel(s: S.System)
    requires s.life.db.tasks == map["t" := TASK] && s.life.deletes == map[] && s.life.cancels == map[] && s.life.db.order == []
    ensures S.Run(s, READ_AND_CANCEL) == S.System(s.m, CanceledLife(s.life))
  {
    RunConcat(s, READ_AND_PICK, [S.Elsewhere(L.SaveCanceled(0))]);
    UpToPick(s);
    var s' := S.Run(s, READ_AND_PICK);
    CanceledThen(s'.life);
    OneLifeStep(s', L.SaveCanceled(0));
  }

  lemma UpToTakingUp(s: S.System, task: Task)
    requires Idle(s.m) && s.life.flights == map[] && s.life.deletes == map[0 := L.Deleting("t", TASK, 0)]
    requires s.life.db == Db(map["t" := task], map[], [], map[])
    ensures L.RecordsOf(S.Run(s, TAKEN_UP).life.db.records, "t") == {RecordId(0)}
  {
    var save, revived := [S.Elsewhere(L.SaveDeleted(0))], L.DeleteSaved(s.life, 0);
    RunConcat(s, save, HANDOUT + LockAndRecord(0, 0));
    OneLifeStep(s, L.SaveDeleted(0));
    assert L.Step(s.life, L.SaveDeleted(0)) == revived;
    assert revived.db.tasks == map["t" := TASK.(isDeleted := true)];
    UpToRecord(S.Run(s, save), 0, 0);
  }

  /** A deletion that read a task before it was canceled revives it: canceled and never loaded by a run, it
      is executed after all. */
  lemma CanceledRevives()
    ensures var before, after := S.Run(S.Initial(1), SETUP + READ_AND_CANCEL).life,
                                 S.Run(S.Initial(1), SETUP + READ_AND_CANCEL + TAKEN_UP).life;
      && "t" in before.db.tasks && before.db.tasks["t"].status == Canceled
      && before.flights == map[] && L.RecordsOf(before.db.records, "t") == {}
      && L.RecordsOf(after.db.records, "t") == {RecordId(0)}
  {
    SetUp();
    var s := S.Run(S.Initial(1), SETUP);
    RunConcat(S.Initial(1), SETUP, READ_AND_CANCEL);
    RunConcat(S.Initial(1), SETUP + READ_AND_CANCEL, TAKEN_UP);
    assert L.RecordsOf(map[], "t") - {} == {};
    assert L.RunsOf(s.life, "t") == 0;
    UpToCancel(s);
    UpToTakingUp(S.Run(s, READ_AND_CANCEL), TASK.(status := Canceled));
  }
}
