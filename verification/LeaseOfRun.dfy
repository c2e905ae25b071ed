/** The lease of a device on its way through a run: the token under which the worker locked the device is on
    the run's record, and a report of the record frees the device while the lease is in force. */
module LeaseOfRun {
  import opened Wrappers
  import opened TaskStore
  import opened Lifecycle

  // ----- a task never changes its device

  /** The task, and every copy of it that a run or a deletion holds, is of the device. */
  predicate OnDevice(s: Life, t: string, d: string) {
    && t in s.db.tasks && s.db.tasks[t].deviceId == d
    && (t in s.flights && HasCopy(s.flights[t].phase) ==> s.flights[t].phase.snap.deviceId == d)
    && (forall k :: k in s.deletes && s.deletes[k].t == t ==> s.deletes[k].snap.deviceId == d)
  }

  lemma OwnStepKeepsDevice(s: Life, e: Event, d: string)
    requires Enabled(s, e) && OfTask(e) && OnDevice(s, e.t, d)
    ensures OnDevice(Apply(s, e), e.t, d)
  {
    match e
    case TakeLock(u, tok, ms) => assert Apply(s, e) == LockDevice(s, u, tok, ms);
    case LoadTask(u) => assert Apply(s, e) == Load(s, u);
    case Proceed(u, r, ms) => assert Apply(s, e) == GiveUp(s, u) || Apply(s, e) == AddRecord(s, u, r);
    case SaveRunning(u) => assert Apply(s, e) == Start(s, u);
    case SendOk(u) => assert Apply(s, e) == FinishSend(s, u);
    case SendFail(u, ms) => assert Apply(s, e) == FailSend(s, u, ms);
    case Abort(u) => assert Apply(s, e) == BreakOff(s, u);
    case _ =>
  }

  lemma OtherStepKeepsDevice(s: Life, e: Event, t: string, d: string)
    requires Enabled(s, e) && OfTask(e) && e.t != t && OnDevice(s, t, d)
    ensures OnDevice(Apply(s, e), t, d)
  {
    if e.SendFail? {
      assert Apply(s, e) == FailSend(s, e.t, e.ms);
    } else if !e.Proceed? {
      OtherStepLeaves(s, e, t);
    }
  }

  lemma HandlerStepKeepsDevice(s: Life, e: Event, t: string, d: string)
    requires HandlerEnabled(s, e) && OnDevice(s, t, d)
    ensures OnDevice(Handle(s, e), t, d)
  {
  }

  lemma CancelKeepsDevice(s: Life, e: Event, t: string, d: string)
    requires CancelEnabled(s, e) && OnDevice(s, t, d)
    ensures OnDevice(Cancel(s, e), t, d)
  {
  }

  lemma DeleteKeepsDevice(s: Life, e: Event, t: string, d: string)
    requires DeleteEnabled(s, e) && OnDevice(s, t, d)
    ensures OnDevice(Delete(s, e), t, d)
  {
  }

  lemma StepKeepsDevice(s: Life, e: Event, t: string, d: string)
    requires OnDevice(s, t, d)
    ensures OnDevice(Step(s, e), t, d)
  {
    if Enabled(s, e) {
      if OfTask(e) {
        if e.t == t {
          OwnStepKeepsDevice(s, e, d);
        } else {
          OtherStepKeepsDevice(s, e, t, d);
        }
      } else if HandlerEnabled(s, e) {
        HandlerStepKeepsDevice(s, e, t, d);
      } else if CancelEnabled(s, e) {
        CancelKeepsDevice(s, e, t, d);
      } else if DeleteEnabled(s, e) {
        DeleteKeepsDevice(s, e, t, d);
      } else {
        assert Step(s, e) == Apply(s, e);
      }
    }
  }

  // ----- a record never changes its task, device and token

  predicate SameLease(records: map<string, ExecRecord>, records': map<string, ExecRecord>, r: string) {
    && r in records && r in records'
    && records'[r].taskId == records[r].taskId && records'[r].deviceId == records[r].deviceId
    && records'[r].lockValue == records[r].lockValue
  }

  lemma RunStepKeepsLease(s: Life, e: Event, r: string)
    requires Enabled(s, e) && OfTask(e) && r in s.db.records
    ensures SameLease(s.db.records, Apply(s, e).db.records, r)
  {
    if e.SendFail? {
      assert Apply(s, e) == FailSend(s, e.t, e.ms);
    } else if e.Proceed? {
      assert Apply(s, e) == GiveUp(s, e.t) || Apply(s, e) == AddRecord(s, e.t, e.record);
    } else {
      RunStepLeavesRecords(s, e);
    }
  }

  lemma RunStepLeavesRecords(s: Life, e: Event)
    requires Enabled(s, e) && OfTask(e) && !e.SendFail? && !e.Proceed?
    ensures Apply(s, e).db.records == s.db.records
  {
  }

  lemma StepKeepsLease(s: Life, e: Event, r: string)
    requires r in s.db.records
    ensures SameLease(s.db.records, Step(s, e).db.records, r)
  {
    if Enabled(s, e) {
      if OfTask(e) {
        RunStepKeepsLease(s, e, r);
      } else if HandlerEnabled(s, e) {
        assert Step(s, e) == Handle(s, e);
      } else if CancelEnabled(s, e) {
        assert Step(s, e) == Cancel(s, e);
      } else if DeleteEnabled(s, e) {
        assert Step(s, e) == Delete(s, e);
      }
    }
  }

  lemma {:induction false} RunKeepsLease(s: Life, events: seq<Event>, r: string)
    requires r in s.db.records
    ensures SameLease(s.db.records, Run(s, events).db.records, r)
  {
    if events != [] {
      RunKeepsLease(s, events[..|events| - 1], r);
      StepKeepsLease(Run(s, events[..|events| - 1]), events[|events| - 1], r);
    }
  }

  // ----- the flight carries the token until it makes the record

  predicate CarriesToken(s: Life, t: string, token: nat) {
    && t in s.flights && !s.flights[t].phase.Received?
    && (s.flights[t].phase.Locked? || s.flights[t].phase.Loaded? ==> s.flights[t].phase.token == token)
  }

  lemma StepKeepsToken(s: Life, e: Event, t: string, token: nat)
    requires CarriesToken(s, t, token) && e != Done(t)
    ensures CarriesToken(Step(s, e), t, token)
  {
    if Enabled(s, e) {
      if OfTask(e) {
        RunStepKeepsToken(s, e, t, token);
      } else if HandlerEnabled(s, e) {
        assert Step(s, e) == Handle(s, e);
      } else if CancelEnabled(s, e) {
        assert Step(s, e) == Cancel(s, e);
      } else if DeleteEnabled(s, e) {
        assert Step(s, e) == Delete(s, e);
      }
    }
  }

  lemma RunStepKeepsToken(s: Life, e: Event, t: string, token: nat)
    requires CarriesToken(s, t, token) && Enabled(s, e) && OfTask(e) && e != Done(t)
    ensures CarriesToken(Apply(s, e), t, token)
  {
    match e
    case TakeLock(u, tok, ms) => assert Apply(s, e) == LockDevice(s, u, tok, ms);
    case LoadTask(u) => assert Apply(s, e) == Load(s, u);
    case Proceed(u, r, ms) => assert Apply(s, e) == GiveUp(s, u) || Apply(s, e) == AddRecord(s, u, r);
    case SaveRunning(u) => assert Apply(s, e) == Start(s, u);
    case SendOk(u) => assert Apply(s, e) == FinishSend(s, u);
    case SendFail(u, ms) => assert Apply(s, e) == FailSend(s, u, ms);
    case Abort(u) => assert Apply(s, e) == BreakOff(s, u);
    case _ =>
  }

  lemma {:induction false} RunKeepsTokenAndDevice(s: Life, events: seq<Event>, t: string, token: nat, d: string)
    requires CarriesToken(s, t, token) && OnDevice(s, t, d) && Done(t) !in events
    ensures CarriesToken(Run(s, events), t, token) && OnDevice(Run(s, events), t, d)
  {
    if events != [] {
      var init := events[..|events| - 1];
      RunKeepsTokenAndDevice(s, init, t, token, d);
      StepKeepsToken(Run(s, init), events[|events| - 1], t, token);
      StepKeepsDevice(Run(s, init), events[|events| - 1], t, d);
    }
  }

  lemma LockTaken(s: Life, t: string, token: nat, ms: nat)
    requires Enabled(s, TakeLock(t, token, ms))
    ensures var s', d := Step(s, TakeLock(t, token, ms)), s.flights[t].deviceId;
      && CarriesToken(s', t, token) && s'.db.tasks == s.db.tasks && s'.deletes == s.deletes
      && d in s'.db.locks && s'.db.locks[d].token == token && s'.db.locks[d].expiresAt == ms + 600000
  {
    assert Step(s, TakeLock(t, token, ms)) == LockDevice(s, t, token, ms);
  }

  lemma RecordMade(s: Life, t: string, r: string, ms: nat, token: nat, d: string)
    requires Enabled(s, Proceed(t, r, ms)) && r in Step(s, Proceed(t, r, ms)).db.records
    requires CarriesToken(s, t, token) && OnDevice(s, t, d)
    ensures var record := Step(s, Proceed(t, r, ms)).db.records[r];
      && record.taskId == Some(t) && record.deviceId == d && record.lockValue == token && record.status == RecordRunning
  {
    assert Step(s, Proceed(t, r, ms)) == GiveUp(s, t) || Step(s, Proceed(t, r, ms)) == AddRecord(s, t, r);
  }

  /** A worker that locks the task's device holds it for ten minutes, and the record that this run makes,
      whatever happens in between, carries the device and the token of the lease.  s1, s2: the states after
      the lock and before the record. */
  lemma {:induction false} RecordCarriesLease(s: Life, t: string, token: nat, ms: nat, more: seq<Event>, r: string, ms1: nat,
                                              d: string, s1: Life, s2: Life)
    requires Enabled(s, TakeLock(t, token, ms)) && d == s.flights[t].deviceId && OnDevice(s, t, d) && Done(t) !in more
    requires s1 == Step(s, TakeLock(t, token, ms)) && s2 == Run(s1, more)
    requires Enabled(s2, Proceed(t, r, ms1)) && r in Step(s2, Proceed(t, r, ms1)).db.records
    ensures d in s1.db.locks && s1.db.locks[d].token == token && s1.db.locks[d].expiresAt == ms + 600000
    ensures var record := Step(s2, Proceed(t, r, ms1)).db.records[r];
      record.taskId == Some(t) && record.deviceId == d && record.lockValue == token && record.status == RecordRunning
  {
    LockTaken(s, t, token, ms);
    StepKeepsDevice(s, TakeLock(t, token, ms), t, d);
    RunKeepsTokenAndDevice(s1, more, t, token, d);
    RecordMade(s2, t, r, ms1, token, d);
  }

  // ----- a report of the record frees the device

  lemma SuccessFrees(s: Life, r: string, d: string, now: nat)
    requires r in s.db.records && Stands(s.db.records[r], s.db.locks, d, now)
    ensures d !in Step(s, ReportSuccesses({r}, now)).db.locks
  {
    assert Carries(s.db, {r}, r, d);
    BatchFreesExactly(s.db, {r}, r, now, d);
  }

  lemma HandlerFrees(s: Life, b: nat, r: string, d: string, now: nat)
    requires b in s.handlings && s.handlings[b].Saved? && s.handlings[b].found.Keys == {r}
    requires Stands(s.handlings[b].found[r], s.db.locks, d, now)
    ensures d !in Step(s, ReleaseLocksOf(b, now)).db.locks
  {
    var found := s.handlings[b].found;
    assert Step(s, ReleaseLocksOf(b, now)) == Handle(s, ReleaseLocksOf(b, now));
    assert Carries(Seen(s.db, found), {r}, r, d);
    assert Frees(Seen(s.db, found), {r}, d, now);
  }

  lemma HandlerSaved(s: Life, b: nat, r: string, now: nat)
    requires b !in s.handlings && r in s.db.records
    ensures var s' := Step(Step(Step(s, FindRecords(b, {r})), FindTasks(b)), SaveFailures(b, now));
      && b in s'.handlings && s'.handlings[b] == Saved(map[r := s.db.records[r]]) && s'.db.locks == s.db.locks
  {
    var found := FoundRecords(s.db, {r});
    assert found == map[r := s.db.records[r]];
    var s1 := Step(s, FindRecords(b, {r}));
    assert s1 == s.(handlings := s.handlings[b := Found({r}, found)]);
    var s2 := Step(s1, FindTasks(b));
    assert s2 == s.(handlings := s.handlings[b := Read({r}, found, ReadTasks(s.db, found))]);
    HandledSave(s2, b, now);
  }

  lemma HandledSave(s: Life, b: nat, now: nat)
    requires b in s.handlings && s.handlings[b].Read?
    ensures var s' := Step(s, SaveFailures(b, now));
      b in s'.handlings && s'.handlings[b] == Saved(s.handlings[b].found) && s'.db.locks == s.db.locks
  {
    assert Step(s, SaveFailures(b, now)) == SaveHandled(s, b, now);
  }

  lemma FailureFrees(s: Life, b: nat, r: string, d: string, now: nat)
    requires b !in s.handlings && r in s.db.records && Stands(s.db.records[r], s.db.locks, d, now)
    ensures var s' := Step(Step(Step(s, FindRecords(b, {r})), FindTasks(b)), SaveFailures(b, now));
      d !in Step(s', ReleaseLocksOf(b, now)).db.locks
  {
    HandlerSaved(s, b, r, now);
    HandlerFrees(Step(Step(Step(s, FindRecords(b, {r})), FindTasks(b)), SaveFailures(b, now)), b, r, d, now);
  }

  /** The whole way of a lease: a worker locks the task's device, the run makes its record, and when the lease
      is still in force later, whatever happened in between, a report of that record alone frees the device,
      be it of success or of failure.  s2, s4: the states before the record and before the report. */
  lemma {:induction false} LeaseComesBack(s: Life, t: string, token: nat, ms: nat, more: seq<Event>, r: string, ms1: nat,
                                          after: seq<Event>, b: nat, now: nat, d: string, s2: Life, s4: Life)
    requires Enabled(s, TakeLock(t, token, ms)) && d == s.flights[t].deviceId && OnDevice(s, t, d) && Done(t) !in more
    requires token > 0 && d != ""
    requires s2 == Run(Step(s, TakeLock(t, token, ms)), more)
    requires Enabled(s2, Proceed(t, r, ms1)) && r in Step(s2, Proceed(t, r, ms1)).db.records
    requires s4 == Run(Step(s2, Proceed(t, r, ms1)), after)
    requires d in s4.db.locks && s4.db.locks[d].token == token && now < s4.db.locks[d].expiresAt && b !in s4.handlings
    ensures d !in Step(s4, ReportSuccesses({r}, now)).db.locks
    ensures var saved := Step(Step(Step(s4, FindRecords(b, {r})), FindTasks(b)), SaveFailures(b, now));
      d !in Step(saved, ReleaseLocksOf(b, now)).db.locks
  {
    RecordCarriesLease(s, t, token, ms, more, r, ms1, d, Step(s, TakeLock(t, token, ms)), s2);
    RunKeepsLease(Step(s2, Proceed(t, r, ms1)), after, r);
    SuccessFrees(s4, r, d, now);
    FailureFrees(s4, b, r, d, now);
  }
}
