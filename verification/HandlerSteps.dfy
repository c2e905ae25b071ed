/** The handlers that wait, with whatever others do meanwhile, are the steps of the life cycle with other
    events in between: src/modules/script-task/script-task.service.ts. */
module HandlerSteps {
  import opened Wrappers
  import opened TaskStore
  import opened Lifecycle

  predicate OfHandling(e: Event, b: nat) {
    match e
    case FindRecords(c, _) => c == b
    case FindTasks(c) => c == b
    case SaveFailures(c, _) => c == b
    case ReleaseLocksOf(c, _) => c == b
    case _ => false
  }

  predicate OfCancel(e: Event, c: nat) {
    match e
    case CheckCancel(d, _) => d == c
    case PickRecord(d) => d == c
    case StopRecord(d) => d == c
    case SaveCanceled(d) => d == c
    case _ => false
  }

  predicate OfDelete(e: Event, d: nat) {
    match e
    case ReadToDelete(c, _) => c == d
    case SaveDeleted(c) => c == d
    case _ => false
  }

  ghost predicate SameEntry<V>(m: map<nat, V>, m': map<nat, V>, k: nat) {
    if k in m then k in m' && m'[k] == m[k] else k !in m'
  }

  ghost predicate SameHandlers(s: Life, s': Life) {
    s'.handlings == s.handlings && s'.cancels == s.cancels && s'.deletes == s.deletes
  }

  lemma SendLeavesHandlers(s: Life, t: string, e: Event)
    requires Enabled(s, e) && (e == SaveRunning(t) || e == SendOk(t) || e.SendFail? || e == Abort(t) || e == Done(t))
    ensures SameHandlers(s, Apply(s, e))
  {
  }

  lemma RunStepLeavesHandlers(s: Life, e: Event)
    requires Enabled(s, e) && !HandlerEnabled(s, e) && !CancelEnabled(s, e) && !DeleteEnabled(s, e)
    ensures SameHandlers(s, Apply(s, e))
  {
    if e.SaveRunning? || e.SendOk? || e.SendFail? || e.Abort? || e.Done? {
      SendLeavesHandlers(s, e.t, e);
    }
  }

  /** Which of the three kinds of handlers a step can move. */
  lemma StepMoves(s: Life, e: Event)
    ensures Step(s, e) == s
         || (HandlerEnabled(s, e) && Step(s, e) == Handle(s, e))
         || (CancelEnabled(s, e) && Step(s, e) == Cancel(s, e))
         || (DeleteEnabled(s, e) && Step(s, e) == Delete(s, e))
         || SameHandlers(s, Step(s, e))
  {
    if Enabled(s, e) && !HandlerEnabled(s, e) && !CancelEnabled(s, e) && !DeleteEnabled(s, e) {
      RunStepLeavesHandlers(s, e);
    } else if Enabled(s, e) && !HandlerEnabled(s, e) && !CancelEnabled(s, e) {
      assert Step(s, e) == Delete(s, e);
    }
  }

  lemma OtherStepKeepsHandling(s: Life, e: Event, b: nat)
    requires !OfHandling(e, b)
    ensures SameEntry(s.handlings, Step(s, e).handlings, b)
  {
    StepMoves(s, e);
  }

  lemma OtherStepKeepsCancel(s: Life, e: Event, c: nat)
    requires !OfCancel(e, c)
    ensures SameEntry(s.cancels, Step(s, e).cancels, c)
  {
    StepMoves(s, e);
  }

  lemma OtherStepKeepsDelete(s: Life, e: Event, d: nat)
    requires !OfDelete(e, d)
    ensures SameEntry(s.deletes, Step(s, e).deletes, d)
  {
    StepMoves(s, e);
  }

  lemma {:induction false} OthersKeepHandling(s: Life, events: seq<Event>, b: nat)
    requires forall e :: e in events ==> !OfHandling(e, b)
    ensures SameEntry(s.handlings, Run(s, events).handlings, b)
  {
    if events != [] {
      OthersKeepHandling(s, events[..|events| - 1], b);
      OtherStepKeepsHandling(Run(s, events[..|events| - 1]), events[|events| - 1], b);
    }
  }

  lemma {:induction false} OthersKeepCancel(s: Life, events: seq<Event>, c: nat)
    requires forall e :: e in events ==> !OfCancel(e, c)
    ensures SameEntry(s.cancels, Run(s, events).cancels, c)
  {
    if events != [] {
      OthersKeepCancel(s, events[..|events| - 1], c);
      OtherStepKeepsCancel(Run(s, events[..|events| - 1]), events[|events| - 1], c);
    }
  }

  lemma {:induction false} OthersKeepDelete(s: Life, events: seq<Event>, d: nat)
    requires forall e :: e in events ==> !OfDelete(e, d)
    ensures SameEntry(s.deletes, Run(s, events).deletes, d)
  {
    if events != [] {
      OthersKeepDelete(s, events[..|events| - 1], d);
      OtherStepKeepsDelete(Run(s, events[..|events| - 1]), events[|events| - 1], d);
    }
  }

  // ----- each step and the events behind it

  lemma Finding(s: Life, b: nat, ids: set<string>, others: seq<Event>)
    requires b !in s.handlings && forall e :: e in others ==> !OfHandling(e, b)
    ensures var s' := Run(Step(s, FindRecords(b, ids)), others);
      b in s'.handlings && s'.handlings[b] == Found(ids, FoundRecords(s.db, ids))
  {
    assert Step(s, FindRecords(b, ids)) == Handle(s, FindRecords(b, ids));
    OthersKeepHandling(Step(s, FindRecords(b, ids)), others, b);
  }

  lemma Reading(s: Life, b: nat, ids: set<string>, found: map<string, ExecRecord>, others: seq<Event>)
    requires b in s.handlings && s.handlings[b] == Found(ids, found) && forall e :: e in others ==> !OfHandling(e, b)
    ensures var s' := Run(Step(s, FindTasks(b)), others);
      b in s'.handlings && s'.handlings[b] == Read(ids, found, ReadTasks(s.db, found))
  {
    assert Step(s, FindTasks(b)) == Handle(s, FindTasks(b));
    OthersKeepHandling(Step(s, FindTasks(b)), others, b);
  }

  lemma Saving(s: Life, b: nat, ms: nat, ids: set<string>, found: map<string, ExecRecord>, read: map<string, Task>,
               others: seq<Event>)
    requires b in s.handlings && s.handlings[b] == Read(ids, found, read) && forall e :: e in others ==> !OfHandling(e, b)
    ensures Step(s, SaveFailures(b, ms)).db == WriteFailures(s.db, ids, read, ms)
    ensures var s' := Run(Step(s, SaveFailures(b, ms)), others); b in s'.handlings && s'.handlings[b] == Saved(found)
  {
    assert Step(s, SaveFailures(b, ms)) == SaveHandled(s, b, ms);
    OthersKeepHandling(Step(s, SaveFailures(b, ms)), others, b);
  }

  lemma Releasing(s: Life, b: nat, ms: nat, found: map<string, ExecRecord>)
    requires b in s.handlings && s.handlings[b] == Saved(found)
    ensures Step(s, ReleaseLocksOf(b, ms)).db == ReleaseFound(s.db, found, ms)
  {
    assert Step(s, ReleaseLocksOf(b, ms)) == Handle(s, ReleaseLocksOf(b, ms));
  }

  /** A failure handler, whatever events fall into its three awaits, is its four steps. */
  lemma HandlerIsSteps(s: Life, b: nat, ids: set<string>, ms: nat, releaseMs: nat,
                       e0: seq<Event>, e1: seq<Event>, e2: seq<Event>, others: (nat, Db) -> Db,
                       s1: Life, s2: Life, s3: Life)
    requires b !in s.handlings
    requires forall e :: e in e0 || e in e1 || e in e2 ==> !OfHandling(e, b)
    requires s1 == Run(Step(s, FindRecords(b, ids)), e0) && others(0, s.db) == s1.db
    requires s2 == Run(Step(s1, FindTasks(b)), e1) && others(1, s1.db) == s2.db
    requires s3 == Run(Step(s2, SaveFailures(b, ms)), e2) && others(2, Step(s2, SaveFailures(b, ms)).db) == s3.db
    ensures Step(s3, ReleaseLocksOf(b, releaseMs)).db == FailHandler(s.db, ids, ms, releaseMs, others)
  {
    var found := FoundRecords(s.db, ids);
    Finding(s, b, ids, e0);
    Reading(s1, b, ids, found, e1);
    Saving(s2, b, ms, ids, found, ReadTasks(s1.db, found), e2);
    Releasing(s3, b, releaseMs, found);
  }

  lemma Checking(s: Life, c: nat, id: string, others: seq<Event>)
    requires CancelEnabled(s, CheckCancel(c, id)) && forall e :: e in others ==> !OfCancel(e, c)
    ensures var s' := Run(Step(s, CheckCancel(c, id)), others); c in s'.cancels && s'.cancels[c] == Checked(id)
  {
    assert Step(s, CheckCancel(c, id)) == Cancel(s, CheckCancel(c, id));
    OthersKeepCancel(Step(s, CheckCancel(c, id)), others, c);
  }

  lemma Picking(s: Life, c: nat, id: string, others: seq<Event>)
    requires c in s.cancels && s.cancels[c] == Checked(id) && forall e :: e in others ==> !OfCancel(e, c)
    ensures var s' := Run(Step(s, PickRecord(c)), others);
      c in s'.cancels && s'.cancels[c] == Picked(id, RunningRecord(s.db, id))
  {
    assert Step(s, PickRecord(c)) == Cancel(s, PickRecord(c));
    OthersKeepCancel(Step(s, PickRecord(c)), others, c);
  }

  lemma Stopping(s: Life, c: nat, id: string, record: Option<string>, others: seq<Event>)
    requires c in s.cancels && s.cancels[c] == Picked(id, record) && forall e :: e in others ==> !OfCancel(e, c)
    ensures Step(s, StopRecord(c)).db == CancelRecord(s.db, record)
    ensures var s' := Run(Step(s, StopRecord(c)), others); c in s'.cancels && s'.cancels[c] == Picked(id, None)
  {
    if record.Some? {
      assert Step(s, StopRecord(c)) == Cancel(s, StopRecord(c));
    } else {
      assert Step(s, StopRecord(c)) == s;
    }
    OthersKeepCancel(Step(s, StopRecord(c)), others, c);
  }

  lemma Canceling(s: Life, c: nat, id: string)
    requires c in s.cancels && s.cancels[c] == Picked(id, None)
    ensures Step(s, SaveCanceled(c)).db == CancelSave(s.db, id)
  {
    assert Step(s, SaveCanceled(c)) == Cancel(s, SaveCanceled(c));
  }

  /** A cancellation is its steps; the one that stops a record does nothing when none was found running. */
  lemma CancelIsSteps(s: Life, c: nat, id: string, e0: seq<Event>, e1: seq<Event>, e2: seq<Event>,
                      others: (nat, Db) -> Db, s1: Life, s2: Life, s3: Life)
    requires CancelEnabled(s, CheckCancel(c, id))
    requires forall e :: e in e0 || e in e1 || e in e2 ==> !OfCancel(e, c)
    requires s1 == Run(Step(s, CheckCancel(c, id)), e0) && others(0, s.db) == s1.db
    requires s2 == Run(Step(s1, PickRecord(c)), e1) && others(1, s1.db) == s2.db
    requires s3 == Run(Step(s2, StopRecord(c)), e2) && others(2, Step(s2, StopRecord(c)).db) == s3.db
    ensures Step(s3, SaveCanceled(c)).db == CancelHandler(s.db, id, others)
  {
    Checking(s, c, id, e0);
    Picking(s1, c, id, e1);
    Stopping(s2, c, id, RunningRecord(s1.db, id), e2);
    Canceling(s3, c, id);
  }

  /** A deletion is its two steps. */
  lemma DeleteIsSteps(s: Life, d: nat, id: string, e0: seq<Event>, others: (nat, Db) -> Db, s1: Life)
    requires DeleteEnabled(s, ReadToDelete(d, id)) && forall e :: e in e0 ==> !OfDelete(e, d)
    requires s1 == Run(Step(s, ReadToDelete(d, id)), e0) && others(0, s.db) == s1.db
    ensures Step(s1, SaveDeleted(d)).db == DeleteHandler(s.db, id, others)
  {
    assert Step(s, ReadToDelete(d, id)) == Delete(s, ReadToDelete(d, id));
    OthersKeepDelete(Step(s, ReadToDelete(d, id)), e0, d);
    assert Step(s1, SaveDeleted(d)) == Delete(s1, SaveDeleted(d));
  }
}
