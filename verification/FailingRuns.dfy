/** A task whose every run fails exactly once before the next begins: how often it runs, and when a reported
    failure is lost, over all interleavings of the life cycle. */
module FailingRuns {
  import opened Wrappers
  import opened TaskStore
  import opened Lifecycle

  /** A run fails to send, or a failure of it is reported by a message or the timeout sweep. */
  datatype FailKind = BySend | ByReport

  /** The handler found a record of the task and has not saved yet. */
  predicate Speaks(h: Handling, t: string) {
    !h.Saved? && exists r :: r in h.found && h.found[r].taskId == Some(t)
  }

  ghost predicate Quiet(s: Life, t: string) {
    forall b :: b in s.handlings ==> !Speaks(s.handlings[b], t)
  }

  /** The records of the task that no failure is noted for. */
  function Unfailed(records: map<string, ExecRecord>, t: string): set<string> {
    set r | r in RecordsOf(records, t) && records[r].status != RecordFailed
  }

  /** No handler that has not saved yet was given the record's id. */
  predicate NotNamed(s: Life, record: string) {
    forall b :: b in s.handlings && !s.handlings[b].Saved? ==> record !in s.handlings[b].ids
  }

  /** The event lets every run of the task fail exactly once before the next begins.  A failure may be
      reported from the moment the record exists, even while the run is still sending, and more than once as
      long as it is not noted on the record; it is saved before the next run loads the task and writes no
      outdated retry count back.  No run breaks off or fails to send after a report, nothing succeeds, and
      nobody cancels, deletes or gives up the task. */
  ghost predicate FailsOnce(s: Life, e: Event, t: string) {
    Enabled(s, e) ==>
      match e
      case LoadTask(u) => u == t ==> Quiet(s, t)
      case Proceed(u, record, ms) => u == t ==> !WaitExpired(s.flights[u].phase.snap, ms) && NotNamed(s, record)
      case SendFail(u, _) => u == t ==> Quiet(s, t) && s.flights[u].phase.record in Unfailed(s.db.records, t)
      case Abort(u) => u == t ==> !s.flights[u].phase.Recorded? && !s.flights[u].phase.Sending?
      case FindRecords(_, ids) => ids * RecordsOf(s.db.records, t) <= Unfailed(s.db.records, t)
      case SaveFailures(_, _) => UpToDate(s, e, t)
      case ReportSuccesses(ids, _) => t !in TasksOf(s.db, ids)
      case StopRecord(c) => s.cancels[c].record.value !in RecordsOf(s.db.records, t)
      case SaveCanceled(c) => s.cancels[c].t != t
      case SaveDeleted(d) => s.deletes[d].t != t
      case _ => true
  }

  ghost predicate FailingRun(start: Life, events: seq<Event>, t: string) {
    forall k :: 0 <= k < |events| ==> FailsOnce(Run(start, events[..k]), events[k], t)
  }

  /** How the event makes a run of the task fail for good or for a retry, if it does. */
  function Failure(s: Life, e: Event, t: string): seq<FailKind> {
    if !Enabled(s, e) then []
    else if e.SendFail? && e.t == t then [BySend]
    else if e.SaveFailures? && t in s.handlings[e.b].tasks && t in s.db.tasks
      && s.db.tasks[t].status == SendSuccess && s.handlings[e.b].tasks[t].status != Failed
    then [ByReport]
    else []
  }

  /** The failures of the task's runs that took effect, oldest first. */
  function Failures(start: Life, events: seq<Event>, t: string): seq<FailKind> {
    if events == [] then []
    else
      var init := events[..|events| - 1];
      Failures(start, init, t) + Failure(Run(start, init), events[|events| - 1], t)
  }

  /** Sent, its failure already noted on the record, and nobody left to act on it: no retry will come. */
  ghost predicate Stuck(s: Life, t: string) {
    && t in s.db.tasks && s.db.tasks[t].status == SendSuccess && NoCopy(s, t)
    && Quiet(s, t) && Unfailed(s.db.records, t) == {}
  }

  /** The event loses the report of a run's failure.  Either the report was saved while the run was still
      under way, and the run's last save overwrites what it wrote; or, after that, the last handler that
      speaks of the run saves nothing, since it read the task as failed before it was overwritten. */
  ghost predicate LosesReport(s: Life, e: Event, t: string) {
    Enabled(s, e) && t in s.db.tasks &&
      match e
      case SendOk(u) => u == t && Quiet(s, t) && Unfailed(s.db.records, t) == {}
      case SaveFailures(b, _) =>
        && s.db.tasks[t].status == SendSuccess && Speaks(s.handlings[b], t) && Failure(s, e, t) == []
        && forall c :: c in s.handlings && c != b ==> !Speaks(s.handlings[c], t)
      case _ => false
  }

  // ----- what the failures alone make of a task

  datatype Fate = Fate(retryCount: nat, status: TaskStatus)

  /** The retry count during the next run. */
  function Charge(fate: Fate): nat {
    fate.retryCount + (if fate.status == FailedWaitingRetry then 1 else 0)
  }

  function FateOf(isRetry: bool, kinds: seq<FailKind>): Fate {
    if kinds == [] then Fate(0, Waiting)
    else
      var n := Charge(FateOf(isRetry, kinds[..|kinds| - 1]));
      if !isRetry || n >= MAX_RETRY_COUNT then Fate(n, Failed)
      else if kinds[|kinds| - 1].BySend? then Fate(n + 1, FailedWaitingRetry)
      else Fate(n, FailedWaitingRetry)
  }

  /** No run begins after the task failed for good. */
  predicate Ongoing(isRetry: bool, kinds: seq<FailKind>) {
    kinds == [] ||
    (Ongoing(isRetry, kinds[..|kinds| - 1]) && FateOf(isRetry, kinds[..|kinds| - 1]).status != Failed)
  }

  /** A task with retries runs four times when its first two failures were both reported, three times
      otherwise; one without retries runs once. */
  function RunsToFail(isRetry: bool, kinds: seq<FailKind>): nat {
    if !isRetry then 1
    else if |kinds| >= 2 && kinds[0].ByReport? && kinds[1].ByReport? then 4
    else 3
  }

  lemma FateNext(isRetry: bool, kinds: seq<FailKind>, n: nat)
    requires n < |kinds|
    ensures var fate, charge := FateOf(isRetry, kinds[..n + 1]), Charge(FateOf(isRetry, kinds[..n]));
      fate == if !isRetry || charge >= MAX_RETRY_COUNT then Fate(charge, Failed)
              else if kinds[n].BySend? then Fate(charge + 1, FailedWaitingRetry)
              else Fate(charge, FailedWaitingRetry)
  {
    assert kinds[..n + 1][..n] == kinds[..n];
  }

  lemma {:induction false} OngoingPrefix(isRetry: bool, kinds: seq<FailKind>, n: nat)
    requires Ongoing(isRetry, kinds) && n < |kinds|
    ensures FateOf(isRetry, kinds[..n]).status != Failed
  {
    if n < |kinds| - 1 {
      OngoingPrefix(isRetry, kinds[..|kinds| - 1], n);
      assert kinds[..|kinds| - 1][..n] == kinds[..n];
    }
  }

  lemma {:induction false} FailsAfter(isRetry: bool, kinds: seq<FailKind>)
    requires Ongoing(isRetry, kinds)
    ensures |kinds| <= RunsToFail(isRetry, kinds)
    ensures FateOf(isRetry, kinds).status == Failed <==> |kinds| == RunsToFail(isRetry, kinds)
  {
    assert kinds[..|kinds|] == kinds && FateOf(isRetry, kinds[..0]) == Fate(0, Waiting);
    if |kinds| > 0 { FateNext(isRetry, kinds, 0); }
    if |kinds| > 1 { FateNext(isRetry, kinds, 1); OngoingPrefix(isRetry, kinds, 1); }
    if |kinds| > 2 { FateNext(isRetry, kinds, 2); OngoingPrefix(isRetry, kinds, 2); }
    if |kinds| > 3 { FateNext(isRetry, kinds, 3); OngoingPrefix(isRetry, kinds, 3); }
    if |kinds| > 4 { OngoingPrefix(isRetry, kinds, 4); }
  }

  // ----- what every step keeps

  /** The task is as its failures say. */
  predicate Settled(task: Task, fate: Fate) {
    Fate(task.retryCount, task.status) == fate
  }

  /** The entity of a run that has begun, at its retry count. */
  predicate Counts(task: Task, fate: Fate) {
    fate.status != Failed && task.retryCount == Charge(fate)
  }

  /** n: the records of the task.  Reports may have written to a task under way, but not moved its count. */
  predicate Tracks(task: Task, isRetry: bool, n: nat, phase: Option<Phase>, kinds: seq<FailKind>) {
    var fate := FateOf(isRetry, kinds);
    && task.isRetry == isRetry && !task.isDeleted && Ongoing(isRetry, kinds)
    && match phase
       case Some(Loaded(snap, _)) =>
         && Settled(task, fate) && Runnable(task) && n == |kinds|
         && snap.isRetry == isRetry && !snap.isDeleted && Settled(snap, fate)
       case Some(Recorded(snap, _)) =>
         && task.status != SendSuccess && task.retryCount == snap.retryCount && n == |kinds| + 1
         && snap.isRetry == isRetry && !snap.isDeleted && Settled(snap, fate) && Runnable(snap)
       case Some(Sending(snap, _)) =>
         && task.status != SendSuccess && task.retryCount == snap.retryCount && n == |kinds| + 1
         && snap.isRetry == isRetry && !snap.isDeleted && Counts(snap, fate)
       case _ =>
         || (task.status == SendSuccess && Counts(task, fate) && n == |kinds| + 1)
         || (Settled(task, fate) && n == |kinds|)
  }

  /** Only the record of a run that has not failed yet is unfailed. */
  predicate RecordsTrack(unfailed: set<string>, status: TaskStatus, phase: Option<Phase>) {
    match phase
    case Some(Loaded(_, _)) => unfailed == {}
    case Some(Recorded(_, r)) => unfailed <= {r}
    case Some(Sending(_, r)) => unfailed <= {r}
    case _ => if status == SendSuccess then forall x, y :: x in unfailed && y in unfailed ==> x == y else unfailed == {}
  }

  /** A handler that speaks of the task was given its unfailed record; outside a run it repeats the report
      that came last.  A handler found every record of the task that it was given. */
  ghost predicate HandlerTracks(h: Handling, s: Life, t: string, kinds: seq<FailKind>)
    requires t in s.db.tasks
  {
    && (Speaks(h, t) ==>
          && Unfailed(s.db.records, t) <= h.ids
          && (t in s.flights ==> !s.flights[t].phase.Loaded?)
          && (NoCopy(s, t) && s.db.tasks[t].status != SendSuccess ==> kinds != [] && kinds[|kinds| - 1].ByReport?))
    && (!h.Saved? ==> h.ids * RecordsOf(s.db.records, t) <= h.found.Keys)
  }

  ghost predicate HandlersTrack(s: Life, t: string, kinds: seq<FailKind>)
    requires t in s.db.tasks
  {
    forall b :: b in s.handlings ==> HandlerTracks(s.handlings[b], s, t, kinds)
  }

  ghost predicate Track(s: Life, t: string, isRetry: bool, kinds: seq<FailKind>) {
    && t in s.db.tasks
    && Tracks(s.db.tasks[t], isRetry, |RecordsOf(s.db.records, t)|, PhaseOf(s, t), kinds)
    && RecordsTrack(Unfailed(s.db.records, t), s.db.tasks[t].status, PhaseOf(s, t))
    && HandlersTrack(s, t, kinds)
  }

  /** What a step from s to s' must bring about. */
  ghost predicate StepOk(s: Life, e: Event, s': Life, t: string, isRetry: bool, kinds: seq<FailKind>) {
    && Track(s', t, isRetry, kinds + Failure(s, e, t))
    && (Stuck(s', t) <==> Stuck(s, t) || LosesReport(s, e, t))
  }

  /** A step that leaves the task, its flight, its records and the handlers alone. */
  lemma OthersKeepTrack(s: Life, e: Event, s': Life, t: string, isRetry: bool, kinds: seq<FailKind>)
    requires Track(s, t, isRetry, kinds) && Failure(s, e, t) == [] && !LosesReport(s, e, t)
    requires t in s'.db.tasks && s'.db.tasks[t] == s.db.tasks[t] && PhaseOf(s', t) == PhaseOf(s, t)
    requires RecordsOf(s'.db.records, t) == RecordsOf(s.db.records, t)
    requires Unfailed(s'.db.records, t) == Unfailed(s.db.records, t) && s'.handlings == s.handlings
    ensures StepOk(s, e, s', t, isRetry, kinds)
  {
    assert kinds + [] == kinds;
    SameFlight(s, s', t);
    forall b | b in s'.handlings ensures HandlerTracks(s'.handlings[b], s', t, kinds) {
      assert HandlerTracks(s.handlings[b], s, t, kinds);
    }
  }

  lemma SameFlight(s: Life, s': Life, t: string)
    requires PhaseOf(s', t) == PhaseOf(s, t)
    ensures NoCopy(s', t) == NoCopy(s, t)
    ensures (t in s.flights && s.flights[t].phase.Loaded?) == (t in s'.flights && s'.flights[t].phase.Loaded?)
  {
  }

  lemma FateOfNext(isRetry: bool, kinds: seq<FailKind>, kind: FailKind)
    ensures var n := Charge(FateOf(isRetry, kinds));
      FateOf(isRetry, kinds + [kind]) ==
      if !isRetry || n >= MAX_RETRY_COUNT then Fate(n, Failed)
      else if kind.BySend? then Fate(n + 1, FailedWaitingRetry) else Fate(n, FailedWaitingRetry)
    ensures Ongoing(isRetry, kinds) && FateOf(isRetry, kinds).status != Failed ==> Ongoing(isRetry, kinds + [kind])
  {
    assert (kinds + [kind])[..|kinds|] == kinds;
  }

  lemma {:induction false} FateStatus(isRetry: bool, kinds: seq<FailKind>)
    ensures FateOf(isRetry, kinds).status in {Waiting, FailedWaitingRetry, Failed}
    ensures kinds != [] ==> FateOf(isRetry, kinds).status != Waiting
    ensures kinds != [] && kinds[|kinds| - 1].ByReport? ==>
      FateOf(isRetry, kinds).status ==
        if !isRetry || FateOf(isRetry, kinds).retryCount >= MAX_RETRY_COUNT then Failed else FailedWaitingRetry
  {
  }

  // ----- the task's own run

  /** A step of the run that keeps the records' states and the handlers. */
  lemma RunStepTracks(s: Life, s': Life, t: string, isRetry: bool, kinds: seq<FailKind>, kinds': seq<FailKind>)
    requires Track(s, t, isRetry, kinds) && s'.handlings == s.handlings && t in s'.db.tasks
    requires RecordsOf(s'.db.records, t) == RecordsOf(s.db.records, t)
    requires Unfailed(s'.db.records, t) <= Unfailed(s.db.records, t)
    requires Tracks(s'.db.tasks[t], isRetry, |RecordsOf(s'.db.records, t)|, PhaseOf(s', t), kinds')
    requires RecordsTrack(Unfailed(s'.db.records, t), s'.db.tasks[t].status, PhaseOf(s', t))
    requires Quiet(s, t) || (kinds' == kinds && PhaseOf(s', t).Some? && !PhaseOf(s', t).value.Loaded?
                             && (!HasCopy(PhaseOf(s', t).value) ==> s'.db.tasks[t].status == SendSuccess))
    ensures Track(s', t, isRetry, kinds')
  {
    forall b | b in s'.handlings ensures HandlerTracks(s'.handlings[b], s', t, kinds') {
      assert HandlerTracks(s.handlings[b], s, t, kinds);
    }
  }

  lemma LoadedIsQuiet(s: Life, t: string, isRetry: bool, kinds: seq<FailKind>)
    requires Track(s, t, isRetry, kinds) && t in s.flights && s.flights[t].phase.Loaded?
    ensures Quiet(s, t)
  {
    forall b | b in s.handlings ensures !Speaks(s.handlings[b], t) {
      assert HandlerTracks(s.handlings[b], s, t, kinds);
    }
  }

  lemma LoadTracks(s: Life, t: string, isRetry: bool, kinds: seq<FailKind>)
    requires Track(s, t, isRetry, kinds) && t in s.flights && s.flights[t].phase.Locked? && Quiet(s, t)
    ensures Track(Load(s, t), t, isRetry, kinds)
    ensures Stuck(Load(s, t), t) <==> Stuck(s, t)
  {
    if Runnable(s.db.tasks[t]) {
      var phase := Loaded(s.db.tasks[t], s.flights[t].phase.token);
      assert Load(s, t) == SetPhase(s, t, phase);
      RunStepTracks(s, SetPhase(s, t, phase), t, isRetry, kinds, kinds);
    } else {
      FlightTracks(s, SetPhase(s, t, Over), t, isRetry, kinds);
    }
  }

  lemma RecordTracks(s: Life, t: string, record: string, isRetry: bool, kinds: seq<FailKind>)
    requires Track(s, t, isRetry, kinds) && t in s.flights && s.flights[t].phase.Loaded?
    requires record !in s.db.records && NotNamed(s, record)
    ensures Track(AddRecord(s, t, record), t, isRetry, kinds)
    ensures !Stuck(AddRecord(s, t, record), t) && !Stuck(s, t)
  {
    LoadedIsQuiet(s, t, isRetry, kinds);
    RecordAdded(s, t, record);
    var s' := AddRecord(s, t, record);
    forall b | b in s'.handlings ensures HandlerTracks(s'.handlings[b], s', t, kinds) {
      assert HandlerTracks(s.handlings[b], s, t, kinds);
    }
  }

  lemma RecordAdded(s: Life, t: string, record: string)
    requires t in s.flights && s.flights[t].phase.Loaded? && record !in s.db.records
    ensures var records := AddRecord(s, t, record).db.records;
      && RecordsOf(records, t) == RecordsOf(s.db.records, t) + {record}
      && Unfailed(records, t) == Unfailed(s.db.records, t) + {record}
      && |RecordsOf(records, t)| == |RecordsOf(s.db.records, t)| + 1
  {
    RunningAdded(s.db.records, t, record, NewRecord(t, s.flights[t].phase.snap, s.flights[t].phase.token));
  }

  lemma RunningAdded(records: map<string, ExecRecord>, t: string, id: string, record: ExecRecord)
    requires id !in records && record.taskId == Some(t) && record.status == RecordRunning
    ensures var records' := records[id := record];
      && RecordsOf(records', t) == RecordsOf(records, t) + {id}
      && Unfailed(records', t) == Unfailed(records, t) + {id}
  {
    forall r ensures r in RecordsOf(records[id := record], t) <==> r in RecordsOf(records, t) + {id} {
    }
    forall r ensures r in Unfailed(records[id := record], t) <==> r in Unfailed(records, t) + {id} {
    }
  }

  lemma StartTracks(s: Life, t: string, isRetry: bool, kinds: seq<FailKind>)
    requires Track(s, t, isRetry, kinds) && t in s.flights && s.flights[t].phase.Recorded?
    ensures Track(Start(s, t), t, isRetry, kinds)
    ensures !Stuck(Start(s, t), t) && !Stuck(s, t)
  {
    FateStatus(isRetry, kinds);
    RunStepTracks(s, Start(s, t), t, isRetry, kinds, kinds);
  }

  /** The last save of the run loses a failure that is noted already and nobody repeats. */
  lemma SendTracks(s: Life, t: string, isRetry: bool, kinds: seq<FailKind>)
    requires Track(s, t, isRetry, kinds) && t in s.flights && s.flights[t].phase.Sending?
    ensures Track(FinishSend(s, t), t, isRetry, kinds) && !Stuck(s, t)
    ensures Stuck(FinishSend(s, t), t) <==> Quiet(s, t) && Unfailed(s.db.records, t) == {}
  {
    RunStepTracks(s, FinishSend(s, t), t, isRetry, kinds, kinds);
  }

  lemma FailTracks(s: Life, t: string, ms: nat, isRetry: bool, kinds: seq<FailKind>)
    requires Track(s, t, isRetry, kinds) && t in s.flights && s.flights[t].phase.Sending?
    requires Quiet(s, t) && s.flights[t].phase.record in Unfailed(s.db.records, t)
    ensures Track(FailSend(s, t, ms), t, isRetry, kinds + [BySend])
    ensures !Stuck(FailSend(s, t, ms), t) && !Stuck(s, t)
  {
    var s', r := FailSend(s, t, ms), s.flights[t].phase.record;
    FateOfNext(isRetry, kinds, BySend);
    SameRecordsOf(s.db.records, FailOneRecord(s.db.records, r, ms), t);
    assert Unfailed(s'.db.records, t) == Unfailed(s.db.records, t) - {r} == {};
    RunStepTracks(s, s', t, isRetry, kinds, kinds + [BySend]);
  }

  /** A step that moves the task's flight only, and to where no copy is held. */
  lemma FlightTracks(s: Life, s': Life, t: string, isRetry: bool, kinds: seq<FailKind>)
    requires Track(s, t, isRetry, kinds) && s'.handlings == s.handlings
    requires s'.db.tasks == s.db.tasks && s'.db.records == s.db.records
    requires PhaseOf(s, t).Some? ==> !PhaseOf(s, t).value.Recorded? && !PhaseOf(s, t).value.Sending?
    requires PhaseOf(s', t).Some? ==> !HasCopy(PhaseOf(s', t).value)
    ensures Track(s', t, isRetry, kinds)
    ensures Stuck(s', t) <==> Stuck(s, t)
  {
    forall b | b in s'.handlings ensures HandlerTracks(s'.handlings[b], s', t, kinds) {
      assert HandlerTracks(s.handlings[b], s, t, kinds);
    }
  }

  /** A step of the task's own flight. */
  lemma OwnStepTracks(s: Life, e: Event, t: string, isRetry: bool, kinds: seq<FailKind>)
    requires Track(s, t, isRetry, kinds) && Enabled(s, e) && FailsOnce(s, e, t) && OfTask(e) && e.t == t
    ensures StepOk(s, e, Apply(s, e), t, isRetry, kinds)
  {
    OwnFailure(s, e, t);
    assert kinds + [] == kinds;
    if e.LoadTask? || e.Proceed? || e.SaveRunning? || e.SendOk? || e.SendFail? {
      OwnRunTracks(s, e, t, isRetry, kinds);
    } else {
      FlightMoves(s, e, t);
      FlightTracks(s, Apply(s, e), t, isRetry, kinds);
    }
  }

  lemma OwnFailure(s: Life, e: Event, t: string)
    requires Enabled(s, e) && OfTask(e) && e.t == t && t in s.db.tasks
    ensures Failure(s, e, t) == if e.SendFail? then [BySend] else []
    ensures LosesReport(s, e, t) <==> e.SendOk? && Quiet(s, t) && Unfailed(s.db.records, t) == {}
  {
  }

  lemma OwnRunTracks(s: Life, e: Event, t: string, isRetry: bool, kinds: seq<FailKind>)
    requires Track(s, t, isRetry, kinds) && Enabled(s, e) && FailsOnce(s, e, t) && OfTask(e) && e.t == t
    requires e.LoadTask? || e.Proceed? || e.SaveRunning? || e.SendOk? || e.SendFail?
    ensures Track(Apply(s, e), t, isRetry, if e.SendFail? then kinds + [BySend] else kinds)
    ensures Stuck(Apply(s, e), t) <==> Stuck(s, t) || (e.SendOk? && Quiet(s, t) && Unfailed(s.db.records, t) == {})
  {
    match e
    case LoadTask(_) => LoadTracks(s, t, isRetry, kinds);
    case Proceed(_, record, _) => RecordTracks(s, t, record, isRetry, kinds);
    case SaveRunning(_) => StartTracks(s, t, isRetry, kinds);
    case SendOk(_) => SendTracks(s, t, isRetry, kinds);
    case SendFail(_, ms) => FailTracks(s, t, ms, isRetry, kinds);
  }

  lemma FlightMoves(s: Life, e: Event, t: string)
    requires Enabled(s, e) && FailsOnce(s, e, t) && OfTask(e) && e.t == t && t in s.db.tasks
    requires e.Receive? || e.TakeLock? || e.Abort? || e.Done? || e.Create?
    ensures var s' := Apply(s, e);
      && s'.handlings == s.handlings && s'.db.tasks == s.db.tasks && s'.db.records == s.db.records
      && (PhaseOf(s, t).Some? ==> !PhaseOf(s, t).value.Recorded? && !PhaseOf(s, t).value.Sending?)
      && (PhaseOf(s', t).Some? ==> !HasCopy(PhaseOf(s', t).value))
  {
  }

  // ----- the handlers of failures

  lemma FoundTracks(s: Life, b: nat, ids: set<string>, t: string, isRetry: bool, kinds: seq<FailKind>)
    requires Track(s, t, isRetry, kinds) && b !in s.handlings
    requires ids * RecordsOf(s.db.records, t) <= Unfailed(s.db.records, t)
    ensures Track(Handle(s, FindRecords(b, ids)), t, isRetry, kinds)
    ensures Stuck(Handle(s, FindRecords(b, ids)), t) <==> Stuck(s, t)
  {
    var s', unfailed := Handle(s, FindRecords(b, ids)), Unfailed(s.db.records, t);
    assert Speaks(s'.handlings[b], t) ==> unfailed != {} && unfailed <= ids by {
      if Speaks(s'.handlings[b], t) {
        var r :| r in s'.handlings[b].found && s'.handlings[b].found[r].taskId == Some(t);
        assert r in ids * RecordsOf(s.db.records, t);
      }
    }
    forall c | c in s'.handlings ensures HandlerTracks(s'.handlings[c], s', t, kinds) {
      assert c != b ==> HandlerTracks(s.handlings[c], s, t, kinds);
    }
    assert Quiet(s', t) ==> Quiet(s, t) by {
      assert forall c :: c in s.handlings ==> c in s'.handlings && s'.handlings[c] == s.handlings[c];
    }
  }

  lemma ReadTracks(s: Life, b: nat, t: string, isRetry: bool, kinds: seq<FailKind>)
    requires Track(s, t, isRetry, kinds) && b in s.handlings && s.handlings[b].Found?
    ensures Track(Handle(s, FindTasks(b)), t, isRetry, kinds)
    ensures Stuck(Handle(s, FindTasks(b)), t) <==> Stuck(s, t)
  {
    var s' := Handle(s, FindTasks(b));
    assert Speaks(s'.handlings[b], t) == Speaks(s.handlings[b], t);
    forall c | c in s'.handlings
      ensures HandlerTracks(s'.handlings[c], s', t, kinds) && Speaks(s'.handlings[c], t) == Speaks(s.handlings[c], t)
    {
      assert HandlerTracks(s.handlings[c], s, t, kinds);
    }
  }

  lemma ReleasedTracks(s: Life, b: nat, ms: nat, t: string, isRetry: bool, kinds: seq<FailKind>)
    requires Track(s, t, isRetry, kinds) && b in s.handlings && s.handlings[b].Saved?
    ensures Track(Handle(s, ReleaseLocksOf(b, ms)), t, isRetry, kinds)
    ensures Stuck(Handle(s, ReleaseLocksOf(b, ms)), t) <==> Stuck(s, t)
  {
    var s' := Handle(s, ReleaseLocksOf(b, ms));
    forall c | c in s'.handlings ensures HandlerTracks(s'.handlings[c], s', t, kinds) {
      assert HandlerTracks(s.handlings[c], s, t, kinds);
    }
    assert forall c :: c in s.handlings && c != b ==> c in s'.handlings && s'.handlings[c] == s.handlings[c];
  }

  /** What a save does to the task and its records, as far as it matters here. */
  lemma SavedTask(s: Life, b: nat, ms: nat, t: string)
    requires b in s.handlings && s.handlings[b].Read? && t in s.db.tasks && HandlingOk(s.db.records, s.handlings[b])
    ensures var s', h := SaveHandled(s, b, ms), s.handlings[b];
      && t in s'.db.tasks && (t in h.tasks ==> Speaks(h, t))
      && s'.db.tasks[t] == (if t in h.tasks then WriteBack(s.db.tasks[t], h.tasks[t], ms) else s.db.tasks[t])
      && RecordsOf(s'.db.records, t) == RecordsOf(s.db.records, t) && PhaseOf(s', t) == PhaseOf(s, t)
      && Unfailed(s'.db.records, t) == Unfailed(s.db.records, t) - h.ids
      && s'.flights == s.flights && s'.handlings == s.handlings[b := Saved(h.found)]
  {
    SameRecordsOf(s.db.records, SaveHandled(s, b, ms).db.records, t);
  }

  /** What a save makes of the task: its reported failure, or the same again, or during a run nothing that
      lasts. */
  lemma WriteTracks(task: Task, read: Task, isRetry: bool, n: nat, phase: Option<Phase>, kinds: seq<FailKind>, ms: nat)
    requires Tracks(task, isRetry, n, phase, kinds) && (phase.Some? ==> !phase.value.Loaded?)
    requires Moved(task, read) == 0 && read.isRetry == task.isRetry
    requires (phase.Some? && HasCopy(phase.value)) || task.status == SendSuccess || (kinds != [] && kinds[|kinds| - 1].ByReport?)
    ensures var task', effective := WriteBack(task, read, ms), task.status == SendSuccess && read.status != Failed;
      && Tracks(task', isRetry, n, phase, if effective then kinds + [ByReport] else kinds)
      && (task'.status == SendSuccess <==> task.status == SendSuccess && !effective)
  {
    FateStatus(isRetry, kinds);
    FateOfNext(isRetry, kinds, ByReport);
  }

  /** A save by a handler that does not speak of the task. */
  lemma OtherSaveTracks(s: Life, b: nat, ms: nat, t: string, isRetry: bool, kinds: seq<FailKind>)
    requires Track(s, t, isRetry, kinds) && HandlingsOk(s) && b in s.handlings && s.handlings[b].Read?
    requires !Speaks(s.handlings[b], t)
    ensures Track(SaveHandled(s, b, ms), t, isRetry, kinds)
    ensures Stuck(SaveHandled(s, b, ms), t) <==> Stuck(s, t)
  {
    var s', h := SaveHandled(s, b, ms), s.handlings[b];
    assert HandlingOk(s.db.records, h) && HandlerTracks(h, s, t, kinds);
    SavedTask(s, b, ms, t);
    assert Unfailed(s.db.records, t) !! h.ids by {
      if r :| r in Unfailed(s.db.records, t) && r in h.ids {
        assert r in h.found && h.found[r].taskId == Some(t);
      }
    }
    forall c | c in s'.handlings ensures HandlerTracks(s'.handlings[c], s', t, kinds) {
      assert HandlerTracks(s.handlings[c], s, t, kinds);
    }
    assert forall c :: c in s.handlings ==> Speaks(s'.handlings[c], t) == Speaks(s.handlings[c], t);
  }

  lemma HandlersAfterSave(s: Life, s': Life, b: nat, t: string, kinds: seq<FailKind>, kinds': seq<FailKind>)
    requires t in s.db.tasks && HandlersTrack(s, t, kinds) && t in s'.db.tasks && s'.flights == s.flights
    requires b in s.handlings && s'.handlings == s.handlings[b := Saved(s.handlings[b].found)]
    requires RecordsOf(s'.db.records, t) == RecordsOf(s.db.records, t) && Unfailed(s'.db.records, t) == {}
    requires kinds' == kinds || (kinds' != [] && kinds'[|kinds'| - 1].ByReport?)
    requires NoCopy(s, t) && kinds' == kinds ==> (s'.db.tasks[t].status == SendSuccess <==> s.db.tasks[t].status == SendSuccess)
    ensures HandlersTrack(s', t, kinds')
  {
    forall c | c in s'.handlings ensures HandlerTracks(s'.handlings[c], s', t, kinds') {
      assert HandlerTracks(s.handlings[c], s, t, kinds);
    }
  }

  /** A save by a handler that speaks of the task. */
  lemma OwnSaveTracks(s: Life, b: nat, ms: nat, t: string, isRetry: bool, kinds: seq<FailKind>)
    requires Track(s, t, isRetry, kinds) && HandlingsOk(s) && b in s.handlings && s.handlings[b].Read?
    requires Speaks(s.handlings[b], t) && UpToDate(s, SaveFailures(b, ms), t)
    ensures Track(SaveHandled(s, b, ms), t, isRetry, kinds + Failure(s, SaveFailures(b, ms), t))
    ensures SaveHandled(s, b, ms).db.tasks[t].status == SendSuccess <==>
      s.db.tasks[t].status == SendSuccess && Failure(s, SaveFailures(b, ms), t) == []
  {
    var s', h, task := SaveHandled(s, b, ms), s.handlings[b], s.db.tasks[t];
    var kinds' := kinds + Failure(s, SaveFailures(b, ms), t);
    assert kinds + [] == kinds;
    SpeakerKnows(s, b, t, isRetry, kinds);
    SavedTask(s, b, ms, t);
    if t in h.tasks {
      WriteTracks(task, h.tasks[t], isRetry, |RecordsOf(s.db.records, t)|, PhaseOf(s, t), kinds, ms);
    }
    assert Tracks(s'.db.tasks[t], isRetry, |RecordsOf(s'.db.records, t)|, PhaseOf(s', t), kinds');
    HandlersAfterSave(s, s', b, t, kinds, kinds');
  }

  lemma SpeakerKnows(s: Life, b: nat, t: string, isRetry: bool, kinds: seq<FailKind>)
    requires Track(s, t, isRetry, kinds) && HandlingsOk(s) && b in s.handlings && s.handlings[b].Read?
    requires Speaks(s.handlings[b], t)
    ensures var h := s.handlings[b];
      && HandlingOk(s.db.records, h) && Unfailed(s.db.records, t) - h.ids == {}
      && (t in h.tasks ==> h.tasks[t].isRetry == s.db.tasks[t].isRetry)
      && (PhaseOf(s, t).Some? ==> !PhaseOf(s, t).value.Loaded?)
      && (NoCopy(s, t) && s.db.tasks[t].status != SendSuccess ==> kinds != [] && kinds[|kinds| - 1].ByReport?)
  {
    var h := s.handlings[b];
    assert HandlingOk(s.db.records, h) && RetryOk(s.db.tasks, h) && HandlerTracks(h, s, t, kinds);
  }

  lemma SavedStuck(s: Life, b: nat, ms: nat, t: string, isRetry: bool, kinds: seq<FailKind>)
    requires Track(s, t, isRetry, kinds) && HandlingsOk(s) && b in s.handlings && s.handlings[b].Read?
    requires Speaks(s.handlings[b], t) && UpToDate(s, SaveFailures(b, ms), t)
    ensures !Stuck(s, t) && (Stuck(SaveHandled(s, b, ms), t) <==> LosesReport(s, SaveFailures(b, ms), t))
  {
    var s', h := SaveHandled(s, b, ms), s.handlings[b];
    OwnSaveTracks(s, b, ms, t, isRetry, kinds);
    SpeakerKnows(s, b, t, isRetry, kinds);
    SavedTask(s, b, ms, t);
    QuietAfterSave(s, s', b, t);
  }

  lemma QuietAfterSave(s: Life, s': Life, b: nat, t: string)
    requires b in s.handlings && s'.handlings == s.handlings[b := Saved(s.handlings[b].found)]
    ensures Quiet(s', t) <==> forall c :: c in s.handlings && c != b ==> !Speaks(s.handlings[c], t)
  {
    assert forall c :: c in s.handlings && c != b ==> s'.handlings[c] == s.handlings[c];
  }

  lemma HandlerStepTracks(s: Life, e: Event, t: string, isRetry: bool, kinds: seq<FailKind>)
    requires Track(s, t, isRetry, kinds) && HandlingsOk(s) && HandlerEnabled(s, e) && FailsOnce(s, e, t)
    ensures StepOk(s, e, Handle(s, e), t, isRetry, kinds)
  {
    assert kinds + [] == kinds;
    match e
    case FindRecords(b, ids) => FoundTracks(s, b, ids, t, isRetry, kinds);
    case FindTasks(b) => ReadTracks(s, b, t, isRetry, kinds);
    case ReleaseLocksOf(b, ms) => ReleasedTracks(s, b, ms, t, isRetry, kinds);
    case SaveFailures(b, ms) => SaveStepTracks(s, b, ms, t, isRetry, kinds);
  }

  lemma SaveStepTracks(s: Life, b: nat, ms: nat, t: string, isRetry: bool, kinds: seq<FailKind>)
    requires Track(s, t, isRetry, kinds) && HandlingsOk(s) && b in s.handlings && s.handlings[b].Read?
    requires UpToDate(s, SaveFailures(b, ms), t)
    ensures StepOk(s, SaveFailures(b, ms), SaveHandled(s, b, ms), t, isRetry, kinds)
  {
    if Speaks(s.handlings[b], t) {
      OwnSaveTracks(s, b, ms, t, isRetry, kinds);
      SavedStuck(s, b, ms, t, isRetry, kinds);
    } else {
      assert kinds + [] == kinds;
      assert HandlingOk(s.db.records, s.handlings[b]);
      SavedTask(s, b, ms, t);
      OtherSaveTracks(s, b, ms, t, isRetry, kinds);
    }
  }

  // ----- everything else

  lemma CancelStepTracks(s: Life, e: Event, t: string, isRetry: bool, kinds: seq<FailKind>)
    requires Track(s, t, isRetry, kinds) && CancelEnabled(s, e) && FailsOnce(s, e, t)
    ensures StepOk(s, e, Cancel(s, e), t, isRetry, kinds)
  {
    var s' := Cancel(s, e);
    if e.StopRecord? {
      SameRecordsOf(s.db.records, s'.db.records, t);
      assert Unfailed(s'.db.records, t) == Unfailed(s.db.records, t);
    }
    OthersKeepTrack(s, e, s', t, isRetry, kinds);
  }

  lemma DeleteStepTracks(s: Life, e: Event, t: string, isRetry: bool, kinds: seq<FailKind>)
    requires Track(s, t, isRetry, kinds) && DeleteEnabled(s, e) && FailsOnce(s, e, t)
    ensures StepOk(s, e, Delete(s, e), t, isRetry, kinds)
  {
    OthersKeepTrack(s, e, Delete(s, e), t, isRetry, kinds);
  }

  lemma SuccessTracks(s: Life, ids: set<string>, ms: nat, t: string, isRetry: bool, kinds: seq<FailKind>)
    requires Track(s, t, isRetry, kinds) && t !in TasksOf(s.db, ids)
    ensures StepOk(s, ReportSuccesses(ids, ms), s.(db := SucceedBatch(s.db, ids, ms)), t, isRetry, kinds)
  {
    var s' := s.(db := SucceedBatch(s.db, ids, ms));
    SameRecordsOf(s.db.records, s'.db.records, t);
    forall r | r in RecordsOf(s.db.records, t) ensures s'.db.records[r].status == s.db.records[r].status {
      assert r !in ids;
    }
    assert Unfailed(s'.db.records, t) == Unfailed(s.db.records, t);
    OthersKeepTrack(s, ReportSuccesses(ids, ms), s', t, isRetry, kinds);
  }

  /** A step of another task's flight. */
  lemma OtherStepTracks(s: Life, e: Event, t: string, isRetry: bool, kinds: seq<FailKind>)
    requires Track(s, t, isRetry, kinds) && Enabled(s, e) && OfTask(e) && e.t != t && FlightOk(s, e.t)
    ensures StepOk(s, e, Apply(s, e), t, isRetry, kinds)
  {
    var s' := Apply(s, e);
    if e.SendFail? {
      OtherFailLeaves(s, e.t, e.ms, t);
    } else if e.Proceed? {
      OtherRecordLeaves(s, e.t, e.record, e.ms, t);
    } else {
      OtherStepLeaves(s, e, t);
    }
    OthersKeepTrack(s, e, s', t, isRetry, kinds);
  }

  lemma OtherFailLeaves(s: Life, u: string, ms: nat, t: string)
    requires Enabled(s, SendFail(u, ms)) && u != t && t in s.db.tasks && FlightOk(s, u)
    ensures var s' := Apply(s, SendFail(u, ms));
      && t in s'.db.tasks && s'.db.tasks[t] == s.db.tasks[t] && PhaseOf(s', t) == PhaseOf(s, t)
      && RecordsOf(s'.db.records, t) == RecordsOf(s.db.records, t)
      && Unfailed(s'.db.records, t) == Unfailed(s.db.records, t) && s'.handlings == s.handlings
  {
    var s' := FailSend(s, u, ms);
    assert Apply(s, SendFail(u, ms)) == s';
    SameRecordsOf(s.db.records, s'.db.records, t);
    assert forall r :: r in RecordsOf(s.db.records, t) ==> s'.db.records[r] == s.db.records[r];
  }

  lemma OtherRecordLeaves(s: Life, u: string, record: string, ms: nat, t: string)
    requires Enabled(s, Proceed(u, record, ms)) && u != t && t in s.db.tasks
    ensures var s' := Apply(s, Proceed(u, record, ms));
      && t in s'.db.tasks && s'.db.tasks[t] == s.db.tasks[t] && PhaseOf(s', t) == PhaseOf(s, t)
      && RecordsOf(s'.db.records, t) == RecordsOf(s.db.records, t)
      && Unfailed(s'.db.records, t) == Unfailed(s.db.records, t) && s'.handlings == s.handlings
  {
    if WaitExpired(s.flights[u].phase.snap, ms) {
      assert Apply(s, Proceed(u, record, ms)) == GiveUp(s, u);
    } else {
      assert Apply(s, Proceed(u, record, ms)) == AddRecord(s, u, record);
      OtherRecordAdded(s, u, record, t);
    }
  }

  lemma OtherRecordAdded(s: Life, u: string, record: string, t: string)
    requires u in s.flights && s.flights[u].phase.Loaded? && record !in s.db.records && u != t
    ensures var records := AddRecord(s, u, record).db.records;
      RecordsOf(records, t) == RecordsOf(s.db.records, t) && Unfailed(records, t) == Unfailed(s.db.records, t)
  {
  }

  /** Every step keeps task, run, pending handlers and records as the failures so far say, and a task gets
      stuck exactly in a step that loses a report. */
  lemma StepTracks(s: Life, e: Event, t: string, isRetry: bool, kinds: seq<FailKind>)
    requires Inv(s) && Track(s, t, isRetry, kinds) && FailsOnce(s, e, t)
    ensures StepOk(s, e, Step(s, e), t, isRetry, kinds)
  {
    assert kinds + [] == kinds;
    if Enabled(s, e) {
      if OfTask(e) {
        assert FlightOk(s, e.t);
        if e.t == t {
          OwnStepTracks(s, e, t, isRetry, kinds);
        } else {
          OtherStepTracks(s, e, t, isRetry, kinds);
        }
      } else if e.ReportSuccesses? {
        SuccessTracks(s, e.ids, e.ms, t, isRetry, kinds);
      } else if HandlerEnabled(s, e) {
        HandlerStepTracks(s, e, t, isRetry, kinds);
      } else if CancelEnabled(s, e) {
        CancelStepTracks(s, e, t, isRetry, kinds);
      } else {
        DeleteStepTracks(s, e, t, isRetry, kinds);
      }
    }
  }

  // ----- whole runs

  /** The task has just been created. */
  predicate Unstarted(s: Life, t: string) {
    && t in s.db.tasks && t !in s.flights && RecordsOf(s.db.records, t) == {}
    && s.db.tasks[t].status == Waiting && s.db.tasks[t].retryCount == 0 && !s.db.tasks[t].isDeleted
  }

  lemma UnstartedTracks(s: Life, t: string)
    requires Inv(s) && Unstarted(s, t)
    ensures Track(s, t, s.db.tasks[t].isRetry, []) && !Stuck(s, t)
  {
    assert Unfailed(s.db.records, t) == {};
    forall b | b in s.handlings ensures HandlerTracks(s.handlings[b], s, t, []) {
      assert HandlingOk(s.db.records, s.handlings[b]);
      assert forall r :: r in s.db.records && s.db.records[r].taskId == Some(t) ==> r in RecordsOf(s.db.records, t);
    }
  }

  ghost predicate LosesAt(start: Life, events: seq<Event>, t: string, k: nat) {
    k < |events| && LosesReport(Run(start, events[..k]), events[k], t)
  }

  /** A report was lost in the run. */
  ghost predicate LostReport(start: Life, events: seq<Event>, t: string) {
    exists k :: LosesAt(start, events, t, k)
  }

  lemma LostInPrefix(start: Life, events: seq<Event>, n: nat, t: string, k: nat)
    requires k < n <= |events|
    ensures LosesAt(start, events[..n], t, k) <==> LosesAt(start, events, t, k)
  {
    assert events[..n][..k] == events[..k];
  }

  lemma LostNext(start: Life, events: seq<Event>, t: string)
    requires events != []
    ensures var n := |events| - 1;
      LostReport(start, events, t) <==> LostReport(start, events[..n], t) || LosesAt(start, events, t, n)
  {
    var n := |events| - 1;
    if LosesAt(start, events, t, n) {
    } else if k :| LosesAt(start, events[..n], t, k) {
      LostInPrefix(start, events, n, t, k);
    } else if k :| LosesAt(start, events, t, k) {
      LostInPrefix(start, events, n, t, k);
    }
  }

  lemma {:induction false} RunTracks(start: Life, events: seq<Event>, t: string)
    requires Inv(start) && Unstarted(start, t) && FailingRun(start, events, t)
    ensures Track(Run(start, events), t, start.db.tasks[t].isRetry, Failures(start, events, t))
    ensures Stuck(Run(start, events), t) <==> LostReport(start, events, t)
  {
    if events == [] {
      UnstartedTracks(start, t);
    } else {
      var n := |events| - 1;
      var init := events[..n];
      forall k | 0 <= k < n ensures FailsOnce(Run(start, init[..k]), init[k], t) {
        assert init[..k] == events[..k];
      }
      RunTracks(start, init, t);
      RunKeepsInv(start, init);
      RunTracksNext(start, events, t);
    }
  }

  lemma RunTracksNext(start: Life, events: seq<Event>, t: string)
    requires t in start.db.tasks && events != []
    requires var n := |events| - 1;
      var s := Run(start, events[..n]);
      && Inv(s) && FailsOnce(s, events[n], t)
      && Track(s, t, start.db.tasks[t].isRetry, Failures(start, events[..n], t))
      && (Stuck(s, t) <==> LostReport(start, events[..n], t))
    ensures Track(Run(start, events), t, start.db.tasks[t].isRetry, Failures(start, events, t))
    ensures Stuck(Run(start, events), t) <==> LostReport(start, events, t)
  {
    var n := |events| - 1;
    StepTracks(Run(start, events[..n]), events[n], t, start.db.tasks[t].isRetry, Failures(start, events[..n], t));
    LostNext(start, events, t);
  }

  /** An always failing task over whole runs of the life cycle, whatever happens to other tasks meanwhile.
      Its records number at most as the rule says and at most one more than the failures that took effect;
      outside a run it is failed for good exactly when that many failures took effect; and it is stuck, sent
      with a failure that no retry will follow, exactly when a report was lost. */
  lemma {:induction false} AlwaysFailingRuns(start: Life, events: seq<Event>, t: string)
    requires Inv(start) && Unstarted(start, t) && FailingRun(start, events, t)
    ensures var s, kinds := Run(start, events), Failures(start, events, t);
      var n, runs := |RecordsOf(s.db.records, t)|, RunsToFail(start.db.tasks[t].isRetry, kinds);
      && t in s.db.tasks
      && |kinds| <= n <= |kinds| + 1 && n <= runs
      && (NoCopy(s, t) ==> s.db.tasks[t].status in {Waiting, FailedWaitingRetry, SendSuccess, Failed})
      && (NoCopy(s, t) && s.db.tasks[t].status != SendSuccess ==> n == |kinds|)
      && (NoCopy(s, t) && s.db.tasks[t].status == Failed <==> |kinds| == runs)
      && (Stuck(s, t) <==> LostReport(start, events, t))
  {
    RunTracks(start, events, t);
    var s, kinds := Run(start, events), Failures(start, events, t);
    TrackedEnd(s.db.tasks[t], start.db.tasks[t].isRetry, |RecordsOf(s.db.records, t)|, PhaseOf(s, t), kinds);
  }

  lemma TrackedEnd(task: Task, isRetry: bool, n: nat, phase: Option<Phase>, kinds: seq<FailKind>)
    requires Tracks(task, isRetry, n, phase, kinds)
    ensures var runs, rests := RunsToFail(isRetry, kinds), phase.Some? ==> !HasCopy(phase.value);
      && |kinds| <= n <= |kinds| + 1 && n <= runs
      && (rests ==> task.status in {Waiting, FailedWaitingRetry, SendSuccess, Failed})
      && (rests && task.status != SendSuccess ==> n == |kinds|)
      && (rests && task.status == Failed <==> |kinds| == runs)
  {
    FailsAfter(isRetry, kinds);
    FateStatus(isRetry, kinds);
  }

  // ----- a lost report is final

  /** The event's message, if any, names no record of the task. */
  predicate NamesNone(s: Life, e: Event, t: string) {
    match e
    case FindRecords(_, ids) => ids !! RecordsOf(s.db.records, t)
    case ReportSuccesses(ids, _) => ids !! RecordsOf(s.db.records, t)
    case _ => true
  }

  /** Sent, with nobody to write the task but deletions that read it sent. */
  ghost predicate StaysSent(s: Life, t: string) {
    && t in s.db.tasks && s.db.tasks[t].status == SendSuccess && NoCopy(s, t) && Quiet(s, t)
    && DeletesHold(s, t, SendSuccess)
  }

  lemma HandlerKeepsSent(s: Life, e: Event, t: string)
    requires Inv(s) && StaysSent(s, t) && HandlerEnabled(s, e) && NamesNone(s, e, t)
    ensures StaysSent(Handle(s, e), t) && RecordsOf(Handle(s, e).db.records, t) == RecordsOf(s.db.records, t)
  {
    var s' := Handle(s, e);
    if e.SaveFailures? {
      assert HandlingOk(s.db.records, s.handlings[e.b]);
      SavedTask(s, e.b, e.ms, t);
    }
    forall c | c in s'.handlings ensures !Speaks(s'.handlings[c], t) {
      assert c in s.handlings ==> !Speaks(s.handlings[c], t);
    }
  }

  lemma SuccessKeepsSent(s: Life, ids: set<string>, ms: nat, t: string)
    requires StaysSent(s, t) && ids !! RecordsOf(s.db.records, t)
    ensures var s' := s.(db := SucceedBatch(s.db, ids, ms));
      StaysSent(s', t) && RecordsOf(s'.db.records, t) == RecordsOf(s.db.records, t)
  {
    SameRecordsOf(s.db.records, SucceedBatch(s.db, ids, ms).records, t);
    assert t !in TasksOf(s.db, ids);
  }

  lemma CancelKeepsSent(s: Life, e: Event, t: string)
    requires StaysSent(s, t) && CancelEnabled(s, e)
    ensures StaysSent(Cancel(s, e), t) && RecordsOf(Cancel(s, e).db.records, t) == RecordsOf(s.db.records, t)
  {
    SameRecordsOf(s.db.records, Cancel(s, e).db.records, t);
  }

  lemma DeleteKeepsSent(s: Life, e: Event, t: string)
    requires StaysSent(s, t) && DeleteEnabled(s, e)
    ensures StaysSent(Delete(s, e), t) && RecordsOf(Delete(s, e).db.records, t) == RecordsOf(s.db.records, t)
  {
  }

  lemma OwnKeepsSent(s: Life, e: Event, t: string)
    requires StaysSent(s, t) && Enabled(s, e) && OfTask(e) && e.t == t
    ensures StaysSent(Apply(s, e), t) && Apply(s, e).db.records == s.db.records
  {
  }

  lemma OtherKeepsSent(s: Life, e: Event, t: string)
    requires StaysSent(s, t) && Enabled(s, e) && OfTask(e) && e.t != t && FlightOk(s, e.t)
    ensures StaysSent(Apply(s, e), t) && RecordsOf(Apply(s, e).db.records, t) == RecordsOf(s.db.records, t)
  {
    if e.SendFail? {
      OtherFailLeaves(s, e.t, e.ms, t);
    } else if e.Proceed? {
      OtherRecordLeaves(s, e.t, e.record, e.ms, t);
    } else {
      OtherStepLeaves(s, e, t);
    }
  }

  lemma StepKeepsSent(s: Life, e: Event, t: string)
    requires Inv(s) && StaysSent(s, t) && NamesNone(s, e, t)
    ensures StaysSent(Step(s, e), t) && RecordsOf(Step(s, e).db.records, t) == RecordsOf(s.db.records, t)
  {
    if Enabled(s, e) {
      if OfTask(e) {
        assert FlightOk(s, e.t);
        if e.t == t {
          OwnKeepsSent(s, e, t);
        } else {
          OtherKeepsSent(s, e, t);
        }
      } else if e.ReportSuccesses? {
        SuccessKeepsSent(s, e.ids, e.ms, t);
      } else if HandlerEnabled(s, e) {
        HandlerKeepsSent(s, e, t);
      } else if CancelEnabled(s, e) {
        CancelKeepsSent(s, e, t);
      } else {
        DeleteKeepsSent(s, e, t);
      }
    }
  }

  /** A lost report is final: a stuck task stays sent, without a further record, through every run whose
      messages name none of its records, cancellations and deletions included. */
  lemma {:induction false} StuckForever(s: Life, events: seq<Event>, t: string)
    requires Inv(s) && Stuck(s, t) && DeletesHold(s, t, SendSuccess)
    requires forall k :: 0 <= k < |events| ==> NamesNone(Run(s, events[..k]), events[k], t)
    ensures StaysSent(Run(s, events), t)
    ensures RecordsOf(Run(s, events).db.records, t) == RecordsOf(s.db.records, t)
  {
    if events != [] {
      var n := |events| - 1;
      var init := events[..n];
      forall k | 0 <= k < n ensures NamesNone(Run(s, init[..k]), init[k], t) {
        assert init[..k] == events[..k];
      }
      StuckForever(s, init, t);
      RunKeepsInv(s, init);
      StepKeepsSent(Run(s, init), events[n], t);
    }
  }
}
