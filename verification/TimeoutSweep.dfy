/** The timeout sweep of src/modules/send-script-main/send-script-handler.service.ts: pages through the
    timed-out records with a growing skip while failing each page, so that the filter shrinks under it. */
module TimeoutSweep {
  import opened Wrappers
  import opened TaskStore
  import opened ScriptTasks

  const BATCH_SIZE := 100

  predicate TimedOut(record: ExecRecord, unix: nat) {
    record.status == RecordRunning && record.execTimeoutUnix < unix
  }

  /** The records that the filter of the sweep matches, in the order in which the collection is read. */
  function Pending(db: Db, order: seq<string>, unix: nat): seq<string> {
    if order == [] then []
    else
      var init, last := Pending(db, order[..|order| - 1], unix), order[|order| - 1];
      if last in db.records && TimedOut(db.records[last], unix) then init + [last] else init
  }

  function Page(s: seq<string>, skip: nat, take: nat): seq<string> {
    if skip >= |s| then [] else if skip + take < |s| then s[skip..skip + take] else s[skip..]
  }

  /** What one sweep leaves: every second block of a hundred. */
  function Survivors(s: seq<string>): seq<string> {
    if |s| <= BATCH_SIZE then []
    else if |s| <= 2 * BATCH_SIZE then s[BATCH_SIZE..]
    else s[BATCH_SIZE..2 * BATCH_SIZE] + Survivors(s[2 * BATCH_SIZE..])
  }

  function SweptCount(n: nat): nat {
    var m := (n + 100) / 200;
    100 * m + if n > 200 * m then n - 200 * m else 0
  }

  function Sweeps(s: seq<string>, k: nat): seq<string>
    decreases k
  {
    if k == 0 then s else Sweeps(Survivors(s), k - 1)
  }

  function Pow2(k: nat): nat {
    if k == 0 then 1 else 2 * Pow2(k - 1)
  }

  lemma SweptCountNext(n: nat)
    requires n > 200
    ensures SweptCount(n) == 100 + SweptCount(n - 200)
  {
    assert (n + 100) / 200 == (n - 200 + 100) / 200 + 1;
  }

  /** How many records a sweep over n timed-out records fails. */
  lemma {:induction false} SweepCounts(s: seq<string>)
    ensures |s| - |Survivors(s)| == SweptCount(|s|)
    ensures |Survivors(s)| <= |s| / 2
  {
    if |s| > 2 * BATCH_SIZE {
      SweepCounts(s[2 * BATCH_SIZE..]);
      SweptCountNext(|s|);
    }
  }

  /** One sweep clears everything exactly when it all fits one page. */
  lemma OneSweepClearsIff(s: seq<string>)
    ensures Survivors(s) == [] <==> |s| <= BATCH_SIZE
  {
    if |s| > BATCH_SIZE {
      assert |Survivors(s)| > 0;
    }
  }

  /** Which records survive: the k-th survivor stands in the odd hundreds, hundred by hundred. */
  lemma {:induction false} SurvivorsByRank(s: seq<string>, k: nat)
    requires k < |Survivors(s)|
    ensures k + 100 * (k / 100 + 1) < |s|
    ensures Survivors(s)[k] == s[k + 100 * (k / 100 + 1)]
  {
    if |s| > 2 * BATCH_SIZE && k >= BATCH_SIZE {
      var rest := s[2 * BATCH_SIZE..];
      assert (k - BATCH_SIZE) / 100 == k / 100 - 1;
      SurvivorsByRank(rest, k - BATCH_SIZE);
      assert Survivors(s)[k] == Survivors(rest)[k - BATCH_SIZE];
    } else {
      assert k < BATCH_SIZE;
    }
  }

  /** Repeating the sweep clears everything in logarithmically many passes. */
  lemma {:induction false} SweepsReachZero(s: seq<string>, k: nat)
    requires |s| < Pow2(k)
    ensures Sweeps(s, k) == []
    decreases k
  {
    if k > 0 {
      SweepCounts(s);
      SweepsReachZero(Survivors(s), k - 1);
    }
  }

  function Without(s: seq<string>, ids: set<string>): seq<string> {
    if s == [] then []
    else
      var init, last := Without(s[..|s| - 1], ids), s[|s| - 1];
      if last in ids then init else init + [last]
  }

  lemma {:induction false} WithoutNone(s: seq<string>, ids: set<string>)
    requires forall x :: x in s ==> x !in ids
    ensures Without(s, ids) == s
  {
    if s != [] {
      WithoutNone(s[..|s| - 1], ids);
    }
  }

  lemma {:induction false} WithoutAll(s: seq<string>, t: seq<string>, ids: set<string>)
    requires forall x :: x in t ==> x in ids
    ensures Without(s + t, ids) == Without(s, ids)
  {
    if t == [] {
      assert s + t == s;
    } else {
      assert (s + t)[..|s + t| - 1] == s + t[..|t| - 1];
      WithoutAll(s, t[..|t| - 1], ids);
    }
  }

  lemma {:induction false} WithoutSlice(u: seq<string>, v: seq<string>, w: seq<string>, ids: set<string>)
    requires forall x :: x in u || x in w ==> x !in ids
    requires forall x :: x in v ==> x in ids
    ensures Without(u + v + w, ids) == u + w
  {
    if w == [] {
      assert u + v + w == u + v;
      WithoutAll(u, v, ids);
      WithoutNone(u, ids);
    } else {
      var init, last := w[..|w| - 1], w[|w| - 1];
      assert (u + v + w)[..|u + v + w| - 1] == u + v + init;
      WithoutSlice(u, v, init, ids);
      assert u + init + [last] == u + w;
    }
  }

  lemma SliceDisjoint(u: seq<string>, v: seq<string>, w: seq<string>)
    requires NoDuplicates(u + v + w)
    ensures forall x :: x in u || x in w ==> x !in v
  {
    var s := u + v + w;
    forall i, j | 0 <= i < |v| && 0 <= j < |u| ensures v[i] != u[j] {
      assert s[j] == u[j] && s[|u| + i] == v[i];
    }
    forall i, j | 0 <= i < |v| && 0 <= j < |w| ensures v[i] != w[j] {
      assert s[|u| + |v| + j] == w[j] && s[|u| + i] == v[i];
    }
  }

  /** Failing records takes exactly them out of the filter. */
  lemma {:induction false} PendingAfterFail(db: Db, order: seq<string>, ids: set<string>, ms: nat, unix: nat)
    requires forall r :: r in order ==> r in db.records
    ensures Pending(FailBatch(db, ids, ms), order, unix) == Without(Pending(db, order, unix), ids)
  {
    if order != [] {
      var init, last := order[..|order| - 1], order[|order| - 1];
      PendingAfterFail(db, init, ids, ms, unix);
      var before := Pending(db, init, unix);
      assert (before + [last])[..|before|] == before;
    }
  }

  lemma {:induction false} PendingWithin(db: Db, order: seq<string>, unix: nat)
    requires NoDuplicates(order)
    ensures NoDuplicates(Pending(db, order, unix))
    ensures forall r :: r in Pending(db, order, unix) ==> r in order
  {
    if order != [] {
      var init, last := order[..|order| - 1], order[|order| - 1];
      assert order == init + [last];
      PendingWithin(db, init, unix);
      assert last !in init;
      assert last !in Pending(db, init, unix);
    }
  }

  /** The ids that runs created: distinct, stored, never blank, and every record that counts as running. */
  ghost predicate GoodOrder(db: Db) {
    && NoDuplicates(db.order)
    && (forall r :: r in db.order ==> r in db.records && r != "")
    && (forall r :: r in db.records && db.records[r].status == RecordRunning ==> r in db.order)
  }

  /** So the listed records are all the timed-out ones. */
  lemma {:induction false} PendingIsAll(db: Db, order: seq<string>, unix: nat)
    ensures forall r :: r in Pending(db, order, unix) <==> r in order && r in db.records && TimedOut(db.records[r], unix)
  {
    if order != [] {
      PendingIsAll(db, order[..|order| - 1], unix);
      assert order == order[..|order| - 1] + [order[|order| - 1]];
    }
  }

  /** The running records whose deadline is past at the time in milliseconds. */
  function Overdue(records: map<string, ExecRecord>, ms: nat): set<string> {
    set r | r in records && records[r].status == RecordRunning && records[r].execTimeoutUnix < ms / 1000
  }

  /** Some overdue record is the task's. */
  ghost predicate HasOverdue(records: map<string, ExecRecord>, ms: nat, t: string) {
    exists r :: r in Overdue(records, ms) && records[r].taskId == Some(t)
  }

  /** From db to db' only overdue records have failed, and only their tasks have changed. */
  ghost predicate FailsOverdue(db: Db, db': Db, ms: nat) {
    && db'.records.Keys == db.records.Keys && db'.tasks.Keys == db.tasks.Keys
    && (forall r :: r in db.records ==>
          && db'.records[r].taskId == db.records[r].taskId
          && (db'.records[r] == db.records[r] || (r in Overdue(db.records, ms) && db'.records[r].status == RecordFailed)))
    && (forall t :: t in db.tasks && !HasOverdue(db.records, ms, t) ==> db'.tasks[t] == db.tasks[t])
  }

  lemma PageFailsOverdue(db: Db, db': Db, ms: nat, page: seq<string>, later: nat)
    requires FailsOverdue(db, db', ms) && forall r :: r in page ==> r in Overdue(db.records, ms)
    ensures FailsOverdue(db, FailBatch(db', IdSet(page), later), ms)
  {
    var db'' := FailBatch(db', IdSet(page), later);
    assert db''.records.Keys == db.records.Keys;
    forall t | t in db.tasks && !HasOverdue(db.records, ms, t) ensures db''.tasks[t] == db.tasks[t] {
      assert t !in TasksOf(db', IdSet(page));
    }
  }

  /** A success stands: when it was reported of every running record of the task, no later sweep makes the
      task run again. */
  lemma SuccessSurvivesSweep(db: Db, recordIds: seq<string>, ms: nat, swept: Db, later: nat, t: string)
    requires t in db.tasks && Reported(db.records, recordIds, t)
    requires forall r :: r in db.records && db.records[r].taskId == Some(t) && db.records[r].status == RecordRunning ==>
      r in recordIds && r != ""
    requires FailsOverdue(SucceedBatch(db, NonBlank(recordIds), ms), swept, later)
    ensures t in swept.tasks && swept.tasks[t].status == Success
  {
    SuccessFields(db, recordIds, ms);
  }

  lemma PendingIsOverdue(db: Db, ms: nat)
    requires GoodOrder(db)
    ensures forall r :: r in Pending(db, db.order, ms / 1000) <==> r in Overdue(db.records, ms)
    ensures |Pending(db, db.order, ms / 1000)| == |Overdue(db.records, ms)|
  {
    PendingIsAll(db, db.order, ms / 1000);
    PendingWithin(db, db.order, ms / 1000);
    AsManyAs(Pending(db, db.order, ms / 1000), Overdue(db.records, ms));
  }

  lemma {:induction false} AsManyAs(s: seq<string>, all: set<string>)
    requires NoDuplicates(s) && forall x :: x in s <==> x in all
    ensures |s| == |all|
  {
    if s == [] {
      assert all == {};
    } else {
      var init, last := s[..|s| - 1], s[|s| - 1];
      assert s == init + [last];
      assert last !in init;
      AsManyAs(init, all - {last});
    }
  }

  class SendScriptHandlerService {
    const scriptTaskSvc: ScriptTaskService
    var isCheckingTimeout: bool

    constructor (svc: ScriptTaskService)
      ensures scriptTaskSvc == svc && !isCheckingTimeout
    {
      scriptTaskSvc, isCheckingTimeout := svc, false;
    }

    method FailPage(ghost kept: seq<string>, page: seq<string>, ghost tail: seq<string>, unix: nat, ms: nat)
      requires GoodOrder(scriptTaskSvc.View()) && page != []
      requires Pending(scriptTaskSvc.View(), scriptTaskSvc.order, unix) == kept + page + tail
      modifies scriptTaskSvc`tasks, scriptTaskSvc`records, scriptTaskSvc`order, scriptTaskSvc`locks
      ensures GoodOrder(scriptTaskSvc.View())
      ensures scriptTaskSvc.View() == FailBatch(old(scriptTaskSvc.View()), IdSet(page), ms)
      ensures scriptTaskSvc.order == old(scriptTaskSvc.order)
      ensures Pending(scriptTaskSvc.View(), scriptTaskSvc.order, unix) == kept + tail
    {
      ghost var db := scriptTaskSvc.View();
      PendingWithin(db, db.order, unix);
      PageIsClean(page, kept + page + tail, db, db.order, unix);
      SliceDisjoint(kept, page, tail);
      WithoutSlice(kept, page, tail, IdSet(page));
      PendingAfterFail(db, db.order, IdSet(page), ms, unix);
      HandlerAlone(db, IdSet(page), ms);
      var r := scriptTaskSvc.UpdateTaskFailByRecordIds(page, ms, ms, Alone);
    }

    /** clock(i): the time in milliseconds when the i-th page is failed. */
    method CheckScriptTaskTimeOut(ms: nat, clock: nat -> nat) returns (totalProcessed: nat)
      requires GoodOrder(scriptTaskSvc.View())
      modifies this, scriptTaskSvc`tasks, scriptTaskSvc`records, scriptTaskSvc`order, scriptTaskSvc`locks
      ensures old(isCheckingTimeout) ==> isCheckingTimeout && scriptTaskSvc.View() == old(scriptTaskSvc.View())
      ensures !old(isCheckingTimeout) ==>
        var before := Pending(old(scriptTaskSvc.View()), old(scriptTaskSvc.order), Unix(ms));
        && !isCheckingTimeout && scriptTaskSvc.order == old(scriptTaskSvc.order)
        && Pending(scriptTaskSvc.View(), scriptTaskSvc.order, Unix(ms)) == Survivors(before)
        && totalProcessed == SweptCount(|before|)
      ensures !old(isCheckingTimeout) ==>
        && FailsOverdue(old(scriptTaskSvc.View()), scriptTaskSvc.View(), ms)
        && |Overdue(scriptTaskSvc.records, ms)| + totalProcessed == |Overdue(old(scriptTaskSvc.records), ms)|
        && (|Overdue(old(scriptTaskSvc.records), ms)| <= 100 ==>
              forall r :: r in Overdue(old(scriptTaskSvc.records), ms) ==> scriptTaskSvc.records[r].status == RecordFailed)
    {
      if isCheckingTimeout {
        return 0;
      }
      ghost var db := scriptTaskSvc.View();
      isCheckingTimeout := true;
      totalProcessed := SweepPages(ms, clock);
      isCheckingTimeout := false;
      SweepEnds(db, scriptTaskSvc.View(), ms);
    }

    method SweepPages(ms: nat, clock: nat -> nat) returns (totalProcessed: nat)
      requires GoodOrder(scriptTaskSvc.View())
      modifies scriptTaskSvc`tasks, scriptTaskSvc`records, scriptTaskSvc`order, scriptTaskSvc`locks
      ensures GoodOrder(scriptTaskSvc.View()) && scriptTaskSvc.order == old(scriptTaskSvc.order)
      ensures var before := Pending(old(scriptTaskSvc.View()), old(scriptTaskSvc.order), Unix(ms));
        && Pending(scriptTaskSvc.View(), scriptTaskSvc.order, Unix(ms)) == Survivors(before)
        && totalProcessed == |before| - |Survivors(before)|
      ensures FailsOverdue(old(scriptTaskSvc.View()), scriptTaskSvc.View(), ms)
    {
      totalProcessed := 0;
      var unix := Unix(ms);
      ghost var db := scriptTaskSvc.View();
      ghost var before := Pending(db, scriptTaskSvc.order, unix);
      PendingIsOverdue(db, ms);
      ghost var kept, rest := [], before;
      var skip: nat, i: nat := 0, 0;
      var hasMore := true;
      while hasMore
        invariant GoodOrder(scriptTaskSvc.View()) && scriptTaskSvc.order == old(scriptTaskSvc.order)
        invariant Pending(scriptTaskSvc.View(), scriptTaskSvc.order, unix) == kept + rest
        invariant hasMore ==> Progress(before, kept, rest, skip)
        invariant !hasMore ==> kept + rest == Survivors(before)
        invariant totalProcessed == |before| - |kept + rest|
        invariant forall r :: r in kept + rest ==> r in before
        invariant FailsOverdue(db, scriptTaskSvc.View(), ms)
        decreases hasMore, |rest|
      {
        var records := FindPage(unix, skip);
        PageShape(before, kept, rest, skip);
        if records == [] {
          hasMore := false;
          break;
        }
        ghost var tail := rest[|records|..];
        PageFailsOverdue(db, scriptTaskSvc.View(), ms, records, clock(i));
        FailPage(kept, records, tail, unix, clock(i));
        totalProcessed := totalProcessed + |records|;
        i := i + 1;
        if |records| < BATCH_SIZE {
          hasMore := false;
          rest := tail;
        } else {
          skip := skip + BATCH_SIZE;
          StepOver(before, kept, records, tail, skip - BATCH_SIZE);
          kept, rest := kept + Page(tail, 0, BATCH_SIZE), tail[|Page(tail, 0, BATCH_SIZE)|..];
        }
      }
    }

    method FindPage(unix: nat, skip: nat) returns (page: seq<string>)
      ensures page == Page(Pending(scriptTaskSvc.View(), scriptTaskSvc.order, unix), skip, BATCH_SIZE)
    {
      var svc := scriptTaskSvc;
      page := Page(Pending(Db(svc.tasks, svc.records, svc.order, svc.locks), svc.order, unix), skip, BATCH_SIZE);
    }
  }

  /** The sweep on the stored records: what it failed is no longer overdue, and up to a hundred overdue
      records have all failed. */
  lemma SweepEnds(db: Db, db': Db, ms: nat)
    requires GoodOrder(db) && GoodOrder(db') && FailsOverdue(db, db', ms) && db'.order == db.order
    requires Pending(db', db.order, Unix(ms)) == Survivors(Pending(db, db.order, Unix(ms)))
    ensures var before := Pending(db, db.order, Unix(ms)); SweptCount(|before|) == |before| - |Survivors(before)|
    ensures |Overdue(db'.records, ms)| + SweptCount(|Pending(db, db.order, Unix(ms))|) == |Overdue(db.records, ms)|
    ensures |Overdue(db.records, ms)| <= 100 ==> forall r :: r in Overdue(db.records, ms) ==> db'.records[r].status == RecordFailed
  {
    SweepCounts(Pending(db, db.order, Unix(ms)));
    PendingIsOverdue(db, ms);
    PendingIsOverdue(db', ms);
    if |Overdue(db.records, ms)| <= 100 {
      OneSweepClearsIff(Pending(db, db.order, Unix(ms)));
      forall r | r in Overdue(db.records, ms) ensures r !in Overdue(db'.records, ms) {
        assert r !in Pending(db', db'.order, ms / 1000);
      }
    }
  }

  /** kept: what earlier pages stepped over; rest: what the sweep has not reached. */
  ghost predicate Progress(before: seq<string>, kept: seq<string>, rest: seq<string>, skip: nat) {
    && kept + Survivors(rest) == Survivors(before)
    && (|kept| == skip || (rest == [] && |kept| < skip))
  }

  lemma PageShape(before: seq<string>, kept: seq<string>, rest: seq<string>, skip: nat)
    requires Progress(before, kept, rest, skip)
    ensures var page := Page(kept + rest, skip, BATCH_SIZE);
      && page == Page(rest, 0, BATCH_SIZE)
      && |page| <= |rest| && rest == page + rest[|page|..] && kept + rest == kept + page + rest[|page|..]
      && (|page| < BATCH_SIZE ==> kept + rest[|page|..] == Survivors(before))
  {
  }

  /** After a full page the sweep steps over the next hundred, which have moved up meanwhile. */
  lemma StepOver(before: seq<string>, kept: seq<string>, page: seq<string>, tail: seq<string>, skip: nat)
    requires Progress(before, kept, page + tail, skip) && |page| == BATCH_SIZE
    ensures var over := Page(tail, 0, BATCH_SIZE);
      && |over| <= |tail|
      && kept + tail == (kept + over) + tail[|over|..]
      && Progress(before, kept + over, tail[|over|..], skip + BATCH_SIZE)
  {
    var over := Page(tail, 0, BATCH_SIZE);
    SurvivorsNext(page, tail, |over|);
    assert tail[..|over|] == over;
    assert kept + (over + Survivors(tail[|over|..])) == (kept + over) + Survivors(tail[|over|..]);
  }

  lemma PageIsClean(records: seq<string>, pending: seq<string>, db: Db, order: seq<string>, unix: nat)
    requires GoodOrder(db) && order == db.order && pending == Pending(db, order, unix)
    requires records != [] && forall r :: r in records ==> r in pending
    ensures "" !in records && NonBlank(records) == IdSet(records) != {}
    ensures forall r :: r in records ==> r in db.records
  {
    PendingWithin(db, order, unix);
    assert records[0] in records;
    assert records[0] in NonBlank(records);
  }

  lemma SurvivorsNext(page: seq<string>, tail: seq<string>, n: nat)
    requires |page| == BATCH_SIZE && n == if |tail| < BATCH_SIZE then |tail| else BATCH_SIZE
    ensures Survivors(page + tail) == tail[..n] + Survivors(tail[n..])
  {
    var s := page + tail;
    assert s[BATCH_SIZE..] == tail;
    if |s| > 2 * BATCH_SIZE {
      assert s[BATCH_SIZE..2 * BATCH_SIZE] == tail[..n] && s[2 * BATCH_SIZE..] == tail[n..];
    }
  }
}
