/** Leases in a keyed store with expiry, and what their holders may rely on over whole traces:
    the lock primitives of src/database/redis.ts.  Times are in milliseconds. */
module Leases {
  import opened Wrappers

  datatype Entry = Entry(token: nat, expiresAt: nat)

  type Store = map<string, Entry>

  predicate Live(store: Store, key: string, now: nat) {
    key in store && now < store[key].expiresAt
  }

  /** SET key token EX ttl NX: refused while the key is live. */
  function SetNx(store: Store, key: string, token: nat, ttl: nat, now: nat): Option<Store> {
    if Live(store, key, now) then None else Some(store[key := Entry(token, now + ttl)])
  }

  predicate Holds(store: Store, key: string, token: nat, now: nat) {
    Live(store, key, now) && store[key].token == token
  }

  /** The release script: delete the key when its live value is the token. */
  function CompareAndDelete(store: Store, key: string, token: nat, now: nat): Store {
    if Holds(store, key, token, now) then store - {key} else store
  }

  /** A release that presents an expired or superseded token leaves the store as it is. */
  lemma StaleReleaseIsNoOp(store: Store, key: string, token: nat, now: nat)
    ensures CompareAndDelete(store, key, token, now) == store
       <==> !Live(store, key, now) || store[key].token != token
  {
    if Holds(store, key, token, now) {
      assert key !in store - {key};
    }
  }

  /** A successful acquisition as its holder sees it. */
  datatype Acquisition = Acquisition(key: string, token: nat, start: nat, ttl: nat, released: Option<nat>) {

    /** The holder stops using the lease when it releases it or when the lease runs out. */
    function End(): nat {
      if released.Some? && released.value < start + ttl then released.value else start + ttl
    }

    predicate Active(now: nat) {
      released.None? && now < start + ttl
    }
  }

  datatype World = World(now: nat, store: Store, history: seq<Acquisition>)

  /** Release(i): some process presents the key and token of the i-th acquisition, perhaps again. */
  datatype Event = Tick(ms: nat) | Acquire(key: string, token: nat, ttl: nat) | Release(i: nat)

  function Step(w: World, e: Event): World {
    match e
    case Tick(ms) => w.(now := w.now + ms)
    case Acquire(key, token, ttl) =>
      (match SetNx(w.store, key, token, ttl, w.now)
       case None => w
       case Some(store) =>
         w.(store := store, history := w.history + [Acquisition(key, token, w.now, ttl, None)]))
    case Release(i) =>
      if i >= |w.history| then w
      else
        var a := w.history[i];
        w.(store := CompareAndDelete(w.store, a.key, a.token, w.now),
           history := w.history[i := a.(released := if a.released.None? then Some(w.now) else a.released)])
  }

  function Run(start: World, events: seq<Event>): World {
    if events == [] then start
    else Step(Run(start, events[..|events| - 1]), events[|events| - 1])
  }

  predicate Collide(a: Acquisition, b: Acquisition) {
    a.key == b.key && a.token == b.token
  }

  ghost predicate TokensFresh(history: seq<Acquisition>) {
    forall i, j :: 0 <= i < j < |history| ==> !Collide(history[i], history[j])
  }

  /** For each key the intervals [start, End) of the acquisitions are pairwise disjoint and in order. */
  ghost predicate Exclusive(history: seq<Acquisition>) {
    forall i, j :: 0 <= i < j < |history| && history[i].key == history[j].key ==>
      history[i].End() <= history[j].start
  }

  /** Every lease still in force is the live entry of its key. */
  ghost predicate Backed(w: World) {
    forall a :: a in w.history && a.Active(w.now) ==>
      a.key in w.store && w.store[a.key] == Entry(a.token, a.start + a.ttl)
  }

  ghost predicate Past(w: World) {
    forall a :: a in w.history ==> a.start <= w.now && (a.released.Some? ==> a.start <= a.released.value <= w.now)
  }

  lemma AcquireKeepsExclusion(w: World, key: string, token: nat, ttl: nat)
    requires Past(w) && Backed(w) && Exclusive(w.history)
    ensures var w' := Step(w, Acquire(key, token, ttl)); Past(w') && Backed(w') && Exclusive(w'.history)
  {
    var w' := Step(w, Acquire(key, token, ttl));
    if !Live(w.store, key, w.now) {
      forall i | 0 <= i < |w.history| && w.history[i].key == key
        ensures w.history[i].End() <= w.now && !w.history[i].Active(w.now)
      {
        assert w.history[i] in w.history;
      }
    }
  }

  /** Exactly when a release leaves every other lease backed: no other lease in force on that key
      carries the same token. */
  lemma ReleaseKeepsBackingIff(w: World, i: nat)
    requires Backed(w) && i < |w.history|
    ensures Backed(Step(w, Release(i))) <==>
      forall j :: 0 <= j < |w.history| && j != i && w.history[j].Active(w.now) ==> !Collide(w.history[i], w.history[j])
  {
    var w' := Step(w, Release(i));
    var a := w.history[i];
    assert w'.history[i].released.Some?;
    if j :| 0 <= j < |w.history| && j != i && w.history[j].Active(w.now) && Collide(a, w.history[j]) {
      assert w.history[j] in w.history && w'.history[j] in w'.history && w'.history[j] == w.history[j];
      assert a.key !in w'.store;
    } else {
      forall b | b in w'.history && b.Active(w.now)
        ensures b.key in w'.store && w'.store[b.key] == Entry(b.token, b.start + b.ttl)
      {
        var j :| 0 <= j < |w'.history| && w'.history[j] == b;
        assert j != i && w.history[j] == b && b in w.history;
      }
    }
  }

  /** What a step must not do: present, in a release, the key and token of another lease in force. */
  predicate Harmless(w: World, e: Event) {
    e.Release? && e.i < |w.history| ==>
      forall j :: 0 <= j < |w.history| && j != e.i && w.history[j].Active(w.now) ==>
        !Collide(w.history[e.i], w.history[j])
  }

  /** No release of the run presents the key and token of another lease in force at that moment. */
  ghost predicate HarmlessRun(start: World, events: seq<Event>) {
    forall k :: 0 <= k < |events| ==> Harmless(Run(start, events[..k]), events[k])
  }

  lemma ReleaseKeepsExclusion(w: World, i: nat)
    requires Past(w) && Backed(w) && Exclusive(w.history) && Harmless(w, Release(i))
    ensures var w' := Step(w, Release(i)); Past(w') && Backed(w') && Exclusive(w'.history)
  {
    if i < |w.history| {
      ReleaseKeepsBackingIff(w, i);
      var w' := Step(w, Release(i));
      assert w.history[i] in w.history;
      forall b | b in w'.history
        ensures b.start <= w'.now && (b.released.Some? ==> b.start <= b.released.value <= w'.now)
      {
        var j :| 0 <= j < |w'.history| && w'.history[j] == b;
        assert w.history[j] in w.history;
      }
    }
  }

  lemma RunPrefix(start: World, events: seq<Event>, k: nat)
    requires k < |events|
    ensures Run(start, events[..k + 1]) == Step(Run(start, events[..k]), events[k])
  {
    assert events[..k + 1][..k] == events[..k];
  }

  /** A harmless prefix leads to disjoint intervals and a store that backs every lease in force. */
  lemma {:induction false} HarmlessIsExclusive(start: World, events: seq<Event>, n: nat)
    requires start.history == [] && n <= |events|
    requires forall k :: 0 <= k < n ==> Harmless(Run(start, events[..k]), events[k])
    ensures var w := Run(start, events[..n]); Past(w) && Backed(w) && Exclusive(w.history)
  {
    if n > 0 {
      HarmlessIsExclusive(start, events, n - 1);
      RunPrefix(start, events, n - 1);
      var w := Run(start, events[..n - 1]);
      match events[n - 1]
      case Tick(ms) =>
      case Acquire(key, token, ttl) => AcquireKeepsExclusion(w, key, token, ttl);
      case Release(i) => ReleaseKeepsExclusion(w, i);
    }
  }

  /** A harmful release lets the very next acquisition overlap with a lease in force. */
  lemma HarmLetsOverlap(w: World, e: Event)
    requires Past(w) && Backed(w) && !Harmless(w, e)
    ensures !Backed(Step(w, e))
    ensures exists next: Event :: next.Acquire? && !Exclusive(Step(Step(w, e), next).history)
  {
    var j :| 0 <= j < |w.history| && j != e.i && w.history[j].Active(w.now) && Collide(w.history[e.i], w.history[j]);
    var a := w.history[j];
    assert a in w.history;
    var w' := Step(w, e);
    ReleaseKeepsBackingIff(w, e.i);
    assert w'.history[j] == a && a.key !in w'.store;
    var next := Acquire(a.key, 0, 0);
    var h := Step(w', next).history;
    assert h == w'.history + [Acquisition(a.key, 0, w.now, 0, None)];
    assert h[j] == a && h[|h| - 1].key == a.key && a.End() > h[|h| - 1].start;
    assert !Exclusive(h);
  }

  /** At the given moment of the run, whatever is acquired next is disjoint from all leases so far. */
  ghost predicate SafeToAcquire(w: World) {
    Backed(w) && forall e: Event :: e.Acquire? ==> Exclusive(Step(w, e).history)
  }

  /** Mutual exclusion over whole traces, exactly: whatever the store held at first and however clients
      interleave, at every moment all leases are disjoint, those in force are in the store and the next
      acquisition is disjoint from them, if and only if no release ever presents the key and token of
      another lease in force. */
  lemma {:induction false} MutualExclusionExactly(start: World, events: seq<Event>)
    requires start.history == []
    ensures HarmlessRun(start, events) ==> Exclusive(Run(start, events).history)
    ensures HarmlessRun(start, events) <==> forall n :: 0 <= n <= |events| ==> SafeToAcquire(Run(start, events[..n]))
  {
    if HarmlessRun(start, events) {
      forall n | 0 <= n <= |events| ensures SafeToAcquire(Run(start, events[..n])) && Exclusive(Run(start, events[..n]).history) {
        HarmlessIsExclusive(start, events, n);
        HarmlessIsSafe(Run(start, events[..n]));
      }
      assert events[..|events|] == events;
    } else {
      var k := FirstHarm(start, events, |events|);
      HarmlessIsExclusive(start, events, k);
      HarmLetsOverlap(Run(start, events[..k]), events[k]);
      RunPrefix(start, events, k);
      assert !SafeToAcquire(Run(start, events[..k + 1]));
    }
  }

  lemma HarmlessIsSafe(w: World)
    requires Past(w) && Backed(w) && Exclusive(w.history)
    ensures SafeToAcquire(w)
  {
    forall e: Event | e.Acquire? ensures Exclusive(Step(w, e).history) {
      AcquireKeepsExclusion(w, e.key, e.token, e.ttl);
    }
  }

  lemma {:induction false} FirstHarm(start: World, events: seq<Event>, n: nat) returns (k: nat)
    requires n <= |events|
    requires exists i :: 0 <= i < n && !Harmless(Run(start, events[..i]), events[i])
    ensures k < n && !Harmless(Run(start, events[..k]), events[k])
    ensures forall i :: 0 <= i < k ==> Harmless(Run(start, events[..i]), events[i])
  {
    if i :| 0 <= i < n - 1 && !Harmless(Run(start, events[..i]), events[i]) {
      k := FirstHarm(start, events, n - 1);
    } else {
      k := n - 1;
    }
  }

  lemma {:induction false} HistoryGrows(start: World, events: seq<Event>, n: nat)
    requires n <= |events|
    ensures var h, h' := Run(start, events[..n]).history, Run(start, events).history;
      |h| <= |h'| && forall i :: 0 <= i < |h| ==> h[i].key == h'[i].key && h[i].token == h'[i].token
    decreases |events| - n
  {
    if n < |events| {
      HistoryGrows(start, events, n + 1);
      RunPrefix(start, events, n);
    } else {
      assert events[..n] == events;
    }
  }

  /** So it is enough that tokens never repeat for a key. */
  lemma {:induction false} MutualExclusion(start: World, events: seq<Event>)
    requires start.history == [] && TokensFresh(Run(start, events).history)
    ensures HarmlessRun(start, events)
    ensures Exclusive(Run(start, events).history) && Backed(Run(start, events))
  {
    forall k | 0 <= k < |events| ensures Harmless(Run(start, events[..k]), events[k]) {
      HistoryGrows(start, events, k);
      FreshIsHarmless(Run(start, events[..k]), Run(start, events).history, events[k]);
    }
    MutualExclusionExactly(start, events);
    assert SafeToAcquire(Run(start, events[..|events|]));
    assert events[..|events|] == events;
  }

  lemma FreshIsHarmless(w: World, later: seq<Acquisition>, e: Event)
    requires TokensFresh(later) && |w.history| <= |later|
    requires forall i :: 0 <= i < |w.history| ==> w.history[i].key == later[i].key && w.history[i].token == later[i].token
    ensures Harmless(w, e)
  {
    if e.Release? && e.i < |w.history| {
      forall j | 0 <= j < |w.history| && j != e.i ensures !Collide(w.history[e.i], w.history[j]) {
        assert !Collide(later[if e.i < j then e.i else j], later[if e.i < j then j else e.i]);
      }
    }
  }

  /** A reused token breaks it: a device is locked, released and locked again under the same token; when
      the first outcome is delivered again, its release frees the second lease, and a third client gets the
      device while the second still counts on it. */
  lemma ReusedTokenBreaksExclusion()
    ensures exists events :: !Exclusive(Run(World(1700000000000, map[], []), events).history)
  {
    var token, ttl := 1700000012345, 600000;
    var e0, e1, e2 := Acquire("d", token, ttl), Release(0), Tick(1000);
    var e3, e4, e5 := Acquire("d", token, ttl), Release(0), Acquire("d", token + 5000, ttl);
    var now := 1700000000000;
    var first, second := Acquisition("d", token, now, ttl, Some(now)), Acquisition("d", token, now + 1000, ttl, None);
    var w0 := World(now, map[], []);
    var w2 := Step(Step(w0, e0), e1);
    assert w2 == World(now, map[], [first]);
    var w4 := Step(Step(w2, e2), e3);
    assert w4 == World(now + 1000, map["d" := Entry(token, now + 1000 + ttl)], [first, second]);
    var w5 := Step(w4, e4);
    assert w5 == World(now + 1000, map[], [first, second]);
    var third := Acquisition("d", token + 5000, now + 1000, ttl, None);
    assert Step(w5, e5).history == [first, second, third];
    assert !Exclusive([first, second, third]) by {
      assert [first, second, third][1] == second && [first, second, third][2] == third;
    }
    RunOfSix(w0, e0, e1, e2, e3, e4, e5);
  }

  lemma RunThen(w: World, events: seq<Event>, e: Event)
    ensures Run(w, events + [e]) == Step(Run(w, events), e)
  {
    assert (events + [e])[..|events|] == events;
  }

  lemma RunOfThree(start: World, events: seq<Event>, e0: Event, e1: Event, e2: Event)
    ensures Run(start, events + [e0] + [e1] + [e2]) == Step(Step(Step(Run(start, events), e0), e1), e2)
  {
    RunThen(start, events, e0);
    RunThen(start, events + [e0], e1);
    RunThen(start, events + [e0] + [e1], e2);
  }

  lemma RunOfSix(w: World, e0: Event, e1: Event, e2: Event, e3: Event, e4: Event, e5: Event)
    ensures exists events :: Run(w, events) == Step(Step(Step(Step(Step(Step(w, e0), e1), e2), e3), e4), e5)
  {
    RunOfThree(w, [], e0, e1, e2);
    RunOfThree(w, [] + [e0] + [e1] + [e2], e3, e4, e5);
  }
}
