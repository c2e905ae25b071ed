/** The lock client of src/database/redis.ts: waiting for a lock, releasing it, and the list of the
    locks that the process believes it holds. */
module RedisLocks {
  import opened Wrappers
  import opened Leases

  const LOCK_PREFIX := "business:lock:"
  const SLEEP_MS := 300

  /** Math.round(timeout * 1000 / 300), rounding halves up. */
  function CountLimit(timeout: nat): nat {
    (2 * timeout * 1000 + SLEEP_MS) / (2 * SLEEP_MS)
  }

  lemma LimitNearTimeout(timeout: nat)
    requires timeout >= 1
    ensures CountLimit(timeout) == (timeout * 1000 + 150) / 300 >= 1
    ensures -150 <= SLEEP_MS * CountLimit(timeout) - timeout * 1000 <= 150
  {
  }

  function KeysOf(lockers: seq<(string, nat)>): (keys: seq<string>)
    ensures |keys| == |lockers|
    ensures forall i :: 0 <= i < |lockers| ==> keys[i] == lockers[i].0
  {
    seq(|lockers|, i requires 0 <= i < |lockers| => lockers[i].0)
  }

  /** The list without its first entry for the key. */
  function DropFirst(lockers: seq<(string, nat)>, key: string): seq<(string, nat)> {
    if lockers == [] then []
    else if lockers[0].0 == key then lockers[1..]
    else [lockers[0]] + DropFirst(lockers[1..], key)
  }

  predicate FirstAt(lockers: seq<(string, nat)>, key: string, i: nat) {
    i < |lockers| && lockers[i].0 == key && forall j :: 0 <= j < i ==> lockers[j].0 != key
  }

  /** The first entry of the key is gone, if there was one, and nothing else. */
  ghost predicate FirstDropped(lockers: seq<(string, nat)>, lockers': seq<(string, nat)>, key: string) {
    || (exists i: nat :: FirstAt(lockers, key, i) && lockers' == lockers[..i] + lockers[i + 1..])
    || (lockers' == lockers && forall j :: 0 <= j < |lockers| ==> lockers[j].0 != key)
  }

  lemma {:induction false} DropFirstDrops(lockers: seq<(string, nat)>, key: string)
    ensures FirstDropped(lockers, DropFirst(lockers, key), key)
  {
    if lockers == [] {
    } else if lockers[0].0 == key {
      assert FirstAt(lockers, key, 0);
    } else {
      var rest := lockers[1..];
      DropFirstDrops(rest, key);
      DroppedBehind(lockers[0], rest, DropFirst(rest, key), key);
      assert lockers == [lockers[0]] + rest;
    }
  }

  lemma DroppedBehind(first: (string, nat), rest: seq<(string, nat)>, rest': seq<(string, nat)>, key: string)
    requires first.0 != key && FirstDropped(rest, rest', key)
    ensures FirstDropped([first] + rest, [first] + rest', key)
  {
    var all := [first] + rest;
    if i: nat :| FirstAt(rest, key, i) && rest' == rest[..i] + rest[i + 1..] {
      assert FirstAt(all, key, i + 1);
      assert all[..i + 1] == [first] + rest[..i] && all[i + 2..] == rest[i + 1..];
    }
  }

  lemma {:induction false} DropFirstKeepsOthers(lockers: seq<(string, nat)>, key: string, other: string)
    requires other != key && other in KeysOf(lockers)
    ensures other in KeysOf(DropFirst(lockers, key))
  {
    if lockers[0].0 == key {
      KeysOfRest(lockers);
    } else {
      var rest := DropFirst(lockers[1..], key);
      KeysOfRest(lockers);
      KeysOfRest([lockers[0]] + rest);
      assert ([lockers[0]] + rest)[1..] == rest;
      if other in KeysOf(lockers[1..]) {
        DropFirstKeepsOthers(lockers[1..], key, other);
      }
    }
  }

  lemma KeysOfRest(lockers: seq<(string, nat)>)
    requires lockers != []
    ensures KeysOf(lockers) == [lockers[0].0] + KeysOf(lockers[1..])
  {
  }

  /** A process of the lock service as it stands between two of its turns.  mine: the entries that the
      process set and did not delete itself. */
  datatype Client = Client(store: Store, now: nat, lockers: seq<(string, nat)>, mine: Store)

  /** One turn: an attempt to set a key, a release, time passing, or whatever other clients of the store
      do to it.  A turn of GetLock ends where it sleeps, so turns of other calls come in between. */
  datatype Turn =
    | Attempt(key: string, token: nat, ttl: nat)
    | GiveBack(key: string, token: nat)
    | Elapse(ms: nat)
    | Others(store: Store)

  function Do(c: Client, turn: Turn): Client {
    match turn
    case Attempt(key, token, ttl) =>
      (match SetNx(c.store, key, token, ttl, c.now)
       case None => c
       case Some(store) =>
         c.(store := store, lockers := c.lockers + [(key, token)], mine := c.mine[key := store[key]]))
    case GiveBack(key, token) =>
      if Holds(c.store, key, token, c.now) then
        c.(store := CompareAndDelete(c.store, key, token, c.now),
           lockers := DropFirst(c.lockers, key), mine := c.mine - {key})
      else c
    case Elapse(ms) => c.(now := c.now + ms)
    case Others(store) => c.(store := store)
  }

  function DoAll(c: Client, turns: seq<Turn>): Client {
    if turns == [] then c else Do(DoAll(c, turns[..|turns| - 1]), turns[|turns| - 1])
  }

  /** The states at the attempts of a waiting call; meanwhile(i): the turns that fall into its i-th sleep. */
  ghost predicate Waits(path: seq<Client>, meanwhile: nat -> seq<Turn>) {
    forall i :: 0 <= i < |path| - 1 ==> path[i + 1] == DoAll(Do(path[i], Elapse(SLEEP_MS)), meanwhile(i))
  }

  lemma RefusedNext(path: seq<Client>, next: Client, key: string)
    requires path != [] && Refused(path[..|path| - 1], key) && Taken(path[|path| - 1], key)
    ensures Refused((path + [next])[..|path|], key) && Refused(path, key)
  {
    assert (path + [next])[..|path|] == path;
    forall i | 0 <= i < |path| ensures Taken(path[i], key) {
      assert i < |path| - 1 ==> path[i] == path[..|path| - 1][i];
    }
  }

  predicate Taken(c: Client, key: string) {
    key in c.store && c.now < c.store[key].expiresAt
  }

  /** The key is taken in all of the states. */
  predicate Refused(path: seq<Client>, key: string) {
    forall i :: 0 <= i < |path| ==> Taken(path[i], key)
  }

  /** Every entry the process set and did not delete has its key in the list. */
  ghost predicate Listed(c: Client) {
    forall key :: key in c.mine ==> key in KeysOf(c.lockers)
  }

  /** The process still holds the lock: its own entry is the live one. */
  predicate HeldHere(c: Client, key: string) {
    Live(c.store, key, c.now) && key in c.mine && c.store[key] == c.mine[key]
  }

  lemma TurnKeepsListed(c: Client, turn: Turn)
    requires Listed(c)
    ensures Listed(Do(c, turn))
  {
    var c' := Do(c, turn);
    match turn
    case Attempt(key, token, ttl) =>
      if c' != c {
        assert KeysOf(c'.lockers) == KeysOf(c.lockers) + [key];
      }
    case GiveBack(key, _) =>
      forall other | other in c'.mine && c' != c ensures other in KeysOf(c'.lockers) {
        DropFirstKeepsOthers(c.lockers, key, other);
      }
    case _ =>
  }

  /** In every state that the turns of any overlapping calls reach, a lock the process still holds has its
      key in the list, however many stale duplicates are listed and whichever entry a release removes. */
  lemma {:induction false} HeldLocksAreListed(start: Client, turns: seq<Turn>, key: string)
    requires start.mine == map[]
    ensures key in DoAll(start, turns).mine ==> key in KeysOf(DoAll(start, turns).lockers)
    ensures HeldHere(DoAll(start, turns), key) ==>
      exists i :: 0 <= i < |DoAll(start, turns).lockers| && DoAll(start, turns).lockers[i].0 == key
  {
    if turns != [] {
      var before := DoAll(start, turns[..|turns| - 1]);
      assert Listed(before) by {
        forall other | other in before.mine ensures other in KeysOf(before.lockers) {
          HeldLocksAreListed(start, turns[..|turns| - 1], other);
        }
      }
      TurnKeepsListed(before, turns[|turns| - 1]);
    }
  }

  /** A release under the live token frees the key for the next attempt, whoever makes it; another release
      changes nothing. */
  lemma GivenBackIsFree(c: Client, key: string, token: nat, next: nat, ttl: nat)
    ensures var c' := Do(c, GiveBack(key, token));
      if key in c.store && c.store[key].token == token && c.now < c.store[key].expiresAt then
        && key !in c'.store
        && var taken := Do(c', Attempt(key, next, ttl));
           key in taken.store && taken.store[key] == Entry(next, c.now + ttl)
      else c' == c
  {
  }

  lemma AttemptTakes(c: Client, key: string, token: nat, ttl: nat)
    ensures var c' := Do(c, Attempt(key, token, ttl));
      if Taken(c, key) then c' == c
      else key in c'.store && c'.store[key] == Entry(token, c.now + ttl) && c'.now == c.now && (key, token) in c'.lockers
  {
  }

  class RedisService {
    var store: Store
    var now: nat
    var lockers: seq<(string, nat)>
    var mine: Store

    function View(): Client
      reads this
    {
      Client(store, now, lockers, mine)
    }

    constructor (store: Store, now: nat)
      ensures View() == Client(store, now, [], map[])
    {
      this.store, this.now := store, now;
      lockers, mine := [], map[];
    }

    /** The process sleeps, and other turns, of this process too, come meanwhile. */
    method Sleep(ms: nat, meanwhile: seq<Turn>)
      modifies this
      ensures View() == DoAll(Do(old(View()), Elapse(ms)), meanwhile)
    {
      now := now + ms;
      var c := DoAll(View(), meanwhile);
      store, now, lockers, mine := c.store, c.now, c.lockers, c.mine;
    }

    /** path: the state at every attempt. */
    method GetLock(k: string, ttl: nat, timeout: nat, lockValue: nat, meanwhile: nat -> seq<Turn>)
      returns (r: Result<nat>, slept: nat, ghost path: seq<Client>)
      requires timeout >= 1
      modifies this
      ensures 1 <= |path| <= CountLimit(timeout) + 1 && slept == SLEEP_MS * (|path| - 1)
      ensures path[0] == old(View()) && Waits(path, meanwhile)
      ensures Refused(path[..|path| - 1], LOCK_PREFIX + k)
      ensures r.Ok? <==> !Refused(path, LOCK_PREFIX + k)
      ensures View() == Do(path[|path| - 1], Attempt(LOCK_PREFIX + k, lockValue, ttl * 1000))
      ensures r.Ok? ==> r.value == lockValue
      ensures r.Err? ==> |path| == CountLimit(timeout) + 1 && -150 <= slept - timeout * 1000 <= 150
    {
      var key, limit, count := LOCK_PREFIX + k, CountLimit(timeout), 0;
      slept, path := 0, [View()];
      assert limit >= 1 by {
        LimitNearTimeout(timeout);
      }
      while true
        invariant count <= limit && slept == SLEEP_MS * count
        invariant |path| == count + 1 && path[0] == old(View()) && View() == path[count]
        invariant Waits(path, meanwhile)
        invariant Refused(path[..count], key)
        decreases limit - count
      {
        var written := TrySet(key, lockValue, ttl * 1000);
        if written {
          return Ok(lockValue), slept, path;
        }
        if limit != 0 && count >= limit {
          LimitNearTimeout(timeout);
          return Err("get lock timeout"), slept, path;
        }
        Sleep(SLEEP_MS, meanwhile(count));
        RefusedNext(path, View(), key);
        slept, path := slept + SLEEP_MS, path + [View()];
        count := count + 1;
      }
    }

    /** One attempt and, if it succeeds, the entry in the list. */
    method TrySet(key: string, lockValue: nat, ttlMs: nat) returns (written: bool)
      modifies this
      ensures View() == Do(old(View()), Attempt(key, lockValue, ttlMs))
      ensures written == !Taken(old(View()), key) && (!written ==> View() == old(View()))
    {
      var reply := SetNx(store, key, lockValue, ttlMs, now);
      if reply.Some? {
        store, lockers, mine := reply.value, lockers + [(key, lockValue)], mine[key := reply.value[key]];
      }
      return reply.Some?;
    }

    method RelLock(k: string, oldV: nat) returns (result: nat)
      modifies this
      ensures View() == Do(old(View()), GiveBack(LOCK_PREFIX + k, oldV))
      ensures var key := "business:lock:" + k;
        var held := key in old(store) && old(store[key]).token == oldV && old(now) < old(store[key]).expiresAt;
        && result == (if held then 1 else 0)
        && store == (if held then old(store) - {key} else old(store))
        && (!held ==> lockers == old(lockers))
        && (held ==> FirstDropped(old(lockers), lockers, key))
    {
      var key := LOCK_PREFIX + k;
      if !Holds(store, key, oldV, now) {
        return 0;
      }
      DropFirstDrops(lockers, key);
      store, lockers, mine := store - {key}, DropFirst(lockers, key), mine - {key};
      return 1;
    }

    method AcquireDeviceLock(deviceId: string, ttl: nat, timeout: nat, lockValue: nat, meanwhile: nat -> seq<Turn>)
      returns (token: Option<nat>, ghost path: seq<Client>)
      requires timeout >= 1
      modifies this
      ensures 1 <= |path| <= CountLimit(timeout) + 1 && path[0] == old(View()) && Waits(path, meanwhile)
      ensures View() ==
        Do(path[|path| - 1], Attempt(LOCK_PREFIX + ("device_lock:" + deviceId), lockValue, ttl * 1000))
      ensures token.Some? ==>
        var key := "business:lock:device_lock:" + deviceId;
        key in store && store[key] == Entry(lockValue, now + ttl * 1000)
      ensures token == if Refused(path, LOCK_PREFIX + ("device_lock:" + deviceId)) then None else Some(lockValue)
      ensures token.Some? && ttl > 0 ==> HeldHere(View(), LOCK_PREFIX + ("device_lock:" + deviceId))
      ensures token.None? ==> |path| == (timeout * 1000 + 150) / 300 + 1 && View() == path[|path| - 1]
    {
      var r, slept, path' := GetLock("device_lock:" + deviceId, ttl, timeout, lockValue, meanwhile);
      path := path';
      LimitNearTimeout(timeout);
      AttemptTakes(path[|path| - 1], LOCK_PREFIX + ("device_lock:" + deviceId), lockValue, ttl * 1000);
      assert LOCK_PREFIX + ("device_lock:" + deviceId) == "business:lock:device_lock:" + deviceId;
      if r.Err? {
        return None, path;
      }
      return Some(r.value), path;
    }
  }
}
