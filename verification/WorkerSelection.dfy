/** The device-aware choice of a worker in src/modules/send-script-main/send-script-master.service.ts.
    Workers are named by their position in the master's list. */
module WorkerSelection {

  datatype Worker = Worker(ready: bool, taskCount: int, deviceTasks: map<string, int>)

  function ReadyAmong(ws: seq<Worker>, n: nat): (ready: seq<nat>)
    requires n <= |ws|
    ensures forall k :: 0 <= k < |ready| ==> ready[k] < n
  {
    if n == 0 then [] else ReadyAmong(ws, n - 1) + (if ws[n - 1].ready then [n - 1] else [])
  }

  function DeviceCount(w: Worker, d: string): int {
    if d in w.deviceTasks then w.deviceTasks[d] else 0
  }

  ghost predicate Indices(ws: seq<Worker>, ids: seq<nat>) {
    && (forall k :: 0 <= k < |ids| ==> ids[k] < |ws|)
    && (forall k, l :: 0 <= k < l < |ids| ==> ids[k] < ids[l])
  }

  /** The first of the workers with the fewest tasks. */
  function MinByTaskCount(ws: seq<Worker>, ids: seq<nat>): (i: nat)
    requires ids != [] && forall k :: 0 <= k < |ids| ==> ids[k] < |ws|
    ensures i in ids
  {
    if |ids| == 1 then ids[0]
    else
      var i := MinByTaskCount(ws, ids[..|ids| - 1]);
      var last := ids[|ids| - 1];
      if ws[last].taskCount < ws[i].taskCount then last else i
  }

  function WithoutDevice(ws: seq<Worker>, ids: seq<nat>, d: string): (free: seq<nat>)
    requires forall k :: 0 <= k < |ids| ==> ids[k] < |ws|
    ensures forall k :: 0 <= k < |free| ==> free[k] in ids && free[k] < |ws|
  {
    if ids == [] then []
    else
      var init, last := WithoutDevice(ws, ids[..|ids| - 1], d), ids[|ids| - 1];
      if d !in ws[last].deviceTasks || ws[last].deviceTasks[d] == 0 then init + [last] else init
  }

  /** The order of the comparator: tasks of the device, then all tasks. */
  predicate Before(ws: seq<Worker>, d: string, i: nat, j: nat)
    requires i < |ws| && j < |ws|
  {
    if DeviceCount(ws[i], d) != DeviceCount(ws[j], d) then DeviceCount(ws[i], d) < DeviceCount(ws[j], d)
    else ws[i].taskCount < ws[j].taskCount
  }

  /** Puts i behind all that are not after it, as a stable sort does. */
  function InsertStable(ws: seq<Worker>, d: string, sorted: seq<nat>, i: nat): (r: seq<nat>)
    requires i < |ws| && forall k :: 0 <= k < |sorted| ==> sorted[k] < |ws|
    ensures |r| == |sorted| + 1 && forall k :: 0 <= k < |r| ==> r[k] < |ws|
  {
    if sorted == [] || !Before(ws, d, i, sorted[|sorted| - 1]) then sorted + [i]
    else InsertStable(ws, d, sorted[..|sorted| - 1], i) + [sorted[|sorted| - 1]]
  }

  function SortStable(ws: seq<Worker>, d: string, ids: seq<nat>): (r: seq<nat>)
    requires forall k :: 0 <= k < |ids| ==> ids[k] < |ws|
    ensures |r| == |ids| && forall k :: 0 <= k < |r| ==> r[k] < |ws|
  {
    if ids == [] then [] else InsertStable(ws, d, SortStable(ws, d, ids[..|ids| - 1]), ids[|ids| - 1])
  }

  function SelectWorkerForDevice(ws: seq<Worker>, ready: seq<nat>, d: string): nat
    requires ready != [] && forall k :: 0 <= k < |ready| ==> ready[k] < |ws|
  {
    var available := WithoutDevice(ws, ready, d);
    if available != [] then MinByTaskCount(ws, available) else SortStable(ws, d, ready)[0]
  }

  function SelectWorker(ws: seq<Worker>, ready: seq<nat>, d: string): nat
    requires ready != [] && forall k :: 0 <= k < |ready| ==> ready[k] < |ws|
  {
    if d != "" then SelectWorkerForDevice(ws, ready, d) else MinByTaskCount(ws, ready)
  }

  /** i is the first of the listed workers that minimise (tasks of the device, all tasks). */
  ghost predicate FirstBest(ws: seq<Worker>, d: string, ids: seq<nat>, i: nat)
    requires forall k :: 0 <= k < |ids| ==> ids[k] < |ws|
  {
    i in ids && i < |ws| && forall j :: j in ids ==> !Before(ws, d, j, i) && (Before(ws, d, i, j) || i <= j)
  }

  lemma IndicesAppend(ws: seq<Worker>, ids: seq<nat>, last: nat)
    requires Indices(ws, ids) && last < |ws| && forall j :: j in ids ==> j < last
    ensures Indices(ws, ids + [last])
  {
    var all := ids + [last];
    forall k, l | 0 <= k < l < |all| ensures all[k] < all[l] {
      if l == |ids| {
        assert ids[k] in ids;
      }
    }
  }

  lemma IndicesInit(ws: seq<Worker>, ids: seq<nat>)
    requires Indices(ws, ids) && ids != []
    ensures var init, last := ids[..|ids| - 1], ids[|ids| - 1];
      Indices(ws, init) && last < |ws| && ids == init + [last] && forall j :: j in init ==> j < last
  {
  }

  lemma {:induction false} ReadyAmongIs(ws: seq<Worker>, n: nat)
    requires n <= |ws|
    ensures Indices(ws, ReadyAmong(ws, n))
    ensures forall i: nat :: i in ReadyAmong(ws, n) <==> i < n && ws[i].ready
  {
    if n > 0 {
      ReadyAmongIs(ws, n - 1);
      IndicesAppend(ws, ReadyAmong(ws, n - 1), n - 1);
    }
  }

  lemma {:induction false} MinIsFirstBest(ws: seq<Worker>, ids: seq<nat>)
    requires ids != [] && Indices(ws, ids)
    ensures var i := MinByTaskCount(ws, ids);
      forall j :: j in ids ==> ws[i].taskCount < ws[j].taskCount || (ws[i].taskCount == ws[j].taskCount && i <= j)
  {
    if |ids| > 1 {
      var init := ids[..|ids| - 1];
      MinIsFirstBest(ws, init);
      assert ids == init + [ids[|ids| - 1]];
      assert forall j :: j in init ==> j < ids[|ids| - 1];
    }
  }

  lemma {:induction false} WithoutDeviceIs(ws: seq<Worker>, ids: seq<nat>, d: string)
    requires Indices(ws, ids)
    ensures Indices(ws, WithoutDevice(ws, ids, d))
    ensures forall i :: i in WithoutDevice(ws, ids, d) <==> i in ids && DeviceCount(ws[i], d) == 0
  {
    if ids != [] {
      var init, last := ids[..|ids| - 1], ids[|ids| - 1];
      IndicesInit(ws, ids);
      WithoutDeviceIs(ws, init, d);
      IndicesAppend(ws, WithoutDevice(ws, init, d), last);
    }
  }

  ghost predicate Sorted(ws: seq<Worker>, d: string, r: seq<nat>)
    requires forall k :: 0 <= k < |r| ==> r[k] < |ws|
  {
    forall k, l :: 0 <= k < l < |r| ==> !Before(ws, d, r[l], r[k])
  }

  lemma {:induction false} InsertSorted(ws: seq<Worker>, d: string, sorted: seq<nat>, i: nat)
    requires i < |ws| && (forall k :: 0 <= k < |sorted| ==> sorted[k] < |ws|) && Sorted(ws, d, sorted)
    ensures Sorted(ws, d, InsertStable(ws, d, sorted, i))
    ensures forall x :: x in InsertStable(ws, d, sorted, i) <==> x in sorted || x == i
  {
    if sorted != [] && Before(ws, d, i, sorted[|sorted| - 1]) {
      var init, last := sorted[..|sorted| - 1], sorted[|sorted| - 1];
      assert sorted == init + [last];
      InsertSorted(ws, d, init, i);
      var r := InsertStable(ws, d, init, i);
      forall k | 0 <= k < |r| ensures !Before(ws, d, last, r[k]) {
        assert r[k] in r;
      }
    }
  }

  lemma {:induction false} InsertHead(ws: seq<Worker>, d: string, sorted: seq<nat>, i: nat)
    requires i < |ws| && (forall k :: 0 <= k < |sorted| ==> sorted[k] < |ws|) && Sorted(ws, d, sorted)
    ensures InsertStable(ws, d, sorted, i)[0] == if sorted == [] || Before(ws, d, i, sorted[0]) then i else sorted[0]
  {
    if sorted != [] && Before(ws, d, i, sorted[|sorted| - 1]) {
      InsertHead(ws, d, sorted[..|sorted| - 1], i);
    }
  }

  lemma FirstBestNext(ws: seq<Worker>, d: string, ids: seq<nat>, best: nat, last: nat)
    requires Indices(ws, ids + [last]) && forall k :: 0 <= k < |ids| ==> ids[k] < |ws|
    requires last < |ws| && FirstBest(ws, d, ids, best)
    ensures FirstBest(ws, d, ids + [last], if Before(ws, d, last, best) then last else best)
  {
    var all := ids + [last];
    forall j | j in ids ensures j < last {
      var k :| 0 <= k < |ids| && ids[k] == j;
      assert all[k] == j && all[|ids|] == last;
    }
  }

  lemma {:induction false} SortSorted(ws: seq<Worker>, d: string, ids: seq<nat>)
    requires forall k :: 0 <= k < |ids| ==> ids[k] < |ws|
    ensures Sorted(ws, d, SortStable(ws, d, ids))
  {
    if ids != [] {
      var init, last := ids[..|ids| - 1], ids[|ids| - 1];
      SortSorted(ws, d, init);
      InsertSorted(ws, d, SortStable(ws, d, init), last);
    }
  }

  lemma {:induction false} SortHeadIsFirstBest(ws: seq<Worker>, d: string, ids: seq<nat>)
    requires Indices(ws, ids) && ids != []
    ensures FirstBest(ws, d, ids, SortStable(ws, d, ids)[0])
  {
    var init, last := ids[..|ids| - 1], ids[|ids| - 1];
    IndicesInit(ws, ids);
    if init == [] {
      assert SortStable(ws, d, init) == [];
    } else {
      SortHeadIsFirstBest(ws, d, init);
      SortSorted(ws, d, init);
      InsertHead(ws, d, SortStable(ws, d, init), last);
      FirstBestNext(ws, d, init, SortStable(ws, d, init)[0], last);
    }
  }

  /** The two-phase choice is one simple rule: the first ready worker that minimises the pair of its
      tasks of the device and all its tasks. */
  lemma SelectionIsFirstBest(ws: seq<Worker>, ids: seq<nat>, d: string, i: nat)
    requires ids != [] && Indices(ws, ids)
    requires forall j :: j in ids ==> DeviceCount(ws[j], d) >= 0
    ensures SelectWorkerForDevice(ws, ids, d) == i <==> FirstBest(ws, d, ids, i)
  {
    WithoutDeviceIs(ws, ids, d);
    var available := WithoutDevice(ws, ids, d);
    var chosen := SelectWorkerForDevice(ws, ids, d);
    if available != [] {
      MinIsFirstBest(ws, available);
      assert FirstBest(ws, d, ids, chosen);
    } else {
      SortHeadIsFirstBest(ws, d, ids);
    }
  }
}
