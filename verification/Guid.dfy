/** The id allocator: a heap of recycled ids and a high-water mark.  The heap's
    downward sift goes on into the left child only, even when it has also
    swapped with the right one. */
module Guids {

  const MAX_GUID := 1024

  // ---- the heap, as functions on its contents ----

  function Get(h: seq<int>, i: nat): int
  {
    if i < |h| then h[i] else 0
  }

  function Swap(h: seq<int>, i: nat, j: nat): seq<int>
    requires i < |h| && j < |h|
  {
    h[i := h[j]][j := h[i]]
  }

  predicate TakesLeft(h: seq<int>, n: nat)
    requires n < |h|
  {
    Get(h, 2 * n + 1) != 0 && h[n] > Get(h, 2 * n + 1)
  }

  /** The comparison with the right child uses the left value when the left swap was made. */
  predicate TakesRight(h: seq<int>, n: nat)
    requires n < |h|
  {
    var value := if TakesLeft(h, n) then Get(h, 2 * n + 1) else h[n];
    Get(h, 2 * n + 2) != 0 && value > Get(h, 2 * n + 2)
  }

  /** The swaps of one level. */
  function Level(h: seq<int>, n: nat): (r: seq<int>)
    requires n < |h|
    ensures |r| == |h|
  {
    var h1 := if TakesLeft(h, n) then Swap(h, n, 2 * n + 1) else h;
    if TakesRight(h, n) then Swap(h1, n, 2 * n + 2) else h1
  }

  function Follow(h: seq<int>, n: nat): (m: nat)
    requires n < |h|
    ensures n <= m < |h|
  {
    if TakesLeft(h, n) then 2 * n + 1 else if TakesRight(h, n) then 2 * n + 2 else n
  }

  function SiftDown(h: seq<int>, n: nat): (r: seq<int>)
    requires n < |h|
    ensures |r| == |h|
    decreases |h| - n
  {
    if Follow(h, n) == n then Level(h, n) else SiftDown(Level(h, n), Follow(h, n))
  }

  function Parent(i: nat): (p: nat)
    requires i > 0
    ensures p < i && (i == 2 * p + 1 || i == 2 * p + 2)
  {
    (i - 1) / 2
  }

  function SiftUp(h: seq<int>, n: nat): (r: seq<int>)
    requires n < |h|
    ensures |r| == |h|
    decreases n
  {
    if n != 0 && h[Parent(n)] > h[n] then SiftUp(Swap(h, n, Parent(n)), Parent(n)) else h
  }

  function Push(h: seq<int>, id: int): seq<int>
  {
    SiftUp(h + [id], |h|)
  }

  /** The heap without its root; popping the last element leaves nothing to sift. */
  function Rest(h: seq<int>): seq<int>
    requires h != []
  {
    var moved := Swap(h, 0, |h| - 1)[..|h| - 1];
    if moved == [] then [] else SiftDown(moved, 0)
  }

  // ---- sifting permutes ----

  lemma {:induction false} SiftDownPermutes(h: seq<int>, n: nat)
    requires n < |h|
    ensures multiset(SiftDown(h, n)) == multiset(h)
    decreases |h| - n
  {
    LevelPermutes(h, n);
    hide Level, Follow;
    if Follow(h, n) != n {
      SiftDownPermutes(Level(h, n), Follow(h, n));
    }
  }

  lemma LevelPermutes(h: seq<int>, n: nat)
    requires n < |h|
    ensures multiset(Level(h, n)) == multiset(h)
  {
  }

  lemma {:induction false} SiftUpPermutes(h: seq<int>, n: nat)
    requires n < |h|
    ensures multiset(SiftUp(h, n)) == multiset(h)
    decreases n
  {
    if n != 0 && h[Parent(n)] > h[n] {
      SiftUpPermutes(Swap(h, n, Parent(n)), Parent(n));
    }
  }

  lemma PushAdds(h: seq<int>, id: int)
    ensures multiset(Push(h, id)) == multiset(h) + multiset{id}
  {
    SiftUpPermutes(h + [id], |h|);
  }

  lemma RestRemovesRoot(h: seq<int>)
    requires h != []
    ensures multiset(Rest(h)) == multiset(h) - multiset{h[0]}
  {
    var swapped := Swap(h, 0, |h| - 1);
    var moved := swapped[..|h| - 1];
    assert swapped == moved + [h[0]];
    assert multiset(swapped) == multiset(h);
    if moved != [] {
      SiftDownPermutes(moved, 0);
    }
  }

  // ---- order ----

  predicate Edge(h: seq<int>, i: nat)
    requires 0 < i < |h|
  {
    h[Parent(i)] <= h[i]
  }

  ghost predicate Ordered(h: seq<int>)
  {
    forall i :: 0 < i < |h| ==> Edge(h, i)
  }

  ghost predicate Positive(h: seq<int>)
  {
    forall i :: 0 <= i < |h| ==> h[i] > 0
  }

  lemma {:induction false} RootIsLeast(h: seq<int>, i: nat)
    requires Ordered(h) && i < |h|
    ensures h[0] <= h[i]
  {
    if i != 0 {
      RootIsLeast(h, Parent(i));
      assert Edge(h, i);
    }
  }

  /** The parent of n is in order with n's child i. */
  predicate Skips(h: seq<int>, n: nat, i: nat)
    requires n < |h| && 0 < i < |h|
  {
    n != 0 && Parent(i) == n ==> h[Parent(n)] <= h[i]
  }

  /** In order but for the edge above n, and n's parent is below n's children. */
  ghost predicate OrderedAbove(h: seq<int>, n: nat)
    requires n < |h|
  {
    forall i :: 0 < i < |h| ==> (i != n ==> Edge(h, i)) && Skips(h, n, i)
  }

  lemma SwapUp(h: seq<int>, n: nat)
    requires 0 < n < |h| && OrderedAbove(h, n) && h[Parent(n)] > h[n]
    ensures OrderedAbove(Swap(h, n, Parent(n)), Parent(n))
  {
    var p := Parent(n);
    var h' := Swap(h, n, p);
    forall i | 0 < i < |h| ensures (i != p ==> Edge(h', i)) && Skips(h', p, i) {
      assert Edge(h, i) || i == n;
      assert Skips(h, n, i);
      if p != 0 {
        assert Edge(h, p);
      }
    }
  }

  lemma {:induction false} SiftUpOrders(h: seq<int>, n: nat)
    requires n < |h| && OrderedAbove(h, n)
    ensures Ordered(SiftUp(h, n))
    decreases n
  {
    if n != 0 && h[Parent(n)] > h[n] {
      SwapUp(h, n);
      SiftUpOrders(Swap(h, n, Parent(n)), Parent(n));
    }
  }

  /** Pushing keeps the heap in order. */
  lemma PushOrders(h: seq<int>, id: int)
    requires Ordered(h)
    ensures Ordered(Push(h, id))
  {
    var h' := h + [id];
    forall i | 0 < i < |h'| ensures (i != |h| ==> Edge(h', i)) && Skips(h', |h|, i) {
      assert i != |h| ==> Edge(h, i);
    }
    SiftUpOrders(h', |h|);
  }

  /** In order but for the edges below n, and n's parent is below n's children. */
  ghost predicate OrderedBelow(h: seq<int>, n: nat)
    requires n < |h|
  {
    forall i :: 0 < i < |h| ==> (Parent(i) != n ==> Edge(h, i)) && Skips(h, n, i)
  }

  predicate NotAbove(h: seq<int>, i: nat, x: int)
  {
    i < |h| ==> x <= h[i]
  }

  /** When a level takes both swaps, the left value lands at the right child; it fits there if it does not exceed
      that child's children. */
  predicate LeftFitsRight(h: seq<int>, n: nat)
    requires n < |h|
  {
    TakesLeft(h, n) && TakesRight(h, n) ==>
      NotAbove(h, 2 * (2 * n + 2) + 1, h[2 * n + 1]) && NotAbove(h, 2 * (2 * n + 2) + 2, h[2 * n + 1])
  }

  /** At every level that the sift visits and that takes both swaps, the left value fits at the right child. */
  predicate CleanSift(h: seq<int>, n: nat)
    requires n < |h|
    decreases |h| - n
  {
    LeftFitsRight(h, n) && (Follow(h, n) != n ==> CleanSift(Level(h, n), Follow(h, n)))
  }

  lemma LevelPositive(h: seq<int>, n: nat)
    requires n < |h| && Positive(h)
    ensures Positive(Level(h, n))
  {
  }

  /** What a level leaves at a node and its children. */
  lemma LevelValues(h: seq<int>, n: nat, i: nat)
    requires n < |h| && Positive(h) && i < |h|
    ensures var l, r, h' := 2 * n + 1, 2 * n + 2, Level(h, n);
      && (i != n && i != l && i != r ==> h'[i] == h[i])
      && (i == l ==> h'[n] <= h'[l] && h'[l] == (if TakesLeft(h, n) then h[n] else h[l]))
      && (i == r ==> h'[n] <= h'[r]
                     && h'[r] == if !TakesRight(h, n) then h[r] else if TakesLeft(h, n) then h[l] else h[n])
      && (h'[n] == h[n] || (l < |h| && h'[n] == h[l]) || (r < |h| && h'[n] == h[r]))
  {
  }

  /** After a level, every edge but those below the node the sift goes on to. */
  lemma LevelEdge(h: seq<int>, n: nat, i: nat)
    requires n < |h| && Positive(h) && OrderedBelow(h, n) && LeftFitsRight(h, n)
    requires 0 < i < |h| && (Parent(i) != Follow(h, n) || Follow(h, n) == n)
    ensures Edge(Level(h, n), i)
  {
    var l, r, p := 2 * n + 1, 2 * n + 2, Parent(i);
    assert (p != n ==> Edge(h, i)) && Skips(h, n, i);
    if i == n {
      assert l < |h| ==> Skips(h, n, l);
      assert r < |h| ==> Skips(h, n, r);
    }
    LevelValues(h, n, i);
    LevelValues(h, n, p);
    hide Level, OrderedBelow, Positive;
  }

  lemma LevelSkips(h: seq<int>, n: nat, i: nat)
    requires n < |h| && Positive(h) && OrderedBelow(h, n) && Follow(h, n) != n && 0 < i < |h|
    ensures Skips(Level(h, n), Follow(h, n), i)
  {
    var m := Follow(h, n);
    assert Parent(m) == n;
    if Parent(i) == m {
      assert Edge(h, i);
    }
  }

  lemma {:induction false} CleanSiftOrders(h: seq<int>, n: nat)
    requires n < |h| && Positive(h) && OrderedBelow(h, n) && CleanSift(h, n)
    ensures Ordered(SiftDown(h, n))
    decreases |h| - n
  {
    var h', m := Level(h, n), Follow(h, n);
    forall i | 0 < i < |h| ensures (Parent(i) != m || m == n ==> Edge(h', i)) && (m != n ==> Skips(h', m, i)) {
      if Parent(i) != m || m == n {
        LevelEdge(h, n, i);
      }
      if m != n {
        LevelSkips(h, n, i);
      }
    }
    if m != n {
      LevelPositive(h, n);
      CleanSiftOrders(h', m);
    }
  }

  // ---- a sift that is not clean leaves the heap out of order ----

  predicate InSubtree(root: nat, i: nat)
    decreases i
  {
    i == root || (i > root && InSubtree(root, Parent(i)))
  }

  lemma {:induction false} SubtreeOfChild(root: nat, child: nat, i: nat)
    requires child > 0 && Parent(child) == root && InSubtree(child, i)
    ensures InSubtree(root, i)
    decreases i
  {
    if i != child {
      SubtreeOfChild(root, child, Parent(i));
    }
  }

  /** A sift touches nothing outside the subtree it starts in. */
  lemma {:induction false} SiftStaysInside(h: seq<int>, n: nat, i: nat)
    requires n < |h| && i < |h| && !InSubtree(n, i)
    ensures SiftDown(h, n)[i] == h[i]
    decreases |h| - n
  {
    var l, r, m := 2 * n + 1, 2 * n + 2, Follow(h, n);
    assert Parent(l) == n && Parent(r) == n;
    assert i != n && i != l && i != r by {
      assert InSubtree(n, n) && InSubtree(n, l) && InSubtree(n, r);
    }
    assert Level(h, n)[i] == h[i];
    if m != n {
      if InSubtree(m, i) {
        SubtreeOfChild(n, m, i);
      }
      SiftStaysInside(Level(h, n), m, i);
    }
  }

  lemma RightIsOutside(n: nat, i: nat)
    requires i == 2 * n + 2 || i == 2 * (2 * n + 2) + 1 || i == 2 * (2 * n + 2) + 2
    ensures !InSubtree(2 * n + 1, i)
  {
    var r := 2 * n + 2;
    assert Parent(r) == n && !InSubtree(2 * n + 1, n);
    assert !InSubtree(2 * n + 1, r);
    if i != r {
      assert Parent(i) == r;
    }
  }

  lemma {:induction false} DirtySiftDisorders(h: seq<int>, n: nat)
    requires n < |h| && Positive(h) && OrderedBelow(h, n) && !CleanSift(h, n)
    ensures !Ordered(SiftDown(h, n))
    decreases |h| - n
  {
    var h', m := Level(h, n), Follow(h, n);
    if LeftFitsRight(h, n) {
      forall i | 0 < i < |h| ensures (Parent(i) != m || m == n ==> Edge(h', i)) && (m != n ==> Skips(h', m, i)) {
        if Parent(i) != m || m == n {
          LevelEdge(h, n, i);
        }
        if m != n {
          LevelSkips(h, n, i);
        }
      }
      LevelPositive(h, n);
      DirtySiftDisorders(h', m);
    } else {
      var l, r := 2 * n + 1, 2 * n + 2;
      var i := if NotAbove(h, 2 * r + 1, h[l]) then 2 * r + 2 else 2 * r + 1;
      assert Parent(i) == r && h[i] < h[l];
      RightIsOutside(n, r);
      RightIsOutside(n, i);
      SiftStaysInside(h', l, r);
      SiftStaysInside(h', l, i);
      assert !Edge(SiftDown(h, n), i);
    }
  }

  /** The moved last element at the root: all edges but those below the root are in order. */
  lemma MovedIsOrderedBelow(h: seq<int>)
    requires |h| > 1 && Ordered(h)
    ensures OrderedBelow(Swap(h, 0, |h| - 1)[..|h| - 1], 0)
  {
    var moved := Swap(h, 0, |h| - 1)[..|h| - 1];
    forall i | 0 < i < |moved| ensures (Parent(i) != 0 ==> Edge(moved, i)) && Skips(moved, 0, i) {
      assert Edge(h, i);
    }
  }

  /** Popping leaves an ordered heap in order exactly when, at every level visited that takes both swaps, the left
      value does not exceed the right child's children. */
  lemma PopOrdersIff(h: seq<int>)
    requires h != [] && Ordered(h) && Positive(h)
    ensures Ordered(Rest(h)) <==> |h| == 1 || CleanSift(Swap(h, 0, |h| - 1)[..|h| - 1], 0)
  {
    if |h| > 1 {
      var moved := Swap(h, 0, |h| - 1)[..|h| - 1];
      MovedIsOrderedBelow(h);
      assert Positive(moved);
      if CleanSift(moved, 0) {
        CleanSiftOrders(moved, 0);
      } else {
        DirtySiftDisorders(moved, 0);
      }
    }
  }

  // ---- the allocator ----

  datatype Alloc = Alloc(heap: seq<int>, bound: int)

  const FRESH := Alloc([], 0)

  /** The allocator afterwards, and the id, or -1. */
  function Obtain(a: Alloc): (Alloc, int)
  {
    if a.heap == [] then
      if a.bound >= MAX_GUID then (a, -1) else (a.(bound := a.bound + 1), a.bound + 1)
    else (a.(heap := Rest(a.heap)), a.heap[0])
  }

  function Release(a: Alloc, id: int): Alloc
  {
    a.(heap := Push(a.heap, id))
  }

  /** The ids 1..bound are split between the free heap and `out`, each once. */
  ghost predicate Partition(a: Alloc, out: set<int>)
  {
    && 0 <= a.bound <= MAX_GUID
    && forall x: int ::
      multiset(a.heap)[x] + (if x in out then 1 else 0) == if 1 <= x <= a.bound then 1 else 0
  }

  lemma {:induction false} IdRange(n: nat) returns (s: set<int>)
    ensures forall x: int :: x in s <==> 1 <= x <= n
    ensures |s| == n
  {
    if n == 0 {
      s := {};
    } else {
      var s1 := IdRange(n - 1);
      s := s1 + {n as int};
    }
  }

  lemma PartitionSize(a: Alloc, out: set<int>)
    requires Partition(a, out)
    ensures |a.heap| + |out| == a.bound
  {
    var ids := IdRange(a.bound);
    var both := multiset(a.heap) + multiset(out);
    forall x: int ensures both[x] == multiset(ids)[x] {
      assert multiset(out)[x] == if x in out then 1 else 0;
      assert multiset(ids)[x] == if x in ids then 1 else 0;
    }
    assert both == multiset(ids);
    assert |multiset(a.heap)| == |a.heap| && |multiset(out)| == |out| && |multiset(ids)| == |ids|;
  }

  lemma InHeap(a: Alloc, out: set<int>, i: nat)
    requires Partition(a, out) && i < |a.heap|
    ensures 1 <= a.heap[i] <= a.bound && a.heap[i] !in out
  {
    assert a.heap[i] in multiset(a.heap);
  }

  /** -1 is returned exactly when 1024 ids are outstanding; otherwise the id is a new one, and the split is kept. */
  lemma ObtainKeeps(a: Alloc, out: set<int>)
    requires Partition(a, out)
    ensures var (a', id) := Obtain(a);
      && (id == -1 <==> |out| == 1024)
      && (id == -1 ==> a' == a)
      && (id != -1 ==> id !in out && 1 <= id <= 1024 && Partition(a', out + {id}))
  {
    PartitionSize(a, out);
    if a.heap != [] {
      InHeap(a, out, 0);
      RestRemovesRoot(a.heap);
    }
  }

  lemma ReleaseKeeps(a: Alloc, out: set<int>, id: int)
    requires Partition(a, out) && id in out
    ensures Partition(Release(a, id), out - {id})
  {
    PushAdds(a.heap, id);
  }

  /** With the heap in order, the id obtained is the smallest that is not outstanding. */
  lemma ObtainSmallest(a: Alloc, out: set<int>, x: int)
    requires Partition(a, out) && Ordered(a.heap)
    requires Obtain(a).1 != -1 && x >= 1 && x !in out
    ensures Obtain(a).1 <= x
  {
    if a.heap != [] && x <= a.bound {
      assert multiset(a.heap)[x] == 1;
      assert x in multiset(a.heap);
      var i :| 0 <= i < |a.heap| && a.heap[i] == x;
      RootIsLeast(a.heap, i);
    } else if a.heap != [] {
      InHeap(a, out, 0);
    }
  }

  // ---- runs ----

  datatype Op = GetId | RecycleId(id: int)

  /** The allocator with what is outstanding and the most that ever was. */
  datatype Ledger = Ledger(alloc: Alloc, out: set<int>, peak: nat)

  const OPENED := Ledger(FRESH, {}, 0)

  function Max(a: nat, b: nat): nat
  {
    if a < b then b else a
  }

  function Step(l: Ledger, op: Op): Ledger
  {
    match op
    case GetId =>
      var (a, id) := Obtain(l.alloc);
      if id == -1 then l.(alloc := a)
      else Ledger(a, l.out + {id}, Max(l.peak, |l.out + {id}|))
    case RecycleId(id) => Ledger(Release(l.alloc, id), l.out - {id}, l.peak)
  }

  function Run(ops: seq<Op>): Ledger
  {
    if ops == [] then OPENED else Step(Run(ops[..|ops| - 1]), ops[|ops| - 1])
  }

  /** Only outstanding ids are recycled. */
  ghost predicate ValidRun(ops: seq<Op>)
  {
    forall k :: 0 <= k < |ops| && ops[k].RecycleId? ==> ops[k].id in Run(ops[..k]).out
  }

  lemma StepKeeps(l: Ledger, op: Op)
    requires Partition(l.alloc, l.out) && l.alloc.bound == l.peak
    requires op.RecycleId? ==> op.id in l.out
    ensures Partition(Step(l, op).alloc, Step(l, op).out) && Step(l, op).alloc.bound == Step(l, op).peak
  {
    PartitionSize(l.alloc, l.out);
    match op {
      case GetId =>
        ObtainKeeps(l.alloc, l.out);
      case RecycleId(id) =>
        ReleaseKeeps(l.alloc, l.out, id);
    }
  }

  /** Over every valid run the free heap and the outstanding ids split 1..bound, and the bound is the largest
      number of ids that were ever outstanding at once. */
  lemma {:induction false} RunKeeps(ops: seq<Op>)
    requires ValidRun(ops)
    ensures var l := Run(ops); Partition(l.alloc, l.out) && l.alloc.bound == l.peak
  {
    if ops != [] {
      var before := ops[..|ops| - 1];
      forall k | 0 <= k < |before| && before[k].RecycleId? ensures before[k].id in Run(before[..k]).out {
        assert before[..k] == ops[..k];
      }
      RunKeeps(before);
      StepKeeps(Run(before), ops[|ops| - 1]);
    }
  }

  // ---- when every heap of a run is in order ----

  /** The heap over a run, before each operation and at the end, is in order. */
  ghost predicate AlwaysOrdered(ops: seq<Op>)
  {
    forall k :: 0 <= k <= |ops| ==> Ordered(Run(ops[..k]).alloc.heap)
  }

  /** A pop that takes no both-sided level whose left value exceeds the right child's children. */
  predicate CleanPop(h: seq<int>)
  {
    |h| > 1 ==> CleanSift(Swap(h, 0, |h| - 1)[..|h| - 1], 0)
  }

  ghost predicate CleanPops(ops: seq<Op>)
  {
    forall k :: 0 <= k < |ops| && ops[k] == GetId ==> CleanPop(Run(ops[..k]).alloc.heap)
  }

  lemma RunStep(ops: seq<Op>, k: nat)
    requires k < |ops|
    ensures Run(ops[..k + 1]) == Step(Run(ops[..k]), ops[k])
  {
    assert ops[..k + 1][..k] == ops[..k];
  }

  lemma PrefixValid(ops: seq<Op>, k: nat)
    requires ValidRun(ops) && k <= |ops|
    ensures ValidRun(ops[..k])
  {
    hide Run;
    var part := ops[..k];
    forall i | 0 <= i < |part| && part[i].RecycleId? ensures part[i].id in Run(part[..i]).out {
      assert part[..i] == ops[..i];
    }
  }

  lemma HeapPositive(a: Alloc, out: set<int>)
    requires Partition(a, out)
    ensures Positive(a.heap)
  {
    forall i | 0 <= i < |a.heap| ensures a.heap[i] > 0 {
      InHeap(a, out, i);
    }
  }

  /** One operation on a heap in order leaves it in order, except for a pop that is not clean. */
  lemma StepOrdersIff(l: Ledger, op: Op)
    requires Partition(l.alloc, l.out) && Ordered(l.alloc.heap)
    ensures Ordered(Step(l, op).alloc.heap) <==> (op == GetId ==> CleanPop(l.alloc.heap))
  {
    HeapPositive(l.alloc, l.out);
    hide Partition, Positive, Ordered, Rest, Push;
    match op {
      case GetId =>
        if l.alloc.heap != [] {
          PopOrdersIff(l.alloc.heap);
        }
      case RecycleId(id) => PushOrders(l.alloc.heap, id);
    }
  }

  lemma OrderedWhenClean(ops: seq<Op>, k: nat)
    requires ValidRun(ops) && CleanPops(ops) && k <= |ops|
    ensures Ordered(Run(ops[..k]).alloc.heap)
    decreases k
  {
    hide Run, Partition, Ordered, CleanPop, Step;
    if k == 0 {
      NothingRun();
      assert ops[..0] == [];
    } else {
      OrderedWhenClean(ops, k - 1);
      PrefixValid(ops, k - 1);
      RunKeeps(ops[..k - 1]);
      RunStep(ops, k - 1);
      StepOrdersIff(Run(ops[..k - 1]), ops[k - 1]);
    }
  }

  lemma NothingRun()
    ensures Run([]).alloc.heap == [] && Ordered(Run([]).alloc.heap)
  {
  }

  lemma CleanWhenOrdered(ops: seq<Op>, k: nat)
    requires ValidRun(ops) && AlwaysOrdered(ops) && k < |ops| && ops[k] == GetId
    ensures CleanPop(Run(ops[..k]).alloc.heap)
  {
    hide Run, Partition, Ordered, CleanPop, Step;
    PrefixValid(ops, k);
    RunKeeps(ops[..k]);
    RunStep(ops, k);
    StepOrdersIff(Run(ops[..k]), ops[k]);
  }

  /** Over every valid run, the heap is always in order exactly when every pop was clean. */
  lemma OrderedRunIff(ops: seq<Op>)
    requires ValidRun(ops)
    ensures AlwaysOrdered(ops) <==> CleanPops(ops)
  {
    hide Run, Ordered, CleanPop, ValidRun;
    if CleanPops(ops) {
      forall k | 0 <= k <= |ops| ensures Ordered(Run(ops[..k]).alloc.heap) {
        OrderedWhenClean(ops, k);
      }
    }
    if AlwaysOrdered(ops) {
      forall k | 0 <= k < |ops| && ops[k] == GetId ensures CleanPop(Run(ops[..k]).alloc.heap) {
        CleanWhenOrdered(ops, k);
      }
    }
  }

  /** In such a run every id drawn is the smallest that is free at that moment. */
  lemma CleanRunDrawsSmallest(ops: seq<Op>, k: nat, x: int)
    requires ValidRun(ops) && CleanPops(ops) && k < |ops| && ops[k] == GetId
    requires Obtain(Run(ops[..k]).alloc).1 != -1 && x >= 1 && x !in Run(ops[..k]).out
    ensures Obtain(Run(ops[..k]).alloc).1 <= x
  {
    hide Run, Obtain, Partition, Ordered;
    OrderedWhenClean(ops, k);
    PrefixValid(ops, k);
    RunKeeps(ops[..k]);
    ObtainSmallest(Run(ops[..k]).alloc, Run(ops[..k]).out, x);
  }

  // ---- the smallest free id is not always given out ----

  /** From an ordered heap, three pops give 1, 2 and then 4, while 3 is free. */
  lemma NotTheSmallest()
    ensures var h := [1, 5, 2, 6, 7, 3, 4, 10];
      && Ordered(h)
      && Rest(h) == [2, 6, 5, 10, 7, 3, 4]
      && !Ordered(Rest(h))
      && Rest(Rest(h)) == [4, 6, 5, 10, 7, 3]
      && 3 in Rest(Rest(h))
  {
    var h := [1, 5, 2, 6, 7, 3, 4, 10];
    var m := [10, 5, 2, 6, 7, 3, 4];
    assert Swap(h, 0, 7)[..7] == m;
    assert Level(m, 0) == [2, 10, 5, 6, 7, 3, 4] && Follow(m, 0) == 1;
    var m1 := [2, 10, 5, 6, 7, 3, 4];
    assert Level(m1, 1) == [2, 6, 5, 10, 7, 3, 4] && Follow(m1, 1) == 3;
    var m2 := [2, 6, 5, 10, 7, 3, 4];
    assert Level(m2, 3) == m2 && Follow(m2, 3) == 3;
    assert SiftDown(m, 0) == m2;
    assert !Edge(m2, 5);
    var m3 := [4, 6, 5, 10, 7, 3];
    assert Swap(m2, 0, 6)[..6] == m3;
    assert Level(m3, 0) == m3 && Follow(m3, 0) == 0;
    assert m3[5] == 3;
  }

  /** Pushing an id that is not below its parent's place leaves it at the end. */
  lemma PushInPlace(h: seq<int>, id: int)
    requires h == [] || h[Parent(|h|)] <= id
    ensures Push(h, id) == h + [id]
  {
  }

  lemma RunMore(ops: seq<Op>, op: Op)
    requires ValidRun(ops) && (op.RecycleId? ==> op.id in Run(ops).out)
    ensures ValidRun(ops + [op]) && Run(ops + [op]) == Step(Run(ops), op)
  {
    var more := ops + [op];
    assert more[..|ops|] == ops;
    forall k | 0 <= k < |more| && more[k].RecycleId? ensures more[k].id in Run(more[..k]).out {
      assert k < |ops| ==> more[..k] == ops[..k];
    }
  }

  lemma GetNext(l: Ledger, n: nat)
    requires l.alloc == Alloc([], n) && n < MAX_GUID
    ensures Step(l, GetId).alloc == Alloc([], n + 1) && Step(l, GetId).out == l.out + {n + 1}
  {
  }

  lemma RecycleNext(l: Ledger, id: int)
    ensures Step(l, RecycleId(id)).alloc.heap == Push(l.alloc.heap, id)
    ensures Step(l, RecycleId(id)).out == l.out - {id}
  {
  }

  lemma OrderedPrefix(h: seq<int>, k: nat)
    requires Ordered(h) && k < |h|
    ensures Ordered(h[..k]) && (k > 0 ==> h[..k][Parent(k)] <= h[k])
  {
    forall i | 0 < i < k ensures Edge(h[..k], i) {
      assert Edge(h, i);
    }
    assert k > 0 ==> Edge(h, k);
  }

  ghost predicate FirstIds(out: set<int>, n: nat)
  {
    forall x: int :: x in out <==> 1 <= x <= n
  }

  lemma MoreIds(out: set<int>, n: nat)
    requires n > 0 && FirstIds(out, n - 1)
    ensures FirstIds(out + {n}, n)
  {
  }

  lemma NoIds()
    ensures ValidRun([]) && Run([]).alloc == Alloc([], 0) && FirstIds(Run([]).out, 0)
  {
  }

  lemma {:induction false} GetMany(n: nat) returns (ops: seq<Op>)
    requires n <= MAX_GUID
    ensures ValidRun(ops) && Run(ops).alloc == Alloc([], n) && FirstIds(Run(ops).out, n)
  {
    hide *;
    if n == 0 {
      ops := [];
      NoIds();
    } else {
      var before := GetMany(n - 1);
      ops := before + [GetId];
      GetNext(Run(before), n - 1);
      RunMore(before, GetId);
      MoreIds(Run(before).out, n);
    }
  }

  /** The ids of list h, each once, are outstanding. */
  ghost predicate Drawn(h: seq<int>, out: set<int>)
  {
    && (forall i :: 0 <= i < |h| ==> h[i] in out)
    && forall i, j :: 0 <= i < j < |h| ==> h[i] != h[j]
  }

  ghost predicate GivenBack(out': set<int>, out: set<int>, h: seq<int>)
  {
    forall x :: x in out' <==> x in out && x !in h
  }

  lemma DrawnPrefix(h: seq<int>, out: set<int>, k: nat)
    requires Drawn(h, out) && k < |h|
    ensures Drawn(h[..k], out) && h[k] in out && h[k] !in h[..k]
  {
  }

  lemma GivenBackMore(out': set<int>, out: set<int>, h: seq<int>, k: nat)
    requires k + 1 == |h| && GivenBack(out', out, h[..k])
    ensures GivenBack(out' - {h[k]}, out, h)
  {
    assert h == h[..k] + [h[k]];
  }

  lemma NothingGivenBack(out: set<int>)
    ensures GivenBack(out, out, [])
  {
  }

  lemma StillOut(out': set<int>, out: set<int>, h: seq<int>, x: int)
    requires GivenBack(out', out, h) && x in out && x !in h
    ensures x in out'
  {
  }

  /** Recycling the ids of an ordered list in turn makes that list the heap. */
  lemma {:induction false} RecycleList(ops: seq<Op>, h: seq<int>) returns (more: seq<Op>)
    requires ValidRun(ops) && Run(ops).alloc.heap == [] && Ordered(h) && Drawn(h, Run(ops).out)
    ensures ValidRun(more) && Run(more).alloc.heap == h && GivenBack(Run(more).out, Run(ops).out, h)
  {
    hide *;
    if h == [] {
      more := ops;
      NothingGivenBack(Run(ops).out);
    } else {
      var k := |h| - 1;
      OrderedPrefix(h, k);
      DrawnPrefix(h, Run(ops).out, k);
      var before := RecycleList(ops, h[..k]);
      StillOut(Run(before).out, Run(ops).out, h[..k], h[k]);
      more := before + [RecycleId(h[k])];
      RunMore(before, RecycleId(h[k]));
      RecycleNext(Run(before), h[k]);
      PushInPlace(h[..k], h[k]);
      assert h[..k] + [h[k]] == h;
      GivenBackMore(Run(before).out, Run(ops).out, h, k);
    }
  }

  /** So a valid run reaches a state in which 3 is free and the next id given out is 4. */
  lemma SmallestIsSkipped() returns (ops: seq<Op>)
    ensures ValidRun(ops) && 3 !in Run(ops).out && Obtain(Run(ops).alloc).1 == 4
  {
    hide Rest, Run, Ordered, ValidRun, Push;
    var h := [1, 5, 2, 6, 7, 3, 4, 10];
    NotTheSmallest();
    var gets := GetMany(10);
    var ops0 := RecycleList(gets, h);
    assert h[5] == 3 && 3 !in Run(ops0).out;
    var ops1 := ops0 + [GetId];
    RunMore(ops0, GetId);
    ops := ops1 + [GetId];
    RunMore(ops1, GetId);
  }

  // ---- the object ----

  class Guid {
    var Heap: seq<int>
    var Bound: int

    ghost function State(): Alloc
      reads this
    {
      Alloc(Heap, Bound)
    }

    constructor ()
      ensures State() == FRESH
    {
      Heap, Bound := [], 0;
    }

    method PopItem() returns (ret: int)
      requires Heap != []
      modifies this`Heap
      ensures ret == old(Heap)[0]
      ensures Heap == Rest(old(Heap))
    {
      ret := Heap[0];
      Heap := Swap(Heap, 0, |Heap| - 1)[..|Heap| - 1];
      if Heap == [] {
        return;
      }
      ghost var moved := Heap;
      var nid := 0;
      while true
        invariant 0 <= nid < |Heap| == |moved|
        invariant SiftDown(Heap, nid) == SiftDown(moved, 0)
        decreases |moved| - nid
      {
        ghost var before := Heap;
        var nvalue := Heap[nid];
        var lid := 2 * nid + 1;
        var rid := lid + 1;
        var lvalue, rvalue := Get(Heap, lid), Get(Heap, rid);
        var nextnid := nid;
        if lvalue != 0 && nvalue > lvalue {
          nvalue := lvalue;
          Heap := Swap(Heap, nid, lid);
          nextnid := lid;
        }
        if rvalue != 0 && nvalue > rvalue {
          Heap := Swap(Heap, nid, rid);
          if nextnid == nid {
            nextnid := rid;
          }
        }
        assert Heap == Level(before, nid) && nextnid == Follow(before, nid);
        if nextnid == nid {
          break;
        }
        nid := nextnid;
      }
    }

    method GetGuid() returns (id: int)
      modifies this
      ensures (State(), id) == Obtain(old(State()))
    {
      if Heap == [] {
        if Bound >= MAX_GUID {
          id := -1;
        } else {
          Bound := Bound + 1;
          id := Bound;
        }
      } else {
        id := PopItem();
      }
    }

    method PushItem(id: int)
      modifies this`Heap
      ensures Heap == Push(old(Heap), id)
    {
      Heap := Heap + [id];
      ghost var pushed := Heap;
      var nid := |Heap| - 1;
      while nid != 0
        invariant 0 <= nid < |Heap| == |pushed|
        invariant SiftUp(Heap, nid) == SiftUp(pushed, |pushed| - 1)
      {
        var rootid := (nid - 1) / 2;
        if Heap[rootid] > Heap[nid] {
          Heap := Swap(Heap, nid, rootid);
          nid := rootid;
        } else {
          break;
        }
      }
    }

    method RecycleGuid(id: int)
      modifies this
      ensures State() == Release(old(State()), id)
    {
      PushItem(id);
    }
  }
}
