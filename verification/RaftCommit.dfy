/** How the leader picks the index to commit: a descending sort and a scan that
    keeps overwriting, which yields the smallest match index. */
module RaftCommit {
  import opened RaftProtocol
  import opened RaftSpec

  function CountAtLeast(xs: seq<nat>, x: nat): nat
  {
    if xs == [] then 0 else CountAtLeast(xs[..|xs| - 1], x) + (if x <= xs[|xs| - 1] then 1 else 0)
  }

  predicate Descending(xs: seq<nat>)
  {
    forall i, j :: 0 <= i < j < |xs| ==> xs[i] >= xs[j]
  }

  /** Insertion into a descending list. */
  method Insert(xs: seq<nat>, x: nat) returns (r: seq<nat>)
    requires Descending(xs)
    ensures Descending(r)
    ensures multiset(r) == multiset(xs) + multiset{x}
  {
    var i := 0;
    while i < |xs| && xs[i] >= x
      invariant 0 <= i <= |xs|
      invariant forall j :: 0 <= j < i ==> xs[j] >= x
    {
      i := i + 1;
    }
    r := xs[..i] + [x] + xs[i..];
    assert xs == xs[..i] + xs[i..];
    InsertedDescends(xs, i, x);
  }

  lemma InsertedDescends(xs: seq<nat>, i: nat, x: nat)
    requires Descending(xs) && i <= |xs|
    requires (forall j :: 0 <= j < i ==> xs[j] >= x) && (i < |xs| ==> xs[i] < x)
    ensures Descending(xs[..i] + [x] + xs[i..])
  {
  }

  method SortDescending(xs: seq<nat>) returns (r: seq<nat>)
    ensures Descending(r)
    ensures multiset(r) == multiset(xs)
  {
    r := [];
    var i := 0;
    while i < |xs|
      invariant 0 <= i <= |xs|
      invariant Descending(r)
      invariant multiset(r) == multiset(xs[..i])
    {
      r := Insert(r, xs[i]);
      assert xs[..i + 1] == xs[..i] + [xs[i]];
      i := i + 1;
    }
    assert xs[..|xs|] == xs;
  }

  /** The index the leader is willing to commit: of the indices held by a majority, the last one scanned. */
  method SelectCommittable(matchIndex: seq<nat>) returns (committable: nat)
    requires matchIndex != []
    ensures committable == Minimum(matchIndex)
  {
    var lengths := SortDescending(matchIndex);
    SameSize(lengths, matchIndex);
    committable := 0;
    var i := 0;
    while i < |lengths|
      invariant 0 <= i <= |lengths|
      invariant i == |lengths| ==> committable == lengths[i - 1]
    {
      var index := lengths[i];
      if i == |lengths| - 1 {
        AllAtLeast(lengths, index);
      }
      if CountAtLeast(lengths, index) >= |matchIndex| / 2 + 1 {
        committable := index;
      }
      i := i + 1;
    }
    LastIsMinimum(lengths, matchIndex);
  }

  lemma SameSize(a: seq<nat>, b: seq<nat>)
    requires multiset(a) == multiset(b)
    ensures |a| == |b|
  {
    assert |multiset(a)| == |a| && |multiset(b)| == |b|;
  }

  lemma {:induction false} AllAtLeast(xs: seq<nat>, x: nat)
    requires forall i :: 0 <= i < |xs| ==> x <= xs[i]
    ensures CountAtLeast(xs, x) == |xs|
  {
    if xs != [] {
      AllAtLeast(xs[..|xs| - 1], x);
    }
  }

  lemma LastIsMinimum(sorted: seq<nat>, xs: seq<nat>)
    requires xs != [] && sorted != [] && Descending(sorted) && multiset(sorted) == multiset(xs)
    ensures sorted[|sorted| - 1] == Minimum(xs)
  {
    var last, m := sorted[|sorted| - 1], Minimum(xs);
    assert last in multiset(sorted) && m in multiset(xs);
    assert last in xs && m in sorted;
  }

  // ---- what was meant, and when it is what happens ----

  /** x is the largest index that a majority of the nodes hold. */
  ghost predicate LargestMajorityIndex(matchIndex: seq<nat>, x: nat)
  {
    && x in matchIndex
    && CountAtLeast(matchIndex, x) >= |matchIndex| / 2 + 1
    && forall y :: y in matchIndex && CountAtLeast(matchIndex, y) >= |matchIndex| / 2 + 1 ==> y <= x
  }

  lemma {:induction false} CountFalls(xs: seq<nat>, x: nat, y: nat)
    requires x <= y
    ensures CountAtLeast(xs, y) <= CountAtLeast(xs, x)
  {
    if xs != [] {
      CountFalls(xs[..|xs| - 1], x, y);
    }
  }

  lemma {:induction false} CountGap(xs: seq<nat>, x: nat)
    requires x !in xs
    ensures CountAtLeast(xs, x) == CountAtLeast(xs, x + 1)
  {
    if xs != [] {
      assert xs[|xs| - 1] in xs;
      CountGap(xs[..|xs| - 1], x);
    }
  }

  lemma {:induction false} CountAboveAll(xs: seq<nat>, x: nat)
    requires forall i :: 0 <= i < |xs| ==> xs[i] < x
    ensures CountAtLeast(xs, x) == 0
  {
    if xs != [] {
      CountAboveAll(xs[..|xs| - 1], x);
    }
  }

  /** The smallest listed value from x on is held as widely as x. */
  lemma {:induction false} NextListed(xs: seq<nat>, x: nat, top: nat) returns (y: nat)
    requires CountAtLeast(xs, x) > 0 && forall i :: 0 <= i < |xs| ==> xs[i] <= top
    ensures y in xs && y >= x && CountAtLeast(xs, y) == CountAtLeast(xs, x)
    decreases top + 1 - x
  {
    if x > top {
      CountAboveAll(xs, x);
      assert false;
    }
    if x in xs {
      y := x;
    } else {
      CountGap(xs, x);
      y := NextListed(xs, x + 1, top);
    }
  }

  lemma {:induction false} Top(xs: seq<nat>) returns (top: nat)
    ensures forall i :: 0 <= i < |xs| ==> xs[i] <= top
  {
    top := 0;
    if xs != [] {
      top := Top(xs[..|xs| - 1]);
      if xs[|xs| - 1] > top {
        top := xs[|xs| - 1];
      }
    }
  }

  /** Every node holds the index that the leader commits, so a majority does. */
  lemma CommittedByAll(matchIndex: seq<nat>)
    requires matchIndex != []
    ensures CountAtLeast(matchIndex, Minimum(matchIndex)) == |matchIndex| >= |matchIndex| / 2 + 1
  {
    AllAtLeast(matchIndex, Minimum(matchIndex));
  }

  lemma MoreThanSlowest(xs: seq<nat>, quota: nat)
    requires xs != [] && quota > 0 && CountAtLeast(xs, Minimum(xs) + 1) >= quota
    ensures exists y :: y in xs && CountAtLeast(xs, y) >= quota && y > Minimum(xs)
  {
    var top := Top(xs);
    var y := NextListed(xs, Minimum(xs) + 1, top);
  }

  lemma NoMoreThanSlowest(xs: seq<nat>, quota: nat, y: nat)
    requires xs != [] && CountAtLeast(xs, Minimum(xs) + 1) < quota && CountAtLeast(xs, y) >= quota
    ensures y <= Minimum(xs)
  {
    if y > Minimum(xs) {
      CountFalls(xs, Minimum(xs) + 1, y);
    }
  }

  /** The leader commits the largest index held by a majority exactly when the nodes that hold more than the
      slowest node are no majority. */
  lemma CommitsMajorityIndexIff(matchIndex: seq<nat>)
    requires matchIndex != []
    ensures LargestMajorityIndex(matchIndex, Minimum(matchIndex))
       <==> CountAtLeast(matchIndex, Minimum(matchIndex) + 1) < |matchIndex| / 2 + 1
  {
    hide CountAtLeast, Minimum;
    var quota := |matchIndex| / 2 + 1;
    CommittedByAll(matchIndex);
    if CountAtLeast(matchIndex, Minimum(matchIndex) + 1) >= quota {
      MoreThanSlowest(matchIndex, quota);
    } else {
      forall y | y in matchIndex && CountAtLeast(matchIndex, y) >= quota ensures y <= Minimum(matchIndex) {
        NoMoreThanSlowest(matchIndex, quota, y);
      }
    }
  }

  /** Three nodes, two of them at index 5: the leader commits nothing. */
  lemma SlowestNodeHoldsBack()
    ensures Minimum([5, 5, 0]) == 0
    ensures LargestMajorityIndex([5, 5, 0], 5)
  {
    var xs: seq<nat> := [5, 5, 0];
    assert xs[2] == 0 && xs[0] == 5;
    assert xs[..2] == [5, 5] && [5, 5][..1] == [5] && [5][..0] == [];
    assert CountAtLeast(xs, 5) == 2;
  }
}
