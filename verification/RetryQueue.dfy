/** The retry heap: batches waiting for their next attempt, earliest first. */
module RetryQueues {
  import opened Wire

  /** A batch as the retry queue sees it: which one, and when it may be sent again. */
  datatype Waiting = Waiting(id: nat, nextRetryMs: int)

  predicate Edge(p: int, k: int) {
    k == 2 * p + 1 || k == 2 * p + 2
  }

  /** Below a parent p other than `above`, children other than `below` come no earlier, among the first n. */
  ghost predicate Ordered(s: seq<Waiting>, n: nat, above: int, below: int)
    requires n <= |s|
  {
    forall p, k :: Edge(p, k) && 0 <= p && k < n && p != above && k != below ==> s[p].nextRetryMs <= s[k].nextRetryMs
  }

  ghost predicate HeapOrdered(s: seq<Waiting>) {
    Ordered(s, |s|, -1, -1)
  }

  /** What hangs below i comes no earlier than what i hangs from. */
  ghost predicate Bridged(s: seq<Waiting>, n: nat, i: int)
    requires n <= |s|
  {
    forall p, k :: Edge(p, i) && Edge(i, k) && 0 <= p && k < n ==> s[p].nextRetryMs <= s[k].nextRetryMs
  }

  predicate Sorted(s: seq<Waiting>) {
    forall i, j :: 0 <= i < j < |s| ==> s[i].nextRetryMs <= s[j].nextRetryMs
  }

  ghost predicate Monotone(clock: nat -> int) {
    forall i: nat, j: nat :: i <= j ==> clock(i) <= clock(j)
  }

  /** What one release does to the waiting batches: the k-th batch out was due at the k-th clock reading. */
  ghost predicate Released(was: multiset<Waiting>, out: seq<Waiting>, rest: seq<Waiting>, clock: nat -> int) {
    && multiset(out) + multiset(rest) == was && Sorted(out)
    && (forall k :: 0 <= k < |out| ==> out[k].nextRetryMs < clock(k))
    && (forall k :: 0 <= k < |rest| ==> clock(|out|) <= rest[k].nextRetryMs)
  }

  /**
   * With a clock that does not run backwards, everything due at the first reading is released,
   * everything released is due by the last reading, and nothing waiting overtakes.
   */
  lemma {:induction false} ReleasesWhatIsDue(
    was: multiset<Waiting>, out: seq<Waiting>, rest: seq<Waiting>, clock: nat -> int, b: Waiting)
    requires Monotone(clock) && Released(was, out, rest, clock)
    ensures b.nextRetryMs < clock(0) ==> multiset(out)[b] == was[b] && b !in rest
    ensures b.nextRetryMs >= clock(|out|) ==> multiset(rest)[b] == was[b] && b !in out
    ensures b in rest ==> forall a :: a in out ==> a.nextRetryMs < b.nextRetryMs
  {
    assert clock(0) <= clock(|out|);
    assert forall k :: 0 <= k < |out| ==> clock(k) <= clock(|out|);
    assert b in rest <==> multiset(rest)[b] > 0;
    assert b in out <==> multiset(out)[b] > 0;
  }

  ghost predicate NoLater(out: seq<Waiting>, rest: seq<Waiting>) {
    forall a, b :: a in out && b in rest ==> a.nextRetryMs <= b.nextRetryMs
  }

  lemma {:induction false} NothingEarlier(rest: seq<Waiting>)
    ensures NoLater([], rest) && Sorted([])
  {
  }

  lemma {:induction false} SameMembers(s: seq<Waiting>, t: seq<Waiting>)
    requires multiset(t) <= multiset(s)
    ensures forall b :: b in t ==> b in s
  {
    assert forall b :: b in t ==> b in multiset(t);
    assert forall b :: b in multiset(s) ==> b in s;
  }

  lemma {:induction false} TakeLeast(out: seq<Waiting>, before: seq<Waiting>, b: Waiting, rest: seq<Waiting>)
    requires Sorted(out) && NoLater(out, before) && multiset(rest) + multiset{b} == multiset(before)
    requires forall c :: c in before ==> b.nextRetryMs <= c.nextRetryMs
    ensures Sorted(out + [b]) && NoLater(out + [b], rest)
  {
    SameMembers(before, rest);
    assert b in multiset(before);
  }

  lemma {:induction false} RootIsLeast(s: seq<Waiting>, k: nat)
    requires HeapOrdered(s) && k < |s|
    ensures s[0].nextRetryMs <= s[k].nextRetryMs
  {
    if k > 0 {
      assert Edge((k - 1) / 2, k);
      RootIsLeast(s, (k - 1) / 2);
    }
  }

  function Swapped(s: seq<Waiting>, i: nat, j: nat): (t: seq<Waiting>)
    requires i < |s| && j < |s|
    ensures |t| == |s|
  {
    s[i := s[j]][j := s[i]]
  }

  lemma {:induction false} SwappedSame(s: seq<Waiting>, i: nat, j: nat)
    requires i < |s| && j < |s|
    ensures multiset(Swapped(s, i, j)) == multiset(s)
  {
  }

  lemma {:induction false} UpStep(s: seq<Waiting>, i: nat, j: nat)
    requires j < |s| && Edge(i, j) && s[j].nextRetryMs < s[i].nextRetryMs
    requires Ordered(s, |s|, -1, j) && Bridged(s, |s|, j)
    ensures Ordered(Swapped(s, i, j), |s|, -1, i) && Bridged(Swapped(s, i, j), |s|, i)
  {
    var t := Swapped(s, i, j);
    forall p, k | Edge(p, k) && 0 <= p && k < |s| && k != i ensures t[p].nextRetryMs <= t[k].nextRetryMs {
      if p == j { assert Edge(i, j) && Edge(j, k); }
    }
    forall p, k | Edge(p, i) && Edge(i, k) && 0 <= p && k < |s| ensures t[p].nextRetryMs <= t[k].nextRetryMs {
      assert s[p].nextRetryMs <= s[i].nextRetryMs;
    }
  }

  lemma {:induction false} DownStep(s: seq<Waiting>, n: nat, i: nat, j: nat)
    requires n <= |s| && j < n && Edge(i, j) && s[j].nextRetryMs < s[i].nextRetryMs
    requires forall k :: Edge(i, k) && k < n ==> s[j].nextRetryMs <= s[k].nextRetryMs
    requires Ordered(s, n, i, -1) && Bridged(s, n, i)
    ensures Ordered(Swapped(s, i, j), n, j, -1) && Bridged(Swapped(s, i, j), n, j)
  {
    var t := Swapped(s, i, j);
    forall p, k | Edge(p, k) && 0 <= p && k < n && p != j ensures t[p].nextRetryMs <= t[k].nextRetryMs {
      if k == i { assert Edge(p, i) && Edge(i, j); }
    }
    forall p, k | Edge(p, j) && Edge(j, k) && 0 <= p && k < n ensures t[p].nextRetryMs <= t[k].nextRetryMs {
      assert p == i;
    }
  }

  class RetryQueue {
    var batch: seq<Waiting>

    constructor ()
      ensures batch == []
    {
      batch := [];
    }

    ghost predicate Valid()
      reads this
    {
      HeapOrdered(batch)
    }

    method Swap(i: nat, j: nat)
      requires i < |batch| && j < |batch|
      modifies this
      ensures batch == Swapped(old(batch), i, j)
      ensures multiset(batch) == multiset(old(batch))
    {
      SwappedSame(batch, i, j);
      batch := batch[i := batch[j]][j := batch[i]];
    }

    /** The sift-up of container/heap. */
    method Up(start: nat)
      requires start < |batch| && Ordered(batch, |batch|, -1, start) && Bridged(batch, |batch|, start)
      modifies this
      ensures Valid() && multiset(batch) == multiset(old(batch))
    {
      var j := start;
      hide Swapped, Bridged;
      while true
        invariant 0 <= j < |batch| == |old(batch)|
        invariant Ordered(batch, |batch|, -1, j) && Bridged(batch, |batch|, j)
        invariant multiset(batch) == multiset(old(batch))
        decreases j
      {
        var i := if j == 0 then 0 else (j - 1) / 2;
        if i == j || !(batch[j].nextRetryMs < batch[i].nextRetryMs) { break; }
        UpStep(batch, i, j);
        Swap(i, j);
        j := i;
      }
    }

    /** The sift-down of container/heap, over the first n elements. */
    method Down(n: nat)
      requires n <= |batch| && Ordered(batch, n, 0, -1)
      modifies this
      ensures |batch| == |old(batch)| && Ordered(batch, n, -1, -1)
      ensures multiset(batch) == multiset(old(batch)) && batch[n..] == old(batch)[n..]
    {
      var i := 0;
      while true
        invariant 0 <= i && |batch| == |old(batch)| && Ordered(batch, n, i, -1) && Bridged(batch, n, i)
        invariant multiset(batch) == multiset(old(batch)) && batch[n..] == old(batch)[n..]
        decreases n - i
      {
        var j1 := 2 * i + 1;
        if j1 >= n { break; }
        var j := j1;
        if j1 + 1 < n && batch[j1 + 1].nextRetryMs < batch[j1].nextRetryMs { j := j1 + 1; }
        if !(batch[j].nextRetryMs < batch[i].nextRetryMs) { break; }
        DownStep(batch, n, i, j);
        Swap(i, j);
        i := j;
      }
    }

    /** heap.Push */
    method Push(x: Waiting)
      requires Valid()
      modifies this
      ensures Valid() && multiset(batch) == multiset(old(batch)) + multiset{x}
    {
      batch := batch + [x];
      Up(|batch| - 1);
    }

    /** heap.Pop */
    method Pop() returns (x: Waiting)
      requires Valid() && batch != []
      modifies this
      ensures Valid() && |batch| == |old(batch)| - 1
      ensures multiset(batch) + multiset{x} == multiset(old(batch))
      ensures forall b :: b in old(batch) ==> x.nextRetryMs <= b.nextRetryMs
    {
      forall k | 0 <= k < |batch| ensures batch[0].nextRetryMs <= batch[k].nextRetryMs {
        RootIsLeast(batch, k);
      }
      var n := |batch| - 1;
      Swap(0, n);
      Down(n);
      x := batch[n];
      assert batch == batch[..n] + [x];
      batch := batch[..n];
    }

    /** `sendToRetryQueue`, nil being None. */
    method SendToRetryQueue(b: Option<Waiting>)
      requires Valid()
      modifies this
      ensures Valid()
      ensures multiset(batch) == multiset(old(batch)) + (if b.Some? then multiset{b.value} else multiset{})
    {
      if b.Some? { Push(b.value); }
    }

    /** `getRetryBatch`; clock(k) is the k-th reading of the wall clock. */
    method GetRetryBatch(moverShutDownFlag: bool, clock: nat -> int) returns (out: seq<Waiting>)
      requires Valid()
      modifies this
      ensures Valid()
      ensures !moverShutDownFlag ==> Released(multiset(old(batch)), out, batch, clock)
      ensures moverShutDownFlag ==> batch == [] && multiset(out) == multiset(old(batch)) && Sorted(out)
    {
      hide NoLater, HeapOrdered;
      out := [];
      ghost var was := multiset(batch);
      NothingEarlier(batch);
      while |batch| > 0
        invariant Valid() && multiset(out) + multiset(batch) == was && Sorted(out)
        invariant NoLater(out, batch)
        invariant !moverShutDownFlag ==> forall k :: 0 <= k < |out| ==> out[k].nextRetryMs < clock(k)
      {
        ghost var before := batch;
        var b := Pop();
        TakeLeast(out, before, b, batch);
        if moverShutDownFlag || b.nextRetryMs < clock(|out|) {
          out := out + [b];
        } else {
          Push(b);
          SameMembers(before, batch);
          return;
        }
      }
    }
  }
}
