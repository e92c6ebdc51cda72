/** Lists of shards, as the heartbeat keeps them. */
module Shards {

  predicate Distinct(s: seq<int>) {
    forall i, j :: 0 <= i < j < |s| ==> s[i] != s[j]
  }

  /** The first occurrence of x taken out. */
  function Without(s: seq<int>, x: int): seq<int> {
    if s == [] then [] else if s[0] == x then s[1..] else [s[0]] + Without(s[1..], x)
  }

  /** The elements in the order of their first occurrence. */
  function Unique(s: seq<int>): seq<int> {
    if s == [] then []
    else
      var r := Unique(s[..|s| - 1]);
      if s[|s| - 1] in s[..|s| - 1] then r else r + [s[|s| - 1]]
  }

  lemma {:induction false} UniqueIsSet(s: seq<int>)
    ensures Distinct(Unique(s)) && forall x :: x in Unique(s) <==> x in s
  {
    if s != [] {
      var t := s[..|s| - 1];
      UniqueIsSet(t);
      assert s == t + [s[|s| - 1]];
    }
  }

  lemma {:induction false} WithoutKeeps(s: seq<int>, x: int, y: int)
    ensures multiset(Without(s, x))[y] == if x == y && multiset(s)[y] > 0 then multiset(s)[y] - 1 else multiset(s)[y]
  {
    if s != [] {
      assert s == [s[0]] + s[1..];
      if s[0] != x { WithoutKeeps(s[1..], x, y); }
    }
  }

  lemma {:induction false} DistinctOnce(s: seq<int>)
    ensures Distinct(s) <==> forall x :: multiset(s)[x] <= 1
  {
    if s != [] {
      var t := s[..|s| - 1];
      assert s == t + [s[|s| - 1]];
      DistinctOnce(t);
      var last := s[|s| - 1];
      assert forall x :: multiset(s)[x] == multiset(t)[x] + (if x == last then 1 else 0);
      assert last in t <==> multiset(t)[last] > 0;
      assert Distinct(s) <==> Distinct(t) && last !in t;
      if Distinct(s) {
        assert forall x :: multiset(t)[x] <= 1;
      }
      if forall x :: multiset(s)[x] <= 1 {
        assert multiset(s)[last] <= 1;
        assert forall x :: multiset(t)[x] <= multiset(s)[x] <= 1;
      }
    }
  }

  /** From a list without repetitions, x and nothing else goes. */
  lemma {:induction false} WithoutGone(s: seq<int>, x: int)
    requires Distinct(s)
    ensures Distinct(Without(s, x)) && forall y :: y in Without(s, x) <==> y in s && y != x
  {
    DistinctOnce(s);
    DistinctOnce(Without(s, x));
    hide Distinct, Without;
    forall y ensures multiset(Without(s, x))[y] <= 1 && (y in Without(s, x) <==> y in s && y != x) {
      WithoutKeeps(s, x, y);
      assert y in s <==> multiset(s)[y] > 0;
      assert y in Without(s, x) <==> multiset(Without(s, x))[y] > 0;
    }
  }

  /** `Set` */
  method Set(slc: seq<int>) returns (result: seq<int>)
    ensures result == Unique(slc)
  {
    result := [];
    var tempMap: map<int, int> := map[];
    var i := 0;
    while i < |slc|
      invariant 0 <= i <= |slc| && result == Unique(slc[..i])
      invariant forall x :: x in tempMap <==> x in slc[..i]
    {
      var e, l := slc[i], |tempMap|;
      assert slc[..i + 1][..i] == slc[..i];
      assert slc[..i + 1] == slc[..i] + [e];
      SizeGrows(tempMap, e);
      tempMap := tempMap[e := 0];
      if |tempMap| != l {
        result := result + [e];
      }
      i := i + 1;
    }
    assert slc[..i] == slc;
  }

  lemma {:induction false} SizeGrows(m: map<int, int>, e: int)
    ensures |m[e := 0]| == if e in m then |m| else |m| + 1
  {
    assert m[e := 0].Keys == m.Keys + {e};
    assert |m.Keys| == |m| && |m[e := 0].Keys| == |m[e := 0]|;
    if e in m { assert m.Keys + {e} == m.Keys; }
  }

  /** `Contain` on a slice */
  method Contain(obj: int, target: seq<int>) returns (found: bool)
    ensures found <==> obj in target
  {
    var i := 0;
    while i < |target|
      invariant 0 <= i <= |target| && obj !in target[..i]
    {
      if target[i] == obj { return true; }
      i := i + 1;
    }
    return false;
  }

  class ConsumerHeartBeat {
    var heldShards: seq<int>
    var heartShards: seq<int>

    constructor ()
      ensures heldShards == [] && heartShards == []
    {
      heldShards, heartShards := [], [];
    }

    /** The part of a heartbeat before the request: what is held and what was reported, without repetition. */
    method UploadShards() returns (heart: seq<int>)
      modifies this
      ensures heldShards == old(heldShards) && heart == heartShards == Unique(old(heartShards) + old(heldShards))
    {
      var uploadShards := heartShards + heldShards;
      heartShards := Set(uploadShards);
      heart := heartShards;
    }

    /** The part after it. timedOut: no heartbeat has succeeded for too long. */
    method TakeResponse(responseShards: seq<int>, err: bool, timedOut: bool)
      modifies this
      ensures heartShards == old(heartShards)
      ensures heldShards == if !err then responseShards else if timedOut then [] else old(heldShards)
    {
      if err {
        if timedOut { heldShards := []; }
      } else {
        heldShards := responseShards;
      }
    }

    method RemoveHeartShard(shardId: int) returns (isDeleteShard: bool)
      modifies this
      ensures heldShards == old(heldShards) && heartShards == Without(old(heartShards), shardId)
      ensures isDeleteShard <==> shardId in old(heartShards)
    {
      isDeleteShard := false;
      var i := 0;
      while i < |heartShards|
        invariant 0 <= i <= |heartShards| && heartShards == old(heartShards)
        invariant shardId !in heartShards[..i] && !isDeleteShard
      {
        if shardId == heartShards[i] {
          RemoveFound(heartShards, shardId, i);
          heartShards := heartShards[..i] + heartShards[i + 1..];
          isDeleteShard := true;
          return;
        }
        i := i + 1;
      }
      RemoveNone(heartShards, shardId);
    }
  }

  lemma {:induction false} RemoveFound(s: seq<int>, x: int, i: nat)
    requires i < |s| && s[i] == x && x !in s[..i]
    ensures Without(s, x) == s[..i] + s[i + 1..]
  {
    var head, tail := s[..i], s[i..];
    assert s == head + tail && tail[1..] == s[i + 1..];
    WithoutSkips(head, tail, x);
  }

  lemma {:induction false} WithoutSkips(a: seq<int>, b: seq<int>, x: int)
    requires x !in a
    ensures Without(a + b, x) == a + Without(b, x)
  {
    if a == [] {
      assert a + b == b;
    } else {
      WithoutSkips(a[1..], b, x);
      assert (a + b)[1..] == a[1..] + b;
      assert [a[0]] + (a[1..] + Without(b, x)) == a + Without(b, x);
    }
  }

  lemma {:induction false} RemoveNone(s: seq<int>, x: int)
    requires x !in s
    ensures Without(s, x) == s
  {
    if s != [] { RemoveNone(s[1..], x); }
  }

  /** What comes later in a list does not change the order of what came before. */
  lemma {:induction false} UniqueInOrder(a: seq<int>, b: seq<int>)
    ensures Unique(a) <= Unique(a + b)
    decreases |b|
  {
    if b == [] {
      assert a + b == a;
    } else {
      UniqueInOrder(a, b[..|b| - 1]);
      assert (a + b)[..|a + b| - 1] == a + b[..|b| - 1];
    }
  }
}
