/** The lives of a shard's workers, each told from its own history: where it starts, and that it stays behind that. */
module Lives {
  import opened Wire
  import opened ShardWorkers
  import opened WorkerHistory
  import opened AtLeastOnce

  /** What happened to the k-th worker. */
  function Locals(ls: seq<SystemLabel>, k: nat): seq<WorkerLabel> {
    if ls == [] then []
    else match ls[|ls| - 1]
      case Local(j, l) => if j == k then Locals(ls[..|ls| - 1], k) + [l] else Locals(ls[..|ls| - 1], k)
      case _ => Locals(ls[..|ls| - 1], k)
  }

  lemma {:induction false} LastRan(logs: iset<nat>, s: System, ls: seq<SystemLabel>, t: System) returns (u: System)
    requires ls != [] && Ran(logs, s, ls) == Some(t)
    ensures Ran(logs, s, ls[..|ls| - 1]) == Some(u) && Possible(logs, u, ls[|ls| - 1])
    ensures t == Next(logs, u, ls[|ls| - 1])
    decreases |ls|
  {
    hide Next, Possible;
    if |ls| == 1 {
      u := s;
    } else {
      u := LastRan(logs, Next(logs, s, ls[0]), ls[1..], t);
      assert ls[1..][..|ls| - 2] == ls[..|ls| - 1][1..];
    }
  }

  lemma {:induction false} OneMoreLocal(w: Worker, ls: seq<WorkerLabel>, v: Worker, l: WorkerLabel)
    requires AfterAll(w, ls) == Some(v) && Can(v, l)
    ensures AfterAll(w, ls + [l]) == Some(Do(v, l))
    decreases |ls|
  {
    hide Do, Can;
    if ls == [] {
      assert ls + [l] == [l];
      assert AfterAll(Do(w, l), []) == Some(Do(w, l));
    } else {
      OneMoreLocal(Do(w, ls[0]), ls[1..], v, l);
      assert (ls + [l])[1..] == ls[1..] + [l];
    }
  }

  /** What a step of the system is to one life. */
  lemma {:induction false} StepOfLife(logs: iset<nat>, u: System, sl: SystemLabel, k: nat)
    requires Possible(logs, u, sl) && k < |Next(logs, u, sl).lives|
    ensures k >= |u.lives| ==> sl.Spawn? && k == |u.lives| && Next(logs, u, sl).lives[k].w == NEW_WORKER
    ensures k < |u.lives| && !(sl.Local? && sl.k == k) ==> Next(logs, u, sl).lives[k].w == u.lives[k].w
    ensures k < |u.lives| && sl.Local? && sl.k == k ==>
              Can(u.lives[k].w, sl.l) && Next(logs, u, sl).lives[k].w == Do(u.lives[k].w, sl.l)
  {
    hide Do, Can, DealtWith;
  }

  /** Every life is a run of a worker of its own. */
  lemma {:induction false} LifeIsRun(logs: iset<nat>, ls: seq<SystemLabel>, s: System, k: nat)
    requires Ran(logs, EMPTY, ls) == Some(s)
    ensures k >= |s.lives| ==> Locals(ls, k) == []
    ensures k < |s.lives| ==> AfterAll(NEW_WORKER, Locals(ls, k)) == Some(s.lives[k].w)
    decreases |ls|
  {
    hide Next, Possible, AfterAll;
    if ls != [] {
      var sl := ls[|ls| - 1];
      var u := LastRan(logs, EMPTY, ls, s);
      LifeIsRun(logs, ls[..|ls| - 1], u, k);
      if k < |s.lives| {
        StepOfLife(logs, u, sl, k);
        RunOfNone();
        if k < |u.lives| && sl.Local? && sl.k == k {
          OneMoreLocal(NEW_WORKER, Locals(ls[..|ls| - 1], k), u.lives[k].w, sl.l);
        }
      } else {
        LivesStay(logs, u, sl);
      }
    }
  }

  lemma {:induction false} RunOfNone()
    ensures AfterAll(NEW_WORKER, []) == Some(NEW_WORKER)
  {
  }

  lemma {:induction false} LivesStay(logs: iset<nat>, u: System, sl: SystemLabel)
    requires Possible(logs, u, sl)
    ensures |u.lives| <= |Next(logs, u, sl).lives| && (sl.Local? ==> sl.k < |u.lives|)
  {
    hide Do, Can, DealtWith;
  }

  /** The k-th worker never rolls back below c. */
  predicate NeverBelow(ls: seq<SystemLabel>, k: nat, c: nat) {
    forall sl :: sl in ls && sl.Local? && sl.k == k ==> !RollsBackBelow(sl.l, c)
  }

  /** The service answers pulls with what lies ahead. */
  lemma {:induction false} LifeOnward(logs: iset<nat>, ls: seq<SystemLabel>, s: System, k: nat, c: nat)
    requires Ran(logs, EMPTY, ls) == Some(s) && NeverBelow(ls, k, c)
    ensures Onward(Locals(ls, k), c)
    decreases |ls|
  {
    hide Next, Possible, AfterAll, RollsBackBelow, LastNamed;
    if ls != [] {
      var sl, before := ls[|ls| - 1], ls[..|ls| - 1];
      var u := LastRan(logs, EMPTY, ls, s);
      LifeOnward(logs, before, u, k, c);
      if sl.Local? && sl.k == k {
        LivesStay(logs, u, sl);
        LifeIsRun(logs, before, u, k);
        FollowsHistory(Locals(before, k), u.lives[k].w);
        PullsOnward(logs, u, k, sl.l);
        assert Locals(ls, k)[..|Locals(before, k)|] == Locals(before, k);
      }
    }
  }

  lemma {:induction false} PullsOnward(logs: iset<nat>, u: System, k: nat, l: WorkerLabel)
    requires Possible(logs, u, Local(k, l))
    ensures l.PullDone? && !l.pull.PullFailed? ==> u.lives[k].w.nextFetchCursor <= l.pull.hi
  {
    hide Can;
  }

  /**
   * In every run a worker that was started from c, stored checkpoint or cursor, fetches from c first; and it neither
   * fetches nor processes anything before c, unless the user's function rolls back below c.
   */
  lemma {:induction false} StaysBehindStart(logs: iset<nat>, ls: seq<SystemLabel>, s: System, k: nat, c: nat)
    requires Ran(logs, EMPTY, ls) == Some(s) && k < |s.lives| && StartOf(Locals(ls, k)) == Some(c)
    ensures PulledTo(Locals(ls, k)).None? ==> s.lives[k].w.nextFetchCursor == c
    ensures NeverBelow(ls, k, c) ==>
              && c <= s.lives[k].w.nextFetchCursor
              && (s.lives[k].w.list.Some? ==> c <= s.lives[k].w.list.value.lo)
              && forall l, x :: x in DealtWith(logs, s.lives[k].w, l) ==> c <= x
  {
    hide Ran, AfterAll, StartOf, PulledTo, Orderly, Onward, NeverBelow;
    var w := s.lives[k].w;
    LifeIsRun(logs, ls, s, k);
    FollowsHistory(Locals(ls, k), w);
    if PulledTo(Locals(ls, k)).None? { FetchesStartFirst(Locals(ls, k), w, c); }
    if NeverBelow(ls, k, c) {
      LifeOnward(logs, ls, s, k, c);
      NothingBeforeStart(Locals(ls, k), w, c);
    }
  }

  /** A worker starts from the stored checkpoint if there is one, and from the service's cursor if there is none. */
  lemma {:induction false} StartsFromStored(logs: iset<nat>, s: System, k: nat, j: nat, a: InitAnswer)
    requires Possible(logs, s, Local(k, InitDone(j, a))) && !a.InitFailed?
    ensures var w := Next(logs, s, Local(k, InitDone(j, a))).lives[k].w;
            match s.stored
            case Some(m) => w.nextFetchCursor == m.cursor && w.saved == Some(m.cursor)
            case None => a.FromCursor? && w.nextFetchCursor == a.cursor && w.saved == s.lives[k].w.saved
  {
  }

  /** A worker that has crashed does nothing more: its life stays as it was. */
  lemma {:induction false} CrashIsFinal(logs: iset<nat>, s: System, i: nat, ls: seq<SystemLabel>, t: System)
    requires i < |s.lives| && Possible(logs, s, Crash(i)) && Ran(logs, Next(logs, s, Crash(i)), ls) == Some(t)
    ensures i < |t.lives| && t.lives[i] == s.lives[i].(alive := false)
  {
    hide Ran;
    DeadStays(logs, Next(logs, s, Crash(i)), i, ls, t);
  }

  lemma {:induction false} DeadStays(logs: iset<nat>, s: System, i: nat, ls: seq<SystemLabel>, t: System)
    requires i < |s.lives| && !s.lives[i].alive && Ran(logs, s, ls) == Some(t)
    ensures i < |t.lives| && t.lives[i] == s.lives[i]
    decreases |ls|
  {
    hide Next, Possible;
    if ls != [] {
      StepDead(logs, s, i, ls[0]);
      DeadStays(logs, Next(logs, s, ls[0]), i, ls[1..], t);
    }
  }

  lemma {:induction false} StepDead(logs: iset<nat>, s: System, i: nat, sl: SystemLabel)
    requires i < |s.lives| && !s.lives[i].alive && Possible(logs, s, sl)
    ensures i < |Next(logs, s, sl).lives| && Next(logs, s, sl).lives[i] == s.lives[i]
  {
    hide Do, Can, DealtWith;
  }
}
