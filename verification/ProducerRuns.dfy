/** Whole runs of the producer: every interleaving, from its start. */
module ProducerRuns {
  import opened Wire
  import opened ProducerRules
  import opened Pipeline
  import opened Placement
  import opened CallBacks
  import opened KeyOrder
  import opened Attempts
  import opened Closing
  import opened Progress

  /** Where a list of steps leads, if each of them is possible in its turn. */
  function After(c: Config, s: State, ls: seq<Label>): Option<State>
    decreases |ls|
  {
    if ls == [] then Some(s)
    else if Enabled(c, s, ls[0]) && Named(s) then After(c, Apply(c, s, ls[0]), ls[1..])
    else None
  }

  ghost predicate Inv(c: Config, s: State) {
    && Placed(s) && Named(s) && CalledBack(s) && Sequenced(s) && Worded(s) && Addressed(s)
    && AllTried(c, s) && Slotted(c, s) && AllCapped(c, s) && Controlled(s)
  }

  lemma {:induction false} InitInv(c: Config)
    requires Validated(c)
    ensures Inv(c, INIT)
  {
    assert forall id: nat :: InAcc(INIT, id) == 0;
    assert Elsewhere(INIT) == multiset{};
    assert Placed(INIT);
    assert Sequenced(INIT);
    assert forall k :: LogsFor([], k) == [] == Text(INIT, k);
    assert Worded(INIT);
  }

  lemma {:induction false} StepInv(c: Config, s: State, l: Label)
    requires Validated(c) && Inv(c, s) && Enabled(c, s, l)
    ensures Inv(c, Apply(c, s, l))
  {
    hide Placed, Named, CalledBack, Sequenced, Worded, Addressed, AllTried, Slotted, AllCapped, Controlled, Apply,
      Enabled, Validated;
    StepPlaced(c, s, l);
    PlacedNamed(Apply(c, s, l));
    StepCalls(c, s, l);
    StepWorded(c, s, l);
    StepAddressed(c, s, l);
    StepTried(c, s, l);
    StepSlotted(c, s, l);
    StepCapped(c, s, l);
    StepControl(c, s, l);
  }

  lemma {:induction false} RunInv(c: Config, s: State, ls: seq<Label>, t: State)
    requires Validated(c) && Inv(c, s) && After(c, s, ls) == Some(t)
    ensures Inv(c, t)
    decreases |ls|
  {
    hide Inv, Apply, Enabled;
    if ls != [] {
      StepInv(c, s, ls[0]);
      RunInv(c, Apply(c, s, ls[0]), ls[1..], t);
    }
  }

  lemma {:induction false} Reaches(c: Config, ls: seq<Label>, s: State)
    requires Validated(c) && After(c, INIT, ls) == Some(s)
    ensures Inv(c, s)
  {
    hide Inv, After;
    InitInv(c);
    RunInv(c, INIT, ls, s);
  }

  /** One step more. */
  lemma {:induction false} OneMore(c: Config, s: State, ls: seq<Label>, t: State, l: Label)
    requires After(c, s, ls) == Some(t) && Enabled(c, t, l) && Named(t)
    ensures After(c, s, ls + [l]) == Some(Apply(c, t, l))
    decreases |ls|
  {
    hide Apply, Enabled, Named;
    if ls == [] {
      assert ls + [l] == [l];
      assert After(c, Apply(c, t, l), []) == Some(Apply(c, t, l));
    } else {
      OneMore(c, Apply(c, s, ls[0]), ls[1..], t, l);
      assert (ls + [l])[1..] == ls[1..] + [l];
    }
  }

  lemma {:induction false} Go(c: Config, ls: seq<Label>, s: State, l: Label) returns (ms: seq<Label>, t: State)
    requires After(c, INIT, ls) == Some(s) && Enabled(c, s, l) && Named(s)
    ensures After(c, INIT, ms) == Some(t) && t == Apply(c, s, l)
  {
    OneMore(c, INIT, ls, s, l);
    ms, t := ls + [l], Apply(c, s, l);
  }

  lemma {:induction false} AfterNone(c: Config)
    ensures After(c, INIT, []) == Some(INIT)
  {
  }

  // ---------------------------------------------------------------- main theorems

  /**
   * Every batch is in exactly one place, once: accumulator, queue, popped, in flight, retry queue, hand-over or
   * finalised.
   */
  lemma {:induction false} Conservation(c: Config, ls: seq<Label>, s: State, id: nat)
    requires Validated(c) && After(c, INIT, ls) == Some(s)
    ensures id < |s.batches| ==>
              InAcc(s, id) + multiset(s.queue)[id] + multiset(s.hand)[id] + HeldIds(s)[id]
              + s.sending[id] + s.failing[id] + s.retry[id] + s.done[id] == 1
    ensures forall k :: k in s.acc ==> s.acc[k] < |s.batches| && InAcc(s, s.acc[k]) == 1
  {
    Reaches(c, ls, s);
    hide Named, CalledBack, Sequenced, Worded, Addressed, AllTried, Slotted, AllCapped, Controlled, GetKeyString, After;
    assert Copies(s, id) == if id < |s.batches| then 1 else 0;
  }

  /** A callback has been called once, with the outcome, if its batch is finalised, and never if it is not. */
  lemma {:induction false} CallBackExactlyOnce(c: Config, ls: seq<Label>, s: State, callBack: nat)
    requires Validated(c) && After(c, INIT, ls) == Some(s) && callBack < |s.owner|
    ensures |s.fires| == |s.owner| && s.owner[callBack] < |s.batches|
    ensures multiset(s.batches[s.owner[callBack]].callBackList)[callBack] == 1
    ensures s.fires[callBack]
         == if s.done[s.owner[callBack]] == 1 then [s.batches[s.owner[callBack]].successful] else []
  {
    Reaches(c, ls, s);
    hide Named, Sequenced, Worded, Addressed, AllTried, Slotted, AllCapped, Controlled, GetKeyString, After;
    assert Copies(s, s.owner[callBack]) == 1;
  }

  /**
   * Per key, the logs of its batches in the order they were first queued, then those of its open batch, are
   * the accepted ones in order; and batches are popped for the first time in that same order.
   */
  lemma {:induction false} PerKeyOrder(c: Config, ls: seq<Label>, s: State, k: string)
    requires Validated(c) && After(c, INIT, ls) == Some(s)
    ensures LogsFor(s.accepted, k) == QueuedLogs(s.batches, s.enq, k) + OpenLogs(s, k)
    ensures s.started + Fresh(s.queue, s.started) == s.enq
    ensures forall id: nat :: id < |s.batches| ==> multiset(s.enq)[id] + InAcc(s, id) == 1
  {
    Reaches(c, ls, s);
    hide Named, CalledBack, Addressed, AllTried, Slotted, AllCapped, Controlled, After;
    assert LogsFor(s.accepted, k) == Text(s, k);
  }

  /** In every run a batch holds submissions with its own key only. */
  lemma {:induction false} OwnKey(c: Config, ls: seq<Label>, s: State, id: nat, i: nat)
    requires Validated(c) && After(c, INIT, ls) == Some(s)
    requires id < |s.batches| && i < |s.batches[id].from|
    ensures GetKeyString(s.batches[id].from[i]) == GetKeyString(s.batches[id].destination)
  {
    hide GetKeyString, After;
    Reaches(c, ls, s);
    assert OwnLogs(s.batches[id]);
  }

  /**
   * A batch is sent at most once more than it may be retried, and no more attempts are kept than reserved: the first
   * failures, and the success if there was one within the limit.
   */
  lemma {:induction false} BoundedSends(c: Config, ls: seq<Label>, s: State, id: nat)
    requires Validated(c) && After(c, INIT, ls) == Some(s) && id < |s.batches|
    ensures |s.sends| == |s.batches| && s.sends[id] <= MaxRetries(c) + 1
    ensures Recorded(c, s.batches[id]) && |s.batches[id].attemptList| <= c.maxReservedAttempts
    ensures |s.sending| + |s.failing| <= c.maxIoWorkerCount
  {
    Reaches(c, ls, s);
    hide Named, CalledBack, Sequenced, Worded, Addressed, AllCapped, Controlled, GetKeyString, After, Copies;
    assert Tried(c, s, id);
  }

  /** Size and count limits of every batch there is. */
  lemma {:induction false} BatchCaps(c: Config, ls: seq<Label>, s: State, id: nat)
    requires Validated(c) && After(c, INIT, ls) == Some(s) && id < |s.batches|
    ensures |s.batches[id].from| >= 2 ==> s.batches[id].held <= FIVE_MIB
    ensures s.batches[id].singly ==> |s.batches[id].logs| <= c.maxBatchCount
  {
    Reaches(c, ls, s);
    hide Placed, Named, CalledBack, Sequenced, Worded, Addressed, AllTried, Slotted, Controlled, GetKeyString, After;
    assert Capped(c, s.batches[id]);
  }

  /**
   * A batch over MaxBatchSize does not stay open: what is open holds a single submission, or was charged, with exactly
   * the logs it holds, no more than MaxBatchSize.
   */
  lemma {:induction false} OpenIsBelowSize(c: Config, ls: seq<Label>, s: State, k: string)
    requires Validated(c) && After(c, INIT, ls) == Some(s) && k in s.acc
    ensures s.acc[k] < |s.batches|
    ensures var b := s.batches[s.acc[k]];
            b.totalDataSize == b.held && (|b.from| >= 2 ==> b.totalDataSize <= c.maxBatchSize)
  {
    Reaches(c, ls, s);
    hide Named, CalledBack, Sequenced, Worded, Addressed, AllTried, Slotted, Controlled, GetKeyString, After;
    AccInRange(s);
    assert OpenCapped(c, s.batches[s.acc[k]]);
  }

  function Carried(ls: seq<Label>): nat {
    if ls == [] then 0 else Cost(ls[0]) + Carried(ls[1..])
  }

  function Commits(ls: seq<Label>): nat {
    if ls == [] then 0 else (if ls[0].SendCommit? then 1 else 0) + Commits(ls[1..])
  }

  /** Among any steps, no more carry a batch than the measure allows plus a fixed number for each submission. */
  lemma {:induction false} RunMeasure(c: Config, s: State, ls: seq<Label>, t: State)
    requires Validated(c) && Inv(c, s) && After(c, s, ls) == Some(t)
    ensures Measure(c, t) + Carried(ls) <= Measure(c, s) + (4 + 6 * MaxRetries(c)) * Commits(ls)
    decreases |ls|
  {
    hide Inv, Apply, Enabled, Measure, MaxRetries;
    if ls != [] {
      var l, u := ls[0], Apply(c, s, ls[0]);
      InvPlaced(c, s);
      StepInv(c, s, l);
      RunMeasure(c, u, ls[1..], t);
      OneStep(c, s, l);
      assert Commits(ls) == (if l.SendCommit? then 1 else 0) + Commits(ls[1..]);
      assert (4 + 6 * MaxRetries(c)) * Commits(ls)
          == (4 + 6 * MaxRetries(c)) * Commits(ls[1..]) + (if l.SendCommit? then 4 + 6 * MaxRetries(c) else 0);
    }
  }

  lemma {:induction false} InvPlaced(c: Config, s: State)
    requires Inv(c, s)
    ensures Placed(s) && Named(s)
  {
  }

  lemma {:induction false} OneStep(c: Config, s: State, l: Label)
    requires Placed(s) && Named(s) && Enabled(c, s, l)
    ensures Measure(c, Apply(c, s, l)) + Cost(l) <= Measure(c, s) + (if l.SendCommit? then 4 + 6 * MaxRetries(c) else 0)
  {
    hide Measure, MaxRetries, Placed, Named, Commit;
    if l.SendCommit? {
      CommitMeasure(c, s, l.d, Submission(l.logs, l.groupSize, if l.wantsCallback then Some(|s.owner|) else None));
    } else {
      StepMeasure(c, s, l);
    }
  }

  /** From the start: at most 4 + 6 * retries carrying steps for each accepted submission. */
  lemma {:induction false} BatchesComeToRest(c: Config, ls: seq<Label>, s: State)
    requires Validated(c) && After(c, INIT, ls) == Some(s)
    ensures Carried(ls) <= (4 + 6 * MaxRetries(c)) * Commits(ls)
  {
    InitInv(c);
    hide Inv, After, Carried, Commits;
    RunMeasure(c, INIT, ls, s);
    assert Measure(c, INIT) == 0;
  }

  /** While the mover loops and the pool is not told to go, an unfinished batch can always be carried on. */
  lemma {:induction false} NeverStuck(c: Config, ls: seq<Label>, s: State, id: nat)
    requires Validated(c) && After(c, INIT, ls) == Some(s)
    requires s.mover.Looping? && !PoolFlag(s) && id < |s.batches| && s.done[id] == 0
    ensures exists l :: Enabled(c, s, l) && (Moves(l) || l.PoolCheck?)
  {
    hide After, Placed, Named, CalledBack, Sequenced, Worded, Addressed, AllTried, AllCapped, Enabled, Moves, Validated;
    Reaches(c, ls, s);
    NextEnabled(c, s, id);
    NextMoves(c, s, id);
  }

  lemma {:induction false} NextMoves(c: Config, s: State, id: nat)
    ensures Moves(NextCarry(c, s, id)) || NextCarry(c, s, id).PoolCheck?
  {
    hide AnyOf, KeyOf;
  }

  lemma {:induction false} NextEnabled(c: Config, s: State, id: nat)
    requires Validated(c) && Placed(s) && Slotted(c, s) && Controlled(s)
    requires s.mover.Looping? && !PoolFlag(s) && id < |s.batches| && s.done[id] == 0
    ensures Enabled(c, s, NextCarry(c, s, id))
  {
    hide Placed, KeyOf, Validated;
    Workers(c);
    if s.hand == [] && s.sending == multiset{} && s.failing == multiset{} && s.held == None && s.queue == []
      && id !in s.retry {
      SomewhereElse(s, id);
    }
  }

  lemma {:induction false} Workers(c: Config)
    requires Validated(c)
    ensures c.maxIoWorkerCount >= 1
  {
  }

  lemma {:induction false} SomewhereElse(s: State, id: nat)
    requires Placed(s) && id < |s.batches| && s.done[id] == 0 && s.hand == [] && s.sending == multiset{}
    requires s.failing == multiset{} && s.held == None && s.queue == [] && id !in s.retry
    ensures KeyOf(s.batches[id]) in s.acc
  {
    assert Copies(s, id) == 1;
    hide GetKeyString;
  }

  /** A step that carries this batch, or one that stands in its way, on. */
  ghost function NextCarry(c: Config, s: State, id: nat): Label {
    if s.hand != [] then MoverPut
    else if s.sending != multiset{} then SendOk(AnyOf(s.sending))
    else if s.failing != multiset{} then RetryPush(AnyOf(s.failing))
    else if s.held.Some? then PoolStart
    else if s.queue != [] then (if s.pool.Taking? then PoolPop else PoolCheck)
    else if id in s.retry then MoverTake([id])
    else MoverFlush(if id < |s.batches| then KeyOf(s.batches[id]) else "")
  }

  ghost function AnyOf(m: multiset<nat>): (x: nat)
    requires m != multiset{}
    ensures x in m
  {
    var x :| x in m;
    x
  }

  // ------------------------------------------------------------------- SafeClose

  /** When SafeClose has returned: what is left came too late, and all is finalised exactly when nothing did. */
  lemma {:induction false} SafeCloseLeaves(c: Config, ls: seq<Label>, s: State)
    requires Validated(c) && After(c, INIT, ls) == Some(s) && s.close.Closed?
    ensures s.held == None && s.hand == [] && s.sending == multiset{} && s.failing == multiset{}
    ensures s.queue == s.lateAdds && s.retry == s.latePushes && (!s.lateCommit ==> s.acc == map[])
    ensures forall id: nat :: id < |s.batches| ==> (InAcc(s, id) == 1 <==> s.mark <= id && id !in s.enq)
    ensures (forall id: nat :: id < |s.batches| ==> s.done[id] == 1)
       <==> s.lateAdds == [] && s.latePushes == multiset{} && LateOnesSentOff(s)
  {
    hide Placed, Controlled, Enqueued, LateOnesSentOff, InAcc, After;
    Reaches(c, ls, s);
    ClosedExactly(s);
  }

  lemma {:induction false} AfterBoth(c: Config, s: State, ls: seq<Label>, t: State, ms: seq<Label>, u: State)
    requires After(c, s, ls) == Some(t) && After(c, t, ms) == Some(u)
    ensures After(c, s, ls + ms) == Some(u)
    decreases |ls|
  {
    hide Apply, Enabled, Named;
    if ls == [] {
      assert ls + ms == ms;
    } else {
      AfterBoth(c, Apply(c, s, ls[0]), ls[1..], t, ms, u);
      assert (ls + ms)[1..] == ls[1..] + ms;
    }
  }

  predicate AllCalledOnce(s: State) {
    |s.fires| == |s.owner| && forall callBack: nat :: callBack < |s.owner| ==> |s.fires[callBack]| == 1
  }

  lemma {:induction false} DoneAllCalled(c: Config, s: State)
    requires Inv(c, s) && forall id: nat :: id < |s.batches| ==> s.done[id] == 1
    ensures AllCalledOnce(s)
  {
    hide Placed, Sequenced, Worded, Addressed, AllTried, Slotted, AllCapped, Controlled;
  }

  /**
   * SafeClose, seen by its caller: if every Send call has returned when it starts and none is made after, it
   * finalises every batch and calls every callback once exactly when no task was queued after the pool's last
   * look at the queue and no batch pushed back after the mover's last look at the retry queue.
   */
  lemma {:induction false} SafeCloseExactly(c: Config, before: seq<Label>, s: State, after: seq<Label>, t: State)
    requires Validated(c) && After(c, INIT, before) == Some(s) && After(c, s, after) == Some(t)
    requires s.close.NotClosing? && s.pending == 0 && NoSend(after) && t.close.Closed?
    ensures (forall id: nat :: id < |t.batches| ==> t.done[id] == 1) <==> t.lateAdds == [] && t.latePushes == multiset{}
    ensures t.lateAdds == [] && t.latePushes == multiset{} ==> AllCalledOnce(t)
  {
    hide After, Inv, AllCalledOnce, NoSend;
    SafeCloseEmptiesAccumulator(c, before, s, after, t);
    AfterBoth(c, INIT, before, s, after, t);
    Reaches(c, before + after, t);
    ClosedInv(c, t);
    if forall id: nat :: id < |t.batches| ==> t.done[id] == 1 { DoneAllCalled(c, t); }
  }

  /** Once SafeClose is through, an empty accumulator leaves two ways to be late. */
  lemma {:induction false} ClosedInv(c: Config, t: State)
    requires Inv(c, t) && t.close.Closed? && t.acc == map[]
    ensures (forall id: nat :: id < |t.batches| ==> t.done[id] == 1) <==> t.lateAdds == [] && t.latePushes == multiset{}
  {
    hide Placed, CalledBack, Worded, Addressed, AllTried, Slotted, AllCapped, Enqueued, Fifo, AwayStarted,
      LateOnesSentOff, InAcc;
    EmptyIffSentOff(t);
    ClosedExactly(t);
  }

  lemma {:induction false} RunSettled(c: Config, s: State, ls: seq<Label>, t: State)
    requires Settled(s) && After(c, s, ls) == Some(t)
    ensures Settled(t)
    decreases |ls|
  {
    hide Settled, Apply, Enabled;
    if ls != [] {
      StepSettled(c, s, ls[0]);
      RunSettled(c, Apply(c, s, ls[0]), ls[1..], t);
    }
  }

  /**
   * The mover has stopped, no sender is under way or can start, and nothing is late: every batch begun after
   * the mover's last look at the accumulator was sent off, none was pushed back after its last look at the
   * retry queue or is about to be, and none queued since the pool found the queue empty, if it just did.
   */
  ghost predicate NothingLate(s: State) {
    && s.mover.Stopped? && s.pending == 0 && RetryFlag(s)
    && LateOnesSentOff(s) && s.latePushes == multiset{} && s.failing == multiset{}
    && (s.pool.Taking? || s.lateAdds == [])
  }

  lemma {:induction false} NothingLateSettled(c: Config, s: State)
    requires Inv(c, s) && NothingLate(s)
    ensures Settled(s)
  {
    hide Placed, CalledBack, Worded, Addressed, AllTried, Slotted, AllCapped, Enqueued, Fifo, AwayStarted,
      LateOnesSentOff;
    EmptyIffSentOff(s);
  }

  /**
   * SafeClose drains: from a state with nothing late every way to its end finalises every batch and calls every
   * callback.
   */
  lemma {:induction false} SafeCloseDrains(c: Config, before: seq<Label>, s: State, after: seq<Label>, t: State)
    requires Validated(c) && After(c, INIT, before) == Some(s) && After(c, s, after) == Some(t)
    requires NothingLate(s) && t.close.Closed?
    ensures Finished(t) && forall id: nat :: id < |t.batches| ==> t.done[id] == 1
    ensures AllCalledOnce(t)
  {
    hide Inv, After, Settled, NothingLate;
    Reaches(c, before, s);
    NothingLateSettled(c, s);
    RunInv(c, s, after, t);
    RunSettled(c, s, after, t);
    SettledFinished(c, t);
    DoneAllCalled(c, t);
  }

  lemma {:induction false} SettledFinished(c: Config, t: State)
    requires Inv(c, t) && Settled(t) && t.close.Closed?
    ensures Finished(t) && forall id: nat :: id < |t.batches| ==> t.done[id] == 1
  {
    hide Placed, CalledBack, Sequenced, Worded, Addressed, AllTried, Slotted, AllCapped;
    forall id: nat | id < |t.batches| ensures t.done[id] == 1 { FinishedAllDone(t, id); }
  }

  predicate NoSend(ls: seq<Label>) {
    forall l :: l in ls ==> !l.SendBegin?
  }

  /** If every Send call has returned when SafeClose starts, and none is made after, nothing is accepted too late. */
  lemma {:induction false} NoLateCommit(c: Config, s: State, ls: seq<Label>, t: State)
    requires s.pending == 0 && !s.lateCommit && NoSend(ls) && After(c, s, ls) == Some(t)
    ensures t.pending == 0 && !t.lateCommit
    decreases |ls|
  {
    hide Apply, Enabled;
    if ls != [] {
      assert ls[0] in ls;
      QuietSenders(c, s, ls[0]);
      NoLateCommit(c, Apply(c, s, ls[0]), ls[1..], t);
    }
  }

  lemma {:induction false} QuietSenders(c: Config, s: State, l: Label)
    requires Named(s) && Enabled(c, s, l) && s.pending == 0 && !l.SendBegin?
    ensures Apply(c, s, l).pending == 0 && Apply(c, s, l).lateCommit == s.lateCommit
  {
    hide Commit;
  }

  /** Before SafeClose nothing is late. */
  lemma {:induction false} SafeCloseEmptiesAccumulator(
    c: Config, before: seq<Label>, s: State, after: seq<Label>, t: State)
    requires Validated(c) && After(c, INIT, before) == Some(s) && After(c, s, after) == Some(t)
    requires s.close.NotClosing? && s.pending == 0 && NoSend(after) && t.close.Closed?
    ensures t.acc == map[]
  {
    Reaches(c, before, s);
    hide Placed, Named, CalledBack, Sequenced, Worded, Addressed, AllTried, Slotted, AllCapped, After;
    NoLateCommit(c, s, after, t);
    hide Inv;
    RunInv(c, s, after, t);
    InvControlled(c, t);
  }

  lemma {:induction false} InvControlled(c: Config, s: State)
    requires Inv(c, s)
    ensures Controlled(s)
  {
  }
}
