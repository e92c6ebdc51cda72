/** What SafeClose leaves behind. */
module Closing {
  import opened Wire
  import opened ProducerRules
  import opened Pipeline
  import opened Placement
  import opened KeyOrder

  /** What is queued from now on will not be looked at again unless the pool finds its flag unset. */
  predicate PoolControl(s: State) {
    && (!s.pool.Taking? ==> s.held == None && s.queue == s.lateAdds)
    && (s.pool.Exited? ==> PoolFlag(s))
    && (s.close.PoolGone? || s.close.Closed? ==> s.pool.Exited?)
    && (s.close.Closed? ==> s.sending == multiset{} && s.failing == multiset{})
  }

  predicate Drained(s: State) {
    s.mover.LastTasks? || s.mover.Stopped?
  }

  /** The mover's last looks at the retry queue and at the accumulator. */
  ghost predicate MoverControl(s: State) {
    && (Drained(s) ==> s.retry == s.latePushes)
    && s.mark <= |s.batches|
    && (s.mover.DrainingRetry? || Drained(s) ==> forall k :: k in s.acc ==> s.mark <= s.acc[k])
    && (s.mover.DrainingRetry? || Drained(s) ==> s.lateCommit || s.acc == map[])
    && (s.mover.DrainingAcc? || s.mover.DrainingRetry? || s.mover.Stopped? ==> s.hand == [])
    && (!s.mover.Looping? ==> MoverFlag(s))
    && (s.lateCommit ==> s.mover.DrainingRetry? || Drained(s))
    && (PoolFlag(s) ==> s.mover.Stopped?)
  }

  ghost predicate Controlled(s: State) {
    PoolControl(s) && MoverControl(s)
  }

  lemma {:induction false} SealControl(s: State, k: string)
    requires Controlled(s) && k in s.acc
    ensures Controlled(Seal(s, k))
  {
    assert s.acc != map[];
  }

  lemma {:induction false} CommitControl(c: Config, s: State, d: Destination, sub: Submission)
    requires Placed(s) && Controlled(s) && !s.mover.DrainingAcc?
    ensures Controlled(Commit(c, s, d, sub))
  {
    AbsorbNames(c, OpenBatch(s, GetKeyString(d)), d, sub);
    hide Absorb, GetKeyString, Placed;
  }

  lemma {:induction false} PushControl(s: State, id: nat)
    requires Controlled(s) && id in s.failing
    ensures Controlled(PushBack(s, id))
  {
    assert s.failing != multiset{};
  }

  lemma {:induction false} IdleControl(c: Config, s: State, l: Label)
    requires Named(s) && Enabled(c, s, l) && Idle(l) && Controlled(s)
    ensures Controlled(Apply(c, s, l))
  {
    hide Commit, Seal, Put, Pop, Start, Release, Finalise, SendFailed, PushBack, AddSuccess, Named;
  }

  lemma {:induction false} PutControl(s: State)
    requires Controlled(s) && s.hand != []
    ensures Controlled(Put(s))
  {
  }

  lemma {:induction false} PopControl(s: State)
    requires Controlled(s) && s.queue != [] && s.pool.Taking?
    ensures Controlled(Pop(s))
  {
  }

  lemma {:induction false} StartControl(s: State)
    requires Controlled(s) && s.held.Some? && s.held.value < |s.sends|
    ensures Controlled(Start(s))
  {
  }

  lemma {:induction false} ReleaseControl(s: State, out: seq<nat>)
    requires Controlled(s)
    ensures s.mover.Looping? ==> Controlled(Release(s, out))
    ensures s.mover.DrainingRetry? && multiset(out) == s.retry ==>
              Controlled(Release(s, out).(mover := LastTasks, latePushes := multiset{}))
  {
  }

  lemma {:induction false} FinaliseControl(s: State, id: nat, b: Batch, ok: bool)
    requires Controlled(s) && id in s.sending && id < |s.batches|
    ensures Controlled(Finalise(s, id, b, ok))
  {
    assert s.sending != multiset{};
  }

  lemma {:induction false} RetriedControl(s: State, id: nat, b: Batch)
    requires Controlled(s) && id in s.sending && id < |s.batches|
    ensures Controlled(Rewrite(s.(sending := s.sending - multiset{id}, failing := s.failing + multiset{id}), id, b))
  {
    assert s.sending != multiset{};
  }

  lemma {:induction false} FailedControl(c: Config, s: State, id: nat, noRetry: bool)
    requires Controlled(s) && id in s.sending && id < |s.batches|
    ensures Controlled(SendFailed(c, s, id, noRetry))
  {
    hide OnError, Finalise, Rewrite, Controlled;
    match OnError(c, s.batches[id], RetryFlag(s), noRetry)
    case Fail(b) => FinaliseControl(s, id, b, false);
    case Retry(b) => RetriedControl(s, id, b);
  }

  lemma {:induction false} StepControl(c: Config, s: State, l: Label)
    requires Placed(s) && Named(s) && Enabled(c, s, l) && Controlled(s)
    ensures Controlled(Apply(c, s, l))
  {
    hide Placed, Idle, Controlled, Commit, Seal, Put, Pop, Start, Release, Finalise, SendFailed, PushBack, AddSuccess;
    if Idle(l) { IdleControl(c, s, l); }
    IdleLabels(l);
    match l {
      case SendCommit(d, logs, groupSize, wants) =>
        CommitControl(c, s, d, Submission(logs, groupSize, if wants then Some(|s.owner|) else None));
      case MoverFlush(k) => SealControl(s, k);
      case MoverDrain(k) => SealControl(s, k);
      case MoverTake(out) => ReleaseControl(s, out);
      case MoverDrainRetry(out) => ReleaseControl(s, out);
      case MoverPut => PutControl(s);
      case PoolPop => PopControl(s);
      case PoolStart => StartControl(s);
      case SendOk(id) => FinaliseControl(s, id, AddSuccess(c, s.batches[id]), true);
      case SendFails(id, noRetry) => FailedControl(c, s, id, noRetry);
      case RetryPush(id) => PushControl(s, id);
      case _ =>
    }
  }

  /**
   * The mover has stopped, no sender is under way or can start, nothing waits for a retry or is about to,
   * and the pool has not just found the queue empty before the last task came.
   */
  ghost predicate Settled(s: State) {
    && s.mover.Stopped? && s.pending == 0 && RetryFlag(s)
    && s.acc == map[] && s.hand == [] && s.retry == multiset{} && s.failing == multiset{}
    && (s.pool.Taking? || s.queue == [])
  }

  lemma {:induction false} FailedSettled(c: Config, s: State, id: nat, noRetry: bool)
    requires Settled(s) && id < |s.batches|
    ensures Settled(SendFailed(c, s, id, noRetry))
  {
  }

  lemma {:induction false} StepSettled(c: Config, s: State, l: Label)
    requires Named(s) && Enabled(c, s, l) && Settled(s)
    ensures Settled(Apply(c, s, l))
  {
    if l.SendFails? { FailedSettled(c, s, l.failed, l.noRetry); }
    hide SendFailed, Commit;
  }

  /** Nothing is anywhere but among the finalised. */
  ghost predicate Finished(s: State) {
    && s.acc == map[] && s.queue == [] && s.held == None && s.hand == []
    && s.sending == multiset{} && s.failing == multiset{} && s.retry == multiset{}
  }

  lemma {:induction false} FinishedAllDone(s: State, id: nat)
    requires Placed(s) && Finished(s) && id < |s.batches|
    ensures s.done[id] == 1
  {
    assert Copies(s, id) == 1;
    hide GetKeyString;
  }

  /** Every batch begun after the mover's last look at the accumulator was sent off later on. */
  ghost predicate LateOnesSentOff(s: State) {
    forall id: nat :: s.mark <= id < |s.batches| ==> id in s.enq
  }

  /** After its last look the accumulator holds exactly the batches begun since and not sent off. */
  lemma {:induction false} OpenAreLate(s: State, id: nat)
    requires Enqueued(s) && MoverControl(s) && Drained(s) && id < |s.batches|
    ensures InAcc(s, id) == 1 <==> s.mark <= id && id !in s.enq
  {
    assert multiset(s.enq)[id] + InAcc(s, id) == 1;
    hide GetKeyString;
  }

  lemma {:induction false} EmptyIffSentOff(s: State)
    requires Placed(s) && Enqueued(s) && MoverControl(s) && Drained(s)
    ensures s.acc == map[] <==> LateOnesSentOff(s)
  {
    OpenCounted(s);
    AccInBatches(s);
    forall id: nat | id < |s.batches| ensures InAcc(s, id) == 1 <==> s.mark <= id && id !in s.enq {
      OpenAreLate(s, id);
    }
    NoneOpen(s);
    assert forall k :: k in s.acc ==> s.mark <= s.acc[k] < |s.batches| && s.acc[k] !in s.enq;
    if LateOnesSentOff(s) {
      assert s.acc.Keys == {};
    }
  }

  lemma {:induction false} AccInBatches(s: State)
    requires Placed(s)
    ensures forall k :: k in s.acc ==> s.acc[k] < |s.batches|
  {
  }

  lemma {:induction false} NoneOpen(s: State)
    ensures s.acc == map[] ==> forall id: nat :: InAcc(s, id) == 0
  {
    hide GetKeyString;
  }

  /**
   * When SafeClose returns, nothing is in flight, and what is left anywhere came too late: tasks added after
   * the pool's last look at the queue, batches pushed back after the mover's last look at the retry queue,
   * batches begun after its last look at the accumulator and not sent off since. Everything is finalised
   * exactly when there are none of these.
   */
  lemma {:induction false} ClosedExactly(s: State)
    requires Placed(s) && Enqueued(s) && Controlled(s) && s.close.Closed?
    ensures s.held == None && s.hand == [] && s.sending == multiset{} && s.failing == multiset{}
    ensures s.queue == s.lateAdds && s.retry == s.latePushes && (!s.lateCommit ==> s.acc == map[])
    ensures forall id: nat :: id < |s.batches| ==> (InAcc(s, id) == 1 <==> s.mark <= id && id !in s.enq)
    ensures (forall id: nat :: id < |s.batches| ==> s.done[id] == 1)
       <==> s.lateAdds == [] && s.latePushes == multiset{} && LateOnesSentOff(s)
  {
    EmptyIffSentOff(s);
    forall id: nat | id < |s.batches| ensures InAcc(s, id) == 1 <==> s.mark <= id && id !in s.enq {
      OpenAreLate(s, id);
    }
    if s.lateAdds == [] && s.latePushes == multiset{} && s.acc == map[] {
      forall id: nat | id < |s.batches| ensures s.done[id] == 1 { FinishedAllDone(s, id); }
    }
    if forall id: nat :: id < |s.batches| ==> s.done[id] == 1 {
      AllDoneFinished(s);
    }
  }

  lemma {:induction false} DoneNowhereElse(s: State, id: nat)
    requires Placed(s) && (id < |s.batches| ==> s.done[id] == 1)
    ensures InAcc(s, id) == 0 && multiset(s.queue)[id] == 0 && s.retry[id] == 0
  {
    assert Copies(s, id) == if id < |s.batches| then 1 else 0;
    hide InAcc;
  }

  lemma {:induction false} OpenCounted(s: State)
    requires Placed(s)
    ensures forall k :: k in s.acc ==> InAcc(s, s.acc[k]) == 1
  {
    hide Copies, GetKeyString;
  }

  lemma {:induction false} AllDoneFinished(s: State)
    requires Placed(s) && forall id: nat :: id < |s.batches| ==> s.done[id] == 1
    ensures s.acc == map[] && s.queue == [] && s.retry == multiset{}
  {
    OpenCounted(s);
    forall id: nat ensures InAcc(s, id) == 0 && multiset(s.queue)[id] == 0 && s.retry[id] == 0 {
      DoneNowhereElse(s, id);
    }
    hide InAcc, Placed;
    assert s.retry == multiset{};
    assert multiset(s.queue) == multiset{};
    assert |s.queue| == |multiset(s.queue)|;
    assert s.acc.Keys == {};
  }
}
