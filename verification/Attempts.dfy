/** How often a batch is sent, how many are sent at once, how large a batch grows. */
module Attempts {
  import opened Wire
  import opened ProducerRules
  import opened Pipeline
  import opened Placement

  /** Retries that are configured at all. */
  function MaxRetries(c: Config): nat {
    if c.retries > 0 then c.retries else 0
  }

  // --------------------------------------------------------------------- attempts

  /** Sends are counted by the attempts recorded, the one in flight apart, and bounded. */
  ghost predicate Tried(c: Config, s: State, id: nat) {
    id < |s.batches| && id < |s.sends| ==>
      var b := s.batches[id];
      && 0 <= b.attemptCount && Recorded(c, b) && s.sends[id] <= MaxRetries(c) + 1
      && (s.done[id] == 0 ==>
            && Reserved(c, b) && !b.successful
            && b.attemptCount <= MaxRetries(c) && s.sends[id] == b.attemptCount + s.sending[id])
  }

  lemma {:induction false} VerdictTried(c: Config, b: Batch, flag: bool, noRetry: bool)
    requires Validated(c) && Reserved(c, b) && !b.successful && 0 <= b.attemptCount <= MaxRetries(c)
    ensures var v := OnError(c, b, flag, noRetry);
            && 0 <= v.b.attemptCount && Reserved(c, v.b) && !v.b.successful && Recorded(c, v.b)
            && (v.Retry? ==> v.b.attemptCount == b.attemptCount + 1 <= MaxRetries(c))
  {
    ErrorsReserved(c, b, |b.callBackList|);
    ErrorReserved(c, b);
    RetryExactly(c, b, flag, noRetry);
    hide Reserved, Recorded, AddErrors, AddError;
    SuccessRecorded(c, OnError(c, b, flag, noRetry).b);
  }

  lemma {:induction false} FailedTried(c: Config, s: State, id: nat, noRetry: bool, i: nat)
    requires Validated(c) && Placed(s) && id in s.sending && id < |s.batches| && Tried(c, s, id) && Tried(c, s, i)
    ensures Tried(c, SendFailed(c, s, id, noRetry), i)
  {
    hide OnError, Placed, Reserved, Recorded, MaxRetries;
    SendingOnce(s, id);
    VerdictTried(c, s.batches[id], RetryFlag(s), noRetry);
    match OnError(c, s.batches[id], RetryFlag(s), noRetry)
    case Fail(b) => assert SendFailed(c, s, id, noRetry) == Finalise(s, id, b, false);
    case Retry(b) =>
  }

  lemma {:induction false} SendingOnce(s: State, id: nat)
    requires Placed(s) && id in s.sending
    ensures s.sending[id] == 1 && s.done[id] == 0 && |s.sends| == |s.batches|
  {
    assert Copies(s, id) <= 1;
    hide GetKeyString;
  }

  lemma {:induction false} OkTried(c: Config, s: State, id: nat, i: nat)
    requires Validated(c) && Placed(s) && id in s.sending && id < |s.batches| && Tried(c, s, id) && Tried(c, s, i)
    ensures Tried(c, Finalise(s, id, AddSuccess(c, s.batches[id]), true), i)
  {
    assert Copies(s, id) == 1;
    assert s.sending[id] == 1 && s.done[id] == 0;
    hide Copies, GetKeyString, Reserved, Recorded, Failures;
    SuccessRecorded(c, s.batches[id]);
  }

  lemma {:induction false} StartTried(c: Config, s: State, i: nat)
    requires Placed(s) && s.held.Some? && s.held.value < |s.sends| && Tried(c, s, i)
    ensures Tried(c, Start(s), i)
  {
    assert Copies(s, s.held.value) == 1;
    assert s.sending[s.held.value] == 0 && s.done[s.held.value] == 0;
    hide Copies, GetKeyString;
  }

  predicate SameTrial(b: Batch, x: Batch) {
    x.attemptCount == b.attemptCount && x.attemptList == b.attemptList && x.successful == b.successful
  }

  predicate NoTrial(b: Batch) {
    b.attemptCount == 0 && b.attemptList == [] && !b.successful
  }

  lemma {:induction false} AbsorbTrial(c: Config, open: Option<Batch>, d: Destination, sub: Submission)
    ensures var r := Absorb(c, open, d, sub);
      && (open.Some? && r.sent.Some? ==> SameTrial(open.value, r.sent.value))
      && (open.Some? && r.open.Some? && r.sent.None? ==> SameTrial(open.value, r.open.value))
      && (r.open.Some? && (open.None? || r.sent.Some?) ==> NoTrial(r.open.value))
  {
  }

  /** Accepting leaves the attempts of every batch alone; a new batch has none. */
  lemma {:induction false} CommitTrials(c: Config, s: State, d: Destination, sub: Submission, i: nat)
    requires Placed(s)
    ensures var t := Commit(c, s, d, sub);
      && t.done == s.done && t.sending == s.sending
      && (i < |s.batches| ==> i < |t.batches| && SameTrial(s.batches[i], t.batches[i]) && t.sends[i] == s.sends[i])
      && (|s.batches| <= i < |t.batches| && i < |t.sends| ==>
            i == |s.batches| && NoTrial(t.batches[i]) && t.sends[i] == 0)
  {
    var open := OpenBatch(s, GetKeyString(d));
    AbsorbNames(c, open, d, sub);
    AbsorbTrial(c, open, d, sub);
    hide Absorb, GetKeyString, Copies;
  }

  lemma {:induction false} TrialsKept(c: Config)
    requires c.maxReservedAttempts >= 0
    ensures forall b, x :: SameTrial(b, x) ==>
              (Reserved(c, b) <==> Reserved(c, x)) && (Recorded(c, b) <==> Recorded(c, x))
    ensures forall b :: NoTrial(b) ==> Reserved(c, b) && Recorded(c, b)
  {
    assert Failures(0) == [];
  }

  lemma {:induction false} CommitTried(c: Config, s: State, d: Destination, sub: Submission, i: nat)
    requires Validated(c) && Placed(s) && Tried(c, s, i)
    ensures Tried(c, Commit(c, s, d, sub), i)
  {
    CommitTrials(c, s, d, sub, i);
    TrialsKept(c);
    assert Copies(s, |s.batches|) == 0;
    assert s.sending[|s.batches|] == 0 && s.done[|s.batches|] == 0;
    hide Commit, GetKeyString, Copies, MaxRetries, Reserved, Recorded;
  }

  /** Steps that neither start nor finish an attempt. */
  lemma {:induction false} QuietTried(c: Config, s: State, l: Label, i: nat)
    requires Enabled(c, s, l) && Named(s) && Quiet(l) && !l.PoolStart? && Tried(c, s, i)
    ensures Tried(c, Apply(c, s, l), i)
  {
    QuietBatches(c, s, l);
    QuietSends(c, s, l);
    hide Apply, Enabled;
  }

  lemma {:induction false} QuietSends(c: Config, s: State, l: Label)
    requires Enabled(c, s, l) && Named(s) && Quiet(l) && !l.PoolStart?
    ensures Apply(c, s, l).sends == s.sends && Apply(c, s, l).sending == s.sending
  {
    hide Commit, Finalise, SendFailed, Named;
  }

  ghost predicate AllTried(c: Config, s: State) {
    forall i: nat :: Tried(c, s, i)
  }

  lemma {:induction false} StepTried(c: Config, s: State, l: Label)
    requires Validated(c) && Placed(s) && Named(s) && Enabled(c, s, l) && AllTried(c, s)
    ensures AllTried(c, Apply(c, s, l))
  {
    hide Tried, Validated, Placed, Commit, SendFailed, Finalise, Start;
    forall i: nat ensures Tried(c, Apply(c, s, l), i) {
      assert Tried(c, s, i);
      match l
      case SendCommit(d, logs, groupSize, wants) =>
        CommitTried(c, s, d, Submission(logs, groupSize, if wants then Some(|s.owner|) else None), i);
      case PoolStart => StartTried(c, s, i);
      case SendOk(id) => assert Tried(c, s, id); OkTried(c, s, id, i);
      case SendFails(id, noRetry) => assert Tried(c, s, id); FailedTried(c, s, id, noRetry, i);
      case _ => QuietTried(c, s, l, i);
    }
  }

  // ------------------------------------------------------------------------ slots

  ghost predicate Slotted(c: Config, s: State) {
    Count(s.sending) + Count(s.failing) <= c.maxIoWorkerCount
  }

  lemma {:induction false} TakeOne(m: multiset<nat>, x: nat)
    requires x in m
    ensures |m - multiset{x}| == |m| - 1
  {
    assert m == (m - multiset{x}) + multiset{x};
  }

  lemma {:induction false} FailedSlots(c: Config, s: State, id: nat, noRetry: bool)
    requires id in s.sending && id < |s.batches| && Slotted(c, s)
    ensures Slotted(c, SendFailed(c, s, id, noRetry))
  {
    TakeOne(s.sending, id);
    hide OnError;
  }

  lemma {:induction false} SameSlots(c: Config, s: State, l: Label)
    requires Enabled(c, s, l) && Named(s) && !l.PoolStart? && !l.SendOk? && !l.SendFails? && !l.RetryPush?
    ensures Apply(c, s, l).sending == s.sending && Apply(c, s, l).failing == s.failing
  {
    hide Finalise, SendFailed, Named, Absorb, GetKeyString;
  }

  lemma {:induction false} StepSlotted(c: Config, s: State, l: Label)
    requires Named(s) && Enabled(c, s, l) && Slotted(c, s)
    ensures Slotted(c, Apply(c, s, l))
  {
    hide SendFailed, Commit;
    match l
    case PoolStart =>
    case SendOk(id) => TakeOne(s.sending, id);
    case SendFails(id, noRetry) => FailedSlots(c, s, id, noRetry);
    case RetryPush(id) => TakeOne(s.failing, id);
    case _ => SameSlots(c, s, l);
  }

  // ------------------------------------------------------------------------- caps

  ghost predicate AllCapped(c: Config, s: State) {
    && (forall id: nat :: id < |s.batches| ==> Capped(c, s.batches[id]))
    && (forall k :: k in s.acc && s.acc[k] < |s.batches| ==> OpenCapped(c, s.batches[s.acc[k]]))
  }

  lemma {:induction false} CommitOpen(c: Config, s: State, d: Destination, sub: Submission, k: string)
    requires Placed(s) && k in Commit(c, s, d, sub).acc
    ensures var t := Commit(c, s, d, sub);
            && t.acc[k] < |t.batches|
            && (k != GetKeyString(d) ==> k in s.acc && t.batches[t.acc[k]] == s.batches[s.acc[k]])
            && (k == GetKeyString(d) ==> Absorb(c, OpenBatch(s, k), d, sub).open == Some(t.batches[t.acc[k]]))
  {
    AbsorbNames(c, OpenBatch(s, GetKeyString(d)), d, sub);
    hide Absorb, GetKeyString, Copies;
  }

  lemma {:induction false} OpenIsCapped(c: Config)
    ensures forall b :: OpenCapped(c, b) ==> Capped(c, b)
  {
  }

  lemma {:induction false} AccInRange(s: State)
    requires Placed(s)
    ensures forall k :: k in s.acc ==> s.acc[k] < |s.batches|
  {
  }

  lemma {:induction false} CommitCapped(c: Config, s: State, d: Destination, sub: Submission)
    requires Validated(c) && Placed(s) && AllCapped(c, s)
    ensures AllCapped(c, Commit(c, s, d, sub))
  {
    hide Absorb, GetKeyString, Commit, Capped, OpenCapped, Placed;
    var t := Commit(c, s, d, sub);
    AbsorbCapped(c, OpenBatch(s, GetKeyString(d)), d, sub);
    OpenIsCapped(c);
    AccInRange(s);
    CommitBatches(c, s, d, sub);
    forall id: nat | id < |t.batches| ensures Capped(c, t.batches[id]) {
      assert Touches(c, s, t, d, sub, id);
    }
    forall k | k in t.acc && t.acc[k] < |t.batches| ensures OpenCapped(c, t.batches[t.acc[k]]) {
      CommitOpen(c, s, d, sub, k);
    }
  }

  lemma {:induction false} AccShrinks(c: Config, s: State, l: Label)
    requires Named(s) && Enabled(c, s, l) && !l.SendCommit?
    ensures forall k :: k in Apply(c, s, l).acc ==> k in s.acc && Apply(c, s, l).acc[k] == s.acc[k]
  {
    if Carries(l) {
      CarriesKeeps(c, s, l);
      hide Apply, Enabled, Named;
    } else {
      hide Named;
    }
  }

  lemma {:induction false} ShrinkCapped(c: Config, s: State, t: State)
    requires AllCapped(c, s) && OnlyAttempts(s, t)
    requires forall k :: k in t.acc ==> k in s.acc && t.acc[k] == s.acc[k]
    ensures AllCapped(c, t)
  {
    forall id: nat | id < |t.batches| ensures Capped(c, t.batches[id]) {
      assert Capped(c, s.batches[id]);
    }
  }

  lemma {:induction false} StepCapped(c: Config, s: State, l: Label)
    requires Validated(c) && Placed(s) && Named(s) && Enabled(c, s, l) && AllCapped(c, s)
    ensures AllCapped(c, Apply(c, s, l))
  {
    hide AllCapped, Placed, Named, Validated, Commit;
    if l.SendCommit? {
      CommitCapped(c, s, l.d, Submission(l.logs, l.groupSize, if l.wantsCallback then Some(|s.owner|) else None));
    } else {
      StepBatches(c, s, l);
      AccShrinks(c, s, l);
      ShrinkCapped(c, s, Apply(c, s, l));
    }
  }
}
