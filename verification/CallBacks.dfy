/** Every registered callback is called exactly once, with its batch's outcome, when the batch is finalised. */
module CallBacks {
  import opened Wire
  import opened ProducerRules
  import opened Pipeline
  import opened Placement

  predicate Lists(s: State, id: nat, c: nat) {
    id < |s.batches| && c in s.batches[id].callBackList
  }

  ghost predicate Owned(s: State) {
    && |s.fires| == |s.owner|
    && (forall c: nat :: c < |s.owner| ==>
          s.owner[c] < |s.batches| && multiset(s.batches[s.owner[c]].callBackList)[c] == 1)
    && (forall id: nat, c: nat :: Lists(s, id, c) ==> c < |s.owner| && s.owner[c] == id)
  }

  ghost predicate Called(s: State)
    requires Owned(s)
  {
    && (forall c: nat :: c < |s.owner| ==>
          s.fires[c] == if s.done[s.owner[c]] > 0 then [s.batches[s.owner[c]].successful] else [])
    && (forall id :: 0 <= id < |s.batches| && s.done[id] == 0 ==> !s.batches[id].successful)
  }

  ghost predicate CalledBack(s: State) {
    Owned(s) && Called(s)
  }

  ghost predicate SameCallBacks(s: State, t: State) {
    && |t.batches| == |s.batches| && t.owner == s.owner && t.fires == s.fires && t.done == s.done
    && (forall id :: 0 <= id < |s.batches| ==>
          t.batches[id].callBackList == s.batches[id].callBackList
          && t.batches[id].successful == s.batches[id].successful)
  }

  lemma {:induction false} SameKeeps(s: State, t: State)
    requires CalledBack(s) && SameCallBacks(s, t)
    ensures CalledBack(t)
  {
    forall i: nat, c: nat | Lists(t, i, c) ensures c < |t.owner| && t.owner[c] == i {
      assert Lists(s, i, c);
    }
    forall c: nat | c < |t.owner|
      ensures t.owner[c] < |t.batches| && multiset(t.batches[t.owner[c]].callBackList)[c] == 1
    {
      assert t.batches[t.owner[c]].callBackList == s.batches[s.owner[c]].callBackList;
    }
  }

  /** The list of calls made, for one callback. */
  lemma {:induction false} FireOnce(fires: seq<seq<bool>>, calls: seq<nat>, ok: bool, c: nat)
    requires c < |fires| && multiset(calls)[c] <= 1
    ensures Fire(fires, calls, ok)[c] == if multiset(calls)[c] == 1 then fires[c] + [ok] else fires[c]
    decreases |calls|
  {
    if calls != [] {
      Head(calls);
      var x := calls[0];
      FireOnce(if x >= |fires| then fires else fires[x := fires[x] + [ok]], calls[1..], ok, c);
    }
  }

  lemma {:induction false} FinaliseCalls(s: State, id: nat, b: Batch, ok: bool)
    requires CalledBack(s) && id < |s.batches| && s.done[id] == 0
    requires b.callBackList == s.batches[id].callBackList && (b.callBackList != [] ==> b.successful == ok)
    ensures CalledBack(Finalise(s, id, b, ok))
  {
    var t := Finalise(s, id, b, ok);
    forall i: nat, c: nat | Lists(t, i, c) ensures c < |t.owner| && t.owner[c] == i {
      assert Lists(s, i, c);
    }
    forall i | 0 <= i < |t.batches| && t.done[i] == 0 ensures !t.batches[i].successful {
      assert i != id && t.batches[i] == s.batches[i];
    }
    forall c: nat | c < |s.owner|
      ensures t.fires[c] == if t.done[s.owner[c]] > 0 then [t.batches[s.owner[c]].successful] else []
    {
      assert s.owner[c] != id ==> !Lists(s, id, c);
      assert multiset(b.callBackList)[c] == if s.owner[c] == id then 1 else 0;
      FireOnce(s.fires, b.callBackList, ok, c);
    }
  }

  lemma {:induction false} ExtendCalls(s: State, t: State, id: nat, b: Batch, callBack: Option<nat>)
    requires CalledBack(s) && id < |s.batches| && s.done[id] == 0
    requires t.batches == s.batches[id := b] && t.done == s.done && !b.successful
    requires callBack.Some? ==> callBack.value == |s.owner|
    requires b.callBackList == s.batches[id].callBackList + (if callBack.Some? then [callBack.value] else [])
    requires t.owner == s.owner + (if callBack.Some? then [id] else [])
    requires t.fires == s.fires + (if callBack.Some? then [[]] else [])
    ensures CalledBack(t)
  {
    forall i: nat, c: nat | Lists(t, i, c) ensures c < |t.owner| && t.owner[c] == i {
      assert Lists(s, i, c) || (i == id && callBack == Some(c));
    }
    forall c: nat | c < |t.owner|
      ensures t.owner[c] < |t.batches| && multiset(t.batches[t.owner[c]].callBackList)[c] == 1
    {
      if c == |s.owner| { assert !Lists(s, id, c); } else if s.owner[c] == id { assert t.batches[id] == b; }
    }
    ExtendCalled(s, t, id, b, callBack);
  }

  lemma {:induction false} ExtendCalled(s: State, t: State, id: nat, b: Batch, callBack: Option<nat>)
    requires Owned(s) && Called(s) && id < |s.batches| && s.done[id] == 0
    requires t.batches == s.batches[id := b] && t.done == s.done && !b.successful
    requires t.owner == s.owner + (if callBack.Some? then [id] else [])
    requires t.fires == s.fires + (if callBack.Some? then [[]] else [])
    requires Owned(t)
    ensures Called(t)
  {
    hide Lists;
    forall i | 0 <= i < |t.batches| && t.done[i] == 0 ensures !t.batches[i].successful {
      assert i == id || t.batches[i] == s.batches[i];
    }
  }

  lemma {:induction false} CreateCalls(s: State, t: State, b: Batch, callBack: Option<nat>)
    requires CalledBack(s) && s.done[|s.batches|] == 0
    requires t.batches == s.batches + [b] && t.done == s.done && !b.successful
    requires callBack.Some? ==> callBack.value == |s.owner|
    requires b.callBackList == if callBack.Some? then [callBack.value] else []
    requires t.owner == s.owner + (if callBack.Some? then [|s.batches|] else [])
    requires t.fires == s.fires + (if callBack.Some? then [[]] else [])
    ensures CalledBack(t)
  {
    forall i: nat, c: nat | Lists(t, i, c) ensures c < |t.owner| && t.owner[c] == i {
      assert Lists(s, i, c) || (i == |s.batches| && callBack == Some(c));
    }
    forall c: nat | c < |t.owner|
      ensures t.owner[c] < |t.batches| && multiset(t.batches[t.owner[c]].callBackList)[c] == 1
    {
      if c < |s.owner| { assert t.batches[t.owner[c]] == s.batches[s.owner[c]]; }
    }
    forall i | 0 <= i < |t.batches| && t.done[i] == 0 ensures !t.batches[i].successful {
      assert i == |s.batches| || t.batches[i] == s.batches[i];
    }
  }

  lemma {:induction false} QuietSame(c: Config, s: State, l: Label)
    requires Enabled(c, s, l) && Named(s) && Quiet(l)
    ensures SameCallBacks(s, Apply(c, s, l))
  {
    QuietBatches(c, s, l);
    hide Apply;
  }

  lemma {:induction false} FailedCalls(c: Config, s: State, id: nat, noRetry: bool)
    requires CalledBack(s) && id < |s.batches| && s.done[id] == 0
    ensures CalledBack(SendFailed(c, s, id, noRetry))
  {
    var b := s.batches[id];
    VerdictSame(c, b, RetryFlag(s), noRetry);
    VerdictFailed(c, b, RetryFlag(s), noRetry);
    hide OnError, Finalise, Owned, Called;
    match OnError(c, b, RetryFlag(s), noRetry)
    case Fail(x) => FinaliseCalls(s, id, x, false);
    case Retry(x) => SameKeeps(s, SendFailed(c, s, id, noRetry));
  }

  lemma {:induction false} VerdictFailed(c: Config, b: Batch, flag: bool, noRetry: bool)
    requires !b.successful
    ensures !OnError(c, b, flag, noRetry).b.successful
  {
  }

  /** What Absorb does to the lists of callbacks. */
  lemma {:induction false} AbsorbCalls(c: Config, open: Option<Batch>, d: Destination, sub: Submission)
    requires open.Some? ==> !open.value.successful
    ensures var r := Absorb(c, open, d, sub);
      && (r.open.Some? ==> !r.open.value.successful) && (r.sent.Some? ==> !r.sent.value.successful)
      && (open.None? || (r.open.Some? && r.sent.Some?) ==> r.open.Some? && r.open.value.callBackList == CallBacks(sub))
      && (open.Some? && r.open.Some? && r.sent.Some? ==> r.sent.value.callBackList == open.value.callBackList)
      && (open.Some? && r.open.Some? && r.sent.None?
        ==> r.open.value.callBackList == open.value.callBackList + CallBacks(sub))
      && (open.Some? && r.open.None? && r.sent.Some?
        ==> r.sent.value.callBackList == open.value.callBackList + CallBacks(sub))
  {
  }

  lemma {:induction false} OpenNotDone(s: State, k: string)
    requires Placed(s)
    ensures k in s.acc ==> s.done[s.acc[k]] == 0
    ensures s.done[|s.batches|] == 0
  {
    if k in s.acc { assert Copies(s, s.acc[k]) == 1; }
    assert Copies(s, |s.batches|) == 0;
  }

  /** The open batch goes, a new one comes. */
  lemma {:induction false} ReplaceCalls(s: State, k: string, sent: Batch, b: Batch, sub: Submission)
    requires CalledBack(s) && k in s.acc && s.acc[k] < |s.batches| && s.done[s.acc[k]] == 0 && s.done[|s.batches|] == 0
    requires sent.callBackList == s.batches[s.acc[k]].callBackList && !sent.successful
    requires b.callBackList == CallBacks(sub) && !b.successful
         && (sub.callback.Some? ==> sub.callback.value == |s.owner|)
    ensures CalledBack(
              Accept(Create(Seal(Rewrite(s, s.acc[k], sent), k), k, b), k, sub.logs, sub.callback, |s.batches|))
  {
    hide Owned, Lists, Called;
    var s1 := Rewrite(s, s.acc[k], sent);
    ExtendCalls(s, s1, s.acc[k], sent, None);
    SameKeeps(s1, Seal(s1, k));
    var t := Accept(Create(Seal(s1, k), k, b), k, sub.logs, sub.callback, |s.batches|);
    CreateCalls(Seal(s1, k), t, b, sub.callback);
  }

  lemma {:induction false} CommitCalls(c: Config, s: State, d: Destination, sub: Submission)
    requires CalledBack(s) && Placed(s)
    requires sub.callback.Some? ==> sub.callback.value == |s.owner|
    ensures CalledBack(Commit(c, s, d, sub))
  {
    var k, open := GetKeyString(d), OpenBatch(s, GetKeyString(d));
    OpenNotDone(s, k);
    AbsorbNames(c, open, d, sub);
    AbsorbCalls(c, open, d, sub);
    var r := Absorb(c, open, d, sub);
    var t := Commit(c, s, d, sub);
    assert open.Some? ==> k in s.acc && s.acc[k] < |s.batches| && open.value == s.batches[s.acc[k]];
    assert open.Some? ==> !open.value.successful;
    hide Absorb, GetKeyString, Owned, Lists, Placed, Called, OpenBatch;
    if open.None? {
      CreateCalls(s, t, r.open.value, sub.callback);
    } else if r.sent.Some? && r.open.Some? {
      ReplaceCalls(s, k, r.sent.value, r.open.value, sub);
    } else {
      ExtendCalls(s, t, s.acc[k], if r.sent.Some? then r.sent.value else r.open.value, sub.callback);
    }
  }

  lemma {:induction false} StepCalls(c: Config, s: State, l: Label)
    requires CalledBack(s) && Placed(s) && Named(s) && Enabled(c, s, l)
    ensures CalledBack(Apply(c, s, l))
  {
    hide CalledBack;
    match l
    case SendCommit(d, logs, groupSize, wants) =>
      CommitCalls(c, s, d, Submission(logs, groupSize, if wants then Some(|s.owner|) else None));
    case SendOk(id) =>
      SendingNotDone(s, id);
      FinaliseCalls(s, id, AddSuccess(c, s.batches[id]), true);
    case SendFails(id, noRetry) =>
      SendingNotDone(s, id);
      FailedCalls(c, s, id, noRetry);
    case _ =>
      QuietSame(c, s, l);
      SameKeeps(s, Apply(c, s, l));
  }

  lemma {:induction false} SendingNotDone(s: State, id: nat)
    requires Placed(s) && id in s.sending
    ensures id < |s.batches| && s.done[id] == 0
  {
    assert Copies(s, id) >= 1;
  }
}
