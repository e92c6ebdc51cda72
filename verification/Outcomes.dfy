/** What becomes of a batch once the service has answered, and of submissions once SafeClose has begun. */
module Outcomes {
  import opened Wire
  import opened ProducerRules
  import opened Pipeline
  import opened Placement
  import opened CallBacks
  import opened Attempts
  import opened ProducerRuns

  /** The batch is finalised, with this outcome. */
  predicate Final(s: State, id: nat, ok: bool) {
    id < |s.batches| && s.done[id] == 1 && s.batches[id].successful == ok
  }

  // -------------------------------------------------------------- final is final

  lemma {:induction false} DoneIsNowhere(s: State, id: nat)
    requires Placed(s) && s.done[id] == 1
    ensures id !in s.sending && s.held != Some(id) && forall k :: k in s.acc ==> s.acc[k] != id
  {
    OpenOnce(s);
    assert Copies(s, id) <= 1;
    hide GetKeyString, InAcc;
    assert s.held == Some(id) ==> HeldIds(s)[id] == 1;
  }

  lemma {:induction false} OpenOnce(s: State)
    requires Placed(s)
    ensures forall k :: k in s.acc ==> InAcc(s, s.acc[k]) == 1
  {
    hide Copies, GetKeyString;
  }

  predicate SameFinal(s: State, t: State, id: nat) {
    && id < |s.batches| && id < |t.batches| && id < |s.sends| && id < |t.sends|
    && t.batches[id] == s.batches[id] && t.sends[id] == s.sends[id] && t.done[id] == s.done[id]
  }

  lemma {:induction false} CommitFinal(c: Config, s: State, d: Destination, sub: Submission, id: nat)
    requires Placed(s) && id < |s.batches| && forall k :: k in s.acc ==> s.acc[k] != id
    ensures SameFinal(s, Commit(c, s, d, sub), id)
  {
    hide Absorb, GetKeyString, Copies;
    AbsorbNames(c, OpenBatch(s, GetKeyString(d)), d, sub);
  }

  lemma {:induction false} AnswerFinal(c: Config, s: State, other: nat, noRetry: bool, id: nat)
    requires Named(s) && id < |s.batches| && other < |s.batches| && other != id
    ensures SameFinal(s, SendFailed(c, s, other, noRetry), id)
    ensures SameFinal(s, Finalise(s, other, AddSuccess(c, s.batches[other]), true), id)
  {
    hide OnError, Fire, AddSuccess;
  }

  lemma {:induction false} StepFinal(c: Config, s: State, l: Label, id: nat)
    requires Placed(s) && Named(s) && Enabled(c, s, l) && id < |s.batches| && s.done[id] == 1
    ensures SameFinal(s, Apply(c, s, l), id)
  {
    hide Placed, SendFailed, Finalise, Commit, AddSuccess;
    DoneIsNowhere(s, id);
    match l
    case SendCommit(d, logs, groupSize, wants) =>
      CommitFinal(c, s, d, Submission(logs, groupSize, if wants then Some(|s.owner|) else None), id);
    case SendOk(other) => AnswerFinal(c, s, other, false, id);
    case SendFails(other, noRetry) => AnswerFinal(c, s, other, noRetry, id);
    case PoolStart =>
    case _ => QuietFinal(c, s, l, id);
  }

  lemma {:induction false} QuietFinal(c: Config, s: State, l: Label, id: nat)
    requires Named(s) && Enabled(c, s, l) && Quiet(l) && !l.PoolStart? && id < |s.batches|
    ensures SameFinal(s, Apply(c, s, l), id)
  {
    hide Enabled, Apply;
    QuietBatches(c, s, l);
    QuietSends(c, s, l);
  }

  /** A finalised batch stays as it is: it is never sent, changed or finalised again. */
  lemma {:induction false} RunFinal(c: Config, s: State, ls: seq<Label>, t: State, id: nat)
    requires Validated(c) && Inv(c, s) && After(c, s, ls) == Some(t) && id < |s.batches| && s.done[id] == 1
    ensures SameFinal(s, t, id)
    decreases |ls|
  {
    InvPlaced(c, s);
    hide Inv, Apply, Enabled, Placed;
    if ls != [] {
      StepInv(c, s, ls[0]);
      StepFinal(c, s, ls[0], id);
      RunFinal(c, Apply(c, s, ls[0]), ls[1..], t, id);
    }
  }

  // --------------------------------------------------------------- the outcomes

  /** Wherever the run goes from t on, the batch is not sent again, and its callbacks have been called once, with ok. */
  ghost predicate SettledAs(c: Config, t: State, id: nat, ok: bool) {
    forall ls, u :: After(c, t, ls) == Some(u) ==>
      && id < |u.sends| && id < |t.sends| && u.sends[id] == t.sends[id] && u.done[id] == 1
      && |u.fires| == |u.owner|
      && forall k: nat :: k < |u.owner| && u.owner[k] == id ==> u.fires[k] == [ok]
  }

  lemma {:induction false} FinalSettles(c: Config, t: State, id: nat, ok: bool)
    requires Validated(c) && Inv(c, t) && Final(t, id, ok)
    ensures SettledAs(c, t, id, ok)
  {
    hide Inv, After;
    forall ls, u | After(c, t, ls) == Some(u)
      ensures id < |u.sends| && id < |t.sends| && u.sends[id] == t.sends[id] && u.done[id] == 1
      ensures |u.fires| == |u.owner|
      ensures forall k: nat :: k < |u.owner| && u.owner[k] == id ==> u.fires[k] == [ok]
    {
      RunInv(c, t, ls, u);
      RunFinal(c, t, ls, u, id);
      FinalFires(c, t, u, id, ok);
    }
  }

  lemma {:induction false} FinalFires(c: Config, t: State, u: State, id: nat, ok: bool)
    requires Inv(c, u) && Final(t, id, ok) && SameFinal(t, u, id)
    ensures |u.fires| == |u.owner| && u.sends[id] == t.sends[id] && u.done[id] == 1
    ensures forall k: nat :: k < |u.owner| && u.owner[k] == id ==> u.fires[k] == [ok]
  {
    hide Placed, AllTried, AllCapped;
  }

  /** A delivered batch is finalised, never sent again, and its callbacks are told of the success, once. */
  lemma {:induction false} DeliveredIsFinal(c: Config, ls: seq<Label>, s: State, id: nat)
    requires Validated(c) && After(c, INIT, ls) == Some(s) && id in s.sending
    ensures Enabled(c, s, SendOk(id)) && Named(s)
    ensures SettledAs(c, Apply(c, s, SendOk(id)), id, true)
  {
    hide After, SettledAs, Inv, Apply;
    Reaches(c, ls, s);
    StepInv(c, s, SendOk(id)) by { InvPlaced(c, s); }
    InvPlaced(c, s);
    SentFinal(c, s, id);
    FinalSettles(c, Apply(c, s, SendOk(id)), id, true);
  }

  lemma {:induction false} SentFinal(c: Config, s: State, id: nat)
    requires Placed(s) && Named(s) && id in s.sending
    ensures Final(Apply(c, s, SendOk(id)), id, true)
  {
    SendingOnce(s, id);
    hide Placed;
  }

  /** The answer to a refused batch, in the state it comes to. */
  lemma {:induction false} RefusedFinal(c: Config, s: State, id: nat, noRetry: bool)
    requires Placed(s) && Named(s) && Tried(c, s, id) && id in s.sending
    ensures var t := Apply(c, s, SendFails(id, noRetry));
            && (Final(t, id, false) <==> RetryFlag(s) || noRetry || s.sends[id] > MaxRetries(c))
            && (Final(t, id, false) <==> id !in t.failing)
  {
    SendingOnce(s, id);
    RetryExactly(c, s.batches[id], RetryFlag(s), noRetry);
    FailingElsewhere(s, id);
    hide Placed, OnError, Fire, Recorded, Reserved;
  }

  lemma {:induction false} FailingElsewhere(s: State, id: nat)
    requires Placed(s) && id in s.sending
    ensures s.failing[id] == 0
  {
    assert Copies(s, id) <= 1;
    hide GetKeyString;
  }

  /**
   * A refused batch is given up exactly on shutdown, on an answer that forbids retrying, or when it has been sent once
   * and retried as often as configured; then it is never sent again and its callbacks are told of the failure, once.
   * Otherwise it is on its way to the retry queue.
   */
  lemma {:induction false} GivenUpExactly(c: Config, ls: seq<Label>, s: State, id: nat, noRetry: bool)
    requires Validated(c) && After(c, INIT, ls) == Some(s) && id in s.sending
    ensures Enabled(c, s, SendFails(id, noRetry)) && Named(s) && id < |s.sends|
    ensures var t := Apply(c, s, SendFails(id, noRetry));
            && (id !in t.failing <==> RetryFlag(s) || noRetry || s.sends[id] > MaxRetries(c))
            && (id !in t.failing ==> SettledAs(c, t, id, false))
  {
    hide After, SettledAs, Inv, Apply, Tried, Placed;
    Reaches(c, ls, s);
    InvPlaced(c, s);
    InvTried(c, s, id);
    StepInv(c, s, SendFails(id, noRetry));
    RefusedFinal(c, s, id, noRetry);
    var t := Apply(c, s, SendFails(id, noRetry));
    if id !in t.failing { FinalSettles(c, t, id, false); }
  }

  lemma {:induction false} InvTried(c: Config, s: State, id: nat)
    requires Inv(c, s)
    ensures Tried(c, s, id) && |s.sends| == |s.batches|
  {
    hide Tried;
  }

  // -------------------------------------------------------- after the second flag

  /** Once the accumulator's flag is set only senders already past it are still accepted: as many as were pending. */
  lemma {:induction false} OnlyPendingAccepted(c: Config, s: State, ls: seq<Label>, t: State)
    requires AccFlag(s) && After(c, s, ls) == Some(t)
    ensures Commits(ls) + t.pending == s.pending && AccFlag(t)
    decreases |ls|
  {
    hide Apply, Enabled;
    if ls != [] {
      StepPending(c, s, ls[0]);
      OnlyPendingAccepted(c, Apply(c, s, ls[0]), ls[1..], t);
    }
  }

  lemma {:induction false} StepPending(c: Config, s: State, l: Label)
    requires Named(s) && Enabled(c, s, l) && AccFlag(s)
    ensures Apply(c, s, l).pending + (if l.SendCommit? then 1 else 0) == s.pending && AccFlag(Apply(c, s, l))
  {
    hide Commit, OnError, AddSuccess, Fire;
    if l.SendCommit? {
      CommitPending(c, s, l.d, Submission(l.logs, l.groupSize, if l.wantsCallback then Some(|s.owner|) else None));
    }
  }

  lemma {:induction false} CommitPending(c: Config, s: State, d: Destination, sub: Submission)
    requires s.pending > 0
    ensures Commit(c, s, d, sub).pending == s.pending - 1 && Commit(c, s, d, sub).close == s.close
  {
    hide Absorb, GetKeyString;
    AbsorbNames(c, OpenBatch(s, GetKeyString(d)), d, sub);
  }
}
