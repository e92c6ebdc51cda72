/** Every batch the producer made is in exactly one place, whatever step comes next. */
module Placement {
  import opened Wire
  import opened ProducerRules
  import opened Pipeline

  // ------------------------------------------------------- every batch is somewhere, once

  function HeldIds(s: State): multiset<nat> {
    if s.held.Some? then multiset{s.held.value} else multiset{}
  }

  /** Every place but the accumulator. */
  function Elsewhere(s: State): multiset<nat> {
    multiset(s.queue) + multiset(s.hand) + HeldIds(s) + s.sending + s.failing + s.retry + s.done
  }

  function KeyOf(b: Batch): string {
    GetKeyString(b.destination)
  }

  /** How often the accumulator holds a batch; it can only be under the batch's own key. */
  function InAcc(s: State, id: nat): nat {
    if id < |s.batches| && KeyOf(s.batches[id]) in s.acc && s.acc[KeyOf(s.batches[id])] == id then 1 else 0
  }

  function Copies(s: State, id: nat): nat {
    InAcc(s, id) + Elsewhere(s)[id]
  }

  ghost predicate Placed(s: State) {
    && |s.sends| == |s.batches|
    && (forall k :: k in s.acc ==> s.acc[k] < |s.batches| && KeyOf(s.batches[s.acc[k]]) == k)
    && (forall id: nat :: Copies(s, id) == if id < |s.batches| then 1 else 0)
  }

  ghost predicate SameIdentity(s: State, t: State) {
    && t.acc == s.acc && |t.sends| == |s.sends| && |t.batches| == |s.batches|
    && (forall id :: 0 <= id < |s.batches| ==> t.batches[id].destination == s.batches[id].destination)
  }

  lemma {:induction false} PlacedNamed(s: State)
    requires Placed(s)
    ensures Named(s)
    ensures forall id: nat :: Elsewhere(s)[id] > 0 ==> id < |s.batches|
  {
    forall id: nat | Elsewhere(s)[id] > 0 ensures id < |s.batches| {
      assert Copies(s, id) > 0;
    }
    if s.held.Some? { assert Elsewhere(s)[s.held.value] > 0; }
    forall id | id in s.sending ensures id < |s.batches| { assert Elsewhere(s)[id] > 0; }
  }

  /** A step that only carries batches from one place to another, or changes their contents. */
  lemma {:induction false} MoveKeepsPlaced(s: State, t: State)
    requires Placed(s) && Elsewhere(t) == Elsewhere(s) && SameIdentity(s, t)
    ensures Placed(t)
  {
    hide Elsewhere, GetKeyString;
    forall id: nat ensures Copies(t, id) == if id < |t.batches| then 1 else 0 {
      assert Copies(s, id) == if id < |s.batches| then 1 else 0;
    }
  }

  lemma {:induction false} SealElsewhere(s: State, k: string)
    requires k in s.acc
    ensures Elsewhere(Seal(s, k)) == Elsewhere(s) + multiset{s.acc[k]}
  {
  }

  lemma {:induction false} SealPlaced(s: State, k: string)
    requires Placed(s) && k in s.acc
    ensures Placed(Seal(s, k))
  {
    hide Elsewhere, GetKeyString;
    SealElsewhere(s, k);
    var t := Seal(s, k);
    forall id: nat ensures Copies(t, id) == if id < |t.batches| then 1 else 0 {
      assert Copies(s, id) == if id < |s.batches| then 1 else 0;
    }
  }

  lemma {:induction false} CreateElsewhere(s: State, k: string, b: Batch)
    ensures Elsewhere(Create(s, k, b)) == Elsewhere(s)
  {
  }

  lemma {:induction false} CreatePlaced(s: State, k: string, b: Batch)
    requires Placed(s) && k !in s.acc && KeyOf(b) == k
    ensures Placed(Create(s, k, b))
  {
    hide Elsewhere, GetKeyString;
    CreateElsewhere(s, k, b);
    var t := Create(s, k, b);
    forall id: nat ensures Copies(t, id) == if id < |t.batches| then 1 else 0 {
      assert Copies(s, id) == if id < |s.batches| then 1 else 0;
    }
  }

  lemma {:induction false} Head(q: seq<nat>)
    requires q != []
    ensures multiset(q) == multiset(q[1..]) + multiset{q[0]}
  {
    assert q == [q[0]] + q[1..];
  }

  /** What Absorb may do, as far as names and destinations go. */
  lemma {:induction false} AbsorbNames(c: Config, open: Option<Batch>, d: Destination, sub: Submission)
    ensures open.None? ==> Absorb(c, open, d, sub) == Absorbed(Some(NewBatch(d, sub)), None)
    ensures open.Some? ==> (Absorb(c, open, d, sub).open.Some? || Absorb(c, open, d, sub).sent.Some?)
    ensures open.Some? && Absorb(c, open, d, sub).sent.Some?
         ==> Absorb(c, open, d, sub).sent.value.destination == open.value.destination
    ensures open.Some? && Absorb(c, open, d, sub).open.Some? && Absorb(c, open, d, sub).sent.None? ==>
              Absorb(c, open, d, sub).open.value.destination == open.value.destination
    ensures open.Some? && Absorb(c, open, d, sub).open.Some? && Absorb(c, open, d, sub).sent.Some? ==>
              Absorb(c, open, d, sub).open.value == NewBatch(d, sub)
  {
  }

  lemma {:induction false} CommitPlaced(c: Config, s: State, d: Destination, sub: Submission)
    requires Placed(s)
    ensures Placed(Commit(c, s, d, sub))
  {
    var k, open := GetKeyString(d), OpenBatch(s, GetKeyString(d));
    AbsorbNames(c, open, d, sub);
    var r := Absorb(c, open, d, sub);
    hide Absorb, GetKeyString, Copies, Elsewhere, InAcc;
    if open.None? {
      CreatePlaced(s, k, r.open.value);
      MoveAccept(Create(s, k, r.open.value), k, sub, |s.batches|);
    } else {
      var id := s.acc[k];
      var b := if r.sent.Some? then r.sent.value else r.open.value;
      RewritePlaced(s, id, b);
      var s1 := Rewrite(s, id, b);
      if r.sent.Some? { SealPlaced(s1, k); }
      if r.sent.Some? && r.open.Some? {
        CreatePlaced(Seal(s1, k), k, r.open.value);
        MoveAccept(Create(Seal(s1, k), k, r.open.value), k, sub, |s.batches|);
      } else if r.sent.Some? {
        MoveAccept(Seal(s1, k), k, sub, id);
      } else {
        MoveAccept(s1, k, sub, id);
      }
    }
  }

  lemma {:induction false} RewritePlaced(s: State, id: nat, b: Batch)
    requires Placed(s) && id < |s.batches| && b.destination == s.batches[id].destination
    ensures Placed(Rewrite(s, id, b))
  {
    MoveKeepsPlaced(s, Rewrite(s, id, b));
  }

  lemma {:induction false} MoveAccept(s: State, k: string, sub: Submission, id: nat)
    requires Placed(s)
    ensures Placed(Accept(s, k, sub.logs, sub.callback, id))
  {
    MoveKeepsPlaced(s, Accept(s, k, sub.logs, sub.callback, id));
  }

  /** Labels whose step neither opens nor seals a batch. */
  predicate Carries(l: Label) {
    !l.SendCommit? && !l.MoverFlush? && !l.MoverDrain?
  }

  /** Counts add up over the places. */
  function At(s: State, x: nat): nat {
    multiset(s.queue)[x] + multiset(s.hand)[x] + HeldIds(s)[x] + s.sending[x] + s.failing[x] + s.retry[x] + s.done[x]
  }

  lemma {:induction false} SamePlaces(s: State, t: State)
    requires forall x: nat :: At(t, x) == At(s, x)
    ensures Elsewhere(t) == Elsewhere(s)
  {
    forall x: nat ensures Elsewhere(t)[x] == Elsewhere(s)[x] {
      assert At(t, x) == At(s, x);
    }
  }

  lemma {:induction false} PutMoves(s: State)
    requires s.hand != []
    ensures Elsewhere(Put(s)) == Elsewhere(s) && SameIdentity(s, Put(s))
  {
    Head(s.hand);
    SamePlaces(s, Put(s));
  }

  lemma {:induction false} PopMoves(s: State)
    requires s.queue != [] && s.held == None
    ensures Elsewhere(Pop(s)) == Elsewhere(s) && SameIdentity(s, Pop(s))
  {
    Head(s.queue);
    SamePlaces(s, Pop(s));
  }

  lemma {:induction false} StartMoves(s: State)
    requires s.held.Some? && s.held.value < |s.sends|
    ensures Elsewhere(Start(s)) == Elsewhere(s) && SameIdentity(s, Start(s))
  {
    SamePlaces(s, Start(s));
  }

  lemma {:induction false} ReleaseMoves(s: State, out: seq<nat>)
    requires s.hand == [] && multiset(out) <= s.retry
    ensures Elsewhere(Release(s, out)) == Elsewhere(s) && SameIdentity(s, Release(s, out))
  {
    var t := Release(s, out);
    forall x: nat ensures At(t, x) == At(s, x) {
      assert s.retry[x] == multiset(out)[x] + t.retry[x];
    }
    SamePlaces(s, t);
  }

  lemma {:induction false} FinaliseMoves(s: State, id: nat, b: Batch, ok: bool)
    requires id in s.sending && id < |s.batches| && b.destination == s.batches[id].destination
    ensures Elsewhere(Finalise(s, id, b, ok)) == Elsewhere(s) && SameIdentity(s, Finalise(s, id, b, ok))
  {
    SamePlaces(s, Finalise(s, id, b, ok));
  }

  /** A failure changes only the record of attempts. */
  lemma {:induction false} VerdictSame(c: Config, b: Batch, flag: bool, noRetry: bool)
    ensures var r := OnError(c, b, flag, noRetry).b;
            r == b.(attemptList := r.attemptList, successful := r.successful, attemptCount := r.attemptCount)
  {
  }

  lemma {:induction false} FailedMoves(c: Config, s: State, id: nat, noRetry: bool)
    requires id in s.sending && id < |s.batches|
    ensures Elsewhere(SendFailed(c, s, id, noRetry)) == Elsewhere(s) && SameIdentity(s, SendFailed(c, s, id, noRetry))
  {
    VerdictSame(c, s.batches[id], RetryFlag(s), noRetry);
    hide OnError;
    match OnError(c, s.batches[id], RetryFlag(s), noRetry)
    case Fail(b) => FinaliseMoves(s, id, b, false);
    case Retry(b) => SamePlaces(s, SendFailed(c, s, id, noRetry));
  }

  lemma {:induction false} PushBackMoves(s: State, id: nat)
    requires id in s.failing
    ensures Elsewhere(PushBack(s, id)) == Elsewhere(s) && SameIdentity(s, PushBack(s, id))
  {
    SamePlaces(s, PushBack(s, id));
  }

  predicate Idle(l: Label) {
    l.SendBegin? || l.MoverStop? || l.MoverDrainEnd? || l.MoverExit? || l.PoolPopEmpty? || l.PoolCheck? || l.CloseNext?
  }

  lemma {:induction false} IdleLabels(l: Label)
    ensures Idle(l) || l.SendCommit? || l.MoverFlush? || l.MoverDrain? || l.MoverTake? || l.MoverDrainRetry?
         || l.MoverPut?
         || l.PoolPop? || l.PoolStart? || l.SendOk? || l.SendFails? || l.RetryPush?
  {
  }

  lemma {:induction false} IdleFrame(c: Config, s: State, l: Label)
    requires Enabled(c, s, l) && Named(s) && Idle(l)
    ensures var t := Apply(c, s, l);
            && t.acc == s.acc && t.queue == s.queue && t.hand == s.hand && t.held == s.held && t.sending == s.sending
            && t.failing == s.failing && t.retry == s.retry && t.done == s.done
            && t.sends == s.sends && t.batches == s.batches
  {
    hide Commit, Seal, Put, Pop, Start, Release, Finalise, SendFailed, PushBack, AddSuccess, Named;
  }

  /** A step that moves nothing. */
  lemma {:induction false} IdleMoves(c: Config, s: State, l: Label)
    requires Enabled(c, s, l) && Named(s) && Idle(l)
    ensures Elsewhere(Apply(c, s, l)) == Elsewhere(s) && SameIdentity(s, Apply(c, s, l))
  {
    hide Enabled, Apply, Idle, Named;
    IdleFrame(c, s, l);
  }

  /** Such a step takes batches from one place to another, or nowhere. */
  lemma {:induction false} CarriesOver(c: Config, s: State, l: Label)
    requires Enabled(c, s, l) && Named(s) && Carries(l)
    ensures Elsewhere(Apply(c, s, l)) == Elsewhere(s) && SameIdentity(s, Apply(c, s, l))
  {
    if Idle(l) { IdleMoves(c, s, l); }
    hide Commit, Seal, Put, Pop, Start, Release, Finalise, SendFailed, PushBack, AddSuccess, SameIdentity;
    match l {
      case MoverTake(out) => ReleaseMoves(s, out);
      case MoverPut => PutMoves(s);
      case MoverDrainRetry(out) => ReleaseMoves(s, out); SameThen(s, Release(s, out));
      case PoolPop => PopMoves(s);
      case PoolStart => StartMoves(s);
      case SendOk(id) => SuccessSame(c, s.batches[id]); FinaliseMoves(s, id, AddSuccess(c, s.batches[id]), true);
      case SendFails(id, noRetry) => FailedMoves(c, s, id, noRetry);
      case RetryPush(id) => PushBackMoves(s, id);
      case _ =>
    }
  }

  lemma {:induction false} SameThen(s: State, t: State)
    requires SameIdentity(s, t)
    ensures Elsewhere(t.(mover := LastTasks, latePushes := multiset{})) == Elsewhere(t)
    ensures SameIdentity(s, t.(mover := LastTasks, latePushes := multiset{}))
  {
  }

  lemma {:induction false} SuccessSame(c: Config, b: Batch)
    ensures AddSuccess(c, b).destination == b.destination
  {
  }

  lemma {:induction false} StepPlaced(c: Config, s: State, l: Label)
    requires Placed(s) && Named(s) && Enabled(c, s, l)
    ensures Placed(Apply(c, s, l))
  {
    if Carries(l) {
      CarriesOver(c, s, l);
      hide *;
      MoveKeepsPlaced(s, Apply(c, s, l));
    } else {
      match l
      case SendCommit(d, logs, groupSize, wants) =>
        CommitPlaced(c, s, d, Submission(logs, groupSize, if wants then Some(|s.owner|) else None));
      case MoverFlush(k) => SealPlaced(s, k);
      case MoverDrain(k) => SealPlaced(s, k);
    }
  }

  /** Accepting a submission touches the open batch of its key, and may add one. */
  ghost predicate Touches(c: Config, s: State, t: State, d: Destination, sub: Submission, id: nat)
    requires id < |t.batches|
  {
    var k := GetKeyString(d);
    var r := Absorb(c, OpenBatch(s, k), d, sub);
    || (id < |s.batches| && t.batches[id] == s.batches[id])
    || (r.open.Some? && t.batches[id] == r.open.value)
    || (r.sent.Some? && t.batches[id] == r.sent.value)
  }

  lemma {:induction false} CommitBatches(c: Config, s: State, d: Destination, sub: Submission)
    requires Placed(s)
    ensures var t := Commit(c, s, d, sub);
            forall id: nat :: id < |t.batches| ==> Touches(c, s, t, d, sub, id)
  {
    AbsorbNames(c, OpenBatch(s, GetKeyString(d)), d, sub);
    hide GetKeyString, Absorb;
  }

  /** Steps other than accepting and finishing do not touch a batch. */
  predicate Quiet(l: Label) {
    !l.SendCommit? && !l.SendOk? && !l.SendFails?
  }

  lemma {:induction false} QuietBatches(c: Config, s: State, l: Label)
    requires Enabled(c, s, l) && Named(s) && Quiet(l)
    ensures var t := Apply(c, s, l);
            t.batches == s.batches && t.owner == s.owner && t.fires == s.fires && t.done == s.done
  {
    hide Commit, Finalise, SendFailed, Named;
  }

  /** An attempt that ends changes what is recorded of attempts, and nothing else in the batch. */
  ghost predicate OnlyAttempts(s: State, t: State) {
    && |t.batches| == |s.batches|
    && (forall id :: 0 <= id < |s.batches| ==>
          var b := t.batches[id];
          b == s.batches[id].(attemptList := b.attemptList, successful := b.successful, attemptCount := b.attemptCount))
  }

  lemma {:induction false} FailedBatches(c: Config, s: State, id: nat, noRetry: bool)
    requires id < |s.batches|
    ensures OnlyAttempts(s, SendFailed(c, s, id, noRetry))
  {
    hide OnError;
    VerdictSame(c, s.batches[id], RetryFlag(s), noRetry);
  }

  lemma {:induction false} StepBatches(c: Config, s: State, l: Label)
    requires Enabled(c, s, l) && Named(s) && !l.SendCommit?
    ensures OnlyAttempts(s, Apply(c, s, l))
  {
    hide SendFailed, Commit, Seal, Put, Pop, Start, Release, PushBack;
    if Quiet(l) {
      QuietBatches(c, s, l);
    } else if l.SendFails? {
      FailedBatches(c, s, l.failed, l.noRetry);
    }
  }

  lemma {:induction false} FailedKeeps(c: Config, s: State, id: nat, noRetry: bool)
    requires id < |s.batches|
    ensures var t := SendFailed(c, s, id, noRetry); t.enq == s.enq && t.acc == s.acc && t.accepted == s.accepted
  {
    hide OnError, Fire;
  }

  lemma {:induction false} CarriesKeeps(c: Config, s: State, l: Label)
    requires Enabled(c, s, l) && Named(s) && Carries(l)
    ensures Apply(c, s, l).enq == s.enq && Apply(c, s, l).acc == s.acc && Apply(c, s, l).accepted == s.accepted
  {
    hide Commit, Seal, SendFailed, Fire, AddSuccess, Count, NextClose, HeldIds;
    match l {
      case SendFails(id, noRetry) => FailedKeeps(c, s, id, noRetry);
      case _ =>
    }
  }
}
