/** Batches cannot go round for ever: a measure falls at every step that carries one. */
module Progress {
  import opened Wire
  import opened ProducerRules
  import opened Pipeline
  import opened Placement
  import opened Attempts

  /** Retries a batch has left. */
  function Left(c: Config, b: Batch): nat {
    if b.attemptCount < MaxRetries(c) then MaxRetries(c) - b.attemptCount else 0
  }

  function Budget(c: Config, batches: seq<Batch>): nat {
    if batches == [] then 0 else Left(c, batches[0]) + Budget(c, batches[1..])
  }

  /** How far the batches still are from being finalised, stage by stage. */
  function Stages(s: State): nat {
    4 * |s.acc| + 3 * |s.queue| + 4 * |s.hand| + 2 * |HeldIds(s)| + Count(s.sending) + 6 * Count(s.failing)
      + 5 * Count(s.retry)
  }

  function Measure(c: Config, s: State): nat {
    Stages(s) + 6 * Budget(c, s.batches)
  }

  /** Steps that carry a batch on. */
  predicate Moves(l: Label) {
    match l
    case MoverTake(out) => out != []
    case MoverDrainRetry(out) => out != []
    case MoverFlush(_) => true
    case MoverDrain(_) => true
    case MoverPut => true
    case PoolPop => true
    case PoolStart => true
    case SendOk(_) => true
    case SendFails(_, _) => true
    case RetryPush(_) => true
    case _ => false
  }

  function Cost(l: Label): nat {
    if Moves(l) then 1 else 0
  }

  lemma {:induction false} BudgetUpdate(c: Config, batches: seq<Batch>, id: nat, b: Batch)
    requires id < |batches|
    ensures Budget(c, batches[id := b]) + Left(c, batches[id]) == Budget(c, batches) + Left(c, b)
  {
    if id > 0 {
      BudgetUpdate(c, batches[1..], id - 1, b);
      assert batches[id := b][1..] == batches[1..][id - 1 := b];
    } else {
      assert batches[0 := b][1..] == batches[1..];
    }
  }

  lemma {:induction false} BudgetAppend(c: Config, batches: seq<Batch>, b: Batch)
    ensures Budget(c, batches + [b]) == Budget(c, batches) + Left(c, b)
  {
    if batches == [] {
      assert batches + [b] == [b];
    } else {
      BudgetAppend(c, batches[1..], b);
      assert (batches + [b])[1..] == batches[1..] + [b];
    }
  }

  lemma {:induction false} TakeMany(m: multiset<nat>, out: seq<nat>)
    requires multiset(out) <= m
    ensures |m - multiset(out)| == |m| - |out|
  {
    assert m == (m - multiset(out)) + multiset(out);
    assert |multiset(out)| == |out|;
  }

  lemma {:induction false} OneKeyLess(m: map<string, nat>, k: string)
    requires k in m
    ensures |m - {k}| == |m| - 1
  {
    assert (m - {k}).Keys == m.Keys - {k};
    assert |m.Keys| == |m| && |(m - {k}).Keys| == |m - {k}|;
  }

  lemma {:induction false} OneKeyMore(m: map<string, nat>, k: string, n: nat)
    requires k !in m
    ensures |m[k := n]| == |m| + 1
  {
    assert m[k := n].Keys == m.Keys + {k};
    assert |m.Keys| == |m| && |m[k := n].Keys| == |m[k := n]|;
  }

  lemma {:induction false} SealMeasure(c: Config, s: State, k: string)
    requires k in s.acc
    ensures Measure(c, Seal(s, k)) + 1 == Measure(c, s)
  {
    OneKeyLess(s.acc, k);
  }

  lemma {:induction false} FinaliseMeasure(c: Config, s: State, id: nat, b: Batch, ok: bool)
    requires id in s.sending && id < |s.batches| && b.attemptCount >= s.batches[id].attemptCount
    ensures Measure(c, Finalise(s, id, b, ok)) < Measure(c, s)
  {
    TakeOne(s.sending, id);
    BudgetUpdate(c, s.batches, id, b);
  }

  lemma {:induction false} FailedMeasure(c: Config, s: State, id: nat, noRetry: bool)
    requires id in s.sending && id < |s.batches|
    ensures Measure(c, SendFailed(c, s, id, noRetry)) < Measure(c, s)
  {
    var v := OnError(c, s.batches[id], RetryFlag(s), noRetry);
    match v
    case Fail(b) => FinaliseMeasure(c, s, id, b, false);
    case Retry(b) =>
      TakeOne(s.sending, id);
      BudgetUpdate(c, s.batches, id, b);
      assert Left(c, b) + 1 == Left(c, s.batches[id]);
  }

  lemma {:induction false} IdleMeasure(c: Config, s: State, l: Label)
    requires Enabled(c, s, l) && Named(s) && Idle(l)
    ensures Measure(c, Apply(c, s, l)) == Measure(c, s)
  {
    hide Commit, Seal, Put, Pop, Start, Release, Finalise, SendFailed, PushBack, AddSuccess, Budget, Named;
  }

  lemma {:induction false} ReleaseMeasure(c: Config, s: State, out: seq<nat>)
    requires s.hand == [] && multiset(out) <= s.retry
    ensures Measure(c, Release(s, out)) + |out| == Measure(c, s)
  {
    TakeMany(s.retry, out);
  }

  /** The steps that carry one batch and touch nothing in it. */
  lemma {:induction false} CarryMeasure(c: Config, s: State)
    ensures s.hand != [] ==> Measure(c, Put(s)) < Measure(c, s)
    ensures s.queue != [] && s.held == None ==> Measure(c, Pop(s)) < Measure(c, s)
    ensures s.held.Some? && s.held.value < |s.sends| ==> Measure(c, Start(s)) < Measure(c, s)
  {
    hide Budget;
  }

  lemma {:induction false} PushMeasure(c: Config, s: State, id: nat)
    requires id in s.failing
    ensures Measure(c, PushBack(s, id)) < Measure(c, s)
  {
    TakeOne(s.failing, id);
  }

  lemma {:induction false} NamedIds(s: State, l: Label)
    requires Named(s)
    ensures l.SendOk? && l.sent in s.sending ==> l.sent < |s.batches|
    ensures l.SendFails? && l.failed in s.sending ==> l.failed < |s.batches|
    ensures s.held.Some? ==> s.held.value < |s.sends|
  {
  }

  lemma {:induction false} IdleIsFree(l: Label)
    ensures Idle(l) ==> Cost(l) == 0
  {
  }

  /** Every carrying step lowers the measure, and no step but an acceptance raises it. */
  lemma {:induction false} StepMeasure(c: Config, s: State, l: Label)
    requires Enabled(c, s, l) && Named(s) && !l.SendCommit?
    ensures Measure(c, Apply(c, s, l)) + Cost(l) <= Measure(c, s)
  {
    hide Named, HeldIds, Idle, Commit, Seal, Put, Pop, Start, Release, PushBack, Finalise, SendFailed, AddSuccess,
      Measure, MaxRetries;
    if Idle(l) { IdleMeasure(c, s, l); }
    CarryMeasure(c, s);
    NamedIds(s, l);
    IdleLabels(l);
    IdleIsFree(l);
    match l {
      case MoverFlush(k) => SealMeasure(c, s, k);
      case MoverDrain(k) => SealMeasure(c, s, k);
      case MoverTake(out) => ReleaseMeasure(c, s, out);
      case MoverDrainRetry(out) => ReleaseMeasure(c, s, out); SameMeasure(c, Release(s, out));
      case SendOk(id) => OkMeasure(c, s, id);
      case SendFails(id, noRetry) => FailedMeasure(c, s, id, noRetry);
      case RetryPush(id) => PushMeasure(c, s, id);
      case _ =>
    }
  }

  lemma {:induction false} SameMeasure(c: Config, s: State)
    ensures Measure(c, s.(mover := LastTasks, latePushes := multiset{})) == Measure(c, s)
  {
    hide Budget;
  }

  lemma {:induction false} OkMeasure(c: Config, s: State, id: nat)
    requires id in s.sending && id < |s.batches|
    ensures Measure(c, Finalise(s, id, AddSuccess(c, s.batches[id]), true)) < Measure(c, s)
  {
    FinaliseMeasure(c, s, id, AddSuccess(c, s.batches[id]), true);
  }

  /** An acceptance raises it by a fixed amount at most. */
  lemma {:induction false} CommitMeasure(c: Config, s: State, d: Destination, sub: Submission)
    requires Placed(s)
    ensures Measure(c, Commit(c, s, d, sub)) <= Measure(c, s) + 4 + 6 * MaxRetries(c)
  {
    var k, open := GetKeyString(d), OpenBatch(s, GetKeyString(d));
    AbsorbNames(c, open, d, sub);
    AbsorbTrial(c, open, d, sub);
    var r := Absorb(c, open, d, sub);
    assert open.Some? ==> k in s.acc && s.acc[k] < |s.batches| && open.value == s.batches[s.acc[k]];
    assert open.None? ==> k !in s.acc;
    hide Absorb, GetKeyString, Placed, MaxRetries, OpenBatch, Measure, Seal, Create, Rewrite, Accept;
    if open.None? {
      CreateMeasure(c, s, k, r.open.value);
      AcceptMeasure(c, Create(s, k, r.open.value), k, sub, |s.batches|);
    } else {
      var id := s.acc[k];
      var b := if r.sent.Some? then r.sent.value else r.open.value;
      RewriteMeasure(c, s, k, b);
      if r.sent.Some? { SealMeasure(c, Rewrite(s, id, b), k); }
      if r.sent.Some? && r.open.Some? {
        CreateMeasure(c, Seal(Rewrite(s, id, b), k), k, r.open.value);
        AcceptMeasure(c, Create(Seal(Rewrite(s, id, b), k), k, r.open.value), k, sub, |s.batches|);
      } else if r.sent.Some? {
        AcceptMeasure(c, Seal(Rewrite(s, id, b), k), k, sub, id);
      } else {
        AcceptMeasure(c, Rewrite(s, id, b), k, sub, id);
      }
    }
  }

  lemma {:induction false} RewriteMeasure(c: Config, s: State, k: string, b: Batch)
    requires k in s.acc && s.acc[k] < |s.batches| && b.attemptCount == s.batches[s.acc[k]].attemptCount
    ensures var t := Rewrite(s, s.acc[k], b);
            Measure(c, t) == Measure(c, s) && k in t.acc && k !in Seal(t, k).acc
  {
    BudgetUpdate(c, s.batches, s.acc[k], b);
    hide Budget;
  }

  lemma {:induction false} AcceptMeasure(c: Config, s: State, k: string, sub: Submission, id: nat)
    ensures Measure(c, Accept(s, k, sub.logs, sub.callback, id)) == Measure(c, s)
  {
    hide Budget;
  }

  lemma {:induction false} CreateMeasure(c: Config, s: State, k: string, b: Batch)
    requires k !in s.acc && b.attemptCount == 0
    ensures Measure(c, Create(s, k, b)) == Measure(c, s) + 4 + 6 * MaxRetries(c)
  {
    OneKeyMore(s.acc, k, |s.batches|);
    BudgetAppend(c, s.batches, b);
  }
}
