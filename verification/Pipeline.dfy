/**
 * The running producer as a state machine: senders, mover, pool, workers and SafeClose interleave,
 * each lock-protected section or single atomic load or store being one step.
 */
module Pipeline {
  import opened Wire
  import opened ProducerRules

  datatype MoverPc = Looping | DrainingAcc | DrainingRetry | LastTasks | Stopped
  datatype PoolPc = Taking | SawEmpty | Exited

  /** How far SafeClose has come: which flags it has stored, what it has waited for. */
  datatype ClosePc = NotClosing | MoverTold | AccTold | RetryTold | PoolTold | PoolGone | Closed

  datatype Accepted = Accepted(key: string, logs: seq<LogItem>)

  /**
   * Batches are named by the order of their creation. acc, queue, held (popped, waiting for a free slot),
   * sending, failing (to be retried, not yet pushed), retry, hand (released by the retry queue, not yet
   * queued) and done are where they can be.
   * owner and fires: for every callback its batch, and the outcomes it has been called with.
   * pending: senders past the shutdown check.
   * The rest is history: what was accepted, first-time enqueues, first-time pops, sends per batch,
   * tasks queued since the pool last found the queue empty, batches pushed back after the mover's last
   * look at the retry queue, whether anything was accepted after its last look at the accumulator, and
   * how many batches there were at that look.
   */
  datatype State = State(
    batches: seq<Batch>, acc: map<string, nat>, queue: seq<nat>, held: Option<nat>,
    sending: multiset<nat>, failing: multiset<nat>, retry: multiset<nat>, hand: seq<nat>, done: multiset<nat>,
    owner: seq<nat>, fires: seq<seq<bool>>, pending: nat,
    mover: MoverPc, pool: PoolPc, close: ClosePc,
    accepted: seq<Accepted>, enq: seq<nat>, started: seq<nat>, sends: seq<nat>,
    lateAdds: seq<nat>, latePushes: multiset<nat>, lateCommit: bool, mark: nat)

  const INIT := State([], map[], [], None, multiset{}, multiset{}, multiset{}, [], multiset{}, [], [], 0,
                      Looping, Taking, NotClosing, [], [], [], [], [], multiset{}, false, 0)

  predicate MoverFlag(s: State) { !s.close.NotClosing? }
  predicate AccFlag(s: State) { MoverFlag(s) && !s.close.MoverTold? }
  predicate RetryFlag(s: State) { AccFlag(s) && !s.close.AccTold? }
  predicate PoolFlag(s: State) { RetryFlag(s) && !s.close.RetryTold? }

  datatype Label =
    | SendBegin
    | SendCommit(d: Destination, logs: seq<LogItem>, groupSize: nat, wantsCallback: bool)
    | MoverFlush(key: string)
    | MoverTake(out: seq<nat>)
    | MoverPut
    | MoverStop
    | MoverDrain(drained: string)
    | MoverDrainEnd
    | MoverDrainRetry(all: seq<nat>)
    | MoverExit
    | PoolPop
    | PoolPopEmpty
    | PoolCheck
    | PoolStart
    | SendOk(sent: nat)
    | SendFails(failed: nat, noRetry: bool)
    | RetryPush(pushed: nat)
    | CloseNext

  // -------------------------------------------------------------------- the steps

  function Count(m: multiset<nat>): nat { |m| }

  predicate Enabled(c: Config, s: State, l: Label) {
    match l
    case SendBegin => !AccFlag(s)
    case SendCommit(d, logs, _, _) => s.pending > 0 && !s.mover.DrainingAcc?
    case MoverFlush(k) => s.mover.Looping? && s.hand == [] && k in s.acc
    case MoverTake(out) => s.mover.Looping? && s.hand == [] && multiset(out) <= s.retry
    case MoverPut => s.hand != []
    case MoverStop => s.mover.Looping? && s.hand == [] && MoverFlag(s)
    case MoverDrain(k) => s.mover.DrainingAcc? && k in s.acc
    case MoverDrainEnd => s.mover.DrainingAcc? && s.acc == map[]
    case MoverDrainRetry(out) => s.mover.DrainingRetry? && s.hand == [] && multiset(out) == s.retry
    case MoverExit => s.mover.LastTasks? && s.hand == []
    case PoolPop => s.pool.Taking? && s.held == None && s.queue != []
    case PoolPopEmpty => s.pool.Taking? && s.held == None && s.queue == []
    case PoolCheck => s.pool.SawEmpty?
    case PoolStart => s.held.Some? && Count(s.sending) + Count(s.failing) < c.maxIoWorkerCount
    case SendOk(id) => id in s.sending
    case SendFails(id, _) => id in s.sending
    case RetryPush(id) => id in s.failing
    case CloseNext =>
      && !s.close.Closed?
      && (s.close.RetryTold? ==> s.mover.Stopped?)
      && (s.close.PoolTold? ==> s.pool.Exited?)
      && (s.close.PoolGone? ==> s.sending == multiset{} && s.failing == multiset{})
  }

  /** `addTask` */
  function AddTask(s: State, id: nat): State {
    s.(queue := s.queue + [id], lateAdds := if s.pool.Taking? then s.lateAdds else s.lateAdds + [id])
  }

  function AddFirst(s: State, id: nat): State {
    AddTask(s.(enq := s.enq + [id]), id)
  }

  /** `innerSendToServer`, and what the mover does with a batch that lingered long enough. */
  function Seal(s: State, k: string): State
    requires k in s.acc
  {
    AddFirst(s.(acc := s.acc - {k}), s.acc[k])
  }

  function Rewrite(s: State, id: nat, b: Batch): State
    requires id < |s.batches|
  {
    s.(batches := s.batches[id := b])
  }

  /** `createNewProducerBatch` */
  function Create(s: State, k: string, b: Batch): State {
    s.(batches := s.batches + [b], acc := s.acc[k := |s.batches|], sends := s.sends + [0])
  }

  function OpenBatch(s: State, k: string): Option<Batch> {
    if k in s.acc && s.acc[k] < |s.batches| then Some(s.batches[s.acc[k]]) else None
  }

  function Accept(s: State, k: string, logs: seq<LogItem>, callBack: Option<nat>, id: nat): State {
    s.(accepted := s.accepted + [Accepted(k, logs)], pending := if s.pending > 0 then s.pending - 1 else 0,
       owner := if callBack.Some? then s.owner + [id] else s.owner,
       fires := if callBack.Some? then s.fires + [[]] else s.fires,
       lateCommit := s.lateCommit || s.mover.DrainingRetry? || s.mover.LastTasks? || s.mover.Stopped?)
  }

  function Commit(c: Config, s: State, d: Destination, sub: Submission): State {
    var k := GetKeyString(d);
    var r := Absorb(c, OpenBatch(s, k), d, sub);
    var n := |s.batches|;
    if OpenBatch(s, k).None? then Accept(Create(s, k, r.open.value), k, sub.logs, sub.callback, n)
    else
      var id := s.acc[k];
      match r
      case Absorbed(None, Some(b)) => Accept(Seal(Rewrite(s, id, b), k), k, sub.logs, sub.callback, id)
      case Absorbed(Some(b), None) => Accept(Rewrite(s, id, b), k, sub.logs, sub.callback, id)
      case Absorbed(Some(b), Some(old_)) =>
        Accept(Create(Seal(Rewrite(s, id, old_), k), k, b), k, sub.logs, sub.callback, n)
      case Absorbed(None, None) => s
  }

  /** Every callback of the list is called, in order. */
  function Fire(fires: seq<seq<bool>>, calls: seq<nat>, ok: bool): (r: seq<seq<bool>>)
    ensures |r| == |fires|
    decreases |calls|
  {
    if calls == [] then fires
    else if calls[0] >= |fires| then Fire(fires, calls[1..], ok)
    else Fire(fires[calls[0] := fires[calls[0]] + [ok]], calls[1..], ok)
  }

  function Finalise(s: State, id: nat, b: Batch, ok: bool): State
    requires id < |s.batches|
  {
    s.(batches := s.batches[id := b], sending := s.sending - multiset{id}, done := s.done + multiset{id},
       fires := Fire(s.fires, b.callBackList, ok))
  }

  function SendFailed(c: Config, s: State, id: nat, noRetry: bool): State
    requires id < |s.batches|
  {
    match OnError(c, s.batches[id], RetryFlag(s), noRetry)
    case Fail(b) => Finalise(s, id, b, false)
    case Retry(b) => Rewrite(s.(sending := s.sending - multiset{id}, failing := s.failing + multiset{id}), id, b)
  }

  /** `sendToRetryQueue` */
  function PushBack(s: State, id: nat): State {
    s.(failing := s.failing - multiset{id}, retry := s.retry + multiset{id},
       latePushes := if s.mover.LastTasks? || s.mover.Stopped? then s.latePushes + multiset{id} else s.latePushes)
  }

  /** `popTask` */
  function Pop(s: State): State
    requires s.queue != []
  {
    var x := s.queue[0];
    s.(queue := s.queue[1..], held := Some(x), started := if x in s.started then s.started else s.started + [x])
  }

  /** `startSendTask`, once a slot is free. */
  function Start(s: State): State
    requires s.held.Some? && s.held.value < |s.sends|
  {
    var id := s.held.value;
    s.(held := None, sending := s.sending + multiset{id}, sends := s.sends[id := s.sends[id] + 1])
  }

  function Release(s: State, out: seq<nat>): State {
    s.(hand := out, retry := s.retry - multiset(out))
  }

  function Put(s: State): State
    requires s.hand != []
  {
    AddTask(s.(hand := s.hand[1..]), s.hand[0])
  }

  function NextClose(p: ClosePc): ClosePc {
    match p
    case NotClosing => MoverTold
    case MoverTold => AccTold
    case AccTold => RetryTold
    case RetryTold => PoolTold
    case PoolTold => PoolGone
    case PoolGone => Closed
    case Closed => Closed
  }

  /** Batches named anywhere exist; Apply needs no more. */
  predicate Named(s: State) {
    && |s.sends| == |s.batches|
    && (s.held.Some? ==> s.held.value < |s.batches|)
    && (forall id :: id in s.sending ==> id < |s.batches|)
  }

  function Apply(c: Config, s: State, l: Label): State
    requires Enabled(c, s, l) && Named(s)
  {
    match l
    case SendBegin => s.(pending := s.pending + 1)
    case SendCommit(d, logs, groupSize, wants) =>
      Commit(c, s, d, Submission(logs, groupSize, if wants then Some(|s.owner|) else None))
    case MoverFlush(k) => Seal(s, k)
    case MoverTake(out) => Release(s, out)
    case MoverPut => Put(s)
    case MoverStop => s.(mover := DrainingAcc)
    case MoverDrain(k) => Seal(s, k)
    case MoverDrainEnd => s.(mover := DrainingRetry, mark := |s.batches|)
    case MoverDrainRetry(out) => Release(s, out).(mover := LastTasks, latePushes := multiset{})
    case MoverExit => s.(mover := Stopped)
    case PoolPop => Pop(s)
    case PoolPopEmpty => s.(pool := SawEmpty, lateAdds := [])
    case PoolCheck => s.(pool := if PoolFlag(s) then Exited else Taking)
    case PoolStart => Start(s)
    case SendOk(id) => Finalise(s, id, AddSuccess(c, s.batches[id]), true)
    case SendFails(id, noRetry) => SendFailed(c, s, id, noRetry)
    case RetryPush(id) => PushBack(s, id)
    case CloseNext => s.(close := NextClose(s.close))
  }
}
