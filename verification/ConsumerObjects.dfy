/** The consumer's objects. Each method updates its fields in place and does what the rules for a worker say. */
module ConsumerObjects {
  import opened Wire
  import opened Shards
  import opened ShardWorkers

  // -------------------------------------------------------------------- checkpoints

  /** How a flush went: updates sent, whether the cursor counts as saved, whether the service rejected it. */
  datatype Flushed = Flushed(tries: nat, saved: bool, rejected: bool)

  /** The updates from number i on; answers(i) is the service's answer to it. */
  function FlushFrom(answers: nat -> UpdateAnswer, i: nat): (r: Flushed)
    requires i < 3
    ensures r.tries > i
    decreases 3 - i
  {
    match answers(i)
    case Updated => Flushed(i + 1, true, false)
    case Rejected => Flushed(i + 1, true, true)
    case Unavailable => if i >= 2 then Flushed(i + 1, false, false) else FlushFrom(answers, i + 1)
  }

  /** A flush: nothing is sent if nothing is pending or it is saved already. */
  function FlushOf(pending: Option<nat>, saved: Option<nat>, answers: nat -> UpdateAnswer): Flushed {
    if pending.None? || pending == saved then Flushed(0, true, false) else FlushFrom(answers, 0)
  }

  /** At most three updates are sent; the last is the first that is not answered by an error of the moment. */
  lemma {:induction false} FlushTries(answers: nat -> UpdateAnswer, i: nat)
    requires i < 3
    ensures i < FlushFrom(answers, i).tries <= 3
    ensures forall k :: i <= k < FlushFrom(answers, i).tries - 1 ==> answers(k).Unavailable?
    ensures FlushFrom(answers, i).saved <==> !answers(FlushFrom(answers, i).tries - 1).Unavailable?
    ensures FlushFrom(answers, i).rejected <==> answers(FlushFrom(answers, i).tries - 1).Rejected?
    ensures !FlushFrom(answers, i).saved ==> FlushFrom(answers, i).tries == 3
    decreases 3 - i
  {
    if answers(i).Unavailable? && i < 2 { FlushTries(answers, i + 1); }
  }

  /** The first of three answers that is not an error of the moment is this one. */
  ghost predicate FirstIs(answers: nat -> UpdateAnswer, a: UpdateAnswer) {
    exists i: nat :: i < 3 && answers(i) == a && forall k: nat :: k < i ==> answers(k).Unavailable?
  }

  /** A flush that is due counts as saved if the service takes or rejects the cursor before the third failure. */
  lemma {:induction false} FlushExactly(pending: Option<nat>, saved: Option<nat>, answers: nat -> UpdateAnswer)
    ensures var r := FlushOf(pending, saved, answers);
      && (r.tries == 0 <==> !Due(pending, saved))
      && (r.rejected <==> Due(pending, saved) && FirstIs(answers, Rejected))
      && (r.saved <==> !Due(pending, saved) || FirstIs(answers, Updated) || FirstIs(answers, Rejected))
  {
    if Due(pending, saved) {
      FlushTries(answers, 0);
      var last := FlushFrom(answers, 0).tries - 1;
      if FlushFrom(answers, 0).saved { assert FirstIs(answers, answers(last)); }
    }
  }

  lemma {:induction false} IsFirst(answers: nat -> UpdateAnswer, i: nat)
    requires i < 3 && forall k: nat :: k < i ==> answers(k).Unavailable?
    ensures FirstIs(answers, answers(i))
  {
  }

  lemma {:induction false} NoneFirst(answers: nat -> UpdateAnswer)
    ensures !FirstIs(answers, Updated) && !FirstIs(answers, Rejected)
       <==> forall k: nat :: k < 3 ==> answers(k).Unavailable?
  {
    IsFirst(answers, 0);
    if answers(0).Unavailable? {
      IsFirst(answers, 1);
      if answers(1).Unavailable? { IsFirst(answers, 2); }
    }
  }

  class DefaultCheckPointTracker {
    const shardId: int
    const heartBeat: ConsumerHeartBeat
    var nextCursor: Option<nat>
    var currentCursor: Option<nat>
    var pendingCheckPoint: Option<nat>
    var savedCheckPoint: Option<nat>

    constructor (shard: int, heart: ConsumerHeartBeat)
      ensures shardId == shard && heartBeat == heart
      ensures nextCursor == currentCursor == pendingCheckPoint == savedCheckPoint == None
    {
      shardId, heartBeat := shard, heart;
      nextCursor, currentCursor, pendingCheckPoint, savedCheckPoint := None, None, None, None;
    }

    /** What a flush that went like r has made of the saved cursor and the reported shards; no other field changes. */
    twostate predicate Went(r: Flushed)
      reads this, heartBeat
    {
      && nextCursor == old(nextCursor) && currentCursor == old(currentCursor)
      && savedCheckPoint == (if r.tries > 0 && r.saved then pendingCheckPoint else old(savedCheckPoint))
      && heartBeat.heartShards
      == (if r.rejected then Without(old(heartBeat.heartShards), shardId) else old(heartBeat.heartShards))
      && heartBeat.heldShards == old(heartBeat.heldShards)
    }

    method FlushCheckPoint(answers: nat -> UpdateAnswer) returns (err: bool)
      modifies this, heartBeat
      ensures pendingCheckPoint == old(pendingCheckPoint)
      ensures var r := FlushOf(pendingCheckPoint, old(savedCheckPoint), answers); err == !r.saved && Went(r)
      ensures var due := Due(pendingCheckPoint, old(savedCheckPoint));
              && (due && FirstIs(answers, Rejected) ==>
                    !err && heartBeat.heartShards == Without(old(heartBeat.heartShards), shardId))
              && (!(due && FirstIs(answers, Rejected)) ==> heartBeat.heartShards == old(heartBeat.heartShards))
              && (err <==> due && forall k: nat :: k < 3 ==> answers(k).Unavailable?)
              && savedCheckPoint == (if due && !err then pendingCheckPoint else old(savedCheckPoint))
    {
      FlushExactly(pendingCheckPoint, savedCheckPoint, answers);
      FlushTries(answers, 0);
      NoneFirst(answers);
      hide FirstIs;
      if pendingCheckPoint.None? || pendingCheckPoint == savedCheckPoint { return false; }
      var i := 0;
      while true
        invariant 0 <= i < 3 && FlushFrom(answers, 0) == FlushFrom(answers, i)
        invariant nextCursor == old(nextCursor) && currentCursor == old(currentCursor)
        invariant pendingCheckPoint == old(pendingCheckPoint) && savedCheckPoint == old(savedCheckPoint)
        invariant heartBeat.heartShards == old(heartBeat.heartShards)
             && heartBeat.heldShards == old(heartBeat.heldShards)
        decreases 3 - i
      {
        var answer := answers(i);
        if answer.Updated? { break; }
        if answer.Rejected? {
          var deleted := heartBeat.RemoveHeartShard(shardId);
          break;
        }
        if i >= 2 { return true; }
        i := i + 1;
      }
      savedCheckPoint := pendingCheckPoint;
      err := false;
    }

    method SaveCheckPoint(force: bool, answers: nat -> UpdateAnswer) returns (err: bool)
      modifies this, heartBeat
      ensures pendingCheckPoint == old(nextCursor)
      ensures var r := if force then FlushOf(pendingCheckPoint, old(savedCheckPoint), answers)
                       else Flushed(0, true, false);
              err == !r.saved && Went(r)
    {
      pendingCheckPoint := nextCursor;
      if force {
        err := FlushCheckPoint(answers);
        return;
      }
      return false;
    }
  }

  // ------------------------------------------------------------------- shard worker

  class ShardConsumerWorker {
    const tracker: DefaultCheckPointTracker
    var consumerStatus: Status
    var shutdownFlag: bool
    var isCurrentDone: bool
    var nextFetchCursor: nat
    var lastFetchLogGroupList: Option<Range>
    ghost var jobs: seq<Job>
    ghost var starts: seq<Start>

    constructor (shard: int, heart: ConsumerHeartBeat)
      ensures Value() == NEW_WORKER && fresh(tracker) && tracker.heartBeat == heart && tracker.shardId == shard
    {
      tracker := new DefaultCheckPointTracker(shard, heart);
      consumerStatus, shutdownFlag, isCurrentDone := Initializing, false, true;
      nextFetchCursor, lastFetchLogGroupList := 0, None;
      jobs, starts := [], [];
    }

    ghost function Value(): Worker
      reads this, tracker
    {
      Worker(consumerStatus, shutdownFlag, isCurrentDone, jobs, nextFetchCursor, lastFetchLogGroupList,
             tracker.nextCursor, tracker.pendingCheckPoint, tracker.savedCheckPoint, starts)
    }

    /** task: what a goroutine is started for, if one is. */
    method Consume() returns (task: Option<Task>)
      modifies this
      ensures Value() == ShardWorkers.Consume(old(Value()))
      ensures task == if old(isCurrentDone) then TaskOf(old(consumerStatus)) else None
    {
      if !isCurrentDone { return None; }
      isCurrentDone := false;
      match consumerStatus {
        case Initializing => task := Some(Task.Initialise);
        case Pulling => task := Some(Task.Pull);
        case Processing => task := Some(Task.Process);
        case ShuttingDown => task := Some(Task.Close);
        case ShutdownComplete => isCurrentDone := true; task := None;
      }
      if task.Some? {
        jobs := jobs + [Job(task.value, None)];
        starts := starts + [Start(consumerStatus, shutdownFlag)];
      }
    }

    method ConsumerShutDown() returns (task: Option<Task>)
      modifies this
      ensures Value() == ShardWorkers.ConsumerShutDown(old(Value()))
    {
      shutdownFlag := true;
      task := None;
      if consumerStatus != ShutdownComplete {
        task := Consume();
      }
    }

    method UpdateStatus(success: bool)
      requires |jobs| == 1
      modifies this
      ensures Value() == ShardWorkers.UpdateStatus(old(Value()), 0, success)
    {
      if consumerStatus == ShuttingDown {
        if success { consumerStatus := ShutdownComplete; }
      } else if shutdownFlag {
        consumerStatus := ShuttingDown;
      } else if success {
        match consumerStatus {
          case Pulling => consumerStatus := Processing;
          case Initializing => consumerStatus := Pulling;
          case Processing => consumerStatus := Pulling;
          case _ =>
        }
      }
      isCurrentDone := true;
      jobs := [];
    }

    /** The goroutine for INITIALIZING. */
    method RunInitialise(a: InitAnswer)
      requires jobs == [Job(Task.Initialise, None)]
      modifies this, tracker
      ensures Value() == Initialised(old(Value()), 0, a) && tracker.currentCursor == old(tracker.currentCursor)
    {
      match a {
        case InitFailed =>
        case FromCheckPoint(checkpoint) =>
          tracker.savedCheckPoint := Some(checkpoint);
          nextFetchCursor := checkpoint;
        case FromCursor(cursor) =>
          nextFetchCursor := cursor;
      }
      UpdateStatus(!a.InitFailed?);
    }

    /** `saveCheckPointIfNeeded`; due: the commit interval is over. */
    method SaveCheckPointIfNeeded(due: bool, answers: nat -> UpdateAnswer)
      modifies tracker, tracker.heartBeat
      ensures tracker.pendingCheckPoint == old(tracker.pendingCheckPoint)
      ensures tracker.Went(if due then FlushOf(tracker.pendingCheckPoint, old(tracker.savedCheckPoint), answers)
                           else Flushed(0, true, false))
    {
      if due {
        var err := tracker.FlushCheckPoint(answers);
      }
    }

    /** The goroutine for PULLING. */
    method RunPull(a: PullAnswer, due: bool, answers: nat -> UpdateAnswer)
      requires jobs == [Job(Task.Pull, None)]
      modifies this, tracker, tracker.heartBeat
      ensures Value() == WithFlush(Pulled(old(Value()), 0, a, due), answers)
      ensures tracker.currentCursor == if a.PullFailed? then old(tracker.currentCursor) else Some(old(nextFetchCursor))
      ensures tracker.heartBeat.heldShards == old(tracker.heartBeat.heldShards)
      ensures tracker.heartBeat.heartShards
           == if Dismissed(Pulled(old(Value()), 0, a, due), answers)
              then Without(old(tracker.heartBeat.heartShards), tracker.shardId)
              else old(tracker.heartBeat.heartShards)
    {
      match a {
        case PullFailed =>
          UpdateStatus(false);
        case PullEmpty(hi) =>
          tracker.currentCursor := Some(nextFetchCursor);
          nextFetchCursor := hi;
          tracker.nextCursor := Some(nextFetchCursor);
          lastFetchLogGroupList := None;
          ghost var w := Value();
          SaveCheckPointIfNeeded(due, answers);
          UpdateStatus(false);
          FlushWhole(w, due, false, answers);
        case PullGot(hi) =>
          tracker.currentCursor := Some(nextFetchCursor);
          lastFetchLogGroupList := Some(Range(nextFetchCursor, hi));
          nextFetchCursor := hi;
          tracker.nextCursor := Some(nextFetchCursor);
          UpdateStatus(true);
      }
    }

    /** The goroutine for PROCESSING, the user's function being wrapped by InitConsumerWorker. */
    method RunProcess(o: Outcome, due: bool, answers: nat -> UpdateAnswer)
      requires jobs == [Job(Task.Process, None)]
      modifies this, tracker, tracker.heartBeat
      ensures Value() == WithFlush(Processed(old(Value()), 0, o, due), answers)
           && tracker.currentCursor == old(tracker.currentCursor)
      ensures tracker.heartBeat.heldShards == old(tracker.heartBeat.heldShards)
      ensures tracker.heartBeat.heartShards
           == if Dismissed(Processed(old(Value()), 0, o, due), answers)
              then Without(old(tracker.heartBeat.heartShards), tracker.shardId)
              else old(tracker.heartBeat.heartShards)
    {
      if lastFetchLogGroupList == None {
        UpdateStatus(true);
        return;
      }
      if o.Panicked? {
        UpdateStatus(false);
        return;
      }
      if o.rollback == None {
        var err := tracker.SaveCheckPoint(false, answers);
      }
      ghost var fetch := if o.rollback.Some? then o.rollback.value else nextFetchCursor;
      ghost var w := Value().(list := None, nextFetchCursor := fetch);
      SaveCheckPointIfNeeded(due, answers);
      lastFetchLogGroupList := None;
      if o.rollback.Some? {
        nextFetchCursor := o.rollback.value;
      }
      UpdateStatus(true);
      FlushWhole(w, due, true, answers);
    }

    /** The goroutine for SHUTTING_DOWN; ok: the processor's Shutdown succeeded. */
    method RunClose(ok: bool, answers: nat -> UpdateAnswer)
      requires jobs == [Job(Task.Close, None)]
      modifies this, tracker, tracker.heartBeat
      ensures Value() == WithFlush(Closed(old(Value()), 0, ok), answers)
           && tracker.currentCursor == old(tracker.currentCursor)
      ensures tracker.heartBeat.heldShards == old(tracker.heartBeat.heldShards)
      ensures tracker.heartBeat.heartShards
           == if Dismissed(Closed(old(Value()), 0, ok), answers)
              then Without(old(tracker.heartBeat.heartShards), tracker.shardId)
              else old(tracker.heartBeat.heartShards)
    {
      if !ok {
        UpdateStatus(false);
        return;
      }
      ghost var w := Value();
      var err := tracker.FlushCheckPoint(answers);
      UpdateStatus(!err);
      FlushWhole(w, true, !err, answers);
    }
  }

  // --------------------------------------------------------------------- outer loop

  /** What becomes of a worker the outer loop looks at. */
  function Told(w: Worker, owned: bool): Worker {
    if owned then w else ConsumerShutDown(w)
  }

  lemma {:induction false} ToldStatus(w: Worker, owned: bool)
    ensures Told(w, owned).status == w.status && Told(w, owned) == (if owned then w else ConsumerShutDown(w))
  {
  }

  /** heartShards after the visits to some shards; complete: those whose worker is. */
  function Cleaned(heart: seq<int>, visited: seq<int>, complete: set<int>): seq<int> {
    if visited == [] then heart
    else
      var h := Cleaned(heart, visited[..|visited| - 1], complete);
      if visited[|visited| - 1] in complete then Without(h, visited[|visited| - 1]) else h
  }

  /** The shards whose workers are dropped by those visits. */
  function Dropped(heart: seq<int>, visited: seq<int>, complete: set<int>): set<int> {
    set k | k in visited && k in heart && k in complete
  }

  lemma {:induction false} CleanedNone(heart: seq<int>, complete: set<int>)
    ensures Cleaned(heart, [], complete) == heart
  {
  }

  lemma {:induction false} CleanedMembers(heart: seq<int>, visited: seq<int>, complete: set<int>)
    requires Distinct(heart)
    ensures Distinct(Cleaned(heart, visited, complete))
    ensures forall x :: x in Cleaned(heart, visited, complete) <==> x in heart && !(x in visited && x in complete)
  {
    if visited != [] {
      var last := visited[|visited| - 1];
      CleanedMembers(heart, visited[..|visited| - 1], complete);
      WithoutGone(Cleaned(heart, visited[..|visited| - 1], complete), last);
      hide Distinct, Without;
      assert visited == visited[..|visited| - 1] + [last];
    }
  }

  lemma {:induction false} CleanedNext(heart: seq<int>, order: seq<int>, i: nat, complete: set<int>)
    requires i < |order| && Distinct(order) && Distinct(heart)
    ensures var h := Cleaned(heart, order[..i], complete);
      && Cleaned(heart, order[..i + 1], complete) == (if order[i] in complete then Without(h, order[i]) else h)
      && Dropped(heart, order[..i + 1], complete)
      == (if order[i] in complete && order[i] in h then Dropped(heart, order[..i], complete) + {order[i]}
          else Dropped(heart, order[..i], complete))
      && order[i] !in Dropped(heart, order[..i], complete)
  {
    assert order[..i + 1][..i] == order[..i];
    assert order[..i + 1] == order[..i] + [order[i]];
    assert order[i] !in order[..i];
    CleanedMembers(heart, order[..i], complete);
  }

  lemma {:induction false} MinusNone<T>(m: map<int, T>, heart: seq<int>, complete: set<int>)
    ensures m - Dropped(heart, [], complete) == m
  {
  }

  lemma {:induction false} MinusOne<T>(m: map<int, T>, dropped: set<int>, x: int)
    ensures m - (dropped + {x}) == m - dropped - {x}
  {
  }

  class ConsumerWorker {
    const consumerHeatBeat: ConsumerHeartBeat
    var shardConsumer: map<int, ShardConsumerWorker>

    constructor (heart: ConsumerHeartBeat)
      ensures Valid() && consumerHeatBeat == heart && shardConsumer == map[]
    {
      consumerHeatBeat, shardConsumer := heart, map[];
    }

    /** Every shard has a worker of its own. */
    ghost predicate Valid()
      reads this
    {
      forall j, k :: j in shardConsumer && k in shardConsumer && j != k ==> shardConsumer[j] != shardConsumer[k]
    }

    ghost function CompleteShards(): set<int>
      reads this, shardConsumer.Values
    {
      set k | k in shardConsumer && shardConsumer[k].consumerStatus == ShutdownComplete
    }

    method GetShardConsumer(shardId: int) returns (consumer: ShardConsumerWorker)
      requires Valid()
      modifies this
      ensures Valid() && shardId in shardConsumer && consumer == shardConsumer[shardId]
      ensures shardConsumer == old(shardConsumer)[shardId := consumer]
      ensures shardId in old(shardConsumer) ==> shardConsumer == old(shardConsumer)
      ensures shardId !in old(shardConsumer) ==> fresh(consumer) && consumer.Value() == NEW_WORKER
    {
      if shardId in shardConsumer { return shardConsumer[shardId]; }
      consumer := new ShardConsumerWorker(shardId, consumerHeatBeat);
      shardConsumer := shardConsumer[shardId := consumer];
    }

    /**
     * Workers of shards that are not owned are told to shut down; complete ones are dropped, and their shards
     * taken out of heartShards, if they are in there. order: the order in which Range visits the shards.
     */
    method CleanShardConsumer(owned: seq<int>, order: seq<int>)
      requires Valid() && Distinct(consumerHeatBeat.heartShards)
      requires Distinct(order)
      requires forall j :: 0 <= j < |order| ==> order[j] in shardConsumer
      requires forall k :: k in shardConsumer ==> k in order
      modifies this, consumerHeatBeat, shardConsumer.Values
      ensures Valid() && consumerHeatBeat.heldShards == old(consumerHeatBeat.heldShards)
      ensures forall j :: 0 <= j < |order| ==>
                old(shardConsumer)[order[j]].Value() == Told(old(shardConsumer[order[j]].Value()), order[j] in owned)
      ensures consumerHeatBeat.heartShards == Cleaned(old(consumerHeatBeat.heartShards), order, old(CompleteShards()))
      ensures shardConsumer
           == old(shardConsumer) - Dropped(old(consumerHeatBeat.heartShards), order, old(CompleteShards()))
    {
      hide Told, Cleaned, Dropped, Without, ShardWorkers.ConsumerShutDown;
      ghost var was, heart := shardConsumer, consumerHeatBeat.heartShards;
      ghost var complete := CompleteShards();
      var i := 0;
      CleanedNone(heart, complete);
      MinusNone(was, heart, complete);
      while i < |order|
        invariant 0 <= i <= |order|
        invariant consumerHeatBeat.heldShards == old(consumerHeatBeat.heldShards)
        invariant forall j :: 0 <= j < |order| ==> order[j] in was
        invariant forall j :: 0 <= j < i ==>
                    was[order[j]].Value() == Told(old(was[order[j]].Value()), order[j] in owned)
        invariant forall j :: i <= j < |order| ==> was[order[j]].Value() == old(was[order[j]].Value())
        invariant consumerHeatBeat.heartShards == Cleaned(heart, order[..i], complete)
        invariant shardConsumer == was - Dropped(heart, order[..i], complete)
      {
        var shard := order[i];
        CleanedNext(heart, order, i, complete);
        MinusOne(was, Dropped(heart, order[..i], complete), shard);
        var isOwned := Contain(shard, owned);
        CleanOne(shard, shardConsumer[shard], isOwned);
        i := i + 1;
      }
      assert order[..i] == order;
    }

    /** The body of the Range callback. */
    method CleanOne(shard: int, consumer: ShardConsumerWorker, isOwned: bool)
      requires shard in shardConsumer && shardConsumer[shard] == consumer
      modifies this, consumerHeatBeat, consumer
      ensures consumer.Value() == Told(old(consumer.Value()), isOwned)
           && consumer.consumerStatus == old(consumer.consumerStatus)
      ensures consumerHeatBeat.heldShards == old(consumerHeatBeat.heldShards)
      ensures consumerHeatBeat.heartShards
           == if consumer.consumerStatus == ShutdownComplete then Without(old(consumerHeatBeat.heartShards), shard)
              else old(consumerHeatBeat.heartShards)
      ensures shardConsumer
           == if consumer.consumerStatus == ShutdownComplete && shard in old(consumerHeatBeat.heartShards)
              then old(shardConsumer) - {shard} else old(shardConsumer)
    {
      ToldStatus(consumer.Value(), isOwned);
      if !isOwned {
        var task := consumer.ConsumerShutDown();
      }
      if consumer.consumerStatus == ShutdownComplete {
        var isDeleteShard := consumerHeatBeat.RemoveHeartShard(shard);
        if isDeleteShard {
          shardConsumer := shardConsumer - {shard};
        }
      }
    }
  }

  /** A worker whose task has begun a flush, after the flush and the end of the task. */
  function WithFlush(w: Worker, answers: nat -> UpdateAnswer): Worker {
    if |w.jobs| == 1 && w.jobs[0].flush == Some(Flush(0, false)) then
      var r := FlushFrom(answers, 0);
      UpdateStatus(if r.saved then w.(saved := w.pending) else w, 0, AfterFlush(w.jobs[0].task, r.saved))
    else w
  }

  /** Whether the service rejects the flush that the worker's task has begun: its shard is not reported any more. */
  predicate Dismissed(w: Worker, answers: nat -> UpdateAnswer) {
    |w.jobs| == 1 && w.jobs[0].flush == Some(Flush(0, false)) && FlushFrom(answers, 0).rejected
  }

  /** Flushing in one go, then ending the task. */
  lemma {:induction false} FlushWhole(w: Worker, due: bool, success: bool, answers: nat -> UpdateAnswer)
    requires |w.jobs| == 1 && w.jobs[0].flush == None
    requires due && NeedsFlush(w) ==> success == AfterFlush(w.jobs[0].task, FlushFrom(answers, 0).saved)
    ensures WithFlush(FlushOr(w, 0, due, success), answers)
         == var saved := due && NeedsFlush(w) && FlushFrom(answers, 0).saved;
            UpdateStatus(if saved then w.(saved := w.pending) else w, 0, success)
    ensures Dismissed(FlushOr(w, 0, due, success), answers)
       <==> due && NeedsFlush(w) && FlushFrom(answers, 0).rejected
  {
  }

  // -------------------------------------------- a flush in one go, and step by step

  /** The steps of a flush from update i on. */
  function FlushSteps(answers: nat -> UpdateAnswer, i: nat): seq<WorkerLabel>
    requires i < 3
    decreases 3 - i
  {
    [FlushSend(0), FlushAnswer(0, answers(i))]
      + (if answers(i).Unavailable? && i < 2 then FlushSteps(answers, i + 1) else [])
  }

  /** Sending and answering update by update ends where the whole flush does. */
  lemma {:induction false} FlushStepByStep(w: Worker, answers: nat -> UpdateAnswer, i: nat)
    requires i < 3 && |w.jobs| == 1 && w.jobs[0].flush == Some(Flush(i, false))
    ensures AfterAll(w, FlushSteps(answers, i))
         == Some(var r := FlushFrom(answers, i);
                 UpdateStatus(if r.saved then w.(saved := w.pending) else w, 0, AfterFlush(w.jobs[0].task, r.saved)))
    decreases 3 - i
  {
    var ls := FlushSteps(answers, i);
    var v := Do(w, FlushSend(0));
    assert v == w.(jobs := [w.jobs[0].(flush := Some(Flush(i + 1, true)))]);
    assert ls[0] == FlushSend(0) && ls[1..][0] == FlushAnswer(0, answers(i));
    assert AfterAll(w, ls) == AfterAll(v, ls[1..]);
    var u := Do(v, FlushAnswer(0, answers(i)));
    assert AfterAll(v, ls[1..]) == AfterAll(u, ls[1..][1..]);
    if answers(i).Unavailable? && i < 2 {
      assert ls[1..][1..] == FlushSteps(answers, i + 1);
      assert u == w.(jobs := [w.jobs[0].(flush := Some(Flush(i + 1, false)))]);
      FlushStepByStep(u, answers, i + 1);
      assert u.(jobs := []) == w.(jobs := []);
    } else {
      assert ls[1..][1..] == [];
    }
  }
}
