/** For each key, logs are queued in the order they were accepted; and batches start in the order they were queued. */
module KeyOrder {
  import opened Wire
  import opened ProducerRules
  import opened Pipeline
  import opened Placement

  /** The logs accepted for a key, in order. */
  function LogsFor(accepted: seq<Accepted>, k: string): seq<LogItem> {
    if accepted == [] then []
    else
      var a := accepted[|accepted| - 1];
      LogsFor(accepted[..|accepted| - 1], k) + (if a.key == k then a.logs else [])
  }

  function Logs(batches: seq<Batch>, id: nat, k: string): seq<LogItem> {
    if id < |batches| && KeyOf(batches[id]) == k then batches[id].logs else []
  }

  /** The logs of a key's batches, in the order of their first enqueue. */
  function QueuedLogs(batches: seq<Batch>, enq: seq<nat>, k: string): seq<LogItem> {
    if enq == [] then []
    else QueuedLogs(batches, enq[..|enq| - 1], k) + Logs(batches, enq[|enq| - 1], k)
  }

  function OpenLogs(s: State, k: string): seq<LogItem> {
    if k in s.acc then Logs(s.batches, s.acc[k], k) else []
  }

  function Text(s: State, k: string): seq<LogItem> {
    QueuedLogs(s.batches, s.enq, k) + OpenLogs(s, k)
  }

  ghost predicate Worded(s: State) {
    forall k :: LogsFor(s.accepted, k) == Text(s, k)
  }

  /** The queued tasks that were never popped before. */
  function Fresh(queue: seq<nat>, started: seq<nat>): seq<nat> {
    if queue == [] then []
    else if queue[0] in started then Fresh(queue[1..], started)
    else [queue[0]] + Fresh(queue[1..], started)
  }

  /** Outside accumulator and queue. */
  function Away(s: State): multiset<nat> {
    multiset(s.hand) + HeldIds(s) + s.sending + s.failing + s.retry + s.done
  }

  /** Every batch is open or was enqueued, once. */
  ghost predicate Enqueued(s: State) {
    forall id: nat :: multiset(s.enq)[id] + InAcc(s, id) == if id < |s.batches| then 1 else 0
  }

  /** First pops come in the order of first enqueues. */
  ghost predicate Fifo(s: State) {
    s.started + Fresh(s.queue, s.started) == s.enq
  }

  ghost predicate AwayStarted(s: State) {
    forall id: nat :: Away(s)[id] > 0 ==> id in s.started
  }

  ghost predicate Sequenced(s: State) {
    Enqueued(s) && Fifo(s) && AwayStarted(s)
  }

  // ------------------------------------------------------------------------ Fresh

  lemma {:induction false} FreshAppend(queue: seq<nat>, x: nat, started: seq<nat>)
    ensures Fresh(queue + [x], started) == Fresh(queue, started) + (if x in started then [] else [x])
  {
    if queue == [] {
      assert queue + [x] == [x];
    } else {
      FreshAppend(queue[1..], x, started);
      assert (queue + [x])[1..] == queue[1..] + [x];
    }
  }

  lemma {:induction false} FreshFrame(queue: seq<nat>, started: seq<nat>, x: nat)
    requires x !in queue
    ensures Fresh(queue, started + [x]) == Fresh(queue, started)
  {
    if queue != [] { FreshFrame(queue[1..], started, x); }
  }

  // ------------------------------------------------------------------- Sequenced

  lemma {:induction false} StartedEnqueued(s: State, id: nat)
    requires Enqueued(s) && Fifo(s) && id in s.started
    ensures InAcc(s, id) == 0
  {
    assert id in s.started + Fresh(s.queue, s.started);
    assert multiset(s.enq)[id] > 0;
  }

  lemma {:induction false} SameEnqueued(s: State, t: State)
    requires Enqueued(s) && SameIdentity(s, t) && t.enq == s.enq
    ensures Enqueued(t)
  {
    hide GetKeyString;
    forall id: nat ensures multiset(t.enq)[id] + InAcc(t, id) == if id < |t.batches| then 1 else 0 {
      assert InAcc(t, id) == InAcc(s, id);
    }
  }

  /** Nothing enters or leaves the queue. */
  lemma {:induction false} SameSequence(s: State, t: State)
    requires Sequenced(s) && SameIdentity(s, t) && t.queue == s.queue && t.started == s.started && t.enq == s.enq
    requires Away(t) == Away(s)
    ensures Sequenced(t)
  {
    hide Enqueued, Away, SameIdentity, Fresh;
    SameEnqueued(s, t);
  }

  lemma {:induction false} PutAway(s: State)
    requires s.hand != []
    ensures Away(s) == Away(Put(s)) + multiset{s.hand[0]}
  {
    Head(s.hand);
  }

  lemma {:induction false} PutSequence(s: State)
    requires Sequenced(s) && s.hand != []
    ensures Sequenced(Put(s))
  {
    var t, x := Put(s), s.hand[0];
    PutAway(s);
    PutMoves(s);
    FreshAppend(s.queue, x, s.started);
    assert Fresh(s.queue, s.started) + [] == Fresh(s.queue, s.started);
    hide Enqueued, SameIdentity, Fresh, Away;
    SameEnqueued(s, t);
    assert Away(s)[x] > 0;
  }

  lemma {:induction false} PopAway(s: State)
    requires s.queue != [] && s.held == None
    ensures Away(Pop(s)) == Away(s) + multiset{s.queue[0]}
  {
  }

  lemma {:induction false} PopFifo(s: State)
    requires Placed(s) && Fifo(s) && s.queue != []
    ensures Fifo(Pop(s))
  {
    hide Placed;
    var x := s.queue[0];
    QueuedOnce(s);
    FreshFrame(s.queue[1..], s.started, x);
    assert s.started + ([x] + Fresh(s.queue[1..], s.started)) == s.started + [x] + Fresh(s.queue[1..], s.started);
  }

  lemma {:induction false} QueuedOnce(s: State)
    requires Placed(s) && s.queue != []
    ensures s.queue[0] !in s.queue[1..]
  {
    Head(s.queue);
    assert Copies(s, s.queue[0]) <= 1;
    assert multiset(s.queue[1..])[s.queue[0]] == 0;
  }

  lemma {:induction false} PopSequence(s: State)
    requires Sequenced(s) && Placed(s) && s.queue != [] && s.held == None
    ensures Sequenced(Pop(s))
  {
    var t := Pop(s);
    hide Placed, Fifo, Enqueued, SameIdentity, Away;
    PopFifo(s);
    PopAway(s);
    PopMoves(s);
    SameEnqueued(s, t);
  }

  lemma {:induction false} OpenInAcc(s: State, k: string)
    requires Placed(s) && k in s.acc
    ensures InAcc(s, s.acc[k]) == 1
  {
    hide GetKeyString, Copies;
  }

  lemma {:induction false} SealFifo(s: State, k: string)
    requires Sequenced(s) && Placed(s) && k in s.acc
    ensures Fifo(Seal(s, k))
  {
    hide GetKeyString, Copies, Fresh, AwayStarted, Enqueued;
    var x := s.acc[k];
    OpenInAcc(s, k);
    hide InAcc;
    if x in s.started { StartedEnqueued(s, x); }
    FreshAppend(s.queue, x, s.started);
    assert s.started + (Fresh(s.queue, s.started) + [x]) == s.enq + [x];
  }

  lemma {:induction false} SealEnqueued(s: State, k: string)
    requires Enqueued(s) && Placed(s) && k in s.acc
    ensures Enqueued(Seal(s, k))
  {
    var t := Seal(s, k);
    hide GetKeyString, Copies;
    forall id: nat ensures multiset(t.enq)[id] + InAcc(t, id) == if id < |t.batches| then 1 else 0 {
      assert multiset(s.enq)[id] + InAcc(s, id) == if id < |s.batches| then 1 else 0;
    }
  }

  lemma {:induction false} SealSequence(s: State, k: string)
    requires Sequenced(s) && Placed(s) && k in s.acc
    ensures Sequenced(Seal(s, k))
  {
    SealFifo(s, k);
    assert Away(Seal(s, k)) == Away(s);
    hide Placed, Enqueued, Fifo, Away;
    SealEnqueued(s, k);
  }

  lemma {:induction false} CreateEnqueued(s: State, k: string, b: Batch)
    requires Enqueued(s) && Placed(s) && k !in s.acc && KeyOf(b) == k
    ensures Enqueued(Create(s, k, b))
  {
    var t := Create(s, k, b);
    hide GetKeyString, Copies;
    forall id: nat ensures multiset(t.enq)[id] + InAcc(t, id) == if id < |t.batches| then 1 else 0 {
      assert multiset(s.enq)[id] + InAcc(s, id) == if id < |s.batches| then 1 else 0;
    }
  }

  lemma {:induction false} CreateSequence(s: State, k: string, b: Batch)
    requires Sequenced(s) && Placed(s) && k !in s.acc && KeyOf(b) == k
    ensures Sequenced(Create(s, k, b))
  {
    assert Away(Create(s, k, b)) == Away(s);
    hide Placed, Enqueued, Fresh, Away, GetKeyString;
    CreateEnqueued(s, k, b);
  }

  // ------------------------------------------------------------------------ Text

  lemma {:induction false} QueuedFrame(bs: seq<Batch>, cs: seq<Batch>, enq: seq<nat>, k: string)
    requires forall id :: id in enq ==> Logs(cs, id, k) == Logs(bs, id, k)
    ensures QueuedLogs(cs, enq, k) == QueuedLogs(bs, enq, k)
  {
    if enq != [] { QueuedFrame(bs, cs, enq[..|enq| - 1], k); }
  }

  lemma {:induction false} RewriteText(s: State, k: string, b: Batch, more: seq<LogItem>, j: string)
    requires Placed(s) && Sequenced(s) && k in s.acc
    requires b.destination == s.batches[s.acc[k]].destination && b.logs == s.batches[s.acc[k]].logs + more
    ensures Text(Rewrite(s, s.acc[k], b), j) == Text(s, j) + (if j == k then more else [])
  {
    var id, t := s.acc[k], Rewrite(s, s.acc[k], b);
    assert InAcc(s, id) == 1;
    assert id !in s.enq;
    hide GetKeyString;
    QueuedFrame(s.batches, t.batches, s.enq, j);
    if j in s.acc && j != k { assert s.acc[j] != id; }
    assert Text(s, j) + [] == Text(s, j);
    if j == k {
      assert QueuedLogs(s.batches, s.enq, j) + (s.batches[id].logs + more) == Text(s, j) + more;
    }
  }

  lemma {:induction false} SealText(s: State, k: string, j: string)
    requires Placed(s) && k in s.acc
    ensures Text(Seal(s, k), j) == Text(s, j)
  {
    var t := Seal(s, k);
    assert t.enq[..|t.enq| - 1] == s.enq;
    assert QueuedLogs(s.batches, s.enq, j) + [] == QueuedLogs(s.batches, s.enq, j);
    if j == k {
      assert QueuedLogs(t.batches, t.enq, k) == Text(s, k);
      assert QueuedLogs(t.batches, t.enq, k) + [] == QueuedLogs(t.batches, t.enq, k);
    }
  }

  lemma {:induction false} CreateText(s: State, k: string, b: Batch, j: string)
    requires Placed(s) && Sequenced(s) && k !in s.acc && KeyOf(b) == k
    ensures Text(Create(s, k, b), j) == Text(s, j) + (if j == k then b.logs else [])
  {
    var t := Create(s, k, b);
    assert forall id :: id in s.enq ==> multiset(s.enq)[id] > 0;
    assert forall id: nat :: multiset(s.enq)[id] > 0 ==> id < |s.batches|;
    hide GetKeyString, Copies, InAcc, Fresh, Away;
    QueuedFrame(s.batches, t.batches, s.enq, j);
    if j == k {
      assert OpenLogs(t, j) == b.logs && OpenLogs(s, j) == [];
      assert Text(s, j) == QueuedLogs(s.batches, s.enq, j);
    } else {
      if j in s.acc { assert s.acc[j] < |s.batches| && t.batches[s.acc[j]] == s.batches[s.acc[j]]; }
      assert Text(s, j) + [] == Text(s, j);
    }
  }

  lemma {:induction false} AcceptText(s: State, k: string, sub: Submission, id: nat, j: string)
    ensures Text(Accept(s, k, sub.logs, sub.callback, id), j) == Text(s, j)
    ensures LogsFor(Accept(s, k, sub.logs, sub.callback, id).accepted, j)
         == LogsFor(s.accepted, j) + (if j == k then sub.logs else [])
  {
    var a := s.accepted + [Accepted(k, sub.logs)];
    assert a[..|a| - 1] == s.accepted;
  }

  // ------------------------------------------------------------------- the steps

  lemma {:induction false} AbsorbLogs(c: Config, open: Option<Batch>, d: Destination, sub: Submission)
    ensures var r := Absorb(c, open, d, sub);
      && (open.None? || (r.open.Some? && r.sent.Some?) ==> r.open.Some? && r.open.value == NewBatch(d, sub))
      && (open.Some? && r.open.Some? && r.sent.Some? ==> r.sent.value.logs == open.value.logs)
      && (open.Some? && r.open.Some? && r.sent.None? ==> r.open.value.logs == open.value.logs + sub.logs)
      && (open.Some? && r.open.None? && r.sent.Some? ==> r.sent.value.logs == open.value.logs + sub.logs)
  {
  }

  lemma {:induction false} RewriteSequence(s: State, id: nat, b: Batch)
    requires Sequenced(s) && id < |s.batches| && b.destination == s.batches[id].destination
    ensures Sequenced(Rewrite(s, id, b))
  {
    SameSequence(s, Rewrite(s, id, b));
  }

  lemma {:induction false} AcceptSequence(s: State, k: string, sub: Submission, id: nat)
    requires Sequenced(s)
    ensures Sequenced(Accept(s, k, sub.logs, sub.callback, id))
  {
    SameSequence(s, Accept(s, k, sub.logs, sub.callback, id));
  }

  /** Accepting a submission appends its logs to its key's text, and keeps the sequence. */
  lemma {:induction false} CommitOrder(c: Config, s: State, d: Destination, sub: Submission, j: string)
    requires Placed(s) && Sequenced(s)
    ensures Sequenced(Commit(c, s, d, sub))
    ensures Text(Commit(c, s, d, sub), j) == Text(s, j) + (if j == GetKeyString(d) then sub.logs else [])
    ensures LogsFor(Commit(c, s, d, sub).accepted, j)
         == LogsFor(s.accepted, j) + (if j == GetKeyString(d) then sub.logs else [])
  {
    var k, open := GetKeyString(d), OpenBatch(s, GetKeyString(d));
    AbsorbNames(c, open, d, sub);
    AbsorbLogs(c, open, d, sub);
    var r := Absorb(c, open, d, sub);
    assert r.open.Some? && (open.None? || r.sent.Some?) ==> KeyOf(r.open.value) == k && r.open.value.logs == sub.logs;
    hide Absorb, GetKeyString, Sequenced, Placed, Text, LogsFor, Seal, Create, Rewrite, Accept;
    if open.None? {
      NotOpen(s, k);
      CommitCreate(s, k, r.open.value, sub, j);
    } else {
      IsOpen(s, k);
      var id := s.acc[k];
      if r.sent.Some? && r.open.Some? {
        var s1 := Rewrite(s, id, r.sent.value);
        RewritePlaced(s, id, r.sent.value);
        RewriteSequence(s, id, r.sent.value);
        assert r.sent.value.logs + [] == r.sent.value.logs;
        RewriteText(s, k, r.sent.value, [], j);
        CommitSeal(s, k, r.sent.value, j);
        SealForgets(s1, k);
        CommitCreate(Seal(s1, k), k, r.open.value, sub, j);
        SealAccepted(s, k, r.sent.value);
        assert Text(s, j) + [] == Text(s, j);
      } else if r.sent.Some? {
        RewriteText(s, k, r.sent.value, sub.logs, j);
        CommitSeal(s, k, r.sent.value, j);
        SealAccepted(s, k, r.sent.value);
        AcceptText(Seal(Rewrite(s, id, r.sent.value), k), k, sub, id, j);
        AcceptSequence(Seal(Rewrite(s, id, r.sent.value), k), k, sub, id);
      } else {
        RewriteSequence(s, id, r.open.value);
        RewriteText(s, k, r.open.value, sub.logs, j);
        AcceptText(Rewrite(s, id, r.open.value), k, sub, id, j);
        AcceptSequence(Rewrite(s, id, r.open.value), k, sub, id);
        RewriteAccepted(s, id, r.open.value);
      }
    }
  }

  lemma {:induction false} NotOpen(s: State, k: string)
    requires Placed(s) && OpenBatch(s, k).None?
    ensures k !in s.acc
  {
  }

  lemma {:induction false} IsOpen(s: State, k: string)
    requires Placed(s) && OpenBatch(s, k).Some?
    ensures k in s.acc && s.acc[k] < |s.batches| && OpenBatch(s, k).value == s.batches[s.acc[k]]
  {
  }

  lemma {:induction false} SealForgets(s: State, k: string)
    requires k in s.acc
    ensures k !in Seal(s, k).acc
  {
  }

  lemma {:induction false} RewriteAccepted(s: State, id: nat, b: Batch)
    requires id < |s.batches|
    ensures Rewrite(s, id, b).accepted == s.accepted && Rewrite(s, id, b).acc == s.acc
  {
  }

  lemma {:induction false} SealAccepted(s: State, k: string, b: Batch)
    requires k in s.acc && s.acc[k] < |s.batches|
    ensures Rewrite(s, s.acc[k], b).acc == s.acc
    ensures Seal(Rewrite(s, s.acc[k], b), k).accepted == s.accepted
    ensures |Seal(Rewrite(s, s.acc[k], b), k).batches| == |s.batches|
  {
  }

  lemma {:induction false} CommitCreate(s: State, k: string, b: Batch, sub: Submission, j: string)
    requires Placed(s) && Sequenced(s) && k !in s.acc && KeyOf(b) == k && b.logs == sub.logs
    ensures var t := Accept(Create(s, k, b), k, sub.logs, sub.callback, |s.batches|);
            && Sequenced(t) && Text(t, j) == Text(s, j) + (if j == k then sub.logs else [])
            && LogsFor(t.accepted, j) == LogsFor(s.accepted, j) + (if j == k then sub.logs else [])
  {
    hide GetKeyString, Sequenced, Placed, Text, LogsFor, Accept;
    CreateSequence(s, k, b);
    CreateText(s, k, b, j);
    AcceptSequence(Create(s, k, b), k, sub, |s.batches|);
    AcceptText(Create(s, k, b), k, sub, |s.batches|, j);
  }

  lemma {:induction false} CommitSeal(s: State, k: string, b: Batch, j: string)
    requires Placed(s) && Sequenced(s) && k in s.acc && s.acc[k] < |s.batches|
    requires b.destination == s.batches[s.acc[k]].destination
    ensures var t := Seal(Rewrite(s, s.acc[k], b), k);
            Placed(t) && Sequenced(t) && Text(t, j) == Text(Rewrite(s, s.acc[k], b), j)
  {
    hide GetKeyString, Sequenced, Placed, Text, Seal;
    RewritePlaced(s, s.acc[k], b);
    RewriteSequence(s, s.acc[k], b);
    SealPlaced(Rewrite(s, s.acc[k], b), k);
    SealSequence(Rewrite(s, s.acc[k], b), k);
    SealText(Rewrite(s, s.acc[k], b), k, j);
  }

  lemma {:induction false} AwaySame(s: State, t: State)
    requires Elsewhere(t) == Elsewhere(s) && t.queue == s.queue
    ensures Away(t) == Away(s)
  {
    forall x: nat ensures Away(t)[x] == Away(s)[x] {
      assert Elsewhere(s)[x] == multiset(s.queue)[x] + Away(s)[x];
      assert Elsewhere(t)[x] == multiset(t.queue)[x] + Away(t)[x];
    }
  }

  ghost predicate SameLogs(s: State, t: State) {
    && |t.batches| == |s.batches| && t.enq == s.enq && t.acc == s.acc && t.accepted == s.accepted
    && (forall id :: 0 <= id < |s.batches| ==>
          t.batches[id].destination == s.batches[id].destination && t.batches[id].logs == s.batches[id].logs)
  }

  lemma {:induction false} SameText(s: State, t: State, j: string)
    requires SameLogs(s, t)
    ensures Text(t, j) == Text(s, j)
  {
    hide GetKeyString;
    forall id: nat ensures Logs(t.batches, id, j) == Logs(s.batches, id, j) {
      if id < |s.batches| { assert t.batches[id].logs == s.batches[id].logs; }
    }
    QueuedFrame(s.batches, t.batches, s.enq, j);
  }

  lemma {:induction false} CarriesLogs(c: Config, s: State, l: Label)
    requires Enabled(c, s, l) && Named(s) && Carries(l)
    ensures SameLogs(s, Apply(c, s, l))
  {
    StepBatches(c, s, l);
    CarriesKeeps(c, s, l);
    hide Apply, Enabled, Named;
  }

  lemma {:induction false} CarriesQueue(c: Config, s: State, l: Label)
    requires Enabled(c, s, l) && Named(s) && Carries(l) && !l.MoverPut? && !l.PoolPop?
    ensures Apply(c, s, l).queue == s.queue && Apply(c, s, l).started == s.started && Apply(c, s, l).enq == s.enq
  {
    hide Commit, Seal, OnError, Named;
  }

  lemma {:induction false} CarriesSequence(c: Config, s: State, l: Label)
    requires Enabled(c, s, l) && Named(s) && Carries(l) && Placed(s) && Sequenced(s)
    ensures Sequenced(Apply(c, s, l))
  {
    if l.MoverPut? {
      PutSequence(s);
    } else if l.PoolPop? {
      PopSequence(s);
    } else {
      CarriesOver(c, s, l);
      CarriesQueue(c, s, l);
      AwaySame(s, Apply(c, s, l));
      hide *;
      SameSequence(s, Apply(c, s, l));
    }
  }

  lemma {:induction false} StepText(c: Config, s: State, l: Label, j: string)
    requires Placed(s) && Named(s) && Sequenced(s) && Enabled(c, s, l) && LogsFor(s.accepted, j) == Text(s, j)
    ensures Sequenced(Apply(c, s, l)) && LogsFor(Apply(c, s, l).accepted, j) == Text(Apply(c, s, l), j)
  {
    hide Sequenced, Placed, Named, Text, LogsFor, Commit, Seal, GetKeyString;
    if Carries(l) {
      CarriesSequence(c, s, l);
      CarriesLogs(c, s, l);
      SameText(s, Apply(c, s, l), j);
    } else {
      match l
      case SendCommit(d, logs, groupSize, wants) =>
        CommitOrder(c, s, d, Submission(logs, groupSize, if wants then Some(|s.owner|) else None), j);
      case MoverFlush(k) => SealSequence(s, k); SealText(s, k, j); SealAcceptedToo(s, k);
      case MoverDrain(k) => SealSequence(s, k); SealText(s, k, j); SealAcceptedToo(s, k);
    }
  }

  lemma {:induction false} SealAcceptedToo(s: State, k: string)
    requires k in s.acc
    ensures Seal(s, k).accepted == s.accepted
  {
  }

  lemma {:induction false} StepWorded(c: Config, s: State, l: Label)
    requires Placed(s) && Named(s) && Sequenced(s) && Worded(s) && Enabled(c, s, l)
    ensures Sequenced(Apply(c, s, l)) && Worded(Apply(c, s, l))
  {
    StepText(c, s, l, "");
    forall j ensures LogsFor(Apply(c, s, l).accepted, j) == Text(Apply(c, s, l), j) {
      assert LogsFor(s.accepted, j) == Text(s, j);
      StepText(c, s, l, j);
    }
  }

  // ---------------------------------------------------------------- destinations

  ghost predicate OwnLogs(b: Batch) {
    forall i :: 0 <= i < |b.from| ==> GetKeyString(b.from[i]) == KeyOf(b)
  }

  /** A batch holds only what was submitted under its key. */
  ghost predicate Addressed(s: State) {
    forall id: nat :: id < |s.batches| ==> OwnLogs(s.batches[id])
  }

  lemma {:induction false} AbsorbAddressed(c: Config, open: Option<Batch>, d: Destination, sub: Submission)
    requires open.Some? ==> OwnLogs(open.value) && KeyOf(open.value) == GetKeyString(d)
    ensures Absorb(c, open, d, sub).open.Some? ==> OwnLogs(Absorb(c, open, d, sub).open.value)
    ensures Absorb(c, open, d, sub).sent.Some? ==> OwnLogs(Absorb(c, open, d, sub).sent.value)
  {
    hide GetKeyString;
  }

  lemma {:induction false} CommitAddressed(c: Config, s: State, d: Destination, sub: Submission)
    requires Placed(s) && Addressed(s)
    ensures Addressed(Commit(c, s, d, sub))
  {
    AbsorbAddressed(c, OpenBatch(s, GetKeyString(d)), d, sub);
    CommitBatches(c, s, d, sub);
    hide GetKeyString, Absorb, Commit, OwnLogs;
  }

  lemma {:induction false} StepAddressed(c: Config, s: State, l: Label)
    requires Placed(s) && Named(s) && Addressed(s) && Enabled(c, s, l)
    ensures Addressed(Apply(c, s, l))
  {
    if l.SendCommit? {
      CommitAddressed(c, s, l.d, Submission(l.logs, l.groupSize, if l.wantsCallback then Some(|s.owner|) else None));
    } else {
      StepBatches(c, s, l);
      var t := Apply(c, s, l);
      hide *;
      SameAddressed(s, t);
    }
  }

  lemma {:induction false} SameAddressed(s: State, t: State)
    requires Addressed(s) && OnlyAttempts(s, t)
    ensures Addressed(t)
  {
    hide GetKeyString;
    forall id: nat | id < |t.batches| ensures OwnLogs(t.batches[id]) {
      assert OwnLogs(s.batches[id]);
    }
  }
}
