/** Three runs in which SafeClose returns and leaves a batch behind whose callback is never called. */
module Stranded {
  import opened Wire
  import opened ProducerRules
  import opened Pipeline
  import opened Placement
  import opened ProducerRuns

  const HERE := Destination("p", "l", "t", "", "s")
  const ONE := SendCommit(HERE, [LogItem(0, 1)], 10, true)
  const KEY := GetKeyString(HERE)

  /** The first batch, and the state after one accepted submission, at some point of closing. */
  function Fresh1(): Batch {
    NewBatch(HERE, Submission([LogItem(0, 1)], 10, Some(0)))
  }

  function Accepted1(): State {
    INIT.(batches := [Fresh1()], acc := map[KEY := 0], owner := [0], fires := [[]],
      accepted := [Accepted(KEY, [LogItem(0, 1)])],
          sends := [0])
  }

  lemma {:induction false} Commit1(c: Config)
    ensures Apply(c, INIT.(pending := 1), ONE) == Accepted1()
  {
    hide GetKeyString;
    var s := INIT.(pending := 1);
    var sub := Submission([LogItem(0, 1)], 10, Some(0));
    assert Absorb(c, OpenBatch(s, KEY), HERE, sub) == Absorbed(Some(Fresh1()), None);
    var t := Apply(c, s, ONE);
    assert t.batches == [Fresh1()] && t.owner == [0] && t.fires == [[]] && t.sends == [0];
    assert t.accepted == [Accepted(KEY, [LogItem(0, 1)])];
  }

  lemma {:induction false} SendOne(c: Config)
    ensures After(c, INIT, [SendBegin, ONE]) == Some(Accepted1())
  {
    Commit1(c);
    hide Apply;
    assert Apply(c, INIT, SendBegin) == INIT.(pending := 1) by { Begin1(c); }
    assert [SendBegin, ONE][1..] == [ONE];
    assert [ONE][1..] == [];
    assert After(c, Accepted1(), []) == Some(Accepted1());
    assert After(c, INIT.(pending := 1), [ONE]) == Some(Accepted1());
  }

  lemma {:induction false} Begin1(c: Config)
    ensures Apply(c, INIT, SendBegin) == INIT.(pending := 1)
  {
    hide Commit;
  }

  /** SafeClose up to its third flag. */
  lemma {:induction false} TellAll(c: Config, ls: seq<Label>, s: State) returns (ms: seq<Label>, t: State)
    requires After(c, INIT, ls) == Some(s) && s.close.NotClosing? && Named(s)
    ensures After(c, INIT, ms) == Some(t) && t == s.(close := RetryTold)
  {
    hide After, Commit;
    ms, t := Go(c, ls, s, CloseNext);
    ms, t := Go(c, ms, t, CloseNext);
    ms, t := Go(c, ms, t, CloseNext);
  }

  /** The mover stops, finding nothing open and nothing to retry. */
  lemma {:induction false} StopMover(c: Config, ls: seq<Label>, s: State) returns (ms: seq<Label>, t: State)
    requires After(c, INIT, ls) == Some(s) && s.mover.DrainingAcc? && s.acc == map[] && s.retry == multiset{}
         && s.hand == [] && Named(s)
    ensures After(c, INIT, ms) == Some(t) && t == s.(mover := Stopped, latePushes := multiset{}, mark := |s.batches|)
  {
    hide After, Commit;
    ms, t := Go(c, ls, s, MoverDrainEnd);
    ms, t := Go(c, ms, t, MoverDrainRetry([]));
    assert t == s.(mover := LastTasks, latePushes := multiset{}, mark := |s.batches|);
    ms, t := Go(c, ms, t, MoverExit);
  }

  /** The pool goes, and SafeClose comes to its end. */
  lemma {:induction false} Finish(c: Config, ls: seq<Label>, s: State) returns (ms: seq<Label>, t: State)
    requires After(c, INIT, ls) == Some(s) && s.mover.Stopped? && s.close.RetryTold? && s.pool.SawEmpty? && Named(s)
    requires s.sending == multiset{} && s.failing == multiset{}
    ensures After(c, INIT, ms) == Some(t) && t == s.(close := Closed, pool := Exited)
  {
    hide After, Commit;
    ms, t := Go(c, ls, s, CloseNext);
    ms, t := Go(c, ms, t, PoolCheck);
    ms, t := Go(c, ms, t, CloseNext);
    ms, t := Go(c, ms, t, CloseNext);
  }

  /**
   * The pool finds the queue empty; before it looks at its flag the mover queues its last batch and stops, and
   * SafeClose stores the flag. The pool leaves, the batch stays queued and its callback is never called.
   */
  lemma {:induction false} StrandedInQueue(c: Config)
    ensures exists ls, s ::
              && After(c, INIT, ls) == Some(s) && s.close.Closed?
              && !s.lateCommit && s.latePushes == multiset{} && s.queue == [0] && s.fires == [[]]
  {
    hide After, Commit, GetKeyString, Fresh1;
    SendOne(c);
    var ls, s := [SendBegin, ONE], Accepted1();
    ls, s := Go(c, ls, s, PoolPopEmpty);
    ls, s := TellAll(c, ls, s);
    ls, s := Go(c, ls, s, MoverStop);
    ls, s := Go(c, ls, s, MoverDrain(KEY));
    assert s.acc == map[];
    ls, s := StopMover(c, ls, s);
    ls, s := Finish(c, ls, s);
  }

  /** One batch on its way to the service. */
  lemma {:induction false} SendingOne(c: Config) returns (ls: seq<Label>, s: State)
    requires Validated(c)
    ensures After(c, INIT, ls) == Some(s)
    ensures s == Accepted1().(acc := map[], sending := multiset{0}, enq := [0], started := [0], sends := [1])
  {
    hide After, Commit, GetKeyString, Fresh1;
    SendOne(c);
    ls, s := [SendBegin, ONE], Accepted1();
    ls, s := Go(c, ls, s, MoverFlush(KEY));
    assert s.acc == map[];
    ls, s := Go(c, ls, s, PoolPop);
    assert s.queue == [];
    ls, s := Go(c, ls, s, PoolStart);
  }

  /** Sent once in vain, about to be pushed back. */
  lemma {:induction false} FailOne(c: Config) returns (ls: seq<Label>, s: State)
    requires Validated(c) && c.retries >= 1
    ensures After(c, INIT, ls) == Some(s)
    ensures s == Accepted1().(batches := [AddError(c, Fresh1())], acc := map[], failing := multiset{0}, enq := [0],
                              started := [0], sends := [1])
  {
    hide After, Commit, GetKeyString;
    ls, s := SendingOne(c);
    ls, s := Go(c, ls, s, SendFails(0, false));
    assert s.failing == multiset{0} && s.sending == multiset{};
  }

  /**
   * A send fails before the retry flag is set, and is pushed back after the mover's last look at the retry
   * queue: nobody will take it from there.
   */
  lemma {:induction false} StrandedInRetry(c: Config)
    requires Validated(c) && c.retries >= 1
    ensures exists ls, s :: After(c, INIT, ls) == Some(s) && s.close.Closed? && !s.lateCommit && s.lateAdds == []
                            && s.retry == multiset{0} && s.fires == [[]]
  {
    hide After, Commit, GetKeyString, AddError;
    var ls, s := FailOne(c);
    ls, s := TellAll(c, ls, s);
    ls, s := Go(c, ls, s, MoverStop);
    ls, s := StopMover(c, ls, s);
    ls, s := Go(c, ls, s, RetryPush(0));
    assert s.failing == multiset{} && s.retry == multiset{0};
    ls, s := Go(c, ls, s, PoolPopEmpty);
    ls, s := Finish(c, ls, s);
  }

  /**
   * A sender passes the shutdown check, the mover looks at the accumulator for the last time, and the log is
   * accepted after that: Send reports success, and the batch is never sent.
   */
  lemma {:induction false} StrandedInAccumulator(c: Config)
    ensures exists ls, s ::
              && After(c, INIT, ls) == Some(s) && s.close.Closed?
              && s.lateAdds == [] && s.latePushes == multiset{} && s.acc == map[KEY := 0] && s.fires == [[]]
  {
    hide After, GetKeyString;
    assert After(c, INIT, []) == Some(INIT) by { AfterNone(c); }
    var ls, s := [], INIT;
    ls, s := Go(c, ls, s, SendBegin);
    ls, s := TellAll(c, ls, s);
    ls, s := Go(c, ls, s, MoverStop);
    ls, s := StopMover(c, ls, s);
    ls, s := Go(c, ls, s, ONE);
    assert s.fires == [[]] && s.acc == map[KEY := 0] && s.batches == [Fresh1()];
    ls, s := Go(c, ls, s, PoolPopEmpty);
    ls, s := Finish(c, ls, s);
  }
}
