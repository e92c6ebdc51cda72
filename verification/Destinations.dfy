/** Which destinations share batches: exactly those with one key. */
module Destinations {
  import opened Wire
  import opened ProducerRules
  import opened Pipeline
  import opened Placement
  import opened KeyOrder
  import opened ProducerRuns

  /** In some run a submission for e is in a batch that goes to d. */
  ghost predicate CanJoin(c: Config, d: Destination, e: Destination) {
    exists ls, s :: After(c, INIT, ls) == Some(s) && Joined(s, d, e)
  }

  ghost predicate Joined(s: State, d: Destination, e: Destination) {
    exists b :: b in s.batches && b.destination == d && e in b.from
  }

  /** A submission without a callback. */
  function NoCallback(logs: seq<LogItem>, groupSize: nat): Submission {
    Submission(logs, groupSize, None)
  }

  /** A batch begun for d, and what it is with logs for e in it. */
  function First(d: Destination, begun: Submission): Batch {
    NewBatch(d, begun)
  }

  function Second(d: Destination, begun: Submission, e: Destination, added: Submission): Batch {
    Appended(First(d, begun).(totalDataSize := begun.groupSize + LogBytes(added.logs)), e, added)
  }

  lemma {:induction false} FirstOpens(c: Config, d: Destination, begun: Submission)
    ensures Absorb(c, None, d, begun) == Absorbed(Some(First(d, begun)), None)
  {
  }

  lemma {:induction false} SecondJoins(c: Config, d: Destination, begun: Submission, e: Destination, added: Submission)
    requires Validated(c) && |begun.logs| < c.maxBatchCount && begun.groupSize + LogBytes(added.logs) < FIVE_MIB
    ensures var r, b := Absorb(c, Some(First(d, begun)), e, added), Second(d, begun, e, added);
            r == Absorbed(Some(b), None) || r == Absorbed(None, Some(b))
  {
  }

  /** Two senders are under way, and the first is done. */
  lemma {:induction false} SendFirst(c: Config, d: Destination, begun: Submission) returns (ls: seq<Label>, s: State)
    requires begun.callback == None
    ensures After(c, INIT, ls) == Some(s) && s.pending == 1 && s.mover.Looping? && Named(s)
    ensures s.batches == [First(d, begun)] && s.acc == map[GetKeyString(d) := 0]
  {
    hide After, GetKeyString, Absorb;
    AfterNone(c);
    FirstOpens(c, d, begun);
    ls, s := Go(c, [], INIT, SendBegin);
    ls, s := Go(c, ls, s, SendBegin);
    ls, s := Go(c, ls, s, SendCommit(d, begun.logs, begun.groupSize, false));
  }

  /**
   * Of two destinations with one key, logs for e sent while a batch for d is open go to d, whichever logs they
   * are, as long as they fit in.
   */
  lemma {:induction false} SentElsewhere(
    c: Config, d: Destination, begun: Submission, e: Destination, added: Submission)
    requires Validated(c) && GetKeyString(d) == GetKeyString(e) && begun.callback == None && added.callback == None
    requires |begun.logs| < c.maxBatchCount && begun.groupSize + LogBytes(added.logs) < FIVE_MIB
    ensures exists ls, s :: After(c, INIT, ls) == Some(s) && |s.batches| == 1 && s.batches[0].destination == d
                            && s.batches[0].from == [d, e] && s.batches[0].logs == begun.logs + added.logs
  {
    hide After, GetKeyString, Absorb, Named, Validated;
    SecondJoins(c, d, begun, e, added);
    var ls, s := SendFirst(c, d, begun);
    ls, s := Go(c, ls, s, SendCommit(e, added.logs, added.groupSize, false));
    assert s.batches == [Second(d, begun, e, added)];
  }

  /** A log for one destination can go to another exactly if the two have one key. */
  lemma {:induction false} JoinsIffOneKey(c: Config, d: Destination, e: Destination)
    requires Validated(c)
    ensures CanJoin(c, d, e) <==> GetKeyString(d) == GetKeyString(e)
  {
    hide GetKeyString, After, Validated;
    if GetKeyString(d) == GetKeyString(e) {
      AtLeastOneLog(c);
      SentElsewhere(c, d, NoCallback([], 20), e, NoCallback([LogItem(0, 10)], 30));
      var ls, s :| After(c, INIT, ls) == Some(s) && |s.batches| == 1 && s.batches[0].destination == d
        && s.batches[0].from == [d, e];
      assert s.batches[0] in s.batches && e == s.batches[0].from[1];
      assert Joined(s, d, e);
    }
    forall ls, s | After(c, INIT, ls) == Some(s) && Joined(s, d, e) ensures GetKeyString(d) == GetKeyString(e) {
      JoinedOneKey(c, ls, s, d, e);
    }
  }

  lemma {:induction false} AtLeastOneLog(c: Config)
    requires Validated(c)
    ensures 0 < c.maxBatchCount && LogBytes([LogItem(0, 10)]) == 10
  {
  }

  lemma {:induction false} JoinedOneKey(c: Config, ls: seq<Label>, s: State, d: Destination, e: Destination)
    requires Validated(c) && After(c, INIT, ls) == Some(s) && Joined(s, d, e)
    ensures GetKeyString(d) == GetKeyString(e)
  {
    hide GetKeyString, After, Validated;
    var b :| b in s.batches && b.destination == d && e in b.from;
    var id :| 0 <= id < |s.batches| && s.batches[id] == b;
    var i :| 0 <= i < |b.from| && b.from[i] == e;
    OwnKey(c, ls, s, id, i);
  }

  /** In every run every log for e goes to e, exactly if no field of e holds the delimiter. */
  lemma {:induction false} OwnDestination(c: Config, e: Destination)
    requires Validated(c)
    ensures (forall d :: CanJoin(c, d, e) ==> d == e) <==> Undelimited(e)
  {
    hide GetKeyString, CanJoin, Undelimited, Validated;
    KeyCollision(e);
    forall d ensures CanJoin(c, d, e) <==> GetKeyString(d) == GetKeyString(e) { JoinsIffOneKey(c, d, e); }
    if exists d :: d != e && GetKeyString(d) == GetKeyString(e) {
      var d :| d != e && GetKeyString(d) == GetKeyString(e);
      assert CanJoin(c, d, e);
    }
  }
}
