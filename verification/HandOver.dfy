/**
 * Hand-over of shards: the heartbeat reports what it holds and what it held, the outer loop creates and cleans
 * up workers from its own snapshot. A shard that is worked on must be reported, or the service gives it away.
 */
module HandOver {
  import opened Shards
  import opened Wire

  /** Where the heartbeat is: between beats; with the list to report collected; with it stored and the request out. */
  datatype BeatPc = Between | Collected(upload: seq<int>) | Requested

  datatype OuterPc = Creating | Cleaning

  /**
   * workers: per shard, whether its worker is SHUTDOWN_COMPLETE. snap: the outer loop's copy of heldShards.
   * asked: shards whose worker was told to shut down. History: rejected, whose worker's checkpoint the service
   * rejected; gone, taken out of heartShards and not stored in it again since.
   */
  datatype State = State(
    heart: seq<int>, held: seq<int>, beat: BeatPc, outer: OuterPc, snap: seq<int>, workers: map<int, bool>,
    asked: set<int>, rejected: set<int>, gone: set<int>)

  const INIT := State([], [], Between, Cleaning, [], map[], {}, {}, {})

  datatype Label =
    | Collect
    | Store
    | Respond(shards: seq<int>)
    | FailBeat(timedOut: bool)
    | TakeSnapshot
    | Create(s: int)
    | StartCleaning
    | AskShutDown(a: int)
    | CompleteWorker(done: int)
    | CleanUp(c: int)
    | RejectCheckPoint(r: int)

  predicate Enabled(s: State, l: Label) {
    match l
    case Collect => s.beat.Between?
    case Store => s.beat.Collected?
    case Respond(_) => s.beat.Requested?
    case FailBeat(_) => s.beat.Requested?
    case TakeSnapshot => s.outer.Cleaning?
    case Create(x) => s.outer.Creating? && x in s.snap && x !in s.workers
    case StartCleaning => s.outer.Creating?
    case AskShutDown(x) => s.outer.Cleaning? && x in s.workers && x !in s.snap
    case CompleteWorker(x) => x in s.workers && x in s.asked
    case CleanUp(x) => s.outer.Cleaning? && x in s.workers && s.workers[x]
    case RejectCheckPoint(x) => x in s.workers && !s.workers[x]
  }

  /** `removeHeartShard` */
  function Removed(s: State, x: int): State {
    s.(heart := Without(s.heart, x), gone := if x in s.heart then s.gone + {x} else s.gone)
  }

  function Apply(s: State, l: Label): State
    requires Enabled(s, l)
  {
    match l
    case Collect => s.(beat := Collected(s.heart + s.held))
    case Store => s.(heart := Unique(s.beat.upload), beat := Requested, gone := s.gone - (set x | x in s.beat.upload))
    case Respond(shards) => s.(held := shards, beat := Between)
    case FailBeat(timedOut) => s.(held := if timedOut then [] else s.held, beat := Between)
    case TakeSnapshot => s.(snap := s.held, outer := Creating)
    case Create(x) => s.(workers := s.workers[x := false], asked := s.asked - {x}, rejected := s.rejected - {x})
    case StartCleaning => s.(outer := Cleaning)
    case AskShutDown(x) => s.(asked := s.asked + {x})
    case CompleteWorker(x) => s.(workers := s.workers[x := true])
    case CleanUp(x) => if x in s.heart then Removed(s, x).(workers := s.workers - {x}) else s
    case RejectCheckPoint(x) => Removed(s, x).(rejected := s.rejected + {x})
  }

  /** Hand-over safety: a shard with a worker that is not complete is in heartShards or heldShards. */
  predicate Live(s: State, x: int) {
    x in s.workers && !s.workers[x] && x !in s.rejected
  }

  predicate Reported(s: State, x: int) {
    x in s.heart || x in s.held
  }

  ghost predicate Safe(s: State) {
    forall x :: Live(s, x) ==> Reported(s, x)
  }

  // ------------------------------------------------------------------- invariants

  /** What no answer of the service can take away: while a request is out, only what is in heartShards. */
  predicate Protected(s: State, x: int) {
    x in s.heart || (!s.beat.Requested? && x in s.held)
  }

  ghost predicate SafeForGood(s: State) {
    forall x :: Live(s, x) ==> Protected(s, x)
  }

  /** The snapshot names only shards that are protected, or gone from heartShards since they were last stored. */
  ghost predicate Lists(s: State) {
    && Distinct(s.heart)
    && (s.beat.Collected? ==> forall x :: x in s.heart || x in s.held ==> x in s.beat.upload)
    && (s.beat.Requested? ==> forall x :: x in s.held ==> x in s.heart || x in s.gone)
    && (forall x :: x in s.snap ==> Protected(s, x) || x in s.gone)
    && (forall x :: x in s.gone ==> x !in s.heart)
    && (forall x :: x in s.workers && s.workers[x] ==> x in s.asked)
  }

  lemma {:induction false} StepLists(s: State, l: Label)
    requires Lists(s) && Enabled(s, l)
    ensures Lists(Apply(s, l))
  {
    if l.Store? { UniqueIsSet(s.beat.upload); }
    if l.CleanUp? { WithoutGone(s.heart, l.c); }
    if l.RejectCheckPoint? { WithoutGone(s.heart, l.r); }
    hide Distinct, Unique, Without;
  }

  /** Every step keeps safety, except the creation of a worker for an unprotected shard. */
  lemma {:induction false} StepSafe(s: State, l: Label)
    requires Lists(s) && SafeForGood(s) && Enabled(s, l)
    requires l.Create? ==> Protected(s, l.s)
    ensures SafeForGood(Apply(s, l))
  {
    if l.Store? { UniqueIsSet(s.beat.upload); }
    if l.CleanUp? { WithoutGone(s.heart, l.c); }
    if l.RejectCheckPoint? { WithoutGone(s.heart, l.r); }
    hide Distinct, Unique, Without;
    var t := Apply(s, l);
    forall x | Live(t, x) ensures Protected(t, x) {
      assert Live(s, x) || (l.Create? && l.s == x);
    }
  }

  // ------------------------------------------------------------------------- runs

  function After(s: State, ls: seq<Label>): Option<State>
    decreases |ls|
  {
    if ls == [] then Some(s) else if Enabled(s, ls[0]) then After(Apply(s, ls[0]), ls[1..]) else None
  }

  /** Every worker is created for a protected shard. */
  predicate CreatesProtected(s: State, ls: seq<Label>)
    decreases |ls|
  {
    ls == [] || (Enabled(s, ls[0]) && (ls[0].Create? ==> Protected(s, ls[0].s))
      && CreatesProtected(Apply(s, ls[0]), ls[1..]))
  }

  lemma {:induction false} RunSafe(s: State, ls: seq<Label>, t: State)
    requires Lists(s) && SafeForGood(s) && After(s, ls) == Some(t) && CreatesProtected(s, ls)
    ensures Lists(t) && SafeForGood(t)
    decreases |ls|
  {
    hide Lists, SafeForGood, Apply, Protected;
    if ls != [] {
      StepLists(s, ls[0]);
      StepSafe(s, ls[0]);
      RunSafe(Apply(s, ls[0]), ls[1..], t);
    }
  }

  /**
   * Hand-over safety: in every run that creates workers for protected shards only, every shard being worked on
   * is reported, those with a rejected checkpoint apart.
   */
  lemma {:induction false} HandOverSafe(ls: seq<Label>, t: State)
    requires After(INIT, ls) == Some(t) && CreatesProtected(INIT, ls)
    ensures Safe(t)
  {
    hide After, CreatesProtected;
    RunSafe(INIT, ls, t);
  }

  lemma {:induction false} RunLists(s: State, ls: seq<Label>, t: State)
    requires Lists(s) && After(s, ls) == Some(t)
    ensures Lists(t)
    decreases |ls|
  {
    hide Lists, Apply;
    if ls != [] {
      StepLists(s, ls[0]);
      RunLists(Apply(s, ls[0]), ls[1..], t);
    }
  }

  /**
   * A shard the outer loop may create a worker for is protected, unless it was taken out of heartShards and not stored
   * since.
   */
  lemma {:induction false} UnprotectedIsGone(ls: seq<Label>, t: State, x: int)
    requires After(INIT, ls) == Some(t) && Enabled(t, Create(x))
    ensures Protected(t, x) || (x in t.gone && x !in t.heart)
  {
    hide After;
    RunLists(INIT, ls, t);
  }

  /**
   * The condition is needed: after a creation for an unprotected shard the service's next answer can leave it
   * unreported.
   */
  lemma {:induction false} UnprotectedCreate(s: State, x: int)
    requires Enabled(s, Create(x)) && !Protected(s, x)
    ensures var t := Apply(s, Create(x));
            Live(t, x) && (!Reported(t, x) || (t.beat.Requested? && !Reported(Apply(t, Respond([])), x)))
  {
  }

  lemma {:induction false} OneMore(s: State, ls: seq<Label>, t: State, l: Label)
    requires After(s, ls) == Some(t) && Enabled(t, l)
    ensures After(s, ls + [l]) == Some(Apply(t, l))
    decreases |ls|
  {
    hide Apply, Enabled;
    if ls == [] {
      assert ls + [l] == [l];
      assert After(Apply(t, l), []) == Some(Apply(t, l));
    } else {
      OneMore(Apply(s, ls[0]), ls[1..], t, l);
      assert (ls + [l])[1..] == ls[1..] + [l];
    }
  }

  lemma {:induction false} Go(ls: seq<Label>, s: State, l: Label) returns (ms: seq<Label>, t: State)
    requires After(INIT, ls) == Some(s) && Enabled(s, l)
    ensures After(INIT, ms) == Some(t) && t == Apply(s, l)
  {
    OneMore(INIT, ls, s, l);
    ms, t := ls + [l], Apply(s, l);
  }

  lemma {:induction false} Nothing()
    ensures After(INIT, []) == Some(INIT)
  {
  }

  /** A beat: collect, store, answer. */
  lemma {:induction false} Beat(ls: seq<Label>, s: State, shards: seq<int>) returns (ms: seq<Label>, t: State)
    requires After(INIT, ls) == Some(s) && s.beat.Between?
    ensures After(INIT, ms) == Some(t)
    ensures t == s.(heart := Unique(s.heart + s.held), held := shards, gone := t.gone)
    ensures forall x :: x in t.gone ==> x in s.gone
  {
    hide After;
    ms, t := Go(ls, s, Collect);
    ms, t := Go(ms, t, Store);
    ms, t := Go(ms, t, Respond(shards));
  }

  /** A beat without an answer: what was held is reported and kept, or given up when it took too long. */
  lemma {:induction false} FailedBeat(ls: seq<Label>, s: State, timedOut: bool) returns (ms: seq<Label>, t: State)
    requires After(INIT, ls) == Some(s) && s.beat.Between?
    ensures After(INIT, ms) == Some(t)
    ensures t == s.(heart := Unique(s.heart + s.held), held := if timedOut then [] else s.held, gone := t.gone)
  {
    hide After;
    ms, t := Go(ls, s, Collect);
    ms, t := Go(ms, t, Store);
    ms, t := Go(ms, t, FailBeat(timedOut));
  }

  lemma {:induction false} UniqueOne(x: int)
    ensures Unique([]) == [] && Unique([x]) == [x] && Without([x], x) == []
  {
    assert [x][..0] == [];
  }

  /** Shard 7 is assigned, worked on, taken away, and its worker is complete; then it is assigned again. */
  lemma {:induction false} AssignedAgain() returns (ls: seq<Label>, s: State)
    ensures After(INIT, ls) == Some(s)
    ensures s == State([7], [7], Between, Cleaning, [], map[7 := true], {7}, {}, s.gone)
  {
    hide After, Unique, Without;
    Nothing();
    UniqueOne(7);
    ls, s := Beat([], INIT, [7]);
    assert s.heart == [] by { assert INIT.heart + INIT.held == []; }
    ls, s := Go(ls, s, TakeSnapshot);
    ls, s := Go(ls, s, Create(7));
    ls, s := Go(ls, s, StartCleaning);
    ls, s := Beat(ls, s, []);
    assert s.heart == [7] by { assert [] + [7] == [7]; }
    ls, s := Go(ls, s, TakeSnapshot);
    ls, s := Go(ls, s, StartCleaning);
    ls, s := Go(ls, s, AskShutDown(7));
    ls, s := Go(ls, s, CompleteWorker(7));
    ls, s := Beat(ls, s, [7]);
    assert s.heart == [7] by { assert [7] + [] == [7]; }
  }

  /**
   * While the next request is out the outer loop cleans the complete worker up and takes a snapshot that still
   * names the shard; the answer takes the shard away; the worker created from the snapshot is not reported.
   */
  lemma {:induction false} Unreported()
    ensures exists ls, s :: After(INIT, ls) == Some(s) && Live(s, 7) && !Reported(s, 7)
  {
    hide After, Unique, Without;
    UniqueOne(7);
    var ls, s := AssignedAgain();
    ls, s := Go(ls, s, Collect);
    ls, s := Go(ls, s, Store);
    assert s.heart == [7] by { BothSevens(); }
    ls, s := Go(ls, s, CleanUp(7));
    ls, s := Go(ls, s, TakeSnapshot);
    ls, s := Go(ls, s, Respond([]));
    ls, s := Go(ls, s, Create(7));
    assert Live(s, 7) && !Reported(s, 7);
  }

  lemma {:induction false} BothSevens()
    ensures Unique([7] + [7]) == [7]
  {
    assert ([7] + [7])[..1] == [7];
    UniqueOne(7);
  }

  /** In every run a worker is complete only after it was told to shut down, which happens to unowned shards only. */
  lemma {:induction false} CompleteWasAsked(ls: seq<Label>, s: State, l: Label, x: int)
    requires After(INIT, ls) == Some(s)
    ensures x in s.workers && s.workers[x] ==> x in s.asked
    ensures Enabled(s, l) && x in Apply(s, l).asked && x !in s.asked ==> x in s.workers && x !in s.snap
    ensures Enabled(s, l) && l == Create(x) ==> Live(Apply(s, l), x) && x !in Apply(s, l).asked
  {
    hide After;
    RunLists(INIT, ls, s);
  }

  /** A worker cleaned up is forgotten exactly if its shard was still reported; afterwards the shard is not. */
  lemma {:induction false} CleanUpExactly(s: State, x: int)
    requires Lists(s) && Enabled(s, CleanUp(x))
    ensures var t := Apply(s, CleanUp(x));
            && (x !in t.workers <==> x in s.heart)
            && x !in t.heart && forall y :: y != x ==> (y in t.heart <==> y in s.heart)
  {
    WithoutGone(s.heart, x);
    hide Distinct, Without;
  }

  /** A rejected checkpoint takes the shard off the report, the worker going on. */
  lemma {:induction false} RejectedUnreported(s: State, x: int)
    requires Lists(s) && Enabled(s, RejectCheckPoint(x))
    ensures var t := Apply(s, RejectCheckPoint(x));
            && t.workers == s.workers
            && x !in t.heart && forall y :: y != x ==> (y in t.heart <==> y in s.heart)
  {
    WithoutGone(s.heart, x);
    hide Distinct, Without;
  }

  /** When heartbeats have failed for too long, every worker can be told to shut down from the next snapshot on. */
  lemma {:induction false} TimeoutReleasesAll(s: State, x: int)
    requires Enabled(s, FailBeat(true)) && s.outer.Cleaning? && x in s.workers
    ensures After(s, [FailBeat(true), TakeSnapshot, StartCleaning]).Some?
    ensures Enabled(After(s, [FailBeat(true), TakeSnapshot, StartCleaning]).value, AskShutDown(x))
  {
    var a := Apply(s, FailBeat(true));
    var b := Apply(a, TakeSnapshot);
    var ls := [FailBeat(true), TakeSnapshot, StartCleaning];
    assert ls[1..] == [TakeSnapshot, StartCleaning] && ls[1..][1..] == [StartCleaning] && ls[1..][1..][1..] == [];
    assert After(b, ls[1..][1..]) == Some(Apply(b, StartCleaning));
  }
}
