/**
 * A shard consumed by a consumer group over its whole life: workers come, crash and are replaced, updates of
 * the checkpoint are delayed, lost, repeated and reordered. What lies before the stored checkpoint was processed.
 */
module AtLeastOnce {
  import opened Wire
  import opened ShardWorkers

  /** A stored checkpoint, and (history) the cursor its line of consumption first started from. */
  datatype CheckPoint = CheckPoint(cursor: nat, base: nat)

  /** One life of a worker for the shard: anywhere in the group, until it crashes. base: history, as above. */
  datatype Life = Life(w: Worker, alive: bool, base: nat)

  /**
   * stored: the checkpoint the service keeps. sent: every update that left a worker. firstStarts: the cursors
   * workers started from for want of a checkpoint. processed: the positions the user's function has dealt with.
   */
  datatype System = System(
    lives: seq<Life>, stored: Option<CheckPoint>, sent: set<CheckPoint>, firstStarts: seq<nat>, processed: iset<nat>)

  const EMPTY := System([], None, {}, [], iset{})

  datatype SystemLabel =
    | Spawn
    | Crash(i: nat)
    | Arrive(update: CheckPoint)
    | Local(k: nat, l: WorkerLabel)

  /** Positions of a range that hold log groups in question; a shard may hold others besides. */
  ghost function Wanted(logs: iset<nat>, lo: nat, hi: nat): iset<nat> {
    iset x | x in logs && lo <= x < hi
  }

  /** What the service and the user's function may do. logs: the positions of the log groups in question. */
  ghost predicate Allowed(logs: iset<nat>, s: System, w: Worker, l: WorkerLabel) {
    match l
    case InitDone(_, FromCheckPoint(c)) => s.stored.Some? && s.stored.value.cursor == c
    case InitDone(_, FromCursor(_)) => s.stored.None?
    case PullDone(_, PullGot(hi), _) => w.nextFetchCursor <= hi
    case PullDone(_, PullEmpty(hi), _) => w.nextFetchCursor <= hi && Wanted(logs, w.nextFetchCursor, hi) == iset{}
    case ProcessDone(_, Returned(Some(c)), _) => c <= w.nextFetchCursor
    case _ => true
  }

  ghost predicate Possible(logs: iset<nat>, s: System, sl: SystemLabel) {
    match sl
    case Spawn => true
    case Crash(i) => i < |s.lives|
    case Arrive(m) => m in s.sent
    case Local(k, l) => k < |s.lives| && s.lives[k].alive && Can(s.lives[k].w, l) && Allowed(logs, s, s.lives[k].w, l)
  }

  /** What a returning call has dealt with: the list, up to the cursor it asks to go on from. */
  ghost function DealtWith(logs: iset<nat>, w: Worker, l: WorkerLabel): iset<nat> {
    if l.ProcessDone? && l.outcome.Returned? && w.list.Some? then
      var hi := if l.outcome.rollback.Some? && l.outcome.rollback.value < w.list.value.hi
                then l.outcome.rollback.value else w.list.value.hi;
      Wanted(logs, w.list.value.lo, hi)
    else iset{}
  }

  function NewBase(s: System, life: Life, l: WorkerLabel): nat {
    if l.InitDone? && l.init.FromCheckPoint? && s.stored.Some? then s.stored.value.base
    else if l.InitDone? && l.init.FromCursor? then l.init.cursor
    else life.base
  }

  ghost function Next(logs: iset<nat>, s: System, sl: SystemLabel): System
    requires Possible(logs, s, sl)
  {
    match sl
    case Spawn => s.(lives := s.lives + [Life(NEW_WORKER, true, 0)])
    case Crash(i) => s.(lives := s.lives[i := s.lives[i].(alive := false)])
    case Arrive(m) => s.(stored := Some(m))
    case Local(k, l) =>
      var life := s.lives[k];
      System(
        s.lives[k := Life(Do(life.w, l), true, NewBase(s, life, l))],
        s.stored,
        if l.FlushSend? && life.w.pending.Some? then s.sent + {CheckPoint(life.w.pending.value, life.base)} else s.sent,
        if l.InitDone? && l.init.FromCursor? then s.firstStarts + [l.init.cursor] else s.firstStarts,
        s.processed + DealtWith(logs, life.w, l))
  }

  // ------------------------------------------------------------------- invariant

  ghost predicate Covered(logs: iset<nat>, processed: iset<nat>, lo: nat, hi: nat) {
    Wanted(logs, lo, hi) <= processed
  }

  /** Up to its cursor, or to the list it holds, everything since base has been processed. */
  ghost predicate Read(logs: iset<nat>, processed: iset<nat>, base: nat, w: Worker) {
    && (w.list.None? ==> Covered(logs, processed, base, w.nextFetchCursor))
    && (w.list.Some? ==> Covered(logs, processed, base, w.list.value.lo) && w.list.value.hi == w.nextFetchCursor
                         && w.nextCursor == Some(w.nextFetchCursor))
  }

  ghost predicate Saved(logs: iset<nat>, processed: iset<nat>, base: nat, w: Worker) {
    w.pending.Some? ==> Covered(logs, processed, base, w.pending.value)
  }

  ghost predicate LifeInv(logs: iset<nat>, processed: iset<nat>, firstStarts: seq<nat>, life: Life) {
    var w := life.w;
    && WorkerInv(w)
    && Saved(logs, processed, life.base, w)
    && (w.status.Pulling? || w.status.Processing? ==> Read(logs, processed, life.base, w))
    && (w.status.Pulling? || w.status.Processing? || w.pending.Some? ==> life.base in firstStarts)
    && (w.status.Initializing? ==> w.pending.None?)
    && (w.status.Initializing? || w.status.Pulling? ==> w.list.None?)
  }

  ghost predicate Sound(logs: iset<nat>, s: System, m: CheckPoint) {
    Covered(logs, s.processed, m.base, m.cursor) && m.base in s.firstStarts
  }

  ghost predicate SystemInv(logs: iset<nat>, s: System) {
    && (forall k :: 0 <= k < |s.lives| ==> LifeInv(logs, s.processed, s.firstStarts, s.lives[k]))
    && (forall m :: m in s.sent ==> Sound(logs, s, m))
    && (s.stored.Some? ==> Sound(logs, s, s.stored.value))
  }

  lemma {:induction false} CoverSplit(logs: iset<nat>, processed: iset<nat>, lo: nat, mid: nat, hi: nat)
    requires Covered(logs, processed, lo, mid) && Covered(logs, processed, mid, hi)
    ensures Covered(logs, processed, lo, hi)
  {
  }

  lemma {:induction false} CoverLess(logs: iset<nat>, processed: iset<nat>, lo: nat, mid: nat, hi: nat)
    requires Covered(logs, processed, lo, hi) && mid <= hi
    ensures Covered(logs, processed, lo, mid)
  {
  }

  /** More processed and more starts never hurt. */
  lemma {:induction false} LifeGrows(
    logs: iset<nat>, p: iset<nat>, q: iset<nat>, starts: seq<nat>, more: seq<nat>, life: Life)
    requires LifeInv(logs, p, starts, life) && p <= q
    ensures LifeInv(logs, q, starts + more, life)
  {
    hide WorkerInv;
    ReadGrows(logs, p, q, life.base, life.w);
    hide Read, Covered;
    assert life.base in starts ==> life.base in starts + more;
  }

  lemma {:induction false} ReadGrows(logs: iset<nat>, p: iset<nat>, q: iset<nat>, base: nat, w: Worker)
    requires p <= q
    ensures Read(logs, p, base, w) ==> Read(logs, q, base, w)
    ensures Saved(logs, p, base, w) ==> Saved(logs, q, base, w)
  {
  }

  /** The end of a task, or the start of a flush, moves no cursor. */
  lemma {:induction false} EndLife(logs: iset<nat>, p: iset<nat>, starts: seq<nat>, base: nat, w: Worker, v: Worker)
    requires WorkerInv(v) && Saved(logs, p, base, w) && Read(logs, p, base, w) && base in starts
    requires v.nextFetchCursor == w.nextFetchCursor && v.list == w.list && v.nextCursor == w.nextCursor
         && v.pending == w.pending
    requires !v.status.Initializing? && (v.status.Pulling? ==> w.list.None?)
    ensures LifeInv(logs, p, starts, Life(v, true, base))
  {
    hide WorkerInv, Covered;
  }

  lemma {:induction false} InitLife(logs: iset<nat>, s: System, life: Life, j: nat, a: InitAnswer)
    requires LifeInv(logs, s.processed, s.firstStarts, life) && Can(life.w, InitDone(j, a))
    requires Allowed(logs, s, life.w, InitDone(j, a))
    requires s.stored.Some? ==> Sound(logs, s, s.stored.value)
    ensures LifeInv(logs, s.processed, if a.FromCursor? then s.firstStarts + [a.cursor] else s.firstStarts,
                    Life(Do(life.w, InitDone(j, a)), true, NewBase(s, life, InitDone(j, a))))
  {
    DoInv(life.w, InitDone(j, a));
    hide WorkerInv;
  }

  lemma {:induction false} PullLife(logs: iset<nat>, s: System, life: Life, j: nat, a: PullAnswer, due: bool)
    requires LifeInv(logs, s.processed, s.firstStarts, life) && Can(life.w, PullDone(j, a, due))
    requires Allowed(logs, s, life.w, PullDone(j, a, due))
    ensures LifeInv(logs, s.processed, s.firstStarts, Life(Do(life.w, PullDone(j, a, due)), true, life.base))
  {
    var w, v := life.w, Do(life.w, PullDone(j, a, due));
    DoInv(w, PullDone(j, a, due));
    assert w.status.Pulling?;
    match a
    case PullFailed => EndLife(logs, s.processed, s.firstStarts, life.base, w, v);
    case PullEmpty(hi) =>
      CoverSplit(logs, s.processed, life.base, w.nextFetchCursor, hi);
      EndLife(logs, s.processed, s.firstStarts, life.base,
        w.(list := None, nextFetchCursor := hi, nextCursor := Some(hi)), v);
    case PullGot(hi) =>
      EndLife(logs, s.processed, s.firstStarts, life.base,
              w.(list := Some(Range(w.nextFetchCursor, hi)), nextFetchCursor := hi, nextCursor := Some(hi)), v);
  }

  lemma {:induction false} ProcessLife(logs: iset<nat>, s: System, life: Life, j: nat, o: Outcome, due: bool)
    requires LifeInv(logs, s.processed, s.firstStarts, life) && Can(life.w, ProcessDone(j, o, due))
    requires Allowed(logs, s, life.w, ProcessDone(j, o, due))
    ensures LifeInv(logs, s.processed + DealtWith(logs, life.w, ProcessDone(j, o, due)), s.firstStarts,
                    Life(Do(life.w, ProcessDone(j, o, due)), true, life.base))
  {
    var w, v := life.w, Do(life.w, ProcessDone(j, o, due));
    var q := s.processed + DealtWith(logs, w, ProcessDone(j, o, due));
    DoInv(w, ProcessDone(j, o, due));
    assert w.status.Processing?;
    ReadGrows(logs, s.processed, q, life.base, w);
    if w.list.None? || o.Panicked? {
      EndLife(logs, q, s.firstStarts, life.base, w, v);
    } else {
      var lo, hi := w.list.value.lo, w.list.value.hi;
      match o
      case Returned(None) =>
        assert Covered(logs, q, lo, hi);
        CoverSplit(logs, q, life.base, lo, hi);
        EndLife(logs, q, s.firstStarts, life.base, w.(list := None, pending := w.nextCursor), v);
      case Returned(Some(c)) =>
        if c <= lo {
          CoverLess(logs, q, life.base, c, lo);
        } else {
          assert Covered(logs, q, lo, c);
          CoverSplit(logs, q, life.base, lo, c);
        }
        EndLife(logs, q, s.firstStarts, life.base, w.(list := None, nextFetchCursor := c), v);
    }
  }

  lemma {:induction false} OtherLife(logs: iset<nat>, s: System, life: Life, l: WorkerLabel)
    requires LifeInv(logs, s.processed, s.firstStarts, life) && Can(life.w, l)
    requires !l.InitDone? && !l.PullDone? && !l.ProcessDone?
    ensures LifeInv(logs, s.processed, s.firstStarts, Life(Do(life.w, l), true, life.base))
  {
    DoInv(life.w, l);
    OtherCursors(life.w, l);
    hide WorkerInv, Covered, Do;
  }

  /** Consuming, closing and flushing move no cursor, and never bring a worker back to pulling with a list. */
  lemma {:induction false} OtherCursors(w: Worker, l: WorkerLabel)
    requires WorkerInv(w) && Can(w, l) && !l.InitDone? && !l.PullDone? && !l.ProcessDone?
    requires w.status.Initializing? ==> w.pending.None?
    ensures var v := Do(w, l);
      && v.nextFetchCursor == w.nextFetchCursor && v.list == w.list && v.nextCursor == w.nextCursor
      && v.pending == w.pending
      && (v.status.Initializing? ==> w.status.Initializing?)
      && (v.status.Pulling? ==> w.status.Pulling? || (w.status.Processing? && w.list.None?))
      && (v.status.Processing? ==> w.status.Processing?)
  {
    hide LateStarts;
  }

  // ------------------------------------------------------------------------ steps

  /** The life a worker's step leads to, and what it leaves in the system. */
  lemma {:induction false} LocalLife(logs: iset<nat>, s: System, k: nat, l: WorkerLabel)
    requires SystemInv(logs, s) && Possible(logs, s, Local(k, l))
    ensures var t := Next(logs, s, Local(k, l));
            LifeInv(logs, t.processed, t.firstStarts, t.lives[k])
  {
    var life := s.lives[k];
    assert LifeInv(logs, s.processed, s.firstStarts, life);
    assert s.processed + iset{} == s.processed;
    hide LifeInv, Sound, Do, Can;
    match l
    case InitDone(j, a) => InitLife(logs, s, life, j, a);
    case PullDone(j, a, due) => PullLife(logs, s, life, j, a, due);
    case ProcessDone(j, o, due) => ProcessLife(logs, s, life, j, o, due);
    case _ => OtherLife(logs, s, life, l);
  }

  lemma {:induction false} SoundGrows(logs: iset<nat>, s: System, t: System, m: CheckPoint)
    requires Sound(logs, s, m) && s.processed <= t.processed && forall b :: b in s.firstStarts ==> b in t.firstStarts
    ensures Sound(logs, t, m)
  {
  }

  lemma {:induction false} SentSound(logs: iset<nat>, s: System, life: Life)
    requires LifeInv(logs, s.processed, s.firstStarts, life) && life.w.pending.Some?
    ensures Sound(logs, s, CheckPoint(life.w.pending.value, life.base))
  {
  }

  lemma {:induction false} LocalInv(logs: iset<nat>, s: System, k: nat, l: WorkerLabel)
    requires SystemInv(logs, s) && Possible(logs, s, Local(k, l))
    ensures SystemInv(logs, Next(logs, s, Local(k, l)))
  {
    var t := Next(logs, s, Local(k, l));
    LocalLife(logs, s, k, l);
    var more := if l.InitDone? && l.init.FromCursor? then [l.init.cursor] else [];
    assert t.firstStarts == s.firstStarts + more && s.processed <= t.processed;
    assert l.FlushSend? && s.lives[k].w.pending.Some? ==> LifeInv(logs, s.processed, s.firstStarts, s.lives[k]);
    if l.FlushSend? && s.lives[k].w.pending.Some? { SentSound(logs, s, s.lives[k]); }
    assert t.sent == s.sent || t.sent == s.sent + {CheckPoint(s.lives[k].w.pending.value, s.lives[k].base)};
    hide LifeInv, Sound, Possible, DealtWith;
    forall i | 0 <= i < |t.lives| ensures LifeInv(logs, t.processed, t.firstStarts, t.lives[i]) {
      if i != k { LifeGrows(logs, s.processed, t.processed, s.firstStarts, more, s.lives[i]); }
    }
    forall m | m in t.sent ensures Sound(logs, t, m) {
      SoundGrows(logs, s, t, m);
    }
    if t.stored.Some? { SoundGrows(logs, s, t, t.stored.value); }
  }

  lemma {:induction false} NewLife(logs: iset<nat>, p: iset<nat>, starts: seq<nat>)
    ensures LifeInv(logs, p, starts, Life(NEW_WORKER, true, 0))
  {
  }

  lemma {:induction false} DeadLife(logs: iset<nat>, p: iset<nat>, starts: seq<nat>, life: Life)
    requires LifeInv(logs, p, starts, life)
    ensures LifeInv(logs, p, starts, life.(alive := false))
  {
  }

  lemma {:induction false} NextInv(logs: iset<nat>, s: System, sl: SystemLabel)
    requires SystemInv(logs, s) && Possible(logs, s, sl)
    ensures SystemInv(logs, Next(logs, s, sl))
  {
    hide LifeInv, Covered;
    match sl
    case Spawn => NewLife(logs, s.processed, s.firstStarts);
    case Crash(i) => DeadLife(logs, s.processed, s.firstStarts, s.lives[i]);
    case Arrive(m) =>
    case Local(k, l) => LocalInv(logs, s, k, l);
  }

  ghost function Ran(logs: iset<nat>, s: System, ls: seq<SystemLabel>): Option<System>
    decreases |ls|
  {
    if ls == [] then Some(s)
    else if Possible(logs, s, ls[0]) then Ran(logs, Next(logs, s, ls[0]), ls[1..])
    else None
  }

  lemma {:induction false} RanInv(logs: iset<nat>, s: System, ls: seq<SystemLabel>, t: System)
    requires SystemInv(logs, s) && Ran(logs, s, ls) == Some(t)
    ensures SystemInv(logs, t)
    decreases |ls|
  {
    hide SystemInv, Possible, Next;
    if ls != [] {
      NextInv(logs, s, ls[0]);
      RanInv(logs, Next(logs, s, ls[0]), ls[1..], t);
    }
  }

  // ---------------------------------------------------------------- main theorems

  /**
   * At least once, over every run: whatever lies between the stored checkpoint and the cursor its line of
   * consumption began with has been processed; and that cursor is one a worker began with for want of a checkpoint.
   */
  lemma {:induction false} ProcessedAtLeastOnce(logs: iset<nat>, ls: seq<SystemLabel>, s: System, x: nat)
    requires Ran(logs, EMPTY, ls) == Some(s) && s.stored.Some?
    ensures s.stored.value.base in s.firstStarts
    ensures x in logs && s.stored.value.base <= x < s.stored.value.cursor ==> x in s.processed
  {
    RanInv(logs, EMPTY, ls, s);
    hide Ran, LifeInv;
    assert x in logs && s.stored.value.base <= x < s.stored.value.cursor ==>
             x in Wanted(logs, s.stored.value.base, s.stored.value.cursor);
  }

  /** If no worker without a checkpoint begins later than the first did, nothing since that first cursor is missed. */
  lemma {:induction false} SinceTheFirstStart(logs: iset<nat>, ls: seq<SystemLabel>, s: System, x: nat)
    requires Ran(logs, EMPTY, ls) == Some(s) && s.stored.Some?
    requires forall b :: b in s.firstStarts ==> b <= s.firstStarts[0]
    ensures s.firstStarts != []
    ensures x in logs && s.firstStarts[0] <= x < s.stored.value.cursor ==> x in s.processed
  {
    ProcessedAtLeastOnce(logs, ls, s, x);
  }

  // --------------------------------------------------- two starts at the end cursor

  lemma {:induction false} OneMoreStep(logs: iset<nat>, s: System, ls: seq<SystemLabel>, t: System, sl: SystemLabel)
    requires Ran(logs, s, ls) == Some(t) && Possible(logs, t, sl)
    ensures Ran(logs, s, ls + [sl]) == Some(Next(logs, t, sl))
    decreases |ls|
  {
    hide Next, Possible;
    if ls == [] {
      assert ls + [sl] == [sl];
      assert Ran(logs, Next(logs, t, sl), []) == Some(Next(logs, t, sl));
    } else {
      OneMoreStep(logs, Next(logs, s, ls[0]), ls[1..], t, sl);
      assert (ls + [sl])[1..] == ls[1..] + [sl];
    }
  }

  lemma {:induction false} Go(logs: iset<nat>, ls: seq<SystemLabel>, s: System, sl: SystemLabel)
    returns (ms: seq<SystemLabel>, t: System)
    requires Ran(logs, EMPTY, ls) == Some(s) && Possible(logs, s, sl)
    ensures Ran(logs, EMPTY, ms) == Some(t) && t == Next(logs, s, sl)
  {
    OneMoreStep(logs, EMPTY, ls, s, sl);
    ms, t := ls + [sl], Next(logs, s, sl);
  }

  lemma {:induction false} RanNone(logs: iset<nat>)
    ensures Ran(logs, EMPTY, []) == Some(EMPTY)
  {
  }

  /** A worker is told where to start and crashes. */
  lemma {:induction false} StartAndCrash(logs: iset<nat>, f: nat) returns (ls: seq<SystemLabel>, s: System)
    ensures Ran(logs, EMPTY, ls) == Some(s)
    ensures |s.lives| == 1 && s.stored == None && s.sent == {} && s.firstStarts == [f] && s.processed == iset{}
  {
    hide Ran;
    RanNone(logs);
    ls, s := Go(logs, [], EMPTY, Spawn);
    ls, s := Go(logs, ls, s, Local(0, ConsumeCall));
    assert s.lives == [Life(Consume(NEW_WORKER), true, 0)];
    ls, s := Go(logs, ls, s, Local(0, InitDone(0, FromCursor(f))));
    ls, s := Go(logs, ls, s, Crash(0));
  }

  function SecondPulled(b: nat, hi: nat): Worker {
    Worker(Processing, false, true, [], hi, Some(Range(b, hi)), Some(hi), None, None,
           [Start(Initializing, false), Start(Pulling, false)])
  }

  /** Its successor starts at another cursor, and pulls. */
  lemma {:induction false} SecondStart(
    logs: iset<nat>, f: nat, b: nat, hi: nat) returns (ls: seq<SystemLabel>, s: System)
    requires b <= hi
    ensures Ran(logs, EMPTY, ls) == Some(s)
    ensures |s.lives| == 2 && s.lives[1] == Life(SecondPulled(b, hi), true, b)
    ensures s.stored == None && s.sent == {} && s.firstStarts == [f, b] && s.processed == iset{}
  {
    hide Ran;
    ls, s := StartAndCrash(logs, f);
    ls, s := Go(logs, ls, s, Spawn);
    ls, s := Go(logs, ls, s, Local(1, ConsumeCall));
    ls, s := Go(logs, ls, s, Local(1, InitDone(0, FromCursor(b))));
    assert s.lives[1].w.status.Pulling? && s.lives[1].w.jobs == [];
    ls, s := Go(logs, ls, s, Local(1, ConsumeCall));
    ls, s := Go(logs, ls, s, Local(1, PullDone(0, PullGot(hi), false)));
  }

  /** No log group between the two starts need ever be processed, wherever the checkpoint behind them is. */
  lemma {:induction false} MissedAtTheEnd(logs: iset<nat>, f: nat, b: nat, hi: nat, x: nat)
    requires x in logs && f <= x < b <= hi
    ensures exists ls, s :: Ran(logs, EMPTY, ls) == Some(s) && s.firstStarts == [f, b]
                            && s.stored == Some(CheckPoint(hi, b)) && x !in s.processed
  {
    hide Ran;
    var ls, s := SecondStart(logs, f, b, hi);
    ls, s := Go(logs, ls, s, Local(1, ConsumeCall));
    ls, s := Go(logs, ls, s, Local(1, ProcessDone(0, Returned(None), true)));
    assert x !in s.processed;
    ls, s := Go(logs, ls, s, Local(1, FlushSend(0)));
    ls, s := Go(logs, ls, s, Arrive(CheckPoint(hi, b)));
  }

  /** The first start was at f, and the stored checkpoint's line began at b. */
  predicate Began(s: System, f: nat, b: nat) {
    s.firstStarts != [] && s.firstStarts[0] == f && s.stored.Some? && s.stored.value.base == b
  }

  /** Nothing in question between f and the stored checkpoint was missed. */
  ghost predicate NoneMissed(logs: iset<nat>, s: System, f: nat)
    requires s.stored.Some?
  {
    Wanted(logs, f, s.stored.value.cursor) <= s.processed
  }

  /**
   * Every run that first started at f and has a checkpoint whose line began at b has processed everything in
   * question from f to the checkpoint, exactly if there is nothing in question between f and b.
   */
  lemma {:induction false} NothingMissedExactly(logs: iset<nat>, f: nat, b: nat)
    ensures (forall ls, s :: Ran(logs, EMPTY, ls) == Some(s) && Began(s, f, b) ==> NoneMissed(logs, s, f))
       <==> Wanted(logs, f, b) == iset{}
  {
    hide Ran;
    if Wanted(logs, f, b) != iset{} {
      var x :| x in Wanted(logs, f, b);
      MissedAtTheEnd(logs, f, b, b + 1, x);
      var ls, s :| Ran(logs, EMPTY, ls) == Some(s) && s.firstStarts == [f, b]
                   && s.stored == Some(CheckPoint(b + 1, b)) && x !in s.processed;
      assert Began(s, f, b) && x in Wanted(logs, f, b + 1);
      assert !NoneMissed(logs, s, f);
    } else {
      forall ls, s | Ran(logs, EMPTY, ls) == Some(s) && Began(s, f, b) ensures NoneMissed(logs, s, f) {
        forall x | x in Wanted(logs, f, s.stored.value.cursor) ensures x in s.processed {
          assert x !in Wanted(logs, f, b);
          ProcessedAtLeastOnce(logs, ls, s, x);
        }
      }
    }
  }
}
