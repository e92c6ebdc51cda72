/**
 * A worker's cursors and status, told from its history alone: what it was last told to fetch from, what it fetched,
 * what is to be saved, whether it is to shut down.
 */
module WorkerHistory {
  import opened Wire
  import opened ShardWorkers

  // ------------------------------------------------------------- told from labels

  /** The cursor a step names as the one to go on from: a start, the end of a pull, a rollback. */
  function Named(l: WorkerLabel): Option<nat> {
    match l
    case InitDone(_, FromCheckPoint(c)) => Some(c)
    case InitDone(_, FromCursor(c)) => Some(c)
    case PullDone(_, PullEmpty(hi), _) => Some(hi)
    case PullDone(_, PullGot(hi), _) => Some(hi)
    case ProcessDone(_, Returned(rollback), _) => rollback
    case _ => None
  }

  /** The cursor named last. */
  function LastNamed(ls: seq<WorkerLabel>): nat {
    if ls == [] then 0
    else if Named(ls[|ls| - 1]).Some? then Named(ls[|ls| - 1]).value
    else LastNamed(ls[..|ls| - 1])
  }

  /** Where the last pull ended. */
  function PulledTo(ls: seq<WorkerLabel>): Option<nat> {
    if ls == [] then None
    else match ls[|ls| - 1]
      case PullDone(_, PullEmpty(hi), _) => Some(hi)
      case PullDone(_, PullGot(hi), _) => Some(hi)
      case _ => PulledTo(ls[..|ls| - 1])
  }

  /** The list that was pulled, and not returned from yet. */
  function Fetched(ls: seq<WorkerLabel>): Option<Range> {
    if ls == [] then None
    else
      var before := ls[..|ls| - 1];
      match ls[|ls| - 1]
      case PullDone(_, PullGot(hi), _) => Some(Range(LastNamed(before), hi))
      case PullDone(_, PullEmpty(_), _) => None
      case ProcessDone(_, Returned(_), _) => None
      case _ => Fetched(before)
  }

  /** The end of the last list that was returned from without a rollback. */
  function ToSave(ls: seq<WorkerLabel>): Option<nat> {
    if ls == [] then None
    else
      var before := ls[..|ls| - 1];
      match ls[|ls| - 1]
      case ProcessDone(_, Returned(None), _) => PulledTo(before)
      case _ => ToSave(before)
  }

  /** What was stored at the start, or to be saved when the service last took or rejected an update. */
  function LastSaved(ls: seq<WorkerLabel>): Option<nat> {
    if ls == [] then None
    else
      var before := ls[..|ls| - 1];
      match ls[|ls| - 1]
      case InitDone(_, FromCheckPoint(c)) => Some(c)
      case FlushAnswer(_, Updated) => ToSave(before)
      case FlushAnswer(_, Rejected) => ToSave(before)
      case _ => LastSaved(before)
  }

  // ------------------------------------------------------------------- invariants

  /** A worker told to shut down is closing whenever nothing runs; a PROCESSING task has its list until it returns. */
  ghost predicate Orderly(w: Worker) {
    WorkerInv(w) && Ready(w)
  }

  predicate Ready(w: Worker) {
    && (w.shutdownFlag && w.jobs == [] ==> Closing(w))
    && (w.jobs != [] && w.jobs[0] == Job(Process, None) ==> w.list.Some?)
    && (w.status.Initializing? ==> w.list.None?)
  }

  lemma {:induction false} StepOrderly(w: Worker, l: WorkerLabel)
    requires Orderly(w) && Can(w, l)
    ensures Orderly(Do(w, l))
  {
    DoInv(w, l);
    StepReady(w, l);
    hide WorkerInv, Ready;
  }

  lemma {:induction false} StepReady(w: Worker, l: WorkerLabel)
    requires Orderly(w) && Can(w, l)
    ensures Ready(Do(w, l))
  {
    hide LateStarts;
  }

  lemma {:induction false} NewOrderly()
    ensures Orderly(NEW_WORKER)
  {
  }

  // ------------------------------------------------------------- step by step

  lemma {:induction false} StepCursors(w: Worker, l: WorkerLabel)
    requires Orderly(w) && Can(w, l)
    ensures var v := Do(w, l);
      && v.nextFetchCursor == (if Named(l).Some? then Named(l).value else w.nextFetchCursor)
      && v.list == (match l
                    case PullDone(_, PullGot(hi), _) => Some(Range(w.nextFetchCursor, hi))
                    case PullDone(_, PullEmpty(_), _) => None
                    case ProcessDone(_, Returned(_), _) => None
                    case _ => w.list)
      && v.nextCursor == (match l
                          case PullDone(_, PullGot(hi), _) => Some(hi)
                          case PullDone(_, PullEmpty(hi), _) => Some(hi)
                          case _ => w.nextCursor)
  {
    hide LateStarts;
  }

  lemma {:induction false} StepSaved(w: Worker, l: WorkerLabel)
    requires Orderly(w) && Can(w, l)
    ensures var v := Do(w, l);
      && v.pending == (match l
                       case ProcessDone(_, Returned(None), _) => w.nextCursor
                       case _ => w.pending)
      && v.saved == (match l
                     case InitDone(_, FromCheckPoint(c)) => Some(c)
                     case FlushAnswer(_, Updated) => w.pending
                     case FlushAnswer(_, Rejected) => w.pending
                     case _ => w.saved)
  {
    hide LateStarts;
  }

  lemma {:induction false} LastStep(w: Worker, ls: seq<WorkerLabel>, v: Worker) returns (u: Worker)
    requires ls != [] && AfterAll(w, ls) == Some(v)
    ensures AfterAll(w, ls[..|ls| - 1]) == Some(u) && Can(u, ls[|ls| - 1]) && v == Do(u, ls[|ls| - 1])
    decreases |ls|
  {
    hide Do, Can;
    if |ls| == 1 {
      u := w;
    } else {
      u := LastStep(Do(w, ls[0]), ls[1..], v);
      assert ls[1..][..|ls| - 2] == ls[..|ls| - 1][1..];
    }
  }

  /** In every run the worker's cursors are those its history names. */
  lemma {:induction false} FollowsHistory(ls: seq<WorkerLabel>, w: Worker)
    requires AfterAll(NEW_WORKER, ls) == Some(w)
    ensures Orderly(w)
    ensures w.nextFetchCursor == LastNamed(ls) && w.list == Fetched(ls) && w.nextCursor == PulledTo(ls)
    ensures w.pending == ToSave(ls) && w.saved == LastSaved(ls)
    decreases |ls|
  {
    hide Do, Can, Orderly, Named;
    if ls == [] {
      NewOrderly();
    } else {
      var u := LastStep(NEW_WORKER, ls, w);
      FollowsHistory(ls[..|ls| - 1], u);
      StepOrderly(u, ls[|ls| - 1]);
      StepCursors(u, ls[|ls| - 1]);
      StepSaved(u, ls[|ls| - 1]);
    }
  }

  // ---------------------------------------------------------------- where it begins

  /** The cursor a worker was started from. */
  function StartOf(ls: seq<WorkerLabel>): Option<nat> {
    if ls == [] then None
    else match ls[|ls| - 1]
      case InitDone(_, FromCheckPoint(c)) => Some(c)
      case InitDone(_, FromCursor(c)) => Some(c)
      case _ => StartOf(ls[..|ls| - 1])
  }

  predicate RollsBackBelow(l: WorkerLabel, c: nat) {
    l.ProcessDone? && l.outcome.Returned? && l.outcome.rollback.Some? && l.outcome.rollback.value < c
  }

  /** Every pull ends at or behind where it began, and no rollback goes below c. */
  predicate Onward(ls: seq<WorkerLabel>, c: nat) {
    if ls == [] then true
    else
      var l, before := ls[|ls| - 1], ls[..|ls| - 1];
      && Onward(before, c) && !RollsBackBelow(l, c)
      && (l.PullDone? && !l.pull.PullFailed? ==> LastNamed(before) <= l.pull.hi)
  }

  predicate IsStart(l: WorkerLabel) {
    l.InitDone? && !l.init.InitFailed?
  }

  /** A worker is started once; before that it pulls nothing. */
  lemma {:induction false} StartsOnce(ls: seq<WorkerLabel>, w: Worker)
    requires AfterAll(NEW_WORKER, ls) == Some(w)
    ensures w.status.Initializing? ==> StartOf(ls).None? && Fetched(ls).None?
    ensures StartOf(ls).None? ==> w.status.Initializing? || Closing(w)
    decreases |ls|
  {
    hide Orderly, Do, Can, Closing;
    FollowsHistory(ls, w);
    if ls != [] {
      var u := LastStep(NEW_WORKER, ls, w);
      StartsOnce(ls[..|ls| - 1], u);
      FollowsHistory(ls[..|ls| - 1], u);
      StepStart(u, ls[|ls| - 1]);
    }
  }

  lemma {:induction false} StepStart(w: Worker, l: WorkerLabel)
    requires Orderly(w) && Can(w, l)
    ensures Do(w, l).status.Initializing? ==> w.status.Initializing? && !IsStart(l) && Do(w, l).list.None?
    ensures (w.status.Initializing? && !IsStart(l)) || Closing(w) ==> Do(w, l).status.Initializing? || Closing(Do(w, l))
    ensures IsStart(l) ==> w.status.Initializing?
  {
    StatusExactly(w, l);
    StepKind(w, l);
    StepReady(w, l);
    if IsStart(l) { StartEnds(w, l); }
    hide Do, Can, WorkerInv;
  }

  lemma {:induction false} StartEnds(w: Worker, l: WorkerLabel)
    requires Can(w, l) && IsStart(l) && Orderly(w)
    ensures EndsTask(w, l)
  {
    hide LateStarts;
  }

  /** A worker started from c fetches c first, and nothing before c unless the user's function rolls back that far. */
  lemma {:induction false} NothingBeforeStart(ls: seq<WorkerLabel>, w: Worker, c: nat)
    requires AfterAll(NEW_WORKER, ls) == Some(w) && StartOf(ls) == Some(c) && Onward(ls, c)
    ensures c <= LastNamed(ls) && (Fetched(ls).Some? ==> c <= Fetched(ls).value.lo)
    decreases |ls|
  {
    hide Do, Can, Orderly;
    var l, before := ls[|ls| - 1], ls[..|ls| - 1];
    var u := LastStep(NEW_WORKER, ls, w);
    if IsStart(l) {
      FollowsHistory(before, u);
      StepStart(u, l);
      StartsOnce(before, u);
    } else {
      NothingBeforeStart(before, u, c);
    }
  }

  /** Right after the start, and until a pull succeeds, that is where the worker will fetch. */
  lemma {:induction false} FetchesStartFirst(ls: seq<WorkerLabel>, w: Worker, c: nat)
    requires AfterAll(NEW_WORKER, ls) == Some(w) && StartOf(ls) == Some(c) && PulledTo(ls).None?
    ensures w.nextFetchCursor == c
    decreases |ls|
  {
    FollowsHistory(ls, w);
    hide Do, Can, Orderly;
    var l, before := ls[|ls| - 1], ls[..|ls| - 1];
    var u := LastStep(NEW_WORKER, ls, w);
    FollowsHistory(before, u);
    if !IsStart(l) {
      FetchesStartFirst(before, u, c);
      NothingYet(u, l);
    }
  }

  /** Before the first pull nothing is processed, so nothing rolls back. */
  lemma {:induction false} NothingYet(w: Worker, l: WorkerLabel)
    requires Orderly(w) && Can(w, l) && w.nextCursor.None? && !IsStart(l)
    ensures Named(l).Some? ==> l.PullDone?
  {
    hide LateStarts;
  }

  // ----------------------------------------------------------------------- status

  /** Whether a step ends the worker's task. */
  predicate EndsTask(w: Worker, l: WorkerLabel)
    requires Can(w, l)
  {
    w.jobs != [] && Do(w, l).jobs == []
  }

  lemma {:induction false} WhileInitialising(w: Worker, l: WorkerLabel)
    requires Orderly(w) && Can(w, l) && w.status.Initializing?
    ensures match Do(w, l).status
            case Initializing => !EndsTask(w, l) || (!IsStart(l) && !w.shutdownFlag)
            case Pulling => EndsTask(w, l) && IsStart(l) && !w.shutdownFlag
            case ShuttingDown => EndsTask(w, l) && w.shutdownFlag
            case _ => false
  {
    hide LateStarts;
  }

  lemma {:induction false} WhilePulling(w: Worker, l: WorkerLabel)
    requires Orderly(w) && Can(w, l) && w.status.Pulling?
    ensures match Do(w, l).status
            case Pulling => !EndsTask(w, l) || (!(l.PullDone? && l.pull.PullGot?) && !w.shutdownFlag)
            case Processing => EndsTask(w, l) && l.PullDone? && l.pull.PullGot? && !w.shutdownFlag
            case ShuttingDown => EndsTask(w, l) && w.shutdownFlag
            case _ => false
  {
    hide LateStarts;
  }

  lemma {:induction false} WhileProcessing(w: Worker, l: WorkerLabel)
    requires Orderly(w) && Can(w, l) && w.status.Processing?
    ensures match Do(w, l).status
            case Processing => !EndsTask(w, l) || (l.ProcessDone? && l.outcome.Panicked? && !w.shutdownFlag)
            case Pulling => EndsTask(w, l) && !(l.ProcessDone? && l.outcome.Panicked?) && !w.shutdownFlag
            case ShuttingDown => EndsTask(w, l) && w.shutdownFlag
            case _ => false
  {
    hide LateStarts;
  }

  lemma {:induction false} WhileClosing(w: Worker, l: WorkerLabel)
    requires Orderly(w) && Can(w, l) && Closing(w)
    ensures match Do(w, l).status
            case ShuttingDown => w.status.ShuttingDown?
            case ShutdownComplete => w.status.ShutdownComplete? || EndsTask(w, l)
            case _ => false
  {
    hide LateStarts;
  }

  /**
   * The status changes with the end of a task, and to this: SHUTTING_DOWN if the worker was told to shut down, else
   * from INITIALIZING to PULLING once it has a cursor, to PROCESSING with a list, and back unless the call panicked.
   */
  lemma {:induction false} StatusExactly(w: Worker, l: WorkerLabel)
    requires Orderly(w) && Can(w, l)
    ensures var v := Do(w, l);
      && (v.status != w.status ==> EndsTask(w, l))
      && (!Closing(w) && EndsTask(w, l) ==>
            v.status == if w.shutdownFlag then ShuttingDown
                        else if IsStart(l) then Pulling
                        else if l.PullDone? && l.pull.PullGot? then Processing
                        else if w.status.Processing? && !(l.ProcessDone? && l.outcome.Panicked?) then Pulling
                        else w.status)
      && (Closing(w) ==> Closing(v))
  {
    StepKind(w, l);
    match w.status {
      case Initializing => WhileInitialising(w, l);
      case Pulling => WhilePulling(w, l);
      case Processing => WhileProcessing(w, l);
      case _ => WhileClosing(w, l);
    }
    hide Orderly, Do, Can, EndsTask;
  }

  /** The end of a task of some kind comes in the status of that kind. */
  lemma {:induction false} StepKind(w: Worker, l: WorkerLabel)
    requires Orderly(w) && Can(w, l)
    ensures l.InitDone? ==> w.status.Initializing?
    ensures l.PullDone? ==> w.status.Pulling?
    ensures l.ProcessDone? ==> w.status.Processing?
  {
    hide LateStarts;
  }

  /** Once told to shut down a worker stays told, and is closing when its task has ended, whatever task it was. */
  lemma {:induction false} ToldToShutDown(w: Worker, ls: seq<WorkerLabel>, v: Worker)
    requires Orderly(w) && AfterAll(ConsumerShutDown(w), ls) == Some(v)
    ensures v.shutdownFlag && (v.jobs == [] ==> Closing(v)) && (Closing(w) ==> Closing(v))
  {
    StepOrderly(w, ShutDownCall);
    RunTold(ConsumerShutDown(w), ls, v);
    hide LateStarts, AfterAll;
  }

  lemma {:induction false} RunTold(w: Worker, ls: seq<WorkerLabel>, v: Worker)
    requires Orderly(w) && w.shutdownFlag && AfterAll(w, ls) == Some(v)
    ensures Orderly(v) && v.shutdownFlag && (Closing(w) ==> Closing(v))
    decreases |ls|
  {
    hide Orderly, Do, Can, Closing;
    if ls != [] {
      StepOrderly(w, ls[0]);
      StepTold(w, ls[0]);
      RunTold(Do(w, ls[0]), ls[1..], v);
    }
  }

  lemma {:induction false} StepTold(w: Worker, l: WorkerLabel)
    requires Can(w, l)
    ensures w.shutdownFlag || l.ShutDownCall? ==> Do(w, l).shutdownFlag
    ensures Closing(w) ==> Closing(Do(w, l))
  {
  }

  /** A flush that the service took or rejected leaves nothing to flush. */
  lemma {:induction false} NothingLeftToFlush(w: Worker, l: WorkerLabel)
    requires Can(w, l) && l.FlushAnswer? && !l.answer.Unavailable?
    ensures !NeedsFlush(Do(w, l)) && Do(w, l).pending == w.pending
  {
  }

  /** Steps after which the checkpoint may be flushed: closing always, others when the commit interval is over. */
  predicate FlushPoint(w: Worker, l: WorkerLabel) {
    match l
    case PullDone(_, PullEmpty(_), due) => due
    case ProcessDone(_, Returned(_), due) => due
    case CloseDone(_, ok) => ok
    case _ => false
  }

  predicate Flushing(w: Worker) {
    w.jobs != [] && w.jobs[0].flush.Some?
  }

  /** A flush begins exactly at such a step, and exactly if a cursor is pending that is not the one saved. */
  lemma {:induction false} FlushBeginsExactly(w: Worker, l: WorkerLabel)
    requires Orderly(w) && Can(w, l) && !Flushing(w)
    ensures var v := Do(w, l);
      && (Flushing(v) <==> FlushPoint(w, l) && Due(v.pending, v.saved))
      && (Flushing(v) ==> v.jobs[0].flush == Some(Flush(0, false)) && v.jobs[0].task == w.jobs[0].task)
  {
    hide LateStarts;
  }
}
