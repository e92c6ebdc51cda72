/** One shard's worker: its status, its one task at a time, its cursors. */
module ShardWorkers {
  import opened Wire

  datatype Status = Initializing | Pulling | Processing | ShuttingDown | ShutdownComplete

  datatype Task = Initialise | Pull | Process | Close

  /** A flush of the checkpoint under way: updates sent so far, and whether one is unanswered. */
  datatype Flush = Flush(tries: nat, awaiting: bool)

  /** A goroutine started by consume, and the flush it is in, if any. */
  datatype Job = Job(task: Task, flush: Option<Flush>)

  /** A fetched log group list: the positions [lo, hi) of the shard. */
  datatype Range = Range(lo: nat, hi: nat)

  datatype Start = Start(status: Status, flagged: bool)

  /**
   * Cursors are positions in the shard; None is the empty string. nextCursor, pending and saved are the
   * checkpoint tracker's; starts is the history of started tasks.
   */
  datatype Worker = Worker(
    status: Status, shutdownFlag: bool, isCurrentDone: bool, jobs: seq<Job>,
    nextFetchCursor: nat, list: Option<Range>,
    nextCursor: Option<nat>, pending: Option<nat>, saved: Option<nat>,
    starts: seq<Start>)

  const NEW_WORKER := Worker(Initializing, false, true, [], 0, None, None, None, None, [])

  function TaskOf(s: Status): Option<Task> {
    match s
    case Initializing => Some(Initialise)
    case Pulling => Some(Pull)
    case Processing => Some(Process)
    case ShuttingDown => Some(Close)
    case ShutdownComplete => None
  }

  /** `consume` */
  function Consume(w: Worker): Worker {
    if !w.isCurrentDone then w
    else match TaskOf(w.status)
      case Some(task) =>
        w.(isCurrentDone := false, jobs := w.jobs + [Job(task, None)],
           starts := w.starts + [Start(w.status, w.shutdownFlag)])
      case None => w.(isCurrentDone := true)
  }

  /** `consumerShutDown` */
  function ConsumerShutDown(w: Worker): Worker {
    var flagged := w.(shutdownFlag := true);
    if w.status.ShutdownComplete? then flagged else Consume(flagged)
  }

  function NextStatus(w: Worker, success: bool): Status {
    if w.status.ShuttingDown? then (if success then ShutdownComplete else ShuttingDown)
    else if w.shutdownFlag then ShuttingDown
    else if success then
      match w.status
      case Pulling => Processing
      case Initializing => Pulling
      case Processing => Pulling
      case _ => w.status
    else w.status
  }

  /** `updateStatus`, the last thing job j does. */
  function UpdateStatus(w: Worker, j: nat, success: bool): Worker
    requires j < |w.jobs|
  {
    w.(status := NextStatus(w, success), isCurrentDone := true, jobs := w.jobs[..j] + w.jobs[j + 1..])
  }

  /** A cursor is pending, and not the one saved. */
  predicate Due(pending: Option<nat>, saved: Option<nat>) {
    pending.Some? && pending != saved
  }

  predicate NeedsFlush(w: Worker) {
    Due(w.pending, w.saved)
  }

  /** A flush that is due begins, unless there is nothing to save; then job j is over. */
  function FlushOr(w: Worker, j: nat, due: bool, success: bool): Worker
    requires j < |w.jobs|
  {
    if due && NeedsFlush(w) then w.(jobs := w.jobs[j := w.jobs[j].(flush := Some(Flush(0, false)))])
    else UpdateStatus(w, j, success)
  }

  datatype InitAnswer = InitFailed | FromCheckPoint(checkpoint: nat) | FromCursor(cursor: nat)

  /** What a pull brings: nothing (an error, or too early to fetch), an empty list, or log groups. */
  datatype PullAnswer = PullFailed | PullEmpty(hi: nat) | PullGot(hi: nat)

  /** What becomes of a call of the user's function: a rollback cursor, none, or a panic. */
  datatype Outcome = Returned(rollback: Option<nat>) | Panicked

  /** How the service answers a checkpoint update; Rejected: the consumer or the shard is not its any more. */
  datatype UpdateAnswer = Updated | Rejected | Unavailable

  datatype WorkerLabel =
    | ConsumeCall
    | ShutDownCall
    | InitDone(j: nat, init: InitAnswer)
    | PullDone(j: nat, pull: PullAnswer, due: bool)
    | ProcessDone(j: nat, outcome: Outcome, due: bool)
    | CloseDone(j: nat, ok: bool)
    | FlushSend(j: nat)
    | FlushAnswer(j: nat, answer: UpdateAnswer)

  predicate Runs(w: Worker, j: nat, task: Task) {
    j < |w.jobs| && w.jobs[j] == Job(task, None)
  }

  predicate Can(w: Worker, l: WorkerLabel) {
    match l
    case ConsumeCall => true
    case ShutDownCall => true
    case InitDone(j, _) => Runs(w, j, Initialise)
    case PullDone(j, _, _) => Runs(w, j, Pull)
    case ProcessDone(j, _, _) => Runs(w, j, Process)
    case CloseDone(j, _) => Runs(w, j, Close)
    case FlushSend(j) => j < |w.jobs| && w.jobs[j].flush.Some? && !w.jobs[j].flush.value.awaiting
    case FlushAnswer(j, _) => j < |w.jobs| && w.jobs[j].flush.Some? && w.jobs[j].flush.value.awaiting
  }

  /** `consumerInitializeTask` and what consume does with it. */
  function Initialised(w: Worker, j: nat, a: InitAnswer): Worker
    requires j < |w.jobs|
  {
    match a
    case InitFailed => UpdateStatus(w, j, false)
    case FromCheckPoint(c) => UpdateStatus(w.(saved := Some(c), nextFetchCursor := c), j, true)
    case FromCursor(c) => UpdateStatus(w.(nextFetchCursor := c), j, true)
  }

  /** `nextFetchTask` */
  function Pulled(w: Worker, j: nat, a: PullAnswer, due: bool): Worker
    requires j < |w.jobs|
  {
    match a
    case PullFailed => UpdateStatus(w, j, false)
    case PullEmpty(hi) => FlushOr(w.(list := None, nextFetchCursor := hi, nextCursor := Some(hi)), j, due, false)
    case PullGot(hi) =>
      var got := Some(Range(w.nextFetchCursor, hi));
      UpdateStatus(w.(list := got, nextFetchCursor := hi, nextCursor := Some(hi)), j, true)
  }

  /**
   * `consumerProcessTask` with the wrapper of InitConsumerWorker: the checkpoint is saved when the user's
   * function returns no cursor. Clearing the list and rolling back are local, so they are put before the flush.
   */
  function Processed(w: Worker, j: nat, o: Outcome, due: bool): Worker
    requires j < |w.jobs|
  {
    if w.list == None then UpdateStatus(w, j, true)
    else match o
      case Panicked => UpdateStatus(w, j, false)
      case Returned(None) => FlushOr(w.(list := None, pending := w.nextCursor), j, due, true)
      case Returned(Some(c)) => FlushOr(w.(list := None, nextFetchCursor := c), j, due, true)
  }

  function Closed(w: Worker, j: nat, ok: bool): Worker
    requires j < |w.jobs|
  {
    if ok then FlushOr(w, j, true, true) else UpdateStatus(w, j, false)
  }

  /** What updateStatus is told after a flush: only the closing task minds how it went. */
  function AfterFlush(task: Task, saved: bool): bool {
    match task
    case Close => saved
    case Process => true
    case _ => false
  }

  /** The answer to the update last sent; after the third failure the flush gives up. */
  function Answered(w: Worker, j: nat, a: UpdateAnswer): Worker
    requires j < |w.jobs| && w.jobs[j].flush.Some?
  {
    var job := w.jobs[j];
    if a.Unavailable? then
      if job.flush.value.tries >= 3 then UpdateStatus(w, j, AfterFlush(job.task, false))
      else w.(jobs := w.jobs[j := job.(flush := Some(job.flush.value.(awaiting := false)))])
    else UpdateStatus(w.(saved := w.pending), j, AfterFlush(job.task, true))
  }

  function Do(w: Worker, l: WorkerLabel): Worker
    requires Can(w, l)
  {
    match l
    case ConsumeCall => Consume(w)
    case ShutDownCall => ConsumerShutDown(w)
    case InitDone(j, a) => Initialised(w, j, a)
    case PullDone(j, a, due) => Pulled(w, j, a, due)
    case ProcessDone(j, o, due) => Processed(w, j, o, due)
    case CloseDone(j, ok) => Closed(w, j, ok)
    case FlushSend(j) =>
      w.(jobs := w.jobs[j := w.jobs[j].(flush := Some(Flush(w.jobs[j].flush.value.tries + 1, true)))])
    case FlushAnswer(j, a) => Answered(w, j, a)
  }

  // ------------------------------------------------------------------ invariants

  /** Tasks other than closing that were started after the shutdown flag was set. */
  function LateStarts(starts: seq<Start>): nat {
    if starts == [] then 0
    else
      var s := starts[|starts| - 1];
      LateStarts(starts[..|starts| - 1]) + (if s.flagged && !s.status.ShuttingDown? then 1 else 0)
  }

  predicate Closing(w: Worker) {
    w.status.ShuttingDown? || w.status.ShutdownComplete?
  }

  ghost predicate WorkerInv(w: Worker) {
    && |w.jobs| == (if w.isCurrentDone then 0 else 1)
    && (w.jobs != [] ==> TaskOf(w.status) == Some(w.jobs[0].task))
    && (w.jobs != [] && w.jobs[0].flush.Some? ==> w.pending.Some? && w.jobs[0].flush.value.tries <= 3)
    && (w.jobs != [] && w.jobs[0].flush.Some? && !w.jobs[0].flush.value.awaiting ==> w.jobs[0].flush.value.tries < 3)
    && (w.status.Processing? && w.jobs == [] ==> w.list.Some?)
    && (w.list.Some? ==> w.nextCursor.Some?)
    && (w.jobs != [] && w.jobs[0].flush.Some? ==> w.jobs[0].task.Close? || w.list.None?)
    && (Closing(w) ==> w.shutdownFlag)
    && LateStarts(w.starts) <= 1
    && (LateStarts(w.starts) == 1 ==> w.shutdownFlag && (Closing(w) || w.jobs != []))
  }

  lemma {:induction false} StartsGrow(starts: seq<Start>, s: Start)
    ensures LateStarts(starts + [s]) == LateStarts(starts) + (if s.flagged && !s.status.ShuttingDown? then 1 else 0)
  {
    assert (starts + [s])[..|starts|] == starts;
  }

  lemma {:induction false} ConsumeInv(w: Worker)
    requires WorkerInv(w)
    ensures WorkerInv(Consume(w))
  {
    StartsGrow(w.starts, Start(w.status, w.shutdownFlag));
    hide LateStarts;
  }

  lemma {:induction false} FlagInv(w: Worker)
    requires WorkerInv(w)
    ensures WorkerInv(w.(shutdownFlag := true))
  {
    hide LateStarts;
  }

  lemma {:induction false} EndInv(w: Worker, success: bool)
    requires WorkerInv(w) && w.jobs != []
    requires w.status.Pulling? && success ==> w.list.Some?
    requires w.status.Processing? && !success ==> w.list.Some?
    ensures WorkerInv(UpdateStatus(w, 0, success))
  {
    hide LateStarts;
  }

  lemma {:induction false} FlushOrInv(w: Worker, due: bool, success: bool)
    requires WorkerInv(w) && w.jobs != [] && w.jobs[0].flush == None && (w.jobs[0].task.Close? || w.list.None?)
    requires w.status.Pulling? && success ==> w.list.Some?
    requires w.status.Processing? && !success ==> w.list.Some?
    ensures WorkerInv(FlushOr(w, 0, due, success))
  {
    EndInv(w, success);
    hide LateStarts, UpdateStatus;
  }

  /** Every step keeps it. */
  lemma {:induction false} DoInv(w: Worker, l: WorkerLabel)
    requires WorkerInv(w) && Can(w, l)
    ensures WorkerInv(Do(w, l))
  {
    hide LateStarts, UpdateStatus, FlushOr, Consume;
    match l {
      case ConsumeCall => ConsumeInv(w);
      case ShutDownCall => FlagInv(w); ConsumeInv(w.(shutdownFlag := true));
      case InitDone(_, FromCheckPoint(c)) => EndInv(w.(saved := Some(c), nextFetchCursor := c), true);
      case InitDone(_, FromCursor(c)) => EndInv(w.(nextFetchCursor := c), true);
      case InitDone(_, InitFailed) => EndInv(w, false);
      case PullDone(_, PullFailed, _) => EndInv(w, false);
      case PullDone(_, PullEmpty(hi), due) =>
        FlushOrInv(w.(list := None, nextFetchCursor := hi, nextCursor := Some(hi)), due, false);
      case PullDone(_, PullGot(hi), _) =>
        EndInv(w.(list := Some(Range(w.nextFetchCursor, hi)), nextFetchCursor := hi, nextCursor := Some(hi)), true);
      case ProcessDone(_, o, due) => ProcessedInv(w, o, due);
      case CloseDone(_, ok) => if ok { FlushOrInv(w, true, true); } else { EndInv(w, false); }
      case FlushSend(_) =>
      case FlushAnswer(_, a) => AnsweredInv(w, a);
    }
  }

  lemma {:induction false} ProcessedInv(w: Worker, o: Outcome, due: bool)
    requires WorkerInv(w) && Runs(w, 0, Process)
    ensures WorkerInv(Processed(w, 0, o, due))
  {
    hide LateStarts, UpdateStatus, FlushOr;
    if w.list == None {
      EndInv(w, true);
    } else {
      match o
      case Panicked => EndInv(w, false);
      case Returned(None) => FlushOrInv(w.(list := None, pending := w.nextCursor), due, true);
      case Returned(Some(c)) => FlushOrInv(w.(list := None, nextFetchCursor := c), due, true);
    }
  }

  lemma {:induction false} AnsweredInv(w: Worker, a: UpdateAnswer)
    requires WorkerInv(w) && w.jobs != [] && w.jobs[0].flush.Some? && w.jobs[0].flush.value.awaiting
    ensures WorkerInv(Answered(w, 0, a))
  {
    hide LateStarts, UpdateStatus;
    if !a.Unavailable? {
      EndInv(w.(saved := w.pending), AfterFlush(w.jobs[0].task, true));
    } else if w.jobs[0].flush.value.tries >= 3 {
      EndInv(w, AfterFlush(w.jobs[0].task, false));
    }
  }

  // ------------------------------------------------------------------------ runs

  function AfterAll(w: Worker, ls: seq<WorkerLabel>): Option<Worker>
    decreases |ls|
  {
    if ls == [] then Some(w) else if Can(w, ls[0]) then AfterAll(Do(w, ls[0]), ls[1..]) else None
  }

  lemma {:induction false} RunWorker(w: Worker, ls: seq<WorkerLabel>, v: Worker)
    requires WorkerInv(w) && AfterAll(w, ls) == Some(v)
    ensures WorkerInv(v)
    decreases |ls|
  {
    hide WorkerInv, Do, Can;
    if ls != [] {
      DoInv(w, ls[0]);
      RunWorker(Do(w, ls[0]), ls[1..], v);
    }
  }

  /**
   * In every run: one task at a time; while nothing runs in PROCESSING there is a list to process; after the
   * shutdown flag is set at most one more task other than closing starts.
   */
  lemma {:induction false} WorkerRuns(ls: seq<WorkerLabel>, w: Worker)
    requires AfterAll(NEW_WORKER, ls) == Some(w)
    ensures |w.jobs| <= 1 && (w.isCurrentDone <==> w.jobs == [])
    ensures w.status.Processing? && w.jobs == [] ==> w.list.Some?
    ensures LateStarts(w.starts) <= 1
  {
    RunWorker(NEW_WORKER, ls, w);
    hide LateStarts, AfterAll;
  }

  /** SHUTDOWN_COMPLETE is for good: nothing starts any more, so nothing is processed any more. */
  lemma {:induction false} CompleteIsFinal(w: Worker, ls: seq<WorkerLabel>, v: Worker)
    requires WorkerInv(w) && w.status.ShutdownComplete? && AfterAll(w, ls) == Some(v)
    ensures v.status.ShutdownComplete? && v.starts == w.starts && v.jobs == []
    ensures forall l :: l in ls ==> l.ConsumeCall? || l.ShutDownCall?
    decreases |ls|
  {
    hide LateStarts;
    if ls != [] {
      DoInv(w, ls[0]);
      CompleteIsFinal(Do(w, ls[0]), ls[1..], v);
    }
  }

  /** A closing task ends in SHUTDOWN_COMPLETE exactly if the processor's Shutdown and the flush both succeed. */
  lemma {:induction false} ClosingEnds(w: Worker, l: WorkerLabel)
    requires WorkerInv(w) && w.status.ShuttingDown? && Can(w, l) && w.jobs != [] && Do(w, l).jobs == []
    ensures Do(w, l).status.ShutdownComplete?
       <==> ((l.CloseDone? && l.ok && !NeedsFlush(w)) || (l.FlushAnswer? && !l.answer.Unavailable?))
    ensures l.CloseDone? || l.FlushAnswer?
    ensures l.FlushAnswer? && l.answer.Unavailable? ==> w.jobs[0].flush.value.tries == 3
  {
    hide LateStarts;
  }

  /** The labels of pulling a list up to hi and processing it. */
  function Round(hi: nat): seq<WorkerLabel> {
    [ConsumeCall, PullDone(0, PullGot(hi), false), ConsumeCall, ProcessDone(0, Returned(None), false)]
  }

  /**
   * One round of pulling and processing takes the cursor, and the checkpoint to be saved, to the end of what was
   * pulled.
   */
  lemma {:induction false} RoundAdvances(w: Worker, hi: nat)
    requires WorkerInv(w) && w.status.Pulling? && w.jobs == [] && !w.shutdownFlag && w.list == None
    ensures AfterAll(w, Round(hi))
         == Some(w.(nextFetchCursor := hi, nextCursor := Some(hi), pending := Some(hi),
                    starts := w.starts + [Start(Pulling, false)] + [Start(Processing, false)]))
  {
    hide WorkerInv;
    IdleIsDone(w);
    var l0, l1, l3 := ConsumeCall, PullDone(0, PullGot(hi), false), ProcessDone(0, Returned(None), false);
    var ls := Round(hi);
    assert ls[1..] == [l1, l0, l3] && ls[1..][1..] == [l0, l3] && ls[1..][1..][1..] == [l3]
      && ls[1..][1..][1..][1..] == [];
    var w1 := w.(isCurrentDone := false, jobs := [Job(Pull, None)], starts := w.starts + [Start(Pulling, false)]);
    assert Do(w, l0) == w1;
    var w2 := w1.(status := Processing, isCurrentDone := true, jobs := [], list := Some(Range(w.nextFetchCursor, hi)),
                  nextFetchCursor := hi, nextCursor := Some(hi));
    assert Do(w1, l1) == w2;
    var w3 := w2.(isCurrentDone := false, jobs := [Job(Process, None)],
                  starts := w2.starts + [Start(Processing, false)]);
    assert Do(w2, l0) == w3;
    var w4 := w3.(status := Pulling, isCurrentDone := true, jobs := [], list := None, pending := Some(hi));
    assert Do(w3, l3) == w4;
    hide Do;
    assert AfterAll(w4, []) == Some(w4);
    assert AfterAll(w3, [l3]) == Some(w4);
    assert AfterAll(w2, [l0, l3]) == Some(w4);
    assert AfterAll(w1, [l1, l0, l3]) == Some(w4);
  }

  lemma {:induction false} IdleIsDone(w: Worker)
    requires WorkerInv(w) && w.jobs == []
    ensures w.isCurrentDone
  {
  }
}
