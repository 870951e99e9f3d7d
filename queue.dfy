/**
 * The operation queue of `src/database/queue.ts`: a FIFO list of wrapped
 * operations, an `isProcessing` flag, and one asynchronous drain loop that
 * shifts an operation off the front and awaits it before taking the next.
 *
 * The loop runs across `await`s, so it is modelled by the states it can be
 * suspended in and the events that move it on: a caller enqueues, the running
 * operation enqueues an operation and awaits its promise, or the running
 * operation's own work ends (fulfilled or thrown). Operations are abstract ids;
 * the model also keeps logs of what was submitted, started and settled.
 */
module Queue {
  import opened Wrappers

  /** An operation passed to `enqueue`. */
  type OpId = nat

  /** The promise of one `enqueue` call settling with its operation's outcome. */
  datatype Settlement = Settlement(op: OpId, outcome: Outcome)

  datatype QueueState = QueueState(
    queue: seq<OpId>,          // the waiting wrapped operations, front first
    isProcessing: bool,
    running: Option<OpId>,     // the operation the drain loop is awaiting
    awaiting: Option<nat>,     // submission position of an operation the running one awaits
    submitted: seq<OpId>,      // every enqueued operation, in order
    started: seq<OpId>,        // every operation the drain loop started, in order
    settled: seq<Settlement>)  // every settled promise, in order

  datatype Event =
    | Enqueue(op: OpId)          // `enqueue(op)` from any caller, including the running operation
    | EnqueueAwaited(op: OpId)   // the running operation calls `enqueue(op)` and awaits the promise
    | Finish(outcome: Outcome)   // the running operation's own work ends

  function Initial(): QueueState {
    QueueState([], false, None, None, [], [], [])
  }

  // ---------------------------------------------------------------------------
  // Transitions
  // ---------------------------------------------------------------------------

  /** `const operation = this.queue.shift()!` and calling it: the front operation starts. */
  function StartNext(s: QueueState): QueueState
    requires s.queue != []
  {
    s.(queue := s.queue[1..], running := Some(s.queue[0]), started := s.started + [s.queue[0]])
  }

  /** processQueue: return at once if a drain is active or nothing waits; otherwise start draining. */
  function ProcessQueueStep(s: QueueState): QueueState {
    if s.isProcessing || s.queue == [] then s else StartNext(s.(isProcessing := true))
  }

  /** enqueue: push the wrapped operation at the back, then call processQueue. */
  function EnqueueStep(s: QueueState, op: OpId): QueueState {
    ProcessQueueStep(s.(queue := s.queue + [op], submitted := s.submitted + [op]))
  }

  /** The running operation can finish unless it awaits an operation whose promise is still pending. */
  predicate CanFinish(s: QueueState) {
    s.running.Some? && (s.awaiting.None? || s.awaiting.value < |s.settled|)
  }

  /**
   * The drain loop resumes after `await operation()`. The wrapper has settled
   * the caller's promise. A rejection is rethrown and, unless the await is
   * `guarded` by a try/catch, escapes the loop: draining stops with
   * `isProcessing` still true. Otherwise the next operation starts, or the
   * loop ends and clears the flag.
   */
  function FinishStep(s: QueueState, outcome: Outcome, guarded: bool): QueueState {
    if !CanFinish(s) then s
    else
      var t := s.(settled := s.settled + [Settlement(s.running.value, outcome)], running := None, awaiting := None);
      if outcome == Rejected && !guarded then t
      else if t.queue == [] then t.(isProcessing := false)
      else StartNext(t)
  }

  /** One event. `guarded` selects a drain loop that catches rejections; `queue.ts` has none. */
  function Step(s: QueueState, e: Event, guarded: bool): QueueState {
    match e
    case Enqueue(op) => EnqueueStep(s, op)
    case EnqueueAwaited(op) =>
      if s.running.Some? && s.awaiting.None? then EnqueueStep(s, op).(awaiting := Some(|s.submitted|)) else s
    case Finish(outcome) => FinishStep(s, outcome, guarded)
  }

  function Run(s: QueueState, events: seq<Event>, guarded: bool): QueueState
    decreases |events|
  {
    if events == [] then s else Run(Step(s, events[0], guarded), events[1..], guarded)
  }

  /** The operations that `Enqueue` events submit. */
  function EnqueuedOps(events: seq<Event>): seq<OpId> {
    if events == [] then []
    else (if events[0].Enqueue? then [events[0].op] else []) + EnqueuedOps(events[1..])
  }

  /** One `Finish` event per outcome. */
  function Finishes(outcomes: seq<Outcome>): (events: seq<Event>)
    ensures |events| == |outcomes|
    ensures forall i :: 0 <= i < |outcomes| ==> events[i] == Finish(outcomes[i])
  {
    seq(|outcomes|, i requires 0 <= i < |outcomes| => Finish(outcomes[i]))
  }

  // ---------------------------------------------------------------------------
  // The invariant
  // ---------------------------------------------------------------------------

  /**
   * Operations start in submission order and settle in start order; at most
   * one has started without settling, and it is the one running; an idle queue
   * is empty; an awaited operation has not started yet; a drain that is marked
   * active but runs nothing was ended by a rejection.
   */
  ghost predicate Inv(s: QueueState) {
    && s.started + s.queue == s.submitted
    && |s.settled| <= |s.started| <= |s.settled| + 1
    && (forall k :: 0 <= k < |s.settled| ==> s.settled[k].op == s.started[k])
    && (s.running.Some? <==> |s.started| == |s.settled| + 1)
    && (s.running.Some? ==> s.isProcessing && s.running.value == s.started[|s.started| - 1])
    && (!s.isProcessing ==> s.queue == [])
    && (s.awaiting.Some? ==> s.running.Some? && |s.started| <= s.awaiting.value < |s.submitted|)
    && (s.isProcessing && s.running.None? ==> s.settled != [] && s.settled[|s.settled| - 1].outcome == Rejected)
  }

  lemma InitialInv()
    ensures Inv(Initial())
  {
  }

  lemma StepPreservesInv(s: QueueState, e: Event, guarded: bool)
    requires Inv(s)
    ensures Inv(Step(s, e, guarded))
  {
    match e {
      case Enqueue(op) =>
      case EnqueueAwaited(op) =>
      case Finish(outcome) =>
        if CanFinish(s) {
          var t := s.(settled := s.settled + [Settlement(s.running.value, outcome)], running := None, awaiting := None);
          assert t.started + t.queue == t.submitted;
          if !(outcome == Rejected && !guarded) && t.queue != [] {
            assert (t.started + [t.queue[0]]) + t.queue[1..] == t.started + t.queue;
          }
        }
    }
  }

  /** No sequence of events breaks the invariant. */
  lemma {:induction false} RunPreservesInv(s: QueueState, events: seq<Event>, guarded: bool)
    requires Inv(s)
    ensures Inv(Run(s, events, guarded))
    decreases |events|
  {
    if events != [] {
      StepPreservesInv(s, events[0], guarded);
      RunPreservesInv(Step(s, events[0], guarded), events[1..], guarded);
    }
  }

  /** The logs only grow. */
  lemma {:induction false} RunExtendsLogs(s: QueueState, events: seq<Event>, guarded: bool)
    ensures var t := Run(s, events, guarded);
      s.submitted <= t.submitted && s.started <= t.started && s.settled <= t.settled
    decreases |events|
  {
    if events != [] {
      RunExtendsLogs(Step(s, events[0], guarded), events[1..], guarded);
    }
  }

  lemma {:induction false} RunAppend(s: QueueState, events: seq<Event>, e: Event, guarded: bool)
    ensures Run(s, events + [e], guarded) == Step(Run(s, events, guarded), e, guarded)
    decreases |events|
  {
    if events != [] {
      assert (events + [e])[1..] == events[1..] + [e];
      RunAppend(Step(s, events[0], guarded), events[1..], e, guarded);
    }
  }

  // ---------------------------------------------------------------------------
  // What the queue promises its callers
  // ---------------------------------------------------------------------------

  /**
   * Whatever callers do, operations start in the order they were submitted,
   * one at a time (each after the one before it settled), and the k-th promise
   * to settle is that of the k-th submitted operation.
   */
  lemma FifoOneAtATime(events: seq<Event>, guarded: bool)
    ensures var t := Run(Initial(), events, guarded);
      && |t.started| <= |t.submitted|
      && t.started == t.submitted[..|t.started|]
      && |t.settled| <= |t.started| <= |t.settled| + 1
      && forall k :: 0 <= k < |t.settled| ==> t.settled[k].op == t.submitted[k]
  {
    InitialInv();
    RunPreservesInv(Initial(), events, guarded);
    var t := Run(Initial(), events, guarded);
    assert t.submitted[..|t.started|] == (t.started + t.queue)[..|t.started|];
  }

  /** While a drain is active, `enqueue` only appends: processQueue returns at once. */
  lemma EnqueueWhileProcessingOnlyAppends(s: QueueState, op: OpId, guarded: bool)
    requires s.isProcessing
    ensures Step(s, Enqueue(op), guarded) == s.(queue := s.queue + [op], submitted := s.submitted + [op])
  {
  }

  /** Enqueueing on an idle queue starts the operation at once. */
  lemma EnqueueWhenIdleStarts(s: QueueState, op: OpId, guarded: bool)
    requires Inv(s) && !s.isProcessing
    ensures var t := Step(s, Enqueue(op), guarded);
      t.isProcessing && t.running == Some(op) && t.queue == [] && t.started == s.started + [op]
  {
  }

  /** When the last waiting operation fulfils, the loop ends and `isProcessing` is false again. */
  lemma DrainEndsIdle(s: QueueState, guarded: bool)
    requires Inv(s) && CanFinish(s) && s.queue == []
    ensures var t := Step(s, Finish(Resolved), guarded);
      !t.isProcessing && t.running.None? && Inv(t)
  {
    StepPreservesInv(s, Finish(Resolved), guarded);
  }

  /**
   * An operation enqueued while another runs (in particular, by the running
   * operation itself) waits behind it: whatever happens next, it has not
   * started unless the one that was running has settled.
   */
  lemma NestedEnqueueWaitsBehind(s: QueueState, op: OpId, events: seq<Event>, guarded: bool)
    requires Inv(s) && s.running.Some?
    ensures var t := Run(Step(s, Enqueue(op), guarded), events, guarded);
      var position := |s.submitted|;
      && position < |t.submitted| && t.submitted[position] == op
      && (|t.started| > position ==>
            && t.started[position] == op
            && |t.settled| >= |s.started|
            && t.settled[|s.started| - 1].op == s.running.value)
  {
    var s1 := Step(s, Enqueue(op), guarded);
    StepPreservesInv(s, Enqueue(op), guarded);
    RunPreservesInv(s1, events, guarded);
    RunExtendsLogs(s1, events, guarded);
    var t := Run(s1, events, guarded);
    assert t.submitted[..|s1.submitted|] == s1.submitted;
    if |t.started| > |s.submitted| {
      assert t.started[|s.submitted|] == (t.started + t.queue)[|s.submitted|];
      assert t.started[|s.started| - 1] == s.started[|s.started| - 1];
    }
  }

  // ---------------------------------------------------------------------------
  // Behaviour of queue.ts as written, and of a guarded drain loop
  // ---------------------------------------------------------------------------

  /** The drain loop is gone but `isProcessing` is still set. */
  predicate Stuck(s: QueueState) {
    s.isProcessing && s.running.None?
  }

  /** From a stuck state nothing ever starts or settles again; every enqueue only appends. */
  lemma {:induction false} StuckForever(s: QueueState, events: seq<Event>)
    requires Stuck(s)
    ensures var t := Run(s, events, false);
      && Stuck(t) && t.started == s.started && t.settled == s.settled
      && t.queue == s.queue + EnqueuedOps(events)
    decreases |events|
  {
    if events != [] {
      var s1 := Step(s, events[0], false);
      StuckForever(s1, events[1..]);
      assert s.queue + EnqueuedOps(events) == s1.queue + EnqueuedOps(events[1..]);
    }
  }

  /**
   * As written, a rejected operation leaves the queue stuck: its caller's
   * promise rejects, but no operation behind it, nor any enqueued later, ever
   * starts or settles.
   */
  lemma RejectionStallsQueue(s: QueueState, events: seq<Event>)
    requires Inv(s) && CanFinish(s)
    ensures var t := Run(Step(s, Finish(Rejected), false), events, false);
      && t.isProcessing && t.running.None?
      && t.started == s.started
      && t.settled == s.settled + [Settlement(s.running.value, Rejected)]
      && t.queue == s.queue + EnqueuedOps(events)
  {
    StuckForever(Step(s, Finish(Rejected), false), events);
  }

  /**
   * When no operation is rejected, or the drain's await is guarded, every
   * operation settles: from a running operation that awaits nothing, one
   * outcome per started or waiting operation settles them all, and the queue
   * is idle again. With `guarded` false this is `queue.ts` as written.
   */
  lemma {:induction false} DrainSettlesAll(s: QueueState, outcomes: seq<Outcome>, guarded: bool)
    requires Inv(s) && s.running.Some? && s.awaiting.None?
    requires |outcomes| == |s.queue| + 1
    requires guarded || Rejected !in outcomes
    ensures var t := Run(s, Finishes(outcomes), guarded);
      && |t.settled| == |t.submitted| && t.submitted == s.submitted
      && !t.isProcessing && t.queue == [] && t.running.None?
    decreases |outcomes|
  {
    var s1 := Step(s, Finish(outcomes[0]), guarded);
    StepPreservesInv(s, Finish(outcomes[0]), guarded);
    assert Finishes(outcomes)[1..] == Finishes(outcomes[1..]);
    if s.queue != [] {
      assert guarded || Rejected !in outcomes[1..];
      DrainSettlesAll(s1, outcomes[1..], guarded);
    } else {
      assert Finishes(outcomes[1..]) == [];
    }
  }

  /**
   * An operation that awaits an operation it enqueued itself never finishes:
   * the awaited one cannot start before the running one settles. From then on
   * nothing starts or settles, and the queue stays marked as processing.
   */
  lemma {:induction false} SelfWaitNeverFinishes(s: QueueState, op: OpId, events: seq<Event>, guarded: bool)
    requires Inv(s) && s.running.Some? && s.awaiting.None?
    ensures var t := Run(Step(s, EnqueueAwaited(op), guarded), events, guarded);
      && t.running == s.running && t.isProcessing
      && t.started == s.started && t.settled == s.settled
  {
    var s1 := Step(s, EnqueueAwaited(op), guarded);
    StepPreservesInv(s, EnqueueAwaited(op), guarded);
    AwaitingIsDeadlock(s1, events, guarded);
  }

  lemma {:induction false} AwaitingIsDeadlock(s: QueueState, events: seq<Event>, guarded: bool)
    requires Inv(s) && s.awaiting.Some?
    ensures var t := Run(s, events, guarded);
      && t.running == s.running && t.awaiting == s.awaiting && t.isProcessing
      && t.started == s.started && t.settled == s.settled
    decreases |events|
  {
    if events != [] {
      var s1 := Step(s, events[0], guarded);
      StepPreservesInv(s, events[0], guarded);
      AwaitingIsDeadlock(s1, events[1..], guarded);
    }
  }

  // ---------------------------------------------------------------------------
  // The class
  // ---------------------------------------------------------------------------

  class OperationQueue {
    var queue: seq<OpId>
    var isProcessing: bool
    // Where the drain loop is suspended, and on what.
    var running: Option<OpId>
    var awaiting: Option<nat>
    // The promises handed to callers, the operations called, and how the promises settled.
    var submitted: seq<OpId>
    var started: seq<OpId>
    var settled: seq<Settlement>
    // Whether the drain loop catches a rejection; `queue.ts` does not.
    const guarded: bool

    ghost function Model(): QueueState
      reads this
    {
      QueueState(queue, isProcessing, running, awaiting, submitted, started, settled)
    }

    constructor (guarded: bool)
      ensures Model() == Initial() && this.guarded == guarded
    {
      this.guarded := guarded;
      queue, isProcessing, running, awaiting := [], false, None, None;
      submitted, started, settled := [], [], [];
    }

    /** enqueue(operation): push the wrapper, then try to start draining. */
    method Enqueue(op: OpId)
      modifies this
      ensures Model() == Step(old(Model()), Event.Enqueue(op), guarded)
    {
      queue := queue + [op];
      submitted := submitted + [op];
      ProcessQueue();
    }

    /** The running operation enqueues `op` and awaits its promise. */
    method EnqueueAwaited(op: OpId)
      modifies this
      ensures Model() == Step(old(Model()), Event.EnqueueAwaited(op), guarded)
    {
      if running.Some? && awaiting.None? {
        var position := |submitted|;
        Enqueue(op);
        awaiting := Some(position);
      }
    }

    method ProcessQueue()
      modifies this
      ensures Model() == ProcessQueueStep(old(Model()))
    {
      if isProcessing || |queue| == 0 {
        return;
      }
      isProcessing := true;
      ShiftAndStart();
    }

    /** One turn of the drain loop up to its await: shift the front operation and call it. */
    method ShiftAndStart()
      requires |queue| > 0
      modifies this
      ensures Model() == StartNext(old(Model()))
    {
      var operation := queue[0];
      queue := queue[1..];
      running := Some(operation);
      started := started + [operation];
    }

    /**
     * The running operation's work ends with `outcome` and `await operation()`
     * returns or throws: unless the loop is `guarded`, a rejection leaves it
     * (`queue.ts` has no try/catch around the await); otherwise the loop moves
     * on to the next operation, or ends when none is waiting.
     */
    method OperationFinished(outcome: Outcome)
      requires Inv(Model())
      modifies this
      ensures Model() == Step(old(Model()), Finish(outcome), guarded)
    {
      if running.None? || awaiting.Some? {
        return;
      }
      settled := settled + [Settlement(running.value, outcome)];
      running, awaiting := None, None;
      if outcome == Rejected && !guarded {
        return;
      }
      if |queue| > 0 {
        ShiftAndStart();
      } else {
        isProcessing := false;
      }
    }

    /**
     * The `while` loop of processQueue when each operation it starts ends with
     * the next of `outcomes` and nobody else enqueues: it runs until the
     * outcomes are used up or the loop can go no further (it ended, it was
     * left by a rejection, or the running operation awaits a queued one).
     */
    method Drain(outcomes: seq<Outcome>) returns (n: nat)
      requires Inv(Model())
      modifies this
      ensures n <= |outcomes|
      ensures Model() == Run(old(Model()), Finishes(outcomes[..n]), guarded)
      ensures Inv(Model())
      ensures n < |outcomes| ==> !CanFinish(Model())
    {
      n := 0;
      while n < |outcomes| && running.Some? && awaiting.None?
        invariant n <= |outcomes|
        invariant Model() == Run(old(Model()), Finishes(outcomes[..n]), guarded)
        invariant Inv(Model())
      {
        ghost var before := Model();
        OperationFinished(outcomes[n]);
        StepPreservesInv(before, Finish(outcomes[n]), guarded);
        RunAppend(old(Model()), Finishes(outcomes[..n]), Finish(outcomes[n]), guarded);
        assert Finishes(outcomes[..n + 1]) == Finishes(outcomes[..n]) + [Finish(outcomes[n])];
        n := n + 1;
      }
    }
  }
}
