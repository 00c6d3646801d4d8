/**
 * src/EventLoop.cc: the task queue and its wakeup, under any interleaving of the
 * loop thread with any number of other threads. Updating the queue or quit_ and
 * writing the eventfd are separate steps. A run is a list of events; an event
 * that its thread cannot perform now does nothing.
 */
module LoopProtocol {

  /** Where the loop thread is. Handlers and functors are in the loop thread's hands: they may queue and quit. */
  datatype Pc =
    | AtTest                 // at while(!quit_)
    | InPoll                 // blocked in Poll
    | Handling(woken: bool)  // walking the active channels; woken: the wakeup channel is still among them
    | Swapping               // callingPendingFunctors_ is set, the swap is next
    | Running                // executing the swapped batch
    | Exited

  /** A functor, with the number of swaps before it was queued. */
  datatype Task = Task(id: nat, stamp: nat)
  datatype Done = Done(task: Task, batch: nat)

  datatype State = State(
    pc: Pc,
    calling: bool,         // callingPendingFunctors_
    quit: bool,            // quit_
    pending: seq<Task>,    // pendingFunctors_
    batch: seq<Task>,      // what is left of the swapped vector
    eventfd: nat,          // the counter of wakeupFd_
    waking: set<nat>,      // other threads between their update and their wakeup
    loopWaking: bool,      // the loop thread likewise
    swaps: nat,            // history
    enqueued: seq<Task>,   // history
    executed: seq<Done>)   // history

  datatype Event =
    | Push(thread: nat, id: nat)   // queueInLoop in another thread: the locked push_back
    | Quit(thread: nat)            // quit in another thread: the store
    | Wake(thread: nat)            // the wakeup() of either
    | LoopPush(id: nat)            // queueInLoop in the loop thread
    | LoopWake
    | LoopQuit
    | Test
    | PollReturns(woken: bool)     // events, a timeout or an interrupt
    | HandleWakeup                 // handleRead
    | EndHandling
    | Swap
    | RunNext
    | EndBatch

  const kMaxCounter: nat := 0xFFFF_FFFF_FFFF_FFFE

  /** write(wakeupFd_) adds one; at the maximum it fails with EAGAIN, which is logged. */
  function Signal(fd: nat): nat
  {
    if fd < kMaxCounter then fd + 1 else fd
  }

  predicate InCallback(s: State)
  {
    (s.pc.Handling? || s.pc.Running?) && !s.loopWaking
  }

  function Enqueue(s: State, id: nat): State
  {
    var t := Task(id, s.swaps);
    s.(pending := s.pending + [t], enqueued := s.enqueued + [t])
  }

  function Step(s: State, e: Event): State
  {
    match e
    case Push(thread, id) =>
      if thread in s.waking then s else Enqueue(s, id).(waking := s.waking + {thread})
    case Quit(thread) =>
      if thread in s.waking then s else s.(quit := true, waking := s.waking + {thread})
    case Wake(thread) =>
      if thread in s.waking then s.(eventfd := Signal(s.eventfd), waking := s.waking - {thread}) else s
    case LoopPush(id) =>
      if InCallback(s) then Enqueue(s, id).(loopWaking := s.calling) else s
    case LoopWake =>
      if s.loopWaking then s.(eventfd := Signal(s.eventfd), loopWaking := false) else s
    case LoopQuit =>
      if InCallback(s) then s.(quit := true) else s
    case Test =>
      if s.pc.AtTest? then s.(pc := if s.quit then Exited else InPoll) else s
    case PollReturns(woken) =>
      if s.pc.InPoll? && (woken ==> s.eventfd > 0) then s.(pc := Handling(woken)) else s
    case HandleWakeup =>
      if s.pc == Handling(true) && !s.loopWaking then s.(pc := Handling(false), eventfd := 0) else s
    case EndHandling =>
      if s.pc == Handling(false) && !s.loopWaking then s.(pc := Swapping, calling := true) else s
    case Swap =>
      if s.pc.Swapping? then s.(pc := Running, batch := s.pending, pending := [], swaps := s.swaps + 1) else s
    case RunNext =>
      if s.pc.Running? && !s.loopWaking && s.batch != [] then
        s.(executed := s.executed + [Done(s.batch[0], s.swaps)], batch := s.batch[1..])
      else s
    case EndBatch =>
      if s.pc.Running? && !s.loopWaking && s.batch == [] then s.(pc := AtTest, calling := false) else s
  }

  function Exec(s: State, es: seq<Event>): State
  {
    if es == [] then s else Step(Exec(s, es[..|es| - 1]), es[|es| - 1])
  }

  lemma ExecSnoc(s: State, es: seq<Event>, e: Event)
    ensures Exec(s, es + [e]) == Step(Exec(s, es), e)
  {
    assert (es + [e])[..|es|] == es;
  }

  /** Entering loop(): quit_ is cleared, whatever was there before. */
  function Enter(s: State): State
  {
    s.(pc := AtTest, quit := false)
  }

  /** A loop thread about to call loop(): no batch, nothing run, everything queued so far still pending. */
  predicate BeforeLoop(s: State)
  {
    && !s.calling && !s.loopWaking && s.batch == [] && s.executed == []
    && s.enqueued == s.pending
    && forall t :: t in s.pending ==> t.stamp == s.swaps
  }

  // ---------------------------------------------------------------------------
  // No lost wakeup

  /** Somebody has written the eventfd, or is about to. */
  predicate Signalled(s: State)
  {
    s.eventfd > 0 || s.waking != {} || s.loopWaking
  }

  /** The loop never sleeps over a task or a quit unless a wakeup is under way. */
  predicate NotLost(s: State)
  {
    s.pc.InPoll? && s.eventfd == 0 && s.waking == {} ==> s.pending == [] && !s.quit
  }

  predicate WakeupInv(s: State)
  {
    && (s.calling <==> s.pc.Swapping? || s.pc.Running?)
    && (s.loopWaking ==> s.pc.Running?)
    && (s.pc.AtTest? || s.pc.InPoll? || s.pc.Running? ==> s.pending == [] || Signalled(s))
    && (s.pc.InPoll? && s.quit ==> Signalled(s))
  }

  lemma StepWakeupInv(s: State, e: Event)
    requires WakeupInv(s)
    ensures WakeupInv(Step(s, e))
  {
    if e.Push? {
      assert e.thread in s.waking + {e.thread};
    }
    if e.Quit? {
      assert e.thread in s.waking + {e.thread};
    }
  }

  lemma {:induction false} ExecWakeupInv(s: State, es: seq<Event>)
    requires WakeupInv(s)
    ensures WakeupInv(Exec(s, es))
  {
    if es != [] {
      ExecWakeupInv(s, es[..|es| - 1]);
      StepWakeupInv(Exec(s, es[..|es| - 1]), es[|es| - 1]);
    }
  }

  /**
   * No lost wakeup, exactly: from entry to loop(), no interleaving puts the loop
   * to sleep over pending work with nobody about to wake it, if and only if the
   * functors that were queued before loop() come with a wakeup. A functor that
   * the loop thread itself queues before loop() does not.
   */
  lemma NoLostWakeupIff(s: State)
    requires BeforeLoop(s)
    ensures (forall es :: NotLost(Exec(Enter(s), es))) <==> s.pending == [] || s.eventfd > 0 || s.waking != {}
  {
    if s.pending == [] || s.eventfd > 0 || s.waking != {} {
      forall es ensures NotLost(Exec(Enter(s), es)) {
        ExecWakeupInv(Enter(s), es);
      }
    } else {
      ExecSnoc(Enter(s), [], Test);
      assert !NotLost(Exec(Enter(s), [] + [Test]));
    }
  }

  /** An event adds a write to the n of before, or is the read that takes them away. */
  function Counted(before: State, e: Event, n: nat): nat
  {
    match e
    case Wake(thread) => if thread in before.waking then n + 1 else n
    case LoopWake => if before.loopWaking then n + 1 else n
    case HandleWakeup => if before.pc == Handling(true) && !before.loopWaking then 0 else n
    case _ => n
  }

  /** The writes to the eventfd since it was last read, with what was in it at s. */
  function WritesSinceRead(s: State, es: seq<Event>): nat
  {
    if es == [] then s.eventfd
    else Counted(Exec(s, es[..|es| - 1]), es[|es| - 1], WritesSinceRead(s, es[..|es| - 1]))
  }

  /** As far as the counter can count. */
  predicate Counts(fd: nat, n: nat)
  {
    fd == if n <= 0xFFFF_FFFF_FFFF_FFFE then n else 0xFFFF_FFFF_FFFF_FFFE
  }

  lemma StepCounts(s: State, e: Event, n: nat)
    requires Counts(s.eventfd, n)
    ensures Counts(Step(s, e).eventfd, Counted(s, e, n))
  {
  }

  lemma WokenIff(s: State, n: nat)
    requires Counts(s.eventfd, n) && s.pc.InPoll?
    ensures Step(s, PollReturns(true)).pc == Handling(true) <==> n > 0
  {
  }

  /**
   * In every interleaving the counter is the number of writes since the last
   * read, so the wakeup channel is ready exactly when there was one: no wakeup is
   * lost, and after the read the loop can sleep until the next write.
   */
  lemma {:induction false} CounterIsWritesSinceRead(s: State, es: seq<Event>)
    requires s.eventfd <= 0xFFFF_FFFF_FFFF_FFFE
    ensures Counts(Exec(s, es).eventfd, WritesSinceRead(s, es))
    ensures Exec(s, es).pc.InPoll? ==>
      (Step(Exec(s, es), PollReturns(true)).pc == Handling(true) <==> WritesSinceRead(s, es) > 0)
  {
    if es != [] {
      CounterIsWritesSinceRead(s, es[..|es| - 1]);
      StepCounts(Exec(s, es[..|es| - 1]), es[|es| - 1], WritesSinceRead(s, es[..|es| - 1]));
    }
    if Exec(s, es).pc.InPoll? {
      WokenIff(Exec(s, es), WritesSinceRead(s, es));
    }
  }

  // ---------------------------------------------------------------------------
  // Functors run once, in order, in the batch after the one they were queued in

  function TasksOf(ds: seq<Done>): seq<Task>
  {
    if ds == [] then [] else TasksOf(ds[..|ds| - 1]) + [ds[|ds| - 1].task]
  }

  predicate Fifo(s: State)
  {
    TasksOf(s.executed) + s.batch + s.pending == s.enqueued
  }

  predicate Stamped(s: State)
  {
    && (forall i :: 0 <= i < |s.pending| ==> s.pending[i].stamp == s.swaps)
    && (forall i :: 0 <= i < |s.batch| ==> s.batch[i].stamp + 1 == s.swaps)
    && (forall i :: 0 <= i < |s.executed| ==> s.executed[i].batch == s.executed[i].task.stamp + 1 <= s.swaps)
    && (!s.pc.Running? ==> s.batch == [])
  }

  lemma EnqueueFifo(s: State, id: nat)
    requires Fifo(s) && Stamped(s)
    ensures Fifo(Enqueue(s, id)) && Stamped(Enqueue(s, id))
  {
    var done, x := TasksOf(s.executed) + s.batch, Task(id, s.swaps);
    assert done + (s.pending + [x]) == done + s.pending + [x];
  }

  lemma SwapFifo(s: State)
    requires Fifo(s) && Stamped(s) && s.pc.Swapping?
    ensures Fifo(Step(s, Swap)) && Stamped(Step(s, Swap))
  {
    var done := TasksOf(s.executed);
    assert done + [] + s.pending == done + s.pending + [];
  }

  lemma RunFifo(s: State)
    requires Fifo(s) && Stamped(s)
    ensures Fifo(Step(s, RunNext)) && Stamped(Step(s, RunNext))
  {
    var t, done := Step(s, RunNext), TasksOf(s.executed);
    if t != s {
      assert t.executed[..|s.executed|] == s.executed;
      assert TasksOf(t.executed) == done + [s.batch[0]];
      assert done + s.batch == done + [s.batch[0]] + s.batch[1..];
    }
  }

  lemma StepFifo(s: State, e: Event)
    requires Fifo(s) && Stamped(s)
    ensures Fifo(Step(s, e)) && Stamped(Step(s, e))
  {
    match e
    case Push(_, id) => EnqueueFifo(s, id);
    case LoopPush(id) => EnqueueFifo(s, id);
    case Swap => if s.pc.Swapping? { SwapFifo(s); }
    case RunNext => RunFifo(s);
    case _ =>
  }

  lemma {:induction false} ExecFifo(s: State, es: seq<Event>)
    requires Fifo(s) && Stamped(s)
    ensures Fifo(Exec(s, es)) && Stamped(Exec(s, es))
  {
    if es != [] {
      ExecFifo(s, es[..|es| - 1]);
      StepFifo(Exec(s, es[..|es| - 1]), es[|es| - 1]);
    }
  }

  /**
   * For every interleaving: the functors run so far, the rest of the batch and
   * the pending ones are the functors queued, in order; and a functor queued
   * after k swaps runs in batch k + 1, so what a batch queues never extends it.
   */
  lemma FunctorsRunOnceInOrder(s: State, es: seq<Event>)
    requires BeforeLoop(s)
    ensures var t := Exec(Enter(s), es);
      && TasksOf(t.executed) + t.batch + t.pending == t.enqueued
      && (forall i :: 0 <= i < |t.executed| ==> t.executed[i].batch == t.executed[i].task.stamp + 1)
  {
    assert Fifo(Enter(s)) && Stamped(Enter(s));
    ExecFifo(Enter(s), es);
  }

  /** The functor that queueInLoop is called with in a step, by another thread or by a callback. */
  function CalledBy(s: State, e: Event): seq<nat>
  {
    match e
    case Push(thread, id) => if thread in s.waking then [] else [id]
    case LoopPush(id) => if InCallback(s) then [id] else []
    case _ => []
  }

  function Called(s: State, es: seq<Event>): seq<nat>
  {
    if es == [] then [] else Called(s, es[..|es| - 1]) + CalledBy(Exec(s, es[..|es| - 1]), es[|es| - 1])
  }

  /** The functors of tasks; the stamp of a task is history. */
  function Ids(ts: seq<Task>): seq<nat>
  {
    seq(|ts|, i requires 0 <= i < |ts| => ts[i].id)
  }

  lemma IdsSnoc(ts: seq<Task>, t: Task)
    ensures Ids(ts + [t]) == Ids(ts) + [t.id]
  {
  }

  lemma StepEnqueues(s: State, e: Event)
    ensures Ids(Step(s, e).enqueued) == Ids(s.enqueued) + CalledBy(s, e)
  {
    assert Ids(s.enqueued) + [] == Ids(s.enqueued);
    if e.Push? || e.LoopPush? {
      IdsSnoc(s.enqueued, Task(e.id, s.swaps));
    }
  }

  /** What is queued in a run is what queueInLoop was called with, in order, after what was queued before it. */
  lemma {:induction false} EnqueuedAreTheCalls(s: State, es: seq<Event>)
    ensures Ids(Exec(s, es).enqueued) == Ids(s.enqueued) + Called(s, es)
  {
    if es == [] {
      assert Ids(s.enqueued) + [] == Ids(s.enqueued);
    } else {
      var before, e := es[..|es| - 1], es[|es| - 1];
      EnqueuedAreTheCalls(s, before);
      StepEnqueues(Exec(s, before), e);
      assert Ids(s.enqueued) + (Called(s, before) + CalledBy(Exec(s, before), e))
          == Ids(s.enqueued) + Called(s, before) + CalledBy(Exec(s, before), e);
    }
  }

  /** When a batch is finished, exactly the functors queued before its swap have run. */
  lemma FinishedBatchRanAllEarlier(s: State, es: seq<Event>)
    requires BeforeLoop(s) && Exec(Enter(s), es).batch == []
    ensures var t := Exec(Enter(s), es);
      && TasksOf(t.executed) <= t.enqueued
      && (forall i :: 0 <= i < |t.enqueued| ==> (i < |TasksOf(t.executed)| <==> t.enqueued[i].stamp < t.swaps))
  {
    assert Fifo(Enter(s)) && Stamped(Enter(s));
    ExecFifo(Enter(s), es);
    StampsDivide(Exec(Enter(s), es));
  }

  lemma StampsDivide(t: State)
    requires Fifo(t) && Stamped(t) && t.batch == []
    ensures TasksOf(t.executed) <= t.enqueued
    ensures forall i :: 0 <= i < |t.enqueued| ==> (i < |TasksOf(t.executed)| <==> t.enqueued[i].stamp < t.swaps)
  {
    var done := TasksOf(t.executed);
    TaskStamps(t.executed, t.swaps);
    assert t.enqueued == done + t.pending;
    forall i | 0 <= i < |t.enqueued| ensures i < |done| <==> t.enqueued[i].stamp < t.swaps {
      assert t.enqueued[i] == if i < |done| then done[i] else t.pending[i - |done|];
    }
  }

  lemma {:induction false} TaskStamps(ds: seq<Done>, swaps: nat)
    requires forall i :: 0 <= i < |ds| ==> ds[i].task.stamp + 1 <= swaps
    ensures forall i :: 0 <= i < |TasksOf(ds)| ==> TasksOf(ds)[i].stamp < swaps
  {
    if ds != [] {
      TaskStamps(ds[..|ds| - 1], swaps);
    }
  }

  // ---------------------------------------------------------------------------
  // quit

  /** Somebody calls quit: another thread that is not inside another call, or a callback. */
  predicate QuitBy(s: State, e: Event)
  {
    (e.Quit? && e.thread !in s.waking) || (e.LoopQuit? && InCallback(s))
  }

  predicate QuitIn(s: State, es: seq<Event>)
  {
    es != [] && (QuitIn(s, es[..|es| - 1]) || QuitBy(Exec(s, es[..|es| - 1]), es[|es| - 1]))
  }

  lemma StepQuits(s: State, e: Event)
    requires s.pc.Exited? ==> s.quit
    ensures var t := Step(s, e); (t.quit <==> s.quit || QuitBy(s, e)) && (t.pc.Exited? ==> t.quit)
  {
  }

  /** The loop leaves at a test if and only if somebody has called quit since the entry. */
  lemma {:induction false} LoopLeavesIff(s: State, es: seq<Event>)
    requires BeforeLoop(s)
    ensures var t := Exec(Enter(s), es);
      && (t.pc.Exited? ==> QuitIn(Enter(s), es))
      && (t.pc.AtTest? ==> (Step(t, Test).pc.Exited? <==> QuitIn(Enter(s), es)))
  {
    QuitExactly(s, es);
  }

  lemma {:induction false} QuitExactly(s: State, es: seq<Event>)
    requires BeforeLoop(s)
    ensures var t := Exec(Enter(s), es); (t.quit <==> QuitIn(Enter(s), es)) && (t.pc.Exited? ==> t.quit)
  {
    if es != [] {
      QuitExactly(s, es[..|es| - 1]);
      StepQuits(Exec(Enter(s), es[..|es| - 1]), es[|es| - 1]);
    }
  }

  predicate Quits(e: Event)
  {
    e.Quit? || e.LoopQuit?
  }

  /** Without a quit after entry the loop does not leave: an earlier quit is overwritten. */
  lemma {:induction false} EarlierQuitIsForgotten(s: State, es: seq<Event>)
    requires BeforeLoop(s) && forall e :: e in es ==> !Quits(e)
    ensures !Exec(Enter(s), es).quit && !Exec(Enter(s), es).pc.Exited?
  {
    if es != [] {
      assert !Quits(es[|es| - 1]);
      EarlierQuitIsForgotten(s, es[..|es| - 1]);
    }
  }

  /** A quit after entry is not forgotten, and the loop leaves at its next test. */
  lemma {:induction false} QuitIsKept(s: State, es: seq<Event>)
    requires s.quit
    ensures Exec(s, es).quit
    ensures Exec(s, es).pc.AtTest? ==> Step(Exec(s, es), Test).pc.Exited?
  {
    if es != [] {
      QuitIsKept(s, es[..|es| - 1]);
    }
  }
}

/** The class EventLoop. Each atomic section is a step of the protocol; between two of them others may act. */
module EventLoops {
  import opened LoopProtocol

  /** What only the loop thread changes. */
  predicate LoopSame(s: State, t: State)
  {
    && s.pc == t.pc && s.calling == t.calling && s.batch == t.batch && s.loopWaking == t.loopWaking
    && s.swaps == t.swaps && s.executed == t.executed
  }

  /** Steps of other threads, and calls that a handler or functor of the loop thread makes. */
  predicate Foreign(e: Event)
  {
    e.Push? || e.Quit? || e.Wake? || e.LoopPush? || e.LoopWake? || e.LoopQuit?
  }

  predicate AllForeign(es: seq<Event>)
  {
    forall e :: e in es ==> Foreign(e)
  }

  /** Such steps, with every call of the loop thread finished. */
  ghost predicate ForeignRun(s: State, t: State)
  {
    exists es :: AllForeign(es) && t == Exec(s, es) && t.loopWaking == s.loopWaking
  }

  /** What they leave alone and what they may only add to. */
  predicate LoopUndisturbed(s: State, t: State)
  {
    && s.pc == t.pc && s.calling == t.calling && s.batch == t.batch
    && s.swaps == t.swaps && s.executed == t.executed
    && s.pending <= t.pending && (s.quit ==> t.quit)
  }

  lemma ForeignStep(s: State, e: Event)
    requires Foreign(e)
    ensures LoopUndisturbed(s, Step(s, e))
  {
  }

  lemma {:induction false} ForeignRunKeeps(s: State, es: seq<Event>)
    requires WakeupInv(s) && AllForeign(es)
    ensures WakeupInv(Exec(s, es)) && LoopUndisturbed(s, Exec(s, es))
  {
    if es != [] {
      var before, e := es[..|es| - 1], es[|es| - 1];
      assert e in es;
      ForeignRunKeeps(s, before);
      StepWakeupInv(Exec(s, before), e);
      ForeignStep(Exec(s, before), e);
    }
  }

  predicate Spares(es: seq<Event>, self: nat)
  {
    forall e :: e in es ==> !(e == Wake(self)) && !(e.Push? && e.thread == self) && !(e.Quit? && e.thread == self)
  }

  /** Any steps but those of one thread. */
  ghost predicate RunWithout(s: State, t: State, self: nat)
  {
    exists es :: Spares(es, self) && t == Exec(s, es)
  }

  predicate ThreadUndisturbed(s: State, t: State, self: nat)
  {
    (self in t.waking <==> self in s.waking) && s.enqueued <= t.enqueued && (s.quit ==> t.quit)
  }

  lemma {:induction false} RunWithoutKeeps(s: State, es: seq<Event>, self: nat)
    requires WakeupInv(s) && Spares(es, self)
    ensures WakeupInv(Exec(s, es)) && ThreadUndisturbed(s, Exec(s, es), self)
  {
    if es != [] {
      var before, e := es[..|es| - 1], es[|es| - 1];
      assert e in es;
      RunWithoutKeeps(s, before, self);
      StepWakeupInv(Exec(s, before), e);
    }
  }

  function DoneIn(ts: seq<Task>, batch: nat): seq<Done>
  {
    seq(|ts|, i requires 0 <= i < |ts| => Done(ts[i], batch))
  }

  class EventLoop {
    var quit: bool
    var callingPendingFunctors: bool
    var pendingFunctors: seq<nat>
    var wakeupFd: nat
    // Where the protocol stands; the fields above are its concrete part.
    ghost var model: State

    ghost predicate Valid()
      reads this
    {
      && quit == model.quit && callingPendingFunctors == model.calling
      && pendingFunctors == Ids(model.pending) && wakeupFd == model.eventfd
      && WakeupInv(model)
    }

    /** loop() up to its first test, reached with the given queue and counter. */
    constructor (before: State)
      requires BeforeLoop(before) && (before.pending == [] || before.eventfd > 0 || before.waking != {})
      ensures Valid() && model == Enter(before)
    {
      quit, callingPendingFunctors := false, false;
      pendingFunctors, wakeupFd := Ids(before.pending), before.eventfd;
      model := Enter(before);
    }

    /**
     * What may happen between two steps of the loop thread: other threads queue,
     * quit and wake up, and so does the handler or functor that is running. The
     * body does nothing; callers know no more than the contract.
     */
    method OthersRun()
      requires Valid()
      modifies `quit, `pendingFunctors, `wakeupFd, `model
      ensures Valid() && ForeignRun(old(model), model)
    {
      assert AllForeign([]) && Exec(model, []) == model;
    }

    /** OthersRun, as the loop thread sees it. */
    method Interference()
      requires Valid()
      modifies `quit, `pendingFunctors, `wakeupFd, `model
      ensures Valid() && LoopSame(old(model), model)
      ensures old(model).pending <= model.pending && (old(quit) ==> quit)
    {
      ghost var before := model;
      OthersRun();
      ghost var es :| AllForeign(es) && model == Exec(before, es) && model.loopWaking == before.loopWaking;
      ForeignRunKeeps(before, es);
    }

    /** What may happen between two steps of another thread: everything but its own steps. */
    method AllOthersRun(self: nat)
      requires Valid()
      modifies this
      ensures Valid() && RunWithout(old(model), model, self)
    {
      assert Spares([], self) && Exec(model, []) == model;
    }

    /** AllOthersRun, as that thread sees it. */
    method Elsewhere(self: nat)
      requires Valid()
      modifies this
      ensures Valid() && (self in model.waking <==> self in old(model.waking))
      ensures old(model.enqueued) <= model.enqueued && (old(quit) ==> quit)
    {
      ghost var before := model;
      AllOthersRun(self);
      ghost var es :| Spares(es, self) && model == Exec(before, es);
      RunWithoutKeeps(before, es, self);
    }

    method Wakeup(self: nat)
      requires Valid() && self in model.waking
      modifies `wakeupFd, `model
      ensures Valid() && model == Step(old(model), Wake(self))
      ensures wakeupFd > 0
    {
      StepWakeupInv(model, Wake(self));
      model := Step(model, Wake(self));
      if wakeupFd < kMaxCounter {
        wakeupFd := wakeupFd + 1;
      }
    }

    /** queueInLoop in a thread that is not the loop's. */
    method QueueInLoopElsewhere(self: nat, id: nat) returns (ghost task: Task)
      requires Valid() && self !in model.waking
      modifies this
      ensures Valid() && self !in model.waking && wakeupFd > 0
      ensures task.id == id && task in model.enqueued
    {
      task := Task(id, model.swaps);
      pendingFunctors := pendingFunctors + [id];
      StepWakeupInv(model, Push(self, id));
      model := Step(model, Push(self, id));
      assert model.enqueued[|model.enqueued| - 1] == task;
      Elsewhere(self);
      Wakeup(self);
    }

    /** queueInLoop in the loop thread: a wakeup is needed only while functors are being called. */
    method QueueInLoop(id: nat)
      requires Valid() && InCallback(model)
      modifies `quit, `pendingFunctors, `wakeupFd, `model
      ensures Valid() && LoopSame(old(model), model)
      ensures old(model).pending + [Task(id, model.swaps)] <= model.pending
      ensures callingPendingFunctors ==> wakeupFd > 0
    {
      pendingFunctors := pendingFunctors + [id];
      StepWakeupInv(model, LoopPush(id));
      model := Step(model, LoopPush(id));
      Interference();
      if callingPendingFunctors {
        StepWakeupInv(model, LoopWake);
        model := Step(model, LoopWake);
        if wakeupFd < kMaxCounter {
          wakeupFd := wakeupFd + 1;
        }
      }
    }

    /** quit in the loop thread, which is awake. */
    method Quit()
      requires Valid() && InCallback(model)
      modifies `quit, `model
      ensures Valid() && quit && model == Step(old(model), LoopQuit) && LoopSame(old(model), model)
    {
      StepWakeupInv(model, LoopQuit);
      model := Step(model, LoopQuit);
      quit := true;
    }

    method QuitElsewhere(self: nat)
      requires Valid() && self !in model.waking
      modifies this
      ensures Valid() && self !in model.waking && wakeupFd > 0 && quit
    {
      quit := true;
      StepWakeupInv(model, Event.Quit(self));
      model := Step(model, Event.Quit(self));
      Elsewhere(self);
      Wakeup(self);
    }

    /** Poll, with the wakeup channel among the active ones or not. */
    method Poll() returns (woken: bool)
      requires Valid() && model.pc.InPoll?
      modifies `quit, `pendingFunctors, `wakeupFd, `model
      ensures Valid() && model.pc == Handling(woken) && !model.loopWaking
      ensures old(model).pending <= model.pending
      ensures model.swaps == old(model).swaps && model.executed == old(model).executed
    {
      Interference();
      woken := wakeupFd > 0;
      StepWakeupInv(model, PollReturns(woken));
      model := Step(model, PollReturns(woken));
    }

    /** handleRead, the read callback of the wakeup channel. */
    method HandleRead()
      requires Valid() && model.pc == Handling(true) && !model.loopWaking
      modifies `wakeupFd, `model
      ensures Valid() && model == Step(old(model), HandleWakeup)
    {
      StepWakeupInv(model, HandleWakeup);
      model := Step(model, HandleWakeup);
      wakeupFd := 0;
    }

    /** doPendingFunctors: runs, in order, what was pending at the swap, and nothing queued since. */
    method DoPendingFunctors() returns (ghost functors: seq<Task>)
      requires Valid() && model.pc == Handling(false) && !model.loopWaking
      modifies this
      ensures Valid() && model.pc == AtTest && !callingPendingFunctors
      ensures old(model).pending <= functors && model.swaps == old(model).swaps + 1
      ensures model.executed == old(model).executed + DoneIn(functors, model.swaps)
    {
      StepWakeupInv(model, EndHandling);
      model := Step(model, EndHandling);
      callingPendingFunctors := true;
      Interference();
      var swapped := pendingFunctors;
      functors := model.pending;
      pendingFunctors := [];
      StepWakeupInv(model, Swap);
      model := Step(model, Swap);
      for i := 0 to |swapped|
        invariant Valid() && model.pc == Running && !model.loopWaking
        invariant model.batch == functors[i..] && model.swaps == old(model).swaps + 1
        invariant model.executed == old(model).executed + DoneIn(functors[..i], model.swaps)
      {
        RunFunctor(swapped[i]);
        assert DoneIn(functors[..i + 1], model.swaps) == DoneIn(functors[..i], model.swaps) + [Done(functors[i], model.swaps)];
        Interference();
      }
      assert functors[..|functors|] == functors;
      StepWakeupInv(model, EndBatch);
      model := Step(model, EndBatch);
      callingPendingFunctors := false;
    }

    /** Calling the functor; what it does to the loop is part of Interference. */
    ghost method RunFunctor(id: nat)
      requires Valid() && model.pc.Running? && !model.loopWaking && model.batch != [] && model.batch[0].id == id
      modifies `model
      ensures Valid() && model.pc == Running && !model.loopWaking && model.swaps == old(model).swaps
      ensures model.batch == old(model).batch[1..]
      ensures model.executed == old(model).executed + [Done(old(model).batch[0], model.swaps)]
    {
      StepWakeupInv(model, RunNext);
      model := Step(model, RunNext);
    }

    /** One pass through while(!quit_). */
    method Iterate() returns (again: bool)
      requires Valid() && model.pc.AtTest?
      modifies this
      ensures Valid() && again == !old(quit)
      ensures if again then model.pc == AtTest && model.swaps == old(model).swaps + 1 else model.pc == Exited
      ensures again ==> TasksRan(old(model).pending, old(model).executed, model.executed)
    {
      again := !quit;
      StepWakeupInv(model, Test);
      model := Step(model, Test);
      if again {
        var woken := Poll();
        if woken {
          HandleRead();
        }
        Interference();
        ghost var functors := DoPendingFunctors();
      }
    }
  }

  /** The first tasks run since `before` are ts. */
  ghost predicate TasksRan(ts: seq<Task>, before: seq<Done>, after: seq<Done>)
  {
    && |after| >= |before| + |ts| && after[..|before|] == before
    && forall i :: 0 <= i < |ts| ==> after[|before| + i].task == ts[i]
  }
}
