/** One event loop's pending-functor list and its wakeup eventfd, as a transition system in which
    producers' push and wakeup are separate steps that interleave with the owner's phases. */
module LoopModel {

  /** A write of 1 to an eventfd fails (EAGAIN) when the counter is at this value. */
  const EVENTFD_MAX: nat := 0xffff_ffff_ffff_fffe

  function Written(counter: nat): nat { if counter < EVENTFD_MAX then counter + 1 else counter }

  /** Where the owner thread is: before loop(), in epoll_wait, handling events (with the wakeup
      channel among the active ones or not), between setting _callingPendingFunctors and the swap,
      or running the swapped batch. */
  datatype Phase = Idle | Poll | Handle(wakeActive: bool) | PreSwap | Run

  datatype Queue<F> = Queue(
    phase: Phase,
    pending: seq<F>,        // _pendingFunctors
    batch: seq<F>,          // the swapped functors not yet run
    executed: seq<F>,       // history: functors in the order they ran
    pushed: seq<F>,         // history: functors in the order they were queued
    eventfd: nat,           // kernel counter behind _wakeupFd
    waking: nat,            // other threads between their push and their wakeup
    ownerMustWake: bool,    // the owner itself is between its push and its wakeup
    unannounced: bool       // the owner queued before loop() and no swap has happened since
  ) {
    predicate Calling() { phase.PreSwap? || phase.Run? }
    predicate Announced() { eventfd > 0 || waking > 0 }
  }

  function Fresh<F>(): Queue<F> { Queue(Idle, [], [], [], [], 0, 0, false, false) }

  datatype Step<F> =
    | ProducerPush(f: F) | ProducerWake
    | OwnerPush(f: F) | OwnerWake
    | Start | PollReturn(wake: bool) | ReadWakeFd | BeginPending | Swap | RunNext | EndPending

  predicate Enabled<F>(q: Queue<F>, s: Step<F>) {
    match s
    case ProducerPush(_) => true
    case ProducerWake => q.waking > 0
    case OwnerPush(_) => !q.ownerMustWake && (q.phase.Idle? || q.phase.Handle? || q.phase.Run?)
    case OwnerWake => q.ownerMustWake
    case Start => q.phase.Idle?
    case PollReturn(wake) => q.phase.Poll? && (wake ==> q.eventfd > 0)
    case ReadWakeFd => q.phase == Handle(true)
    case BeginPending => q.phase == Handle(false)
    case Swap => q.phase.PreSwap?
    case RunNext => q.phase.Run? && q.batch != [] && !q.ownerMustWake
    case EndPending => q.phase.Run? && q.batch == [] && !q.ownerMustWake
  }

  function Pushed<F>(q: Queue<F>, f: F): Queue<F> {
    q.(pending := q.pending + [f], pushed := q.pushed + [f])
  }

  function After<F>(q: Queue<F>, s: Step<F>): Queue<F>
    requires Enabled(q, s)
  {
    match s
    case ProducerPush(f) => Pushed(q, f).(waking := q.waking + 1)
    case ProducerWake => q.(waking := q.waking - 1, eventfd := Written(q.eventfd))
    case OwnerPush(f) => Pushed(q, f).(ownerMustWake := q.Calling(), unannounced := q.unannounced || q.phase.Idle?)
    case OwnerWake => q.(ownerMustWake := false, eventfd := Written(q.eventfd))
    case Start => q.(phase := Poll)
    case PollReturn(wake) => q.(phase := Handle(wake))
    case ReadWakeFd => q.(phase := Handle(false), eventfd := 0)
    case BeginPending => q.(phase := PreSwap)
    case Swap => q.(phase := Run, batch := q.pending, pending := [], unannounced := false)
    case RunNext => q.(batch := q.batch[1..], executed := q.executed + [q.batch[0]])
    case EndPending => q.(phase := Poll)
  }

  /** The loop does not sleep on work: at epoll_wait with functors pending, the eventfd is readable
      or some producer is about to make it so. */
  predicate Awake<F(==)>(q: Queue<F>) {
    q.phase.Poll? && q.pending != [] ==> q.Announced()
  }

  ghost predicate Inv<F>(q: Queue<F>) {
    && q.executed + q.batch + q.pending == q.pushed
    && (q.batch != [] || q.ownerMustWake ==> q.phase.Run?)
    && ((q.phase.Idle? || q.phase.Poll?) && q.pending != [] ==> q.Announced() || q.unannounced)
    && (q.phase.Run? && q.pending != [] ==> q.Announced() || q.ownerMustWake)
    && (q.unannounced ==> q.pending != [] && !q.phase.Run?)
  }

  lemma StepKeepsInv<F>(q: Queue<F>, s: Step<F>)
    requires Inv(q) && Enabled(q, s)
    ensures Inv(After(q, s))
  {
    match s
    case ProducerPush(f) => assert q.executed + q.batch + (q.pending + [f]) == q.pushed + [f];
    case OwnerPush(f) => assert q.executed + q.batch + (q.pending + [f]) == q.pushed + [f];
    case Swap => assert q.executed + q.pending + [] == q.executed + [] + q.pending;
    case RunNext => assert q.executed + [q.batch[0]] + q.batch[1..] == q.executed + q.batch;
    case _ =>
  }

  predicate IsRun<F>(q: Queue<F>, steps: seq<Step<F>>)
    decreases |steps|
  {
    steps == [] || (Enabled(q, steps[0]) && IsRun(After(q, steps[0]), steps[1..]))
  }

  function Final<F>(q: Queue<F>, steps: seq<Step<F>>): Queue<F>
    requires IsRun(q, steps)
    decreases |steps|
  {
    if steps == [] then q else Final(After(q, steps[0]), steps[1..])
  }

  lemma {:induction false} RunKeepsInv<F>(q: Queue<F>, steps: seq<Step<F>>)
    requires Inv(q) && IsRun(q, steps)
    ensures Inv(Final(q, steps))
    decreases |steps|
  {
    if steps == [] {
    } else {
      StepKeepsInv(q, steps[0]);
      RunKeepsInv(After(q, steps[0]), steps[1..]);
    }
  }

  /** No lost wakeup, over every interleaving: a loop at epoll_wait with work pending is announced,
      unless its owner queued that work before loop() and nobody else woke it since. */
  lemma NoLostWakeup<F>(steps: seq<Step<F>>)
    requires IsRun(Fresh<F>(), steps)
    ensures var q := Final(Fresh<F>(), steps); Awake(q) || (q.unannounced && !q.Announced())
  {
    RunKeepsInv(Fresh<F>(), steps);
  }

  /** Entering loop() leaves the loop awake exactly when the owner queued nothing before, or
      some other thread announced itself. */
  lemma StartAwakeIff<F>(steps: seq<Step<F>>)
    requires IsRun(Fresh<F>(), steps) && Final(Fresh<F>(), steps).phase.Idle?
    ensures var q := Final(Fresh<F>(), steps); Awake(After(q, Start)) <==> !q.unannounced || q.Announced()
  {
    RunKeepsInv(Fresh<F>(), steps);
  }

  /** The failing family is real: queue from the owner thread, then call loop(). */
  lemma EarlyPushSleeps<F>(f: F)
    ensures IsRun(Fresh<F>(), [OwnerPush(f), Start]) && !Awake(Final(Fresh<F>(), [OwnerPush(f), Start]))
  {
    var q1 := After(Fresh<F>(), OwnerPush(f));
    var q2 := After(q1, Start);
    var tail: seq<Step<F>> := [Start];
    assert [OwnerPush(f), Start][1..] == tail && tail[1..] == [];
    assert IsRun(q2, tail[1..]) && IsRun(q1, tail);
    assert Final(q1, tail) == q2;
  }

  /** Exactly once and in order: at every step of every run the functors that ran are a prefix of
      the functors queued, and the rest is the unexecuted batch followed by the pending list. */
  lemma FunctorsRunOnceInOrder<F>(steps: seq<Step<F>>)
    requires IsRun(Fresh<F>(), steps)
    ensures var q := Final(Fresh<F>(), steps);
            q.executed <= q.pushed && q.pushed[|q.executed|..] == q.batch + q.pending
  {
    RunKeepsInv(Fresh<F>(), steps);
    var q := Final(Fresh<F>(), steps);
    assert q.pushed == q.executed + (q.batch + q.pending);
  }

  /** One queueInLoop call. */
  datatype Call<F> = Call(f: F, thread: nat)

  function Functors<F>(calls: seq<Call<F>>): seq<F> {
    if calls == [] then [] else Functors(calls[..|calls|-1]) + [calls[|calls|-1].f]
  }

  /** In the order of the calls. */
  lemma {:induction false} FunctorsAt<F>(calls: seq<Call<F>>, i: nat)
    requires i < |calls|
    ensures |Functors(calls)| == |calls| && Functors(calls)[i] == calls[i].f
  {
    var init := calls[..|calls|-1];
    if init == [] {
    } else {
      FunctorsAt(init, if i < |init| then i else 0);
    }
  }

  /** What is queued while the first n functors of a batch run, by themselves and by other threads. */
  function Requeued<F>(during: nat -> seq<Call<F>>, n: nat): seq<F> {
    if n == 0 then [] else Requeued(during, n - 1) + Functors(during(n - 1))
  }

  /** Nothing is queued while the first n functors run. */
  ghost predicate Quiet<F>(during: nat -> seq<Call<F>>, n: nat) {
    forall i | 0 <= i < n :: during(i) == []
  }

  /** One turn of loop() seen from outside: the calls before epoll_wait returns, those before the eventfd
      is read, those while events are handled, those between the announcement and the swap, and those
      while the i-th functor runs. */
  datatype Turn<F> = Turn(arrivals: seq<Call<F>>, early: seq<Call<F>>, handled: seq<Call<F>>, late: seq<Call<F>>,
        during: nat -> seq<Call<F>>)

  function BatchOf<F>(pending: seq<F>, turn: Turn<F>): seq<F> {
    pending + Functors(turn.arrivals) + Functors(turn.early) + Functors(turn.handled) + Functors(turn.late)
  }

  /** The functors that the turns run, in order, starting from a pending list. */
  function RunByTurns<F>(pending: seq<F>, turns: seq<Turn<F>>): seq<F>
    decreases |turns|
  {
    if turns == [] then []
    else
      var batch := BatchOf(pending, turns[0]);
      batch + RunByTurns(Requeued(turns[0].during, |batch|), turns[1..])
  }

  lemma TurnsNext<F>(ran: seq<F>, pending: seq<F>, turns: seq<Turn<F>>, i: nat)
    requires i < |turns|
    ensures ran + RunByTurns(pending, turns[i..]) ==
            ran + BatchOf(pending, turns[i])
                + RunByTurns(Requeued(turns[i].during, |BatchOf(pending, turns[i])|), turns[i+1..])
  {
    assert turns[i..][0] == turns[i] && turns[i..][1..] == turns[i+1..];
  }
}

/** The mutable EventLoop; its ghost model follows the transition system step by step. */
module LoopObjects {
  import opened LoopModel
  import opened PollerObjects

  class EventLoop<F> {
    const threadId: nat
    const poller: EPollPoller
    var pendingFunctors: seq<F>
    var callingPendingFunctors: bool
    var wakeupFd: nat
    ghost var model: Queue<F>

    constructor (threadId: nat, poller: EPollPoller)
      ensures Valid() && model == Fresh() && this.threadId == threadId && this.poller == poller
    {
      this.threadId, this.poller := threadId, poller;
      pendingFunctors, callingPendingFunctors, wakeupFd := [], false, 0;
      model := Fresh();
    }

    ghost predicate Valid() reads this {
      && Inv(model)
      && pendingFunctors == model.pending
      && callingPendingFunctors == model.Calling()
      && wakeupFd == model.eventfd
    }

    predicate IsInLoopThread(thread: nat) { thread == threadId }

    /** The model steps of one queueInLoop call by the given thread. */
    ghost predicate CanQueue(thread: nat) reads this {
      IsInLoopThread(thread) ==> !model.ownerMustWake && (model.phase.Idle? || model.phase.Handle? || model.phase.Run?)
    }

    ghost function QueuedModel(f: F, thread: nat): Queue<F>
      requires Valid() && CanQueue(thread)
      reads this
    {
      if !IsInLoopThread(thread) then After(After(model, ProducerPush(f)), ProducerWake)
      else if model.Calling() then After(After(model, OwnerPush(f)), OwnerWake)
      else After(model, OwnerPush(f))
    }

    method QueueInLoop(f: F, thread: nat)
      requires Valid() && CanQueue(thread)
      modifies this
      ensures Valid() && model == old(QueuedModel(f, thread))
      ensures pendingFunctors == old(pendingFunctors) + [f]
      ensures if old(callingPendingFunctors) || thread != threadId then wakeupFd > 0 else wakeupFd == old(wakeupFd)
    {
      ghost var q := model;
      if !IsInLoopThread(thread) { StepKeepsInv(q, ProducerPush(f)); } else { StepKeepsInv(q, OwnerPush(f)); }
      model := if IsInLoopThread(thread) then After(q, OwnerPush(f)) else After(q, ProducerPush(f));
      pendingFunctors := pendingFunctors + [f];
      if callingPendingFunctors || !IsInLoopThread(thread) {
        ghost var wake: Step<F> := if IsInLoopThread(thread) then OwnerWake else ProducerWake;
        StepKeepsInv(model, wake);
        model := After(model, wake);
        Wakeup();
      }
    }

    method Wakeup()
      modifies this`wakeupFd
      ensures wakeupFd == Written(old(wakeupFd))
      ensures 0 < wakeupFd && (old(wakeupFd) < 0xffff_ffff_ffff_fffe ==> wakeupFd == old(wakeupFd) + 1)
    {
      if wakeupFd < EVENTFD_MAX { wakeupFd := wakeupFd + 1; }
    }

    /** The wakeup channel's read callback. */
    method HandleRead()
      requires Valid() && model.phase == Handle(true)
      modifies this
      ensures Valid() && model == After(old(model), ReadWakeFd)
      ensures wakeupFd == 0 && pendingFunctors == old(pendingFunctors)
    {
      StepKeepsInv(model, ReadWakeFd);
      model := After(model, ReadWakeFd);
      wakeupFd := 0;
    }

    /** Runs the swapped functors. Other threads may still queue before the swap (late), and while the
        i-th functor runs, it and other threads queue during(i). Every functor pending at the swap has
        then run, once and in order; what was queued meanwhile is pending and announced. */
    method DoPendingFunctors(late: seq<Call<F>>, during: nat -> seq<Call<F>>)
      requires Valid() && model.phase == Handle(false) && Foreign(late)
      modifies this
      ensures Valid() && model.phase.Poll? && Awake(model)
      ensures var batch := old(pendingFunctors) + Functors(late);
              model.executed == old(model.executed) + batch && pendingFunctors == Requeued(during, |batch|)
      ensures late == [] && Quiet(during, |old(pendingFunctors)|) ==> wakeupFd == old(wakeupFd)
    {
      var functors := SwapFunctors(late);
      RunAll(functors, during);
      StepKeepsInv(model, EndPending);
      model := After(model, EndPending);
      callingPendingFunctors := false;
    }

    method SwapFunctors(late: seq<Call<F>>) returns (functors: seq<F>)
      requires Valid() && model.phase == Handle(false) && Foreign(late)
      modifies this
      ensures Valid() && model.phase.Run? && !model.ownerMustWake && model.batch == functors
              && model.executed == old(model.executed)
      ensures functors == old(pendingFunctors) + Functors(late) && pendingFunctors == []
      ensures late == [] ==> wakeupFd == old(wakeupFd)
    {
      StepKeepsInv(model, BeginPending);
      model := After(model, BeginPending);
      callingPendingFunctors := true;
      QueueAll(late);
      StepKeepsInv(model, Swap);
      model := After(model, Swap);
      functors := pendingFunctors;
      pendingFunctors := [];
    }

    method RunAll(functors: seq<F>, during: nat -> seq<Call<F>>)
      requires Valid() && model.phase.Run? && !model.ownerMustWake && model.batch == functors && pendingFunctors == []
      modifies this
      ensures Valid() && model.phase.Run? && !model.ownerMustWake && model.batch == []
      ensures model.executed == old(model.executed) + functors && pendingFunctors == Requeued(during, |functors|)
      ensures Quiet(during, |functors|) ==> wakeupFd == old(wakeupFd)
    {
      for i := 0 to |functors|
        invariant Valid() && model.phase.Run? && !model.ownerMustWake
        invariant model.batch == functors[i..] && model.executed == old(model.executed) + functors[..i]
        invariant pendingFunctors == Requeued(during, i)
        invariant Quiet(during, |functors|) ==> wakeupFd == old(wakeupFd)
      {
        assert functors[..i+1] == functors[..i] + [functors[i]];
        RunFunctor(functors[i], during(i));
      }
      assert functors[..|functors|] == functors;
    }

    /** Runs one functor; its body and other threads make a series of queueInLoop calls. */
    method RunFunctor(f: F, calls: seq<Call<F>>)
      requires Valid() && model.phase.Run? && !model.ownerMustWake && model.batch != [] && model.batch[0] == f
      modifies this
      ensures Valid() && model.phase.Run? && !model.ownerMustWake
      ensures model.batch == old(model.batch)[1..] && model.executed == old(model.executed) + [f]
      ensures pendingFunctors == old(pendingFunctors) + Functors(calls)
      ensures calls == [] ==> wakeupFd == old(wakeupFd)
    {
      StepKeepsInv(model, RunNext);
      model := After(model, RunNext);
      QueueAll(calls);
    }

    /** The calls come from other threads than the loop's own. */
    ghost predicate Foreign(calls: seq<Call<F>>) { forall c <- calls :: !IsInLoopThread(c.thread) }

    /** A series of queueInLoop calls. */
    method QueueAll(calls: seq<Call<F>>)
      requires Valid() && (Foreign(calls) || ((model.phase.Handle? || model.phase.Run?) && !model.ownerMustWake))
      modifies this
      ensures Valid() && model.phase == old(model.phase) && (old(!model.ownerMustWake) ==> !model.ownerMustWake)
      ensures model.batch == old(model.batch) && model.executed == old(model.executed)
      ensures pendingFunctors == old(pendingFunctors) + Functors(calls)
      ensures calls == [] ==> wakeupFd == old(wakeupFd)
    {
      for j := 0 to |calls|
        invariant Valid() && model.phase == old(model.phase) && (old(!model.ownerMustWake) ==> !model.ownerMustWake)
        invariant model.batch == old(model.batch) && model.executed == old(model.executed)
        invariant pendingFunctors == old(pendingFunctors) + Functors(calls[..j])
        invariant j == 0 ==> wakeupFd == old(wakeupFd)
      {
        assert calls[..j+1][..j] == calls[..j];
        QueueInLoop(calls[j].f, calls[j].thread);
      }
      assert calls[..|calls|] == calls;
    }

    /** One iteration of loop(): poll, handle the active channels, run the pending functors. */
    method OneTurn(turn: Turn<F>)
      requires Valid() && model.phase.Poll? && Foreign(turn.arrivals) && Foreign(turn.late)
      modifies this
      ensures Valid() && model.phase.Poll? && Awake(model)
      ensures var batch := BatchOf(old(pendingFunctors), turn);
              model.executed == old(model.executed) + batch && pendingFunctors == Requeued(turn.during, |batch|)
      ensures turn.early == turn.handled == turn.late == [] ==>
        Quiet(turn.during, |BatchOf(old(pendingFunctors), turn)|) ==> wakeupFd == 0
    {
      QueueAll(turn.arrivals);
      var wake := wakeupFd > 0;
      StepKeepsInv(model, PollReturn(wake));
      model := After(model, PollReturn(wake));
      QueueAll(turn.early);
      if wake { HandleRead(); }
      QueueAll(turn.handled);
      DoPendingFunctors(turn.late, turn.during);
    }

    /** loop(): quit() is seen after the last turn. Whatever is queued before or during the turns, by
        whatever thread, runs exactly once, in order, in the turn that swaps it. */
    method Loop(turns: seq<Turn<F>>)
      requires Valid() && model.phase.Idle? && !model.ownerMustWake
      requires forall turn <- turns :: Foreign(turn.arrivals) && Foreign(turn.late)
      modifies this
      ensures Valid() && (turns != [] ==> Awake(model))
      ensures model.executed == old(model.executed) + RunByTurns(old(pendingFunctors), turns)
    {
      StepKeepsInv(model, Start);
      model := After(model, Start);
      for i := 0 to |turns|
        invariant Valid() && model.phase.Poll? && (i > 0 ==> Awake(model))
        invariant model.executed + RunByTurns(pendingFunctors, turns[i..])
               == old(model.executed) + RunByTurns(old(pendingFunctors), turns)
      {
        TurnsNext(model.executed, pendingFunctors, turns, i);
        OneTurn(turns[i]);
      }
    }
  }
}
