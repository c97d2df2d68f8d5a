/** The mutable TimerQueue. Its methods are proved against the operations of the transition system,
    so what holds in every run holds for them. */
module TimerObjects {
  import opened TimerSet
  import opened TimerModel
  import opened TimerInv
  import opened TimerSteps

  /** What a timer callback may do to its queue: addTimer (allocate, then add in the loop), cancel;
      meanwhile time passes and other threads allocate timers. */
  predicate Performable(q: Queue, calls: seq<Step>)
    decreases |calls|
  {
    calls == [] || (!calls[0].FireStep? && !calls[0].RunStep? && !calls[0].FinishStep?
                    && Enabled(q, calls[0]) && AssertsHold(q, calls[0]) && Performable(After(q, calls[0]), calls[1..]))
  }

  function Performed(q: Queue, calls: seq<Step>): Queue
    requires Performable(q, calls)
    decreases |calls|
  {
    if calls == [] then q else Performed(After(q, calls[0]), calls[1..])
  }

  /** One list of calls per callback, in the order of the batch. */
  predicate ScriptFits(q: Queue, script: seq<seq<Step>>)
    decreases |script|
  {
    script == [] || (Enabled(q, RunStep) && AssertsHold(q, RunStep) && Performable(RunNext(q), script[0])
                     && ScriptFits(Performed(RunNext(q), script[0]), script[1..]))
  }

  function Scripted(q: Queue, script: seq<seq<Step>>): Queue
    requires ScriptFits(q, script)
    decreases |script|
  {
    if script == [] then q else Scripted(Performed(RunNext(q), script[0]), script[1..])
  }

  class TimerQueue {
    var heap: map<nat, Timer>
    var timers: seq<Entry>
    var activeTimers: set<nat>
    var cancelTimers: set<nat>
    var callingExpiredTimers: bool
    var timerfd: Fd
    var clock: int
    ghost var waiting: set<nat>
    ghost var phase: Phase
    var created: nat
    ghost var log: seq<Ran>

    constructor (clock: int)
      ensures Valid() && View() == Init(clock)
    {
      this.clock := clock;
      heap, timers, activeTimers, cancelTimers, callingExpiredTimers, timerfd := map[], [], {}, {}, false, Disarmed;
      waiting, phase, created, log := {}, Idle, 0, [];
    }

    ghost predicate Valid() reads this { callingExpiredTimers == phase.Firing? }

    ghost function View(): Queue reads this {
      Queue(clock, heap, waiting, timers, activeTimers, cancelTimers, phase, timerfd, created, log)
    }

    /** new Timer(...); a stands for the address the allocator returns. */
    method Allocate(a: nat, due: int, interval: real)
      requires Valid() && Enabled(View(), New(a, due, interval))
      modifies this
      ensures Valid() && View() == After(old(View()), New(a, due, interval))
      ensures heap == old(heap)[a := Timer(due, interval, old(created))] && created == old(created) + 1
    {
      heap := heap[a := Timer(due, interval, created)];
      created := created + 1;
      waiting := waiting + {a};
    }

    method AddTimerInLoop(a: nat)
      requires Valid() && a in waiting && AssertsHold(View(), AddStep(a))
      modifies this
      ensures Valid() && View() == After(old(View()), AddStep(a))
      ensures a in heap && heap == old(heap) && waiting == old(waiting) - {a}
      ensures activeTimers == old(activeTimers) + {a}
      ensures multiset(timers) == multiset(old(timers)) + multiset{Entry(heap[a].expired, a)}
      ensures timerfd == old(timerfd) || (timerfd.Armed? && timerfd.deadline >= heap[a].expired)
    {
      waiting := waiting - {a};
      var changed := Insert(a);
      if changed { ResetTimerfd(heap[a].expired); }
    }

    method CancelTimerInLoop(a: nat)
      requires Valid() && AssertsHold(View(), CancelStep(a))
      modifies this
      ensures Valid() && View() == After(old(View()), CancelStep(a))
      ensures a in old(activeTimers) ==>
        && heap == old(heap) - {a} && activeTimers == old(activeTimers) - {a} && cancelTimers == old(cancelTimers)
        && multiset(timers) == multiset(old(timers)) - multiset{Entry(old(heap)[a].expired, a)}
      ensures a !in old(activeTimers) ==>
        && heap == old(heap) && timers == old(timers) && activeTimers == old(activeTimers)
        && cancelTimers == if callingExpiredTimers then old(cancelTimers) + {a} else old(cancelTimers)
      ensures timerfd == old(timerfd)
    {
      assert |timers| == |activeTimers|;
      if a in activeTimers {
        ErasedBag(timers, Entry(heap[a].expired, a));
        timers := Erased(timers, Entry(heap[a].expired, a));
        activeTimers := activeTimers - {a};
        heap := heap - {a};
      } else if callingExpiredTimers {
        cancelTimers := cancelTimers + {a};
      }
    }

    method Insert(a: nat) returns (change: bool)
      requires InsertAsserts(View(), a)
      modifies this`timers, this`activeTimers
      ensures View() == TimerModel.Insert(old(View()), a)
      ensures change == Changes(old(View()), a)
      ensures multiset(timers) == multiset(old(timers)) + multiset{Entry(heap[a].expired, a)}
      ensures activeTimers == old(activeTimers) + {a}
    {
      change := timers == [] || heap[a].expired < heap[timers[0].addr].expired;
      InsertedBag(timers, Entry(heap[a].expired, a));
      timers := Inserted(timers, Entry(heap[a].expired, a));
      activeTimers := activeTimers + {a};
    }

    method ResetTimerfd(due: int)
      modifies this`timerfd
      ensures View() == Arm(old(View()), due)
      ensures timerfd.Armed? && timerfd.deadline >= clock + 100 && timerfd.deadline >= due
      ensures timerfd.deadline == clock + 100 || timerfd.deadline == due
    {
      var wait := HowMuchTimeFromNow(due, clock);
      timerfd := Armed(clock + wait.sec * MICROS + wait.nsec / 1000);
    }

    /** Moves every entry up to the bound into the batch, and out of both indexes. */
    method GetExpired(now: int) returns (expired: seq<Entry>)
      requires forall e <- timers[..DueCount(timers, now)] :: e.addr in activeTimers
      modifies this`timers, this`activeTimers
      ensures expired == old(timers)[..DueCount(old(timers), now)]
      ensures timers == old(timers)[DueCount(old(timers), now)..]
      ensures activeTimers == old(activeTimers) - Addrs(expired)
    {
      var end := LowerBound(now);
      expired := timers[..end];
      timers := timers[end..];
      EraseActive(expired);
    }

    method LowerBound(now: int) returns (end: nat)
      ensures end == DueCount(timers, now)
    {
      end := 0;
      while end < |timers| && Less(timers[end], Entry(now, ADDR_MAX))
        invariant end <= |timers|
        invariant DueCount(timers, now) == end + DueCount(timers[end..], now)
      {
        assert timers[end..][1..] == timers[end+1..];
        end := end + 1;
      }
    }

    method EraseActive(expired: seq<Entry>)
      modifies this`activeTimers
      ensures activeTimers == old(activeTimers) - Addrs(expired)
    {
      assert Addrs(expired[..0]) == {};
      for i := 0 to |expired|
        invariant activeTimers == old(activeTimers) - Addrs(expired[..i])
      {
        assert expired[..i+1] == expired[..i] + [expired[i]];
        assert Addrs(expired[..i+1]) == Addrs(expired[..i]) + {expired[i].addr};
        activeTimers := activeTimers - {expired[i].addr};
      }
      assert expired[..|expired|] == expired;
    }

    /** Restarts or deletes the members of the batch, then arms for the earliest timer; the clock has
        moved on to later when the timerfd is set. */
    method Reset(list: seq<Entry>, later: int)
      requires AllResetAsserts(View(), list, clock) && clock <= later
      modifies this
      ensures View() == Rearmed(Tick(ResetAll(old(View()), list, old(clock)), later))
      ensures callingExpiredTimers == old(callingExpiredTimers)
    {
      ghost var goal := ResetAll(View(), list, clock);
      var now := clock;
      for i := 0 to |list|
        invariant clock == now && callingExpiredTimers == old(callingExpiredTimers)
        invariant AllResetAsserts(View(), list[i..], now) && ResetAll(View(), list[i..], now) == goal
      {
        assert list[i..][0] == list[i] && list[i..][1..] == list[i+1..];
        var a := list[i].addr;
        if heap[a].interval > 0.0 {
          heap := heap[a := heap[a].(expired := AddTime(now, heap[a].interval))];
          var change := Insert(a);
        } else {
          heap := heap - {a};
        }
      }
      assert list[|list|..] == [];
      PassTime(later);
      if timers != [] && timers[0].due > 0 { ResetTimerfd(timers[0].due); }
    }

    /** The clock and the kernel's timer move on. */
    method PassTime(to: int)
      modifies this`clock, this`timerfd
      ensures View() == Tick(old(View()), to)
    {
      clock := to;
      if timerfd.Armed? && timerfd.deadline <= to { timerfd := Readable; }
    }

    /** What one callback does. */
    method Perform(calls: seq<Step>)
      requires Valid() && Performable(View(), calls)
      modifies this
      ensures Valid() && View() == Performed(old(View()), calls)
    {
      ghost var goal := Performed(View(), calls);
      for i := 0 to |calls|
        invariant Valid() && Performable(View(), calls[i..]) && Performed(View(), calls[i..]) == goal
      {
        assert calls[i..][0] == calls[i] && calls[i..][1..] == calls[i+1..];
        match calls[i] {
          case TickStep(to) => PassTime(to);
          case New(a, due, interval) => Allocate(a, due, interval);
          case AddStep(a) => AddTimerInLoop(a);
          case CancelStep(a) => CancelTimerInLoop(a);
        }
      }
      assert calls[|calls|..] == [];
    }

    /** The timer channel's read callback: one full handleRead is a run of the transition system, from
        an invariant state to an invariant state. */
    method HandleRead(script: seq<seq<Step>>, later: int)
      requires Valid() && Inv(View()) && phase.Idle?
      requires ScriptFits(Fire(View()), script) && |script| == |Fire(View()).phase.batch|
      requires Scripted(Fire(View()), script).clock <= later
      modifies this
      ensures Valid() && phase.Idle? && Inv(View())
      ensures var q := Scripted(Fire(old(View())), script);
              AssertsHold(q, FinishStep(later)) && View() == Finish(q, later)
    {
      HandleReadKeeps(View(), script, later);
      var expireds := TakeBatch();
      RunBatch(expireds, script);
      FinishBatch(expireds, later);
    }

    /** handleRead up to the first callback. */
    method TakeBatch() returns (expireds: seq<Entry>)
      requires Valid() && phase.Idle? && AssertsHold(View(), FireStep)
      modifies this
      ensures Valid() && View() == Fire(old(View())) && expireds == phase.batch
      ensures callingExpiredTimers && cancelTimers == {} && heap == old(heap) && log == old(log)
    {
      if timerfd == Readable { timerfd := Disarmed; }
      expireds := GetExpired(clock);
      callingExpiredTimers := true;
      phase := Firing(clock, expireds, 0, |log|);
      cancelTimers := {};
    }

    /** handleRead after the last callback. */
    method FinishBatch(expireds: seq<Entry>, later: int)
      requires Valid() && phase.Firing? && phase.batch == expireds && clock <= later
      requires AssertsHold(View(), FinishStep(later))
      modifies this
      ensures Valid() && View() == Finish(old(View()), later)
    {
      ghost var ran := View();
      callingExpiredTimers := false;
      phase := Idle;
      ResetIdle(ran, expireds);
      assert View() == ran.(phase := Idle);
      Reset(expireds, later);
    }

    /** The callbacks of the batch, one after the other. */
    method RunBatch(expireds: seq<Entry>, script: seq<seq<Step>>)
      requires Valid() && phase.Firing? && phase.batch == expireds && phase.ran == 0
      requires ScriptFits(View(), script) && |script| == |expireds|
      modifies this
      ensures Valid() && View() == Scripted(old(View()), script)
    {
      ghost var goal := Scripted(View(), script);
      for i := 0 to |expireds|
        invariant Valid() && phase.Firing? && phase.batch == expireds && phase.ran == i
        invariant ScriptFits(View(), script[i..]) && Scripted(View(), script[i..]) == goal
      {
        assert script[i..][0] == script[i] && script[i..][1..] == script[i+1..];
        RunOne(expireds[i], script[i]);
      }
      assert script[|script|..] == [];
    }

    method RunOne(e: Entry, calls: seq<Step>)
      requires Valid() && Enabled(View(), RunStep) && phase.batch[phase.ran] == e && e.addr in heap
      requires Performable(RunNext(View()), calls)
      modifies this
      ensures Valid() && View() == Performed(RunNext(old(View())), calls)
      ensures phase == old(phase).(ran := old(phase.ran) + 1)
      ensures var t := old(heap)[e.addr]; log == old(log) + [Ran(t.sequence, t.expired, old(clock), t.interval)]
    {
      var t := heap[e.addr];
      log := log + [Ran(t.sequence, t.expired, clock, t.interval)];
      phase := phase.(ran := phase.ran + 1);
      PerformedPhase(View(), calls);
      Perform(calls);
    }
  }

  /** Calls from callbacks do not move the batch and run no other callback. */
  lemma {:induction false} PerformedPhase(q: Queue, calls: seq<Step>)
    requires Performable(q, calls)
    ensures Performed(q, calls).phase == q.phase && Performed(q, calls).log == q.log
    decreases |calls|
  {
    if calls == [] {
    } else {
      PerformedPhase(After(q, calls[0]), calls[1..]);
    }
  }

  lemma {:induction false} PerformedKeeps(q: Queue, calls: seq<Step>)
    requires Inv(q) && Performable(q, calls)
    ensures Inv(Performed(q, calls))
    decreases |calls|
  {
    if calls == [] {
    } else {
      StepKeepsInv(q, calls[0]);
      PerformedKeeps(After(q, calls[0]), calls[1..]);
    }
  }

  lemma CallbackKeeps(q: Queue, calls: seq<Step>)
    requires Inv(q) && Enabled(q, RunStep) && AssertsHold(q, RunStep) && Performable(RunNext(q), calls)
    ensures var t := Performed(RunNext(q), calls); Inv(t) && t.phase == q.phase.(ran := q.phase.ran + 1)
  {
    RunKeeps(q);
    PerformedKeeps(RunNext(q), calls);
    PerformedPhase(RunNext(q), calls);
  }

  lemma {:induction false} ScriptedKeeps(q: Queue, script: seq<seq<Step>>)
    requires Inv(q) && ScriptFits(q, script) && q.phase.Firing?
    ensures Inv(Scripted(q, script))
    ensures Scripted(q, script).phase == q.phase.(ran := q.phase.ran + |script|)
    decreases |script|
  {
    if script == [] {
    } else {
      CallbackKeeps(q, script[0]);
      ScriptedKeeps(Performed(RunNext(q), script[0]), script[1..]);
    }
  }

  lemma HandleReadKeeps(q: Queue, script: seq<seq<Step>>, later: int)
    requires Inv(q) && q.phase.Idle? && ScriptFits(Fire(q), script) && |script| == |Fire(q).phase.batch|
    requires Scripted(Fire(q), script).clock <= later
    ensures AssertsHold(q, FireStep)
    ensures var r := Scripted(Fire(q), script);
            r.phase.Firing? && r.phase.batch == Fire(q).phase.batch && AssertsHold(r, FinishStep(later))
                  && Inv(Finish(r, later))
  {
    FireKeeps(q);
    ScriptedKeeps(Fire(q), script);
    FinishKeeps(Scripted(Fire(q), script), later);
  }

  /** reset() does not look at the phase. */
  lemma {:induction false} ResetIdle(q: Queue, list: seq<Entry>)
    requires AllResetAsserts(q, list, q.clock)
    ensures AllResetAsserts(q.(phase := Idle), list, q.clock)
    ensures ResetAll(q.(phase := Idle), list, q.clock) == ResetAll(q, list, q.clock).(phase := Idle)
    decreases |list|
  {
    if list == [] {
    } else {
      assert ResetOne(q.(phase := Idle), list[0], q.clock) == ResetOne(q, list[0], q.clock).(phase := Idle);
      ResetIdle(ResetOne(q, list[0], q.clock), list[1..]);
    }
  }
}
