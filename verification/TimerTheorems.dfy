/** What holds in every run of the timer queue, whatever callbacks add and cancel. */
module TimerTheorems {
  import opened Common
  import opened TimerSet
  import opened TimerModel
  import opened TimerInv
  import opened TimerSteps

  ghost predicate Leads(q: Queue, steps: seq<Step>, t: Queue)
    decreases |steps|
  {
    if steps == [] then q == t
    else Enabled(q, steps[0]) && AssertsHold(q, steps[0]) && Leads(After(q, steps[0]), steps[1..], t)
  }

  lemma {:induction false} LeadsKeepsInv(q: Queue, steps: seq<Step>, t: Queue)
    requires Inv(q) && Leads(q, steps, t)
    ensures Inv(t)
    decreases |steps|
  {
    if steps == [] {
    } else {
      StepKeepsInv(q, steps[0]);
      LeadsKeepsInv(After(q, steps[0]), steps[1..], t);
    }
  }

  /** A state that some run from an empty queue reaches. */
  ghost predicate Reachable(q: Queue) {
    exists clock: int, steps: seq<Step> :: clock > 0 && Leads(Init(clock), steps, q)
  }

  lemma ReachableInv(q: Queue)
    requires Reachable(q)
    ensures Inv(q)
  {
    var clock, steps :| clock > 0 && Leads(Init(clock), steps, q);
    InitInv(clock);
    LeadsKeepsInv(Init(clock), steps, q);
  }

  /** No assert of the timer queue fails and no deleted timer is used, in any run; in particular no
      timer is deleted twice, since deleting uses the timer. */
  lemma NoAssertFails(q: Queue, next: Step)
    requires Reachable(q) && Enabled(q, next)
    ensures AssertsHold(q, next)
  {
    ReachableInv(q);
    StepKeepsInv(q, next);
  }

  /** Ownership: an allocated timer is in exactly one place, a deleted one in none. */
  lemma OnePlace(q: Queue, a: nat)
    requires Reachable(q)
    ensures Unit(a in q.waiting) + Unit(a in q.active) + Unit(a in Addrs(Flight(q))) == Unit(a in q.heap)
  {
    ReachableInv(q);
    TakenIff(Flight(q), a);
  }

  lemma ReachableIndexed(q: Queue)
    requires Reachable(q)
    ensures Indexed(q) && forall a <- q.heap :: a < ADDR_MAX
  {
    ReachableInv(q);
  }

  /** Index agreement, at every point of every run, inside callbacks too. */
  lemma IndexesAgree(q: Queue)
    requires Reachable(q)
    ensures Addrs(q.timers) == q.active && |q.timers| == |q.active| && Sorted(q.timers)
    ensures forall e <- q.timers :: e.addr in q.heap && q.heap[e.addr].expired == e.due
  {
    ReachableIndexed(q);
    assert forall a | a in q.active :: Entry(q.heap[a].expired, a) in q.timers;
  }

  /** getExpired takes exactly the entries that are due, and leaves the others in order. */
  lemma ExpiredExactly(q: Queue, e: Entry)
    requires Reachable(q) && q.phase.Idle?
    ensures e in Fire(q).phase.batch <==> e in q.timers && e.due <= q.clock
    ensures e in Fire(q).timers <==> e in q.timers && q.clock < e.due
    ensures Fire(q).phase.batch + Fire(q).timers == q.timers
  {
    ReachableIndexed(q);
    FireSplit(q);
    HalvesApart(q, DueCount(q.timers, q.clock), e);
  }

  /** Firing: no callback before its time; a one-shot at most once; two runs of a repeating timer
      are due at least its interval apart. */
  lemma CallbacksOnTime(q: Queue, i: nat, j: nat)
    requires Reachable(q) && j < |q.log|
    ensures q.log[j].due <= q.log[j].at <= q.clock
    ensures i < j && q.log[i].sequence == q.log[j].sequence ==>
              q.log[i].interval > 0.0 && q.log[j].due >= q.log[i].due + Micros(q.log[i].interval)
  {
    ReachableInv(q);
    assert q.log[j] in q.log;
  }

  /** Arming: outside handleRead a pending timer never waits without the timerfd being readable or
      set to a deadline no later than the earliest expiry, up to the minimal delay. */
  lemma PendingIsArmed(q: Queue)
    requires Reachable(q) && q.phase.Idle? && q.timers != []
    ensures forall e <- q.timers :: q.timers[0].due <= e.due
    ensures q.fd.Readable? || (q.fd.Armed? && q.fd.deadline <= Max(q.timers[0].due, q.clock + MIN_DELAY))
  {
    ReachableInv(q);
    forall e | e in q.timers ensures q.timers[0].due <= e.due {
      var i :| 0 <= i < |q.timers| && q.timers[i] == e;
      assert i > 0 ==> Less(q.timers[0], q.timers[i]);
    }
  }

  /** Armed for the earliest timer, not before it is due, no sooner than 100 microseconds from now, and
      no later than one of the two. */
  ghost predicate ArmedForFirst(q: Queue) {
    && q.timers != [] && q.fd.Armed? && q.fd.deadline >= q.clock + 100 && q.fd.deadline >= q.timers[0].due
    && (q.fd.deadline == q.clock + 100 || q.fd.deadline == q.timers[0].due)
  }

  lemma AddedArmsIff(q: Queue, a: nat)
    requires InsertAsserts(q, a) && Indexed(q)
    ensures var t, due := AddInLoop(q, a), q.heap[a].expired;
            if q.timers == [] || due < q.timers[0].due
            then ArmedForFirst(t) && t.timers[0] == Entry(due, a)
            else t.fd == q.fd && t.timers != [] && t.timers[0].due == q.timers[0].due
  {
    if q.timers != [] { assert q.timers[0] in q.timers; }
  }

  lemma RearmsIff(q: Queue)
    ensures if q.timers != [] && q.timers[0].due > 0 then ArmedForFirst(Rearmed(q)) else Rearmed(q) == q
  {}

  /** Adding a timer arms exactly when it becomes the earliest. */
  lemma AddArmsIff(q: Queue, a: nat)
    requires Reachable(q) && Enabled(q, AddStep(a))
    ensures AssertsHold(q, AddStep(a)) && a in q.heap
    ensures var t, due := After(q, AddStep(a)), q.heap[a].expired;
            if q.timers == [] || due < q.timers[0].due
            then ArmedForFirst(t) && t.timers[0] == Entry(due, a)
            else t.fd == q.fd && t.timers != [] && t.timers[0].due == q.timers[0].due
  {
    ReachableInv(q);
    AddOwned(q, Flight(q), a);
    AddedArmsIff(q, a);
  }

  /** The end of handleRead arms exactly when there is an earliest timer and its expiry is valid. */
  lemma FinishArmsIff(q: Queue, later: int)
    requires Reachable(q) && Enabled(q, FinishStep(later))
    ensures AssertsHold(q, FinishStep(later))
    ensures var t := After(q, FinishStep(later));
            if t.timers != [] && t.timers[0].due > 0 then ArmedForFirst(t) && t.clock == later
            else t.fd == Tick(q, later).fd
  {
    ReachableInv(q);
    BatchResets(q, later);
    ResetAllKeeps(q, q.phase.batch);
    RearmsIff(Tick(ResetAll(q, q.phase.batch, q.clock).(phase := Idle), later));
  }

  /** So a timerfd that fires on time finds something due. */
  lemma FiresOnDue(q: Queue)
    requires Reachable(q) && ArmedForFirst(q)
    ensures Enabled(q, TickStep(q.fd.deadline))
    ensures var t := Tick(q, q.fd.deadline); t.fd.Readable? && Fire(t).phase.batch != []
    ensures forall to | to < q.fd.deadline :: Tick(q, to).fd == q.fd
  {
    ReachableInv(q);
    assert q.timers[0] in q.timers;
  }

  // ---------------------------------------------------------------------------------------
  // What one handleRead does to its batch
  // ---------------------------------------------------------------------------------------

  /** reset() touches the timers of its list only: restarts the repeating, deletes the others. */
  lemma {:induction false} ResetAllOutcome(q: Queue, list: seq<Entry>, a: nat)
    requires Resetting(q, list)
    ensures AllResetAsserts(q, list, q.clock)
    ensures var t := ResetAll(q, list, q.clock);
            if !InFlight(list, a) then
              (a in t.heap <==> a in q.heap) && (a in q.heap ==> t.heap[a] == q.heap[a])
                    && (a in t.active <==> a in q.active)
            else a in q.heap && if q.heap[a].interval > 0.0 then
              a in t.heap && a in t.active && t.heap[a] == q.heap[a].(expired := AddTime(q.clock, q.heap[a].interval))
            else a !in t.heap && a !in t.active
    decreases |list|
  {
    ResetAllKeeps(q, list);
    if list == [] {
    } else {
      ResetOneOutcome(q, list, a);
      ResetAllOutcome(ResetOne(q, list[0], q.clock), list[1..], a);
    }
  }

  /** The same for the first entry of the list. */
  lemma ResetOneOutcome(q: Queue, list: seq<Entry>, a: nat)
    requires Resetting(q, list) && list != [] && ResetAsserts(q, list[0], q.clock)
    ensures var t := ResetOne(q, list[0], q.clock);
            && t.clock == q.clock && Resetting(t, list[1..])
            && (InFlight(list, a) <==> a == list[0].addr || InFlight(list[1..], a))
            && (a != list[0].addr ==>
                 (a in t.heap <==> a in q.heap) && (a in q.heap ==> t.heap[a] == q.heap[a])
                       && (a in t.active <==> a in q.active))
            && (a == list[0].addr ==> !InFlight(list[1..], a) && a in q.heap && if q.heap[a].Repeated() then
                 a in t.heap && a in t.active
                       && t.heap[a] == q.heap[a].(expired := AddTime(q.clock, q.heap[a].interval))
               else a !in t.heap && a !in t.active)
  {
    ConsFlight(list, a);
    FirstNotLater(list);
    assert list[0] in list;
    ResetOneOwned(q, list, q.clock);
    ResetOneLog(q, list);
    ResetOneCovered(q, list);
  }

  lemma ConsFlight(list: seq<Entry>, a: nat)
    requires list != []
    ensures InFlight(list, a) <==> a == list[0].addr || InFlight(list[1..], a)
  {
    assert list[0] in list;
    if InFlight(list, a) && a != list[0].addr {
      var e :| e in list && e.addr == a;
      assert e in list[1..];
    }
  }

  lemma FinishOutcome(q: Queue, later: int, a: nat)
    requires AssertsHold(q, FinishStep(later)) && Resetting(q, q.phase.batch) && InFlight(q.phase.batch, a)
    ensures a in q.heap
    ensures var t := Finish(q, later);
            if q.heap[a].Repeated() then a in t.active && a in t.heap
                  && t.heap[a].expired == AddTime(q.clock, q.heap[a].interval)
            else a !in t.heap
  {
    FinishFrame(q, later);
    ResetAllOutcome(q, q.phase.batch, a);
  }

  /** Before reset() every callback of the batch was started. */
  lemma BatchResets(q: Queue, later: int)
    requires Inv(q) && Enabled(q, FinishStep(later))
    ensures Resetting(q, q.phase.batch)
  {
    assert q.phase.batch[..q.phase.ran] == q.phase.batch;
  }

  /** Arming after reset() moves no timer. */
  lemma FinishFrame(q: Queue, later: int)
    requires AssertsHold(q, FinishStep(later))
    ensures var t := ResetAll(q, q.phase.batch, q.clock);
            Finish(q, later).heap == t.heap && Finish(q, later).active == t.active && Finish(q, later).log == t.log
  {}

  lemma ReachableBatch(q: Queue)
    requires Reachable(q) && q.phase.Firing?
    ensures FireOk(q) && Flying(q, q.phase.batch)
    ensures forall a, b | a in q.heap && b in q.heap && a != b :: q.heap[a].sequence != q.heap[b].sequence
  {
    ReachableInv(q);
  }

  /** When handleRead ends, each member of its batch has run exactly once, in the batch's order and
      so in order of expiry. */
  lemma BatchRanOnce(q: Queue, later: int, j: nat, i: nat)
    requires Reachable(q) && Enabled(q, FinishStep(later)) && j <= i < |q.phase.batch|
    ensures |q.log| == q.phase.mark + |q.phase.batch|
    ensures var a := q.phase.batch[i].addr;
            a in q.heap && q.log[q.phase.mark + i].sequence == q.heap[a].sequence
                  && q.log[q.phase.mark + i].due == q.phase.batch[i].due
    ensures j < i ==> q.log[q.phase.mark + j].due <= q.log[q.phase.mark + i].due
    ensures j < i ==> q.log[q.phase.mark + j].sequence != q.log[q.phase.mark + i].sequence
  {
    ReachableBatch(q);
    assert q.phase.batch[i] in q.phase.batch && q.phase.batch[j] in q.phase.batch;
    assert j < i ==> Less(q.phase.batch[j], q.phase.batch[i]) && q.phase.batch[j].addr != q.phase.batch[i].addr;
  }

  /** Its one-shots are then deleted, and its repeating timers are active again, due one interval
      from now. */
  lemma BatchOutcome(q: Queue, later: int, e: Entry)
    requires Reachable(q) && Enabled(q, FinishStep(later)) && AssertsHold(q, FinishStep(later)) && e in q.phase.batch
    ensures e.addr in q.heap
    ensures var t := After(q, FinishStep(later));
            if q.heap[e.addr].interval > 0.0
            then e.addr in t.active && e.addr in t.heap
                 && t.heap[e.addr].expired == AddTime(q.clock, q.heap[e.addr].interval)
            else e.addr !in t.heap
  {
    ReachableInv(q);
    assert InFlight(q.phase.batch, e.addr);
    BatchResets(q, later);
    FinishOutcome(q, later, e.addr);
  }

  /** A cancel of a repeating timer that is in the current batch has no effect: the pointer is
      remembered in _cancelTimers, and the timer is active again after handleRead all the same. */
  lemma CancelInBatchIgnored(q: Queue, a: nat, later: int)
    requires Reachable(q) && Enabled(q, FinishStep(later))
    requires InFlight(q.phase.batch, a) && a in q.heap && q.heap[a].interval > 0.0
    ensures AssertsHold(q, CancelStep(a))
    ensures var t := CancelInLoop(q, a);
            a in t.cancelled && AssertsHold(t, FinishStep(later)) && a in Finish(t, later).active
  {
    ReachableInv(q);
    StepKeepsInv(q, CancelStep(a));
    InBatchNotActive(q, a);
    var t := q.(cancelled := q.cancelled + {a});
    StepKeepsInv(t, FinishStep(later));
    BatchResets(t, later);
    FinishOutcome(t, later, a);
  }

  lemma InBatchNotActive(q: Queue, a: nat)
    requires Flying(q, Flight(q)) && q.phase.Firing? && InFlight(q.phase.batch, a)
    ensures a !in q.active && CancelInLoop(q, a) == q.(cancelled := q.cancelled + {a})
  {}

  // ---------------------------------------------------------------------------------------
  // A cancel that finds the timer active is final
  // ---------------------------------------------------------------------------------------

  /** No allocated timer has sequence number n, and none will get it. */
  ghost predicate Gone(q: Queue, n: nat) {
    n < q.created && forall a <- q.heap :: q.heap[a].sequence != n
  }

  ghost predicate SilentSince(q: Queue, t: Queue, n: nat) {
    q.log <= t.log && forall r <- t.log[|q.log|..] :: r.sequence != n
  }

  lemma GoneStays(q: Queue, s: Step, n: nat)
    requires Inv(q) && Enabled(q, s) && AssertsHold(q, s) && Gone(q, n)
    ensures Gone(After(q, s), n) && SilentSince(q, After(q, s), n)
  {
    if s.FinishStep? {
      FinishGone(q, s.later, n);
    }
  }

  lemma FinishGone(q: Queue, later: int, n: nat)
    requires Inv(q) && Enabled(q, FinishStep(later)) && AssertsHold(q, FinishStep(later)) && Gone(q, n)
    ensures Gone(Finish(q, later), n) && Finish(q, later).log == q.log
  {
    BatchResets(q, later);
    FinishFrame(q, later);
    ResetAllKeeps(q, q.phase.batch);
    forall a | a in Finish(q, later).heap ensures Finish(q, later).heap[a].sequence != n {
      ResetAllOutcome(q, q.phase.batch, a);
    }
  }

  lemma {:induction false} GoneForever(q: Queue, steps: seq<Step>, t: Queue, n: nat)
    requires Inv(q) && Leads(q, steps, t) && Gone(q, n)
    ensures SilentSince(q, t, n)
    decreases |steps|
  {
    if steps == [] {
    } else {
      var m := After(q, steps[0]);
      StepKeepsInv(q, steps[0]);
      GoneStays(q, steps[0], n);
      GoneForever(m, steps[1..], t, n);
      SilenceLasts(q, m, t, n);
    }
  }

  lemma SilenceLasts(q: Queue, m: Queue, t: Queue, n: nat)
    requires SilentSince(q, m, n) && SilentSince(m, t, n)
    ensures SilentSince(q, t, n)
  {
    assert t.log[|q.log|..] == m.log[|q.log|..] + t.log[|m.log|..];
  }

  /** After the cancel of an active timer its callback never runs again, in any continuation. */
  lemma CancelIsFinal(q: Queue, a: nat, steps: seq<Step>, t: Queue)
    requires Reachable(q) && a in q.active && a in q.heap && Leads(CancelInLoop(q, a), steps, t)
    ensures q.log <= t.log && forall r <- t.log[|q.log|..] :: r.sequence != q.heap[a].sequence
  {
    ReachableInv(q);
    StepKeepsInv(q, CancelStep(a));
    GoneForever(CancelInLoop(q, a), steps, t, q.heap[a].sequence);
  }
}
