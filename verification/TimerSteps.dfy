/** Every step of the timer queue keeps the invariant, and its asserts hold. */
module TimerSteps {
  import opened TimerSet
  import opened TimerModel
  import opened TimerInv

  lemma MicrosNonNegative(seconds: real)
    requires seconds >= 0.0
    ensures Micros(seconds) >= 0
  {}

  // ---------------------------------------------------------------------------------------
  // Arming
  // ---------------------------------------------------------------------------------------

  lemma InsertedFirst(ts: seq<Entry>, e: Entry)
    ensures Inserted(ts, e) != []
    ensures Inserted(ts, e)[0] == if ts == [] || Less(e, ts[0]) then e else ts[0]
  {}

  lemma AddArm(q: Queue, a: nat)
    requires Indexed(q) && InsertAsserts(q, a) && ArmOk(q)
    ensures ArmOk(AddInLoop(q, a))
  {
    InsertedFirst(q.timers, Entry(q.heap[a].expired, a));
    if q.timers != [] { assert q.timers[0] in q.timers; }
  }

  lemma ErasedFirst(ts: seq<Entry>, e: Entry)
    requires Sorted(ts) && Erased(ts, e) != []
    ensures ts != [] && ts[0].due <= Erased(ts, e)[0].due
  {}

  lemma CancelArm(q: Queue, a: nat)
    requires Indexed(q) && ArmOk(q)
    ensures ArmOk(CancelInLoop(q, a))
  {
    if a in q.active {
      var e := Entry(q.heap[a].expired, a);
      if Erased(q.timers, e) != [] { ErasedFirst(q.timers, e); }
    }
  }

  // ---------------------------------------------------------------------------------------
  // Single steps
  // ---------------------------------------------------------------------------------------

  /** Ownership does not depend on the clock, the timerfd, the log or the phase. */
  lemma OwnedFrame(q: Queue, t: Queue, flight: seq<Entry>)
    requires Owned(q, flight, {})
    requires t.heap == q.heap && t.waiting == q.waiting && t.timers == q.timers && t.active == q.active
             && t.created == q.created
    ensures Owned(t, flight, {})
  {}

  /** The history facts survive as long as the timers that stay are unchanged. */
  lemma LogFrame(q: Queue, t: Queue)
    requires FireOk(q) && LogFits(q, Started(q))
    requires t.log == q.log && t.phase == q.phase && q.clock <= t.clock && q.created <= t.created
    requires forall a | a in t.heap :: (a in q.heap && t.heap[a] == q.heap[a]) || t.heap[a].sequence >= q.created
    requires forall e <- Flight(q) :: e.addr in q.heap && e.addr in t.heap && t.heap[e.addr] == q.heap[e.addr]
    ensures FireOk(t) && LogFits(t, Started(t))
  {
    if q.phase.Firing? { assert forall i | 0 <= i < q.phase.ran :: q.phase.batch[i] in Flight(q); }
  }

  lemma FlightAllocated(q: Queue)
    requires Flying(q, Flight(q))
    ensures forall e <- Flight(q) :: e.addr in q.heap
  {}

  lemma TickKeeps(q: Queue, to: int)
    requires Inv(q) && q.clock <= to
    ensures Inv(Tick(q, to))
  {
    OwnedFrame(q, Tick(q, to), Flight(q));
    FlightAllocated(q);
    LogFrame(q, Tick(q, to));
  }

  lemma NewOwned(q: Queue, a: nat, due: int, interval: real)
    requires Owned(q, Flight(q), {}) && Enabled(q, New(a, due, interval))
    ensures var t := After(q, New(a, due, interval)); Owned(t, Flight(t), {})
  {
    NotInQueue(q, a);
  }

  lemma NotInQueue(q: Queue, a: nat)
    requires Owned(q, Flight(q), {}) && a !in q.heap
    ensures a !in q.active && !InFlight(Flight(q), a) && a !in q.waiting
  {}

  lemma NewKeeps(q: Queue, a: nat, due: int, interval: real)
    requires Inv(q) && Enabled(q, New(a, due, interval))
    ensures Inv(After(q, New(a, due, interval)))
  {
    var t := After(q, New(a, due, interval));
    NewOwned(q, a, due, interval);
    FlightAllocated(q);
    LogFrame(q, t);
  }

  lemma AddKeeps(q: Queue, a: nat)
    requires Inv(q) && a in q.waiting
    ensures AssertsHold(q, AddStep(a)) && Inv(After(q, AddStep(a)))
  {
    AddOwned(q, Flight(q), a);
    AddArm(q, a);
    FlightAllocated(q);
    LogFrame(q, AddInLoop(q, a));
  }

  lemma CancelKeeps(q: Queue, a: nat)
    requires Inv(q)
    ensures AssertsHold(q, CancelStep(a)) && Inv(After(q, CancelStep(a)))
  {
    CancelOwned(q, Flight(q), a);
    CancelArm(q, a);
    FlightAllocated(q);
    LogFrame(q, CancelInLoop(q, a));
  }

  lemma FireKeeps(q: Queue)
    requires Inv(q) && q.phase.Idle?
    ensures AssertsHold(q, FireStep) && Inv(Fire(q))
  {
    FireOwned(q);
    FireSplit(q);
    FireArm(q);
    FireLog(q);
  }

  lemma FireArm(q: Queue)
    requires forall e <- q.timers[DueCount(q.timers, q.clock)..] :: q.clock < e.due
    requires q.clock > 0
    ensures ArmOk(Fire(q))
  {
    var t := Fire(q);
    if t.timers != [] { assert t.timers[0] in t.timers; }
  }

  lemma FireLog(q: Queue)
    requires q.phase.Idle? && LogFits(q, Started(q))
    requires forall e <- q.timers[..DueCount(q.timers, q.clock)] :: e.due <= q.clock
    ensures FireOk(Fire(q)) && LogFits(Fire(q), Started(Fire(q)))
  {
    assert Started(Fire(q)) == [];
  }

  lemma NotYetStarted(es: seq<Entry>, n: nat)
    requires n < |es| && forall i, j | 0 <= i < j < |es| :: es[i].addr != es[j].addr
    ensures !InFlight(es[..n], es[n].addr)
    ensures forall a :: InFlight(es[..n+1], a) <==> InFlight(es[..n], a) || a == es[n].addr
  {
    assert es[..n+1] == es[..n] + [es[n]];
    forall a ensures InFlight(es[..n+1], a) <==> InFlight(es[..n], a) || a == es[n].addr {
      assert es[n] in es[..n+1];
      if InFlight(es[..n], a) {
        var e :| e in es[..n] && e.addr == a;
        assert e in es[..n+1];
      }
    }
  }

  /** The timer whose callback is next has not been started in this batch. */
  lemma NextToRun(q: Queue)
    requires Owned(q, Flight(q), {}) && LogFits(q, Started(q)) && Enabled(q, RunStep)
    ensures var e := q.phase.batch[q.phase.ran];
            && e.addr in q.heap && q.heap[e.addr].expired == e.due && e in q.phase.batch
            && (forall b :: InFlight(q.phase.batch[..q.phase.ran+1], b) <==>
                            InFlight(q.phase.batch[..q.phase.ran], b) || b == e.addr)
            && (forall r | r in q.log && r.sequence == q.heap[e.addr].sequence ::
                  r.interval > 0.0 && r.interval == q.heap[e.addr].interval && e.due >= r.due + Micros(r.interval))
  {
    var e := q.phase.batch[q.phase.ran];
    assert e in q.phase.batch;
    NotYetStarted(q.phase.batch, q.phase.ran);
  }

  lemma RunKeeps(q: Queue)
    requires Inv(q) && Enabled(q, RunStep)
    ensures AssertsHold(q, RunStep) && Inv(After(q, RunStep))
  {
    NextToRun(q);
    var e := q.phase.batch[q.phase.ran];
    var t := q.heap[e.addr];
    LogGrows(q.log, Ran(t.sequence, t.expired, q.clock, t.interval));
    RunRest(q, e.addr);
    OwnedFrame(q, RunNext(q), q.phase.batch);
  }

  lemma RunRest(q: Queue, a: nat)
    requires Enabled(q, RunStep) && a == q.phase.batch[q.phase.ran].addr && a in q.heap
    requires Owned(q, Flight(q), {}) && LogFits(q, Started(q)) && FireOk(q)
    requires q.heap[a].expired == q.phase.batch[q.phase.ran].due
    requires forall b ::
      InFlight(q.phase.batch[..q.phase.ran+1], b) <==> InFlight(q.phase.batch[..q.phase.ran], b) || b == a
    ensures FireOk(RunNext(q)) && LogFits(RunNext(q), Started(RunNext(q)))
  {
    RunFits(q, a);
    RunFireOk(q, a);
  }

  lemma LogGrows(log: seq<Ran>, r: Ran)
    requires LogOk(log) && r.due <= r.at
    requires forall x | x in log && x.sequence == r.sequence :: x.interval > 0.0 && r.due >= x.due + Micros(x.interval)
    ensures LogOk(log + [r])
  {
    var l := log + [r];
    forall i, j | 0 <= i < j < |l| && l[i].sequence == l[j].sequence
      ensures l[i].interval > 0.0 && l[j].due >= l[i].due + Micros(l[i].interval) {
      if j == |log| { assert l[i] in log; }
    }
  }

  lemma RunFits(q: Queue, a: nat)
    requires Enabled(q, RunStep) && a == q.phase.batch[q.phase.ran].addr && a in q.heap && LogFits(q, Started(q))
    requires forall b, c | b in q.heap && c in q.heap && b != c :: q.heap[b].sequence != q.heap[c].sequence
    requires q.heap[a].sequence < q.created
    requires forall b ::
      InFlight(q.phase.batch[..q.phase.ran+1], b) <==> InFlight(q.phase.batch[..q.phase.ran], b) || b == a
    ensures LogFits(RunNext(q), Started(RunNext(q)))
  {}

  lemma RunFireOk(q: Queue, a: nat)
    requires Enabled(q, RunStep) && a == q.phase.batch[q.phase.ran].addr && a in q.heap && FireOk(q)
    requires q.heap[a].expired == q.phase.batch[q.phase.ran].due
    ensures FireOk(RunNext(q))
  {}

  // ---------------------------------------------------------------------------------------
  // reset()
  // ---------------------------------------------------------------------------------------

  ghost predicate NonposCovered(q: Queue) { q.timers != [] && q.timers[0].due <= 0 ==> Covered(q) }

  /** What reset() keeps while it works through the batch. */
  ghost predicate Resetting(q: Queue, list: seq<Entry>) {
    q.clock > 0 && Owned(q, list, {}) && LogOk(q.log) && LogFits(q, list) && NonposCovered(q)
  }

  lemma ResetOneLog(q: Queue, list: seq<Entry>)
    requires Resetting(q, list) && list != []
    ensures LogFits(ResetOne(q, list[0], q.clock), list[1..])
  {
    var a := list[0].addr;
    assert list[0] in list;
    MicrosNonNegative(if q.heap[a].Repeated() then q.heap[a].interval else 0.0);
    forall b ensures InFlight(list, b) ==> b == a || InFlight(list[1..], b) {
      if InFlight(list, b) && b != a {
        var e :| e in list && e.addr == b;
        assert e in list[1..];
      }
    }
  }

  lemma ResetOneCovered(q: Queue, list: seq<Entry>)
    requires Resetting(q, list) && list != []
    ensures NonposCovered(ResetOne(q, list[0], q.clock))
  {
    var a := list[0].addr;
    assert list[0] in list;
    if q.heap[a].Repeated() {
      MicrosNonNegative(q.heap[a].interval);
      InsertedFirst(q.timers, Entry(AddTime(q.clock, q.heap[a].interval), a));
    }
  }

  lemma {:induction false} ResetAllKeeps(q: Queue, list: seq<Entry>)
    requires Resetting(q, list)
    ensures AllResetAsserts(q, list, q.clock)
    ensures var t := ResetAll(q, list, q.clock);
            Resetting(t, []) && t.log == q.log && t.clock == q.clock && t.fd == q.fd && t.phase == q.phase
            && t.created == q.created && t.waiting == q.waiting
    decreases |list|
  {
    if list == [] {
    } else {
      ResetOneOwned(q, list, q.clock);
      ResetOneLog(q, list);
      ResetOneCovered(q, list);
      ResetAllKeeps(ResetOne(q, list[0], q.clock), list[1..]);
    }
  }

  lemma FinishKeeps(q: Queue, later: int)
    requires Inv(q) && Enabled(q, FinishStep(later))
    ensures AssertsHold(q, FinishStep(later)) && Inv(After(q, FinishStep(later)))
  {
    assert q.phase.batch[..q.phase.ran] == q.phase.batch;
    ResetAllKeeps(q, q.phase.batch);
    FinishArms(ResetAll(q, q.phase.batch, q.clock), later);
  }

  lemma FinishArms(q: Queue, later: int)
    requires Resetting(q, []) && q.clock <= later
    ensures Inv(Rearmed(Tick(q.(phase := Idle), later)))
  {
    var t := Rearmed(Tick(q.(phase := Idle), later));
    assert Owned(t, [], {});
    assert LogFits(t, []);
  }

  lemma StepKeepsInv(q: Queue, s: Step)
    requires Inv(q) && Enabled(q, s)
    ensures AssertsHold(q, s) && Inv(After(q, s))
  {
    match s
    case TickStep(to) => TickKeeps(q, to);
    case New(a, due, interval) => NewKeeps(q, a, due, interval);
    case AddStep(a) => AddKeeps(q, a);
    case CancelStep(a) => CancelKeeps(q, a);
    case FireStep => FireKeeps(q);
    case RunStep => RunKeeps(q);
    case FinishStep(later) => FinishKeeps(q, later);
  }
}
