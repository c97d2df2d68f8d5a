/** Ownership, index agreement, callback history and arming of the timer queue, kept by every step. */
module TimerInv {
  import opened TimerSet
  import opened TimerModel

  ghost predicate InFlight(es: seq<Entry>, a: nat) { exists e <- es :: e.addr == a }

  /** Every allocated timer is in exactly one place: waiting to be added, active, in the batch in
      flight, or (inside an operation) loose. The two indexes agree and store current expiries. */
  ghost predicate Owned(q: Queue, flight: seq<Entry>, loose: set<nat>) {
    && Indexed(q) && Flying(q, flight)
    && (forall a <- q.heap :: 0 < a < ADDR_MAX && q.heap[a].sequence < q.created)
    && (forall a, b | a in q.heap && b in q.heap && a != b :: q.heap[a].sequence != q.heap[b].sequence)
    && q.waiting <= q.heap.Keys && loose <= q.heap.Keys
    && (forall a | a in q.waiting :: a !in q.active && a !in loose)
    && (forall a | a in loose :: a !in q.active && !InFlight(flight, a))
    && (forall a <- q.heap :: a in q.waiting || a in q.active || InFlight(flight, a) || a in loose)
  }

  ghost predicate Indexed(q: Queue) {
    && Sorted(q.timers) && |q.timers| == |q.active|
    && (forall e <- q.timers :: e.addr in q.active && e.addr in q.heap && q.heap[e.addr].expired == e.due)
    && (forall a | a in q.active :: a in q.heap && Entry(q.heap[a].expired, a) in q.timers)
  }

  ghost predicate Flying(q: Queue, flight: seq<Entry>) {
    && Sorted(flight)
    && (forall i, j | 0 <= i < j < |flight| :: flight[i].addr != flight[j].addr)
    && (forall e <- flight ::
          e.addr in q.heap && q.heap[e.addr].expired == e.due && e.addr !in q.active && e.addr !in q.waiting)
  }

  function Flight(q: Queue): seq<Entry> { if q.phase.Firing? then q.phase.batch else [] }

  /** The batch entries whose callback was started. */
  function Started(q: Queue): seq<Entry> {
    if q.phase.Firing? && q.phase.ran <= |q.phase.batch| then q.phase.batch[..q.phase.ran] else []
  }

  ghost predicate FireOk(q: Queue) {
    match q.phase
    case Idle => true
    case Firing(now, batch, ran, mark) =>
      && now <= q.clock && ran <= |batch| && |q.log| == mark + ran
      && (forall e <- batch :: e.due <= now)
      && (forall i | 0 <= i < ran :: batch[i].addr in q.heap
            && q.log[mark + i].sequence == q.heap[batch[i].addr].sequence && q.log[mark + i].due == batch[i].due)
  }

  /** No callback ran early; a timer that ran again was repeating and at least its interval later. */
  ghost predicate LogOk(log: seq<Ran>) {
    && (forall r <- log :: r.due <= r.at)
    && (forall i, j | 0 <= i < j < |log| && log[i].sequence == log[j].sequence ::
          log[i].interval > 0.0 && log[j].due >= log[i].due + Micros(log[i].interval))
  }

  /** What the log says about the timers that are still allocated. */
  ghost predicate LogFits(q: Queue, started: seq<Entry>) {
    && (forall r <- q.log :: r.sequence < q.created && r.at <= q.clock)
    && (forall a, r | a in q.heap && r in q.log && r.sequence == q.heap[a].sequence ::
          r.interval == q.heap[a].interval
          && (InFlight(started, a) || (q.heap[a].Repeated() && r.due + Micros(r.interval) <= q.heap[a].expired)))
  }

  function Max(a: int, b: int): int { if a < b then b else a }

  /** The timerfd is readable or fires in time for the earliest timer, up to the minimal delay. */
  ghost predicate Covered(q: Queue)
    requires q.timers != []
  {
    q.fd.Readable? || (q.fd.Armed? && q.fd.deadline <= Max(q.timers[0].due, q.clock + MIN_DELAY))
  }

  /** Outside handleRead a pending timer is covered; inside, one that reset will not arm for is. */
  ghost predicate ArmOk(q: Queue) {
    q.timers != [] && (q.phase.Idle? || q.timers[0].due <= 0) ==> Covered(q)
  }

  ghost predicate Inv(q: Queue) {
    && q.clock > 0
    && Owned(q, Flight(q), {}) && FireOk(q) && LogOk(q.log) && LogFits(q, Started(q)) && ArmOk(q)
  }

  lemma InitInv(clock: int)
    requires clock > 0
    ensures Inv(Init(clock))
  {}

  // ---------------------------------------------------------------------------------------
  // Ownership
  // ---------------------------------------------------------------------------------------

  lemma InsertIndexed(q: Queue, a: nat)
    requires Indexed(q) && a in q.heap && a !in q.active
    ensures InsertAsserts(q, a) && Indexed(Insert(q, a))
  {
    var e, t := Entry(q.heap[a].expired, a), Insert(q, a);
    if q.timers != [] { assert q.timers[0] in q.timers; }
    assert e !in q.timers;
    InsertedSorted(q.timers, e);
    InsertedMembers(q.timers, e, e);
    forall x | x in t.timers ensures x.addr in t.active && x.addr in t.heap && t.heap[x.addr].expired == x.due {
      InsertedMembers(q.timers, e, x);
    }
    forall b | b in t.active ensures b in t.heap && Entry(t.heap[b].expired, b) in t.timers {
      InsertedMembers(q.timers, e, Entry(t.heap[b].expired, b));
    }
  }

  lemma NotFlying(es: seq<Entry>, a: nat)
    requires !InFlight(es, a)
    ensures forall e <- es :: e.addr != a
  {}

  lemma FirstNotLater(es: seq<Entry>)
    requires es != [] && forall i, j | 0 <= i < j < |es| :: es[i].addr != es[j].addr
    ensures !InFlight(es[1..], es[0].addr)
  {
    forall e | e in es[1..] ensures e.addr != es[0].addr {
      var i :| 0 <= i < |es[1..]| && es[1..][i] == e;
      assert es[i+1] == e;
    }
  }

  lemma InsertOwned(q: Queue, flight: seq<Entry>, a: nat)
    requires Owned(q, flight, {a})
    ensures InsertAsserts(q, a) && Owned(Insert(q, a), flight, {})
  {
    InsertIndexed(q, a);
    NotFlying(flight, a);
  }

  lemma DeleteOwned(q: Queue, flight: seq<Entry>, a: nat)
    requires Owned(q, flight, {a})
    ensures Owned(Delete(q, a), flight, {})
  {
    NotFlying(flight, a);
  }

  /** The restart of a timer that is in no index. */
  lemma RestartOwned(q: Queue, flight: seq<Entry>, a: nat, now: int)
    requires Owned(q, flight, {a})
    ensures Owned(Restarted(q, a, now), flight, {a})
  {
    NotFlying(flight, a);
    var t := Restarted(q, a, now);
    assert t.heap.Keys == q.heap.Keys;
    assert forall b <- q.heap :: t.heap[b].sequence == q.heap[b].sequence;
  }

  /** Taking the first entry off the flight. */
  lemma TakeOwned(q: Queue, flight: seq<Entry>)
    requires Owned(q, flight, {}) && flight != []
    ensures Owned(q, flight[1..], {flight[0].addr})
  {
    var rest, a := flight[1..], flight[0].addr;
    assert flight[0] in flight;
    forall b ensures InFlight(flight, b) <==> b == a || InFlight(rest, b) {
      if InFlight(flight, b) && b != a {
        var e :| e in flight && e.addr == b;
        assert e in rest;
      }
    }
    FirstNotLater(flight);
  }

  lemma ResetOneOwned(q: Queue, flight: seq<Entry>, now: int)
    requires Owned(q, flight, {}) && flight != []
    ensures ResetAsserts(q, flight[0], now) && Owned(ResetOne(q, flight[0], now), flight[1..], {})
  {
    var a := flight[0].addr;
    TakeOwned(q, flight);
    if q.heap[a].Repeated() {
      RestartOwned(q, flight[1..], a, now);
      InsertOwned(Restarted(q, a, now), flight[1..], a);
    } else {
      DeleteOwned(q, flight[1..], a);
    }
  }

  lemma AddOwned(q: Queue, flight: seq<Entry>, a: nat)
    requires Owned(q, flight, {}) && a in q.waiting
    ensures InsertAsserts(q, a) && Owned(AddInLoop(q, a), flight, {})
  {
    LooseOwned(q, flight, a);
    InsertOwned(q.(waiting := q.waiting - {a}), flight, a);
    ArmOwned(Insert(q.(waiting := q.waiting - {a}), a), flight, q.heap[a].expired);
  }

  /** A waiting timer whose turn to be added has come. */
  lemma LooseOwned(q: Queue, flight: seq<Entry>, a: nat)
    requires Owned(q, flight, {}) && a in q.waiting
    ensures Owned(q.(waiting := q.waiting - {a}), flight, {a})
  {
    forall e | e in flight ensures e.addr != a {}
  }

  lemma ArmOwned(q: Queue, flight: seq<Entry>, due: int)
    requires Owned(q, flight, {})
    ensures Owned(Arm(q, due), flight, {})
  {}

  lemma DropIndexed(q: Queue, a: nat)
    requires Indexed(q) && a in q.active
    ensures var e := Entry(q.heap[a].expired, a);
            e in q.timers && Indexed(q.(timers := Erased(q.timers, e), active := q.active - {a}))
  {
    var e := Entry(q.heap[a].expired, a);
    var t := q.(timers := Erased(q.timers, e), active := q.active - {a});
    ErasedSorted(q.timers, e);
    ErasedMembers(q.timers, e, e);
    forall x | x in t.timers ensures x.addr in t.active && x.addr in t.heap && t.heap[x.addr].expired == x.due {
      ErasedMembers(q.timers, e, x);
    }
    forall b | b in t.active ensures b in t.heap && Entry(t.heap[b].expired, b) in t.timers {
      ErasedMembers(q.timers, e, Entry(t.heap[b].expired, b));
    }
  }

  lemma CancelOwned(q: Queue, flight: seq<Entry>, a: nat)
    requires Owned(q, flight, {})
    ensures AssertsHold(q, CancelStep(a)) && Owned(CancelInLoop(q, a), flight, {})
  {
    if a in q.active {
      DropIndexed(q, a);
      var t := q.(timers := Erased(q.timers, Entry(q.heap[a].expired, a)), active := q.active - {a});
      assert Owned(t, flight, {a}) by {
        assert !InFlight(flight, a);
      }
      DeleteOwned(t, flight, a);
    }
  }

  // ---------------------------------------------------------------------------------------
  // The expired batch
  // ---------------------------------------------------------------------------------------

  /** The split of the sorted set at the bound. */
  lemma FireSplit(q: Queue)
    requires Indexed(q) && forall a <- q.heap :: a < ADDR_MAX
    ensures var n := DueCount(q.timers, q.clock);
            && (forall e <- q.timers[..n] :: e.due <= q.clock && e.addr in q.active)
            && (forall e <- q.timers[n..] :: q.clock < e.due)
            && (n < |q.timers| ==> q.clock < q.timers[n].due)
  {
    DueExactly(q.timers, q.clock);
    var n := DueCount(q.timers, q.clock);
    if n < |q.timers| { assert q.timers[n] == q.timers[n..][0]; }
    assert forall e <- q.timers[..n] :: e in q.timers;
  }

  lemma OtherEntryOtherAddr(q: Queue, e: Entry, f: Entry)
    requires Indexed(q) && e in q.timers && f in q.timers && e != f
    ensures e.addr != f.addr
  {}

  lemma {:induction false} TakenCount(es: seq<Entry>, active: set<nat>)
    requires forall e <- es :: e.addr in active
    requires forall i, j | 0 <= i < j < |es| :: es[i].addr != es[j].addr
    ensures |active - Addrs(es)| == |active| - |es|
  {
    if es != [] {
      var n := |es| - 1;
      forall e | e in es[..n] ensures e.addr in active {}
      TakenCount(es[..n], active);
      assert es == es[..n] + [es[n]];
      assert Addrs(es) == Addrs(es[..n]) + {es[n].addr};
      assert es[n].addr !in Addrs(es[..n]);
      assert active - Addrs(es) == (active - Addrs(es[..n])) - {es[n].addr};
    } else {
      assert active - Addrs(es) == active;
    }
  }

  lemma DistinctAddrs(q: Queue)
    requires Indexed(q)
    ensures forall i, j | 0 <= i < j < |q.timers| :: q.timers[i].addr != q.timers[j].addr
  {
    forall i, j | 0 <= i < j < |q.timers| ensures q.timers[i].addr != q.timers[j].addr {
      assert Less(q.timers[i], q.timers[j]);
      OtherEntryOtherAddr(q, q.timers[i], q.timers[j]);
    }
  }

  /** The two halves of the sorted set share no timer. */
  lemma HalvesApart(q: Queue, n: nat, e: Entry)
    requires Indexed(q) && n <= |q.timers|
    ensures e in q.timers[n..] ==> e in q.timers && e !in q.timers[..n] && e.addr !in Addrs(q.timers[..n])
    ensures e in q.timers[..n] ==> e in q.timers && e !in q.timers[n..]
    ensures e in q.timers <==> e in q.timers[..n] || e in q.timers[n..]
  {
    assert q.timers == q.timers[..n] + q.timers[n..];
    if e in q.timers[n..] {
      forall f | f in q.timers[..n] ensures f.addr != e.addr {
        assert Less(f, e);
        OtherEntryOtherAddr(q, e, f);
      }
    }
  }

  lemma TakenIff(es: seq<Entry>, a: nat)
    ensures a in Addrs(es) <==> InFlight(es, a)
  {}

  lemma FireIndexed(q: Queue)
    requires Indexed(q)
    ensures Indexed(Fire(q))
  {
    var t := Fire(q);
    FireCount(q);
    forall e | e in t.timers ensures e.addr in t.active && e.addr in t.heap && t.heap[e.addr].expired == e.due {
      HalvesApart(q, DueCount(q.timers, q.clock), e);
    }
    forall a | a in t.active ensures a in t.heap && Entry(t.heap[a].expired, a) in t.timers {
      KeptActive(q, DueCount(q.timers, q.clock), a);
    }
  }

  lemma FireCount(q: Queue)
    requires Indexed(q)
    ensures Sorted(Fire(q).timers) && |Fire(q).timers| == |Fire(q).active|
  {
    var due := q.timers[..DueCount(q.timers, q.clock)];
    DistinctAddrs(q);
    assert forall e <- due :: e in q.timers;
    TakenCount(due, q.active);
  }

  lemma KeptActive(q: Queue, n: nat, a: nat)
    requires Indexed(q) && n <= |q.timers| && a in q.active && a !in Addrs(q.timers[..n])
    ensures a in q.heap && Entry(q.heap[a].expired, a) in q.timers[n..]
  {
    HalvesApart(q, n, Entry(q.heap[a].expired, a));
  }

  lemma FireFlying(q: Queue)
    requires Indexed(q) && forall a | a in q.waiting :: a !in q.active
    ensures Flying(Fire(q), Fire(q).phase.batch)
    ensures forall a :: a in Fire(q).active <==> a in q.active && !InFlight(Fire(q).phase.batch, a)
  {
    var n, t := DueCount(q.timers, q.clock), Fire(q);
    DistinctAddrs(q);
    forall e | e in t.phase.batch
          ensures e.addr in t.heap && t.heap[e.addr].expired == e.due && e.addr !in t.active && e.addr !in t.waiting {
      assert e in q.timers && e.addr in Addrs(q.timers[..n]);
    }
    forall a ensures a in t.active <==> a in q.active && !InFlight(t.phase.batch, a) {
      TakenIff(q.timers[..n], a);
    }
  }

  lemma FireOwned(q: Queue)
    requires q.phase.Idle? && Owned(q, [], {})
    ensures AssertsHold(q, FireStep) && Owned(Fire(q), Fire(q).phase.batch, {})
  {
    FireSplit(q);
    FireIndexed(q);
    FireFlying(q);
  }
}
