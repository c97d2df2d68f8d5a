/** The ordered set of timers: std::set<pair<Timestamp, Timer*>> as a strictly sorted sequence. */
module TimerSet {

  /** An entry of the set; addr stands for the Timer pointer. */
  datatype Entry = Entry(due: int, addr: nat)

  /** Every pointer compares below UINTPTR_MAX. */
  const ADDR_MAX: nat := 0xffff_ffff_ffff_ffff

  predicate Less(a: Entry, b: Entry) { a.due < b.due || (a.due == b.due && a.addr < b.addr) }

  ghost predicate Sorted(ts: seq<Entry>) {
    forall i, j | 0 <= i < j < |ts| :: Less(ts[i], ts[j])
  }

  function Inserted(ts: seq<Entry>, e: Entry): seq<Entry> {
    if ts == [] || Less(e, ts[0]) then [e] + ts else [ts[0]] + Inserted(ts[1..], e)
  }

  function Erased(ts: seq<Entry>, e: Entry): seq<Entry> {
    if ts == [] then [] else if ts[0] == e then ts[1..] else [ts[0]] + Erased(ts[1..], e)
  }

  /** How many entries lie before lower_bound((now, UINTPTR_MAX)). */
  function DueCount(ts: seq<Entry>, now: int): (n: nat)
    ensures n <= |ts|
  {
    if ts == [] || !Less(ts[0], Entry(now, ADDR_MAX)) then 0 else 1 + DueCount(ts[1..], now)
  }

  lemma SortedTail(ts: seq<Entry>)
    requires Sorted(ts) && ts != []
    ensures Sorted(ts[1..]) && forall e <- ts[1..] :: Less(ts[0], e)
  {}

  lemma {:induction false} InsertedMembers(ts: seq<Entry>, e: Entry, x: Entry)
    ensures x in Inserted(ts, e) <==> x == e || x in ts
    ensures |Inserted(ts, e)| == |ts| + 1
  {
    if ts == [] || Less(e, ts[0]) {
    } else {
      InsertedMembers(ts[1..], e, x);
      assert ts == [ts[0]] + ts[1..];
    }
  }

  lemma {:induction false} InsertedBag(ts: seq<Entry>, e: Entry)
    ensures multiset(Inserted(ts, e)) == multiset(ts) + multiset{e}
  {
    if ts == [] || Less(e, ts[0]) {
    } else {
      InsertedBag(ts[1..], e);
      assert ts == [ts[0]] + ts[1..];
    }
  }

  lemma {:induction false} InsertedSorted(ts: seq<Entry>, e: Entry)
    requires Sorted(ts) && e !in ts
    ensures Sorted(Inserted(ts, e))
  {
    if ts == [] {
    } else {
      SortedTail(ts);
      if !Less(e, ts[0]) {
        assert ts[0] in ts;
        InsertedSorted(ts[1..], e);
        var r := Inserted(ts[1..], e);
        forall x | x in r ensures Less(ts[0], x) { InsertedMembers(ts[1..], e, x); }
        forall i | 0 <= i < |r| ensures Less(ts[0], r[i]) { assert r[i] in r; }
      }
    }
  }

  lemma {:induction false} ErasedMembers(ts: seq<Entry>, e: Entry, x: Entry)
    requires Sorted(ts)
    ensures x in Erased(ts, e) <==> x in ts && x != e
    ensures |Erased(ts, e)| == |ts| - if e in ts then 1 else 0
  {
    if ts == [] {
    } else {
      SortedTail(ts);
      ErasedMembers(ts[1..], e, x);
      assert ts == [ts[0]] + ts[1..];
    }
  }

  lemma {:induction false} ErasedBag(ts: seq<Entry>, e: Entry)
    requires e in ts
    ensures multiset(Erased(ts, e)) == multiset(ts) - multiset{e}
  {
    assert ts == [ts[0]] + ts[1..];
    if ts[0] == e {
    } else {
      ErasedBag(ts[1..], e);
    }
  }

  lemma {:induction false} ErasedSorted(ts: seq<Entry>, e: Entry)
    requires Sorted(ts)
    ensures Sorted(Erased(ts, e))
  {
    if ts == [] || ts[0] == e {
      assert ts != [] ==> Sorted(ts[1..]);
    } else {
      SortedTail(ts);
      ErasedSorted(ts[1..], e);
      var r := Erased(ts[1..], e);
      forall i | 0 <= i < |r| ensures Less(ts[0], r[i]) {
        ErasedMembers(ts[1..], e, r[i]);
        assert r[i] in r;
      }
    }
  }

  /** The entries before the bound are exactly those that are due. */
  lemma {:induction false} DueExactly(ts: seq<Entry>, now: int)
    requires Sorted(ts) && forall e <- ts :: e.addr < ADDR_MAX
    ensures forall e <- ts[..DueCount(ts, now)] :: e.due <= now
    ensures forall e <- ts[DueCount(ts, now)..] :: now < e.due
  {
    if ts == [] {
    } else {
      SortedTail(ts);
      assert ts[0] in ts && ts[1..] <= ts[1..];
      forall e | e in ts[1..] ensures e.addr < ADDR_MAX { assert e in ts; }
      DueExactly(ts[1..], now);
      var n := DueCount(ts, now);
      if n > 0 {
        assert ts[..n] == [ts[0]] + ts[1..][..n-1] && ts[n..] == ts[1..][n-1..];
      } else {
        assert ts[0..] == [ts[0]] + ts[1..];
      }
    }
  }
}

/** The timer queue of one loop (net/src/timer.cpp) as a transition system: timers are allocated by
    addresses in a heap, a batch of expired timers is in flight while its callbacks run, callbacks
    may add and cancel timers, and a one-shot timerfd drives it all. */
module TimerModel {
  import opened TimerSet

  const MICROS: int := 1_000_000
  const MIN_DELAY: int := 100

  /** A duration in seconds as whole microseconds, cut towards zero. */
  function Micros(seconds: real): int {
    if seconds >= 0.0 then (seconds * 1000000.0).Floor else -(-seconds * 1000000.0).Floor
  }

  function AddTime(t: int, seconds: real): int { t + Micros(seconds) }

  /** The cut loses less than a microsecond, never adds one, and nothing of whole microseconds. */
  lemma AddTimeCut(t: int, seconds: real, n: int)
    ensures seconds >= 0.0 ==> 0.0 <= seconds * 1000000.0 - (AddTime(t, seconds) - t) as real < 1.0
    ensures seconds <= 0.0 ==> -1.0 < seconds * 1000000.0 - (AddTime(t, seconds) - t) as real <= 0.0
    ensures Micros(n as real / 1000000.0) == n && AddTime(t, n as real / 1000000.0) == t + n
  {
    assert (n as real / 1000000.0) * 1000000.0 == n as real;
    assert -(n as real / 1000000.0) * 1000000.0 == (-n) as real;
  }

  datatype Timer = Timer(expired: int, interval: real, sequence: nat) {
    predicate Repeated() { interval > 0.0 }
  }

  datatype Fd = Disarmed | Armed(deadline: int) | Readable

  /** Idle, or inside handleRead with the batch taken at time now, of which the first ran callbacks
      have been started; mark is the length of the log at the start. */
  datatype Phase = Idle | Firing(now: int, batch: seq<Entry>, ran: nat, mark: nat)

  /** One callback run: which timer, when it was due, when it ran. */
  datatype Ran = Ran(sequence: nat, due: int, at: int, interval: real)

  datatype Queue = Queue(
    clock: int,
    heap: map<nat, Timer>,      // allocated Timer objects
    waiting: set<nat>,          // allocated by addTimer, addTimerInLoop not yet run
    timers: seq<Entry>,         // _timers
    active: set<nat>,           // _activeTimers
    cancelled: set<nat>,        // _cancelTimers
    phase: Phase,
    fd: Fd,                     // kernel state of the timerfd
    created: nat,               // Timer::_numCreated
    log: seq<Ran>)              // history of callbacks

  function Init(clock: int): Queue { Queue(clock, map[], {}, [], {}, {}, Idle, Disarmed, 0, []) }

  /** howMuchTimeFromNow and resetTimerfd: a relative one-shot timeout, at least 100 microseconds. */
  function Delay(due: int, clock: int): int { if due - clock < MIN_DELAY then MIN_DELAY else due - clock }

  datatype TimeSpec = TimeSpec(sec: int, nsec: int)

  function HowMuchTimeFromNow(due: int, clock: int): (t: TimeSpec)
    ensures 0 <= t.sec && 0 <= t.nsec < 1_000_000_000 && (t.sec > 0 || t.nsec > 0)
    ensures t.sec * MICROS * 1000 + t.nsec == Delay(due, clock) * 1000
    ensures var us := t.sec * 1_000_000 + t.nsec / 1000;
            us >= 100 && clock + us >= due && (us == 100 || clock + us == due)
  {
    var d := Delay(due, clock);
    TimeSpec(d / MICROS, (d % MICROS) * 1000)
  }

  function Arm(q: Queue, due: int): Queue { q.(fd := Armed(q.clock + Delay(due, q.clock))) }

  function Tick(q: Queue, to: int): Queue {
    q.(clock := to, fd := if q.fd.Armed? && q.fd.deadline <= to then Readable else q.fd)
  }

  // ---------------------------------------------------------------------------------------
  // The operations, with the asserts they make
  // ---------------------------------------------------------------------------------------

  /** insert(): the begin() timer may be dereferenced, and both inserts must be new. */
  predicate InsertAsserts(q: Queue, a: nat) {
    && a in q.heap && (q.timers != [] ==> q.timers[0].addr in q.heap)
    && Entry(q.heap[a].expired, a) !in q.timers && a !in q.active
    && |q.timers| == |q.active|
  }

  predicate Changes(q: Queue, a: nat)
    requires a in q.heap && (q.timers != [] ==> q.timers[0].addr in q.heap)
  {
    q.timers == [] || q.heap[a].expired < q.heap[q.timers[0].addr].expired
  }

  function Insert(q: Queue, a: nat): Queue
    requires a in q.heap
  {
    q.(timers := Inserted(q.timers, Entry(q.heap[a].expired, a)), active := q.active + {a})
  }

  function AddInLoop(q: Queue, a: nat): Queue
    requires InsertAsserts(q, a)
  {
    var t := Insert(q.(waiting := q.waiting - {a}), a);
    if Changes(q, a) then Arm(t, q.heap[a].expired) else t
  }

  function Delete(q: Queue, a: nat): Queue { q.(heap := q.heap - {a}) }

  function CancelInLoop(q: Queue, a: nat): Queue
    requires a in q.active ==> a in q.heap
  {
    if a in q.active then
      Delete(q.(timers := Erased(q.timers, Entry(q.heap[a].expired, a)), active := q.active - {a}), a)
    else if q.phase.Firing? then q.(cancelled := q.cancelled + {a})
    else q
  }

  function Addrs(es: seq<Entry>): set<nat> { set e | e in es :: e.addr }

  /** handleRead up to the first callback: read the timerfd, take what is due. */
  function Fire(q: Queue): Queue {
    var n := DueCount(q.timers, q.clock);
    q.(fd := if q.fd.Readable? then Disarmed else q.fd,
       timers := q.timers[n..], active := q.active - Addrs(q.timers[..n]), cancelled := {},
       phase := Firing(q.clock, q.timers[..n], 0, |q.log|))
  }

  function RunNext(q: Queue): Queue
    requires q.phase.Firing? && q.phase.ran < |q.phase.batch| && q.phase.batch[q.phase.ran].addr in q.heap
  {
    var t := q.heap[q.phase.batch[q.phase.ran].addr];
    q.(log := q.log + [Ran(t.sequence, t.expired, q.clock, t.interval)], phase := q.phase.(ran := q.phase.ran + 1))
  }

  /** One entry of reset(): restart and insert, or delete. */
  predicate ResetAsserts(q: Queue, e: Entry, now: int) {
    && e.addr in q.heap
    && (q.heap[e.addr].Repeated() ==> InsertAsserts(Restarted(q, e.addr, now), e.addr))
  }

  function Restarted(q: Queue, a: nat, now: int): Queue
    requires a in q.heap
  {
    q.(heap := q.heap[a := q.heap[a].(expired := AddTime(now, q.heap[a].interval))])
  }

  function ResetOne(q: Queue, e: Entry, now: int): Queue
    requires e.addr in q.heap
  {
    if q.heap[e.addr].Repeated() then Insert(Restarted(q, e.addr, now), e.addr) else Delete(q, e.addr)
  }

  predicate AllResetAsserts(q: Queue, list: seq<Entry>, now: int)
    decreases |list|
  {
    list == [] || (ResetAsserts(q, list[0], now) && AllResetAsserts(ResetOne(q, list[0], now), list[1..], now))
  }

  function ResetAll(q: Queue, list: seq<Entry>, now: int): Queue
    requires AllResetAsserts(q, list, now)
    decreases |list|
  {
    if list == [] then q else ResetAll(ResetOne(q, list[0], now), list[1..], now)
  }

  /** The end of reset(): arm for the earliest timer if its expiry is valid. */
  function Rearmed(q: Queue): Queue {
    if q.timers != [] && q.timers[0].due > 0 then Arm(q, q.timers[0].due) else q
  }

  /** reset() restarts at the clock's time, and reads the clock again when it arms. */
  function Finish(q: Queue, later: int): Queue
    requires q.phase.Firing? && AllResetAsserts(q, q.phase.batch, q.clock)
  {
    Rearmed(Tick(ResetAll(q, q.phase.batch, q.clock).(phase := Idle), later))
  }

  datatype Step =
    | TickStep(to: int)
    | New(a: nat, due: int, interval: real)
    | AddStep(a: nat)
    | CancelStep(a: nat)
    | FireStep
    | RunStep
    | FinishStep(later: int)

  /** New may reuse the address of a deleted timer; a cancel may name any address. */
  predicate Enabled(q: Queue, s: Step) {
    match s
    case TickStep(to) => q.clock <= to
    case New(a, _, _) => a !in q.heap && 0 < a < ADDR_MAX
    case AddStep(a) => a in q.waiting
    case CancelStep(a) => true
    case FireStep => q.phase.Idle?
    case RunStep => q.phase.Firing? && q.phase.ran < |q.phase.batch|
    case FinishStep(later) => q.phase.Firing? && q.phase.ran == |q.phase.batch| && q.clock <= later
  }

  /** Every assert reached in a step, and every pointer it uses points to a living timer. */
  predicate AssertsHold(q: Queue, s: Step) {
    match s
    case AddStep(a) => InsertAsserts(q, a)
    case CancelStep(a) =>
      && |q.timers| == |q.active|
      && (a in q.active ==> a in q.heap && Entry(q.heap[a].expired, a) in q.timers)
    case FireStep => (forall e <- q.timers[..DueCount(q.timers, q.clock)] :: e.addr in q.active)
      && (DueCount(q.timers, q.clock) < |q.timers| ==> q.clock < q.timers[DueCount(q.timers, q.clock)].due)
    case RunStep => q.phase.Firing? && q.phase.ran < |q.phase.batch| && q.phase.batch[q.phase.ran].addr in q.heap
    case FinishStep(_) => q.phase.Firing? && AllResetAsserts(q, q.phase.batch, q.clock)
    case _ => true
  }

  function After(q: Queue, s: Step): Queue
    requires AssertsHold(q, s)
  {
    match s
    case TickStep(to) => Tick(q, to)
    case New(a, due, interval) =>
      q.(heap := q.heap[a := Timer(due, interval, q.created)], waiting := q.waiting + {a}, created := q.created + 1)
    case AddStep(a) => AddInLoop(q, a)
    case CancelStep(a) => CancelInLoop(q, a)
    case FireStep => Fire(q)
    case RunStep => RunNext(q)
    case FinishStep(later) => Finish(q, later)
  }
}
