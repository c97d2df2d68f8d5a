/** What holds in every run of the multi-loop server, with any number of IO loops. */
module ReactorTheorems {
  import opened Common
  import opened PollerModel
  import opened ConnModel
  import opened Reactor
  import opened ReactorInv
  import opened ReactorSteps

  /** steps leads from s to t and no assert failed on the way. */
  ghost predicate Leads(s: Sys, steps: seq<Step>, t: Sys)
    decreases |steps|
  {
    if steps == [] then s == t
    else Enabled(s, steps[0]) && AssertsHold(s, steps[0]) && Leads(After(s, steps[0]), steps[1..], t)
  }

  lemma InitInv(ioLoops: nat)
    ensures Inv(Init(ioLoops))
  {
    var s := Init(ioLoops);
    forall l: nat | l < |s.loops| ensures Consistent(WorldOf(s, l)) {
      assert Chans(s, l) == map[];
    }
  }

  lemma {:induction false} LeadsKeepsInv(s: Sys, steps: seq<Step>, t: Sys)
    requires Inv(s) && Leads(s, steps, t)
    ensures Inv(t)
    decreases |steps|
  {
    if steps == [] {
    } else {
      ReactorSteps.StepKeepsInv(s, steps[0]);
      LeadsKeepsInv(After(s, steps[0]), steps[1..], t);
    }
  }

  lemma ReachableInv(ioLoops: nat, steps: seq<Step>, s: Sys)
    requires Leads(Init(ioLoops), steps, s)
    ensures Inv(s)
  {
    InitInv(ioLoops);
    LeadsKeepsInv(Init(ioLoops), steps, s);
  }

  /** No assert of the accept and teardown code ever fails: whatever step comes next in whatever
      reachable state, its asserts hold. That covers the state asserts of connectEstablished,
      handelClose and the destructor, the poller's and the channel's asserts, and the thread checks. */
  lemma NoAssertFails(ioLoops: nat, steps: seq<Step>, s: Sys, next: Step)
    requires Leads(Init(ioLoops), steps, s) && Enabled(s, next)
    ensures AssertsHold(s, next)
  {
    ReachableInv(ioLoops, steps, s);
    ReactorSteps.StepKeepsInv(s, next);
  }

  /** Life cycle: up once and first, down once, connectDestroyed once and directly after it, all
      messages in between, and the connection's state tells how far it is. */
  lemma LifeCycle(ioLoops: nat, steps: seq<Step>, s: Sys, c: Id)
    requires Leads(Init(ioLoops), steps, s) && c in s.conns
    ensures var conn := s.conns[c]; var h := conn.hist;
            && Shape(h)
            && (conn.state.Connecting? <==> h == [])
            && (conn.Open() <==> h != [] && Down !in h)
            && (conn.state.Disconnected? <==> Down in h)
            && (Gone in h <==> Down in h && conn.chan.index.KNew?)
            && (!conn.alive ==> Gone in h)
  {
    ReachableInv(ioLoops, steps, s);
    assert Local(s, c);
    LocalTells(s, c);
  }

  lemma LocalTells(s: Sys, c: Id)
    requires c in s.conns && LocalAs(s, c, true)
    ensures var conn := s.conns[c]; var h := conn.hist;
            && (conn.state.Connecting? <==> h == [])
            && (conn.Open() <==> h != [] && Down !in h)
            && (conn.state.Disconnected? <==> Down in h)
            && (Gone in h <==> Down in h && conn.chan.index.KNew?)
            && (!conn.alive ==> Gone in h)
  {
    var h := s.conns[c].hist;
    if h != [] {
      assert h[|h|-1] in h;
      assert Gone in h ==> h[|h|-1].Gone?;
      assert h[|h|-1].Gone? ==> h[|h|-2] in h;
    }
  }

  /** In a history of the allowed shape only message events repeat, and the others keep their order. */
  lemma ShapeMeansOnce(h: seq<Event>, i: nat, j: nat)
    requires Shape(h) && i < j < |h|
    ensures h[i] == h[j] ==> h[i].Message?
    ensures !h[j].Up? && !h[i].Gone? && (h[i].Down? ==> h[j].Gone?) && (h[j].Message? ==> h[i].Up? || h[i].Message?)
  {}

  /** A connection's history was only extended, its state moved along the protocol's order, and a
      connection that became disconnected ran its down callback. */
  predicate Forward(x: Conn, y: Conn) {
    && x.hist <= y.hist && (y.state.Disconnected? && !x.state.Disconnected? ==> y.hist == x.hist + [Down])
    && (y.state == x.state || (x.state.Connecting? && y.state.Connected?)
        || (x.state.Connected? && y.state.Disconnecting?) || (x.Open() && y.state.Disconnected?))
  }

  /** States only move forward, one stage of the protocol at a time. */
  lemma OnlyForward(ioLoops: nat, steps: seq<Step>, s: Sys, next: Step, c: Id)
    requires Leads(Init(ioLoops), steps, s) && Enabled(s, next) && AssertsHold(s, next) && c in s.conns
    ensures c in After(s, next).conns && Forward(s.conns[c], After(s, next).conns[c])
  {
    ReachableInv(ioLoops, steps, s);
    FreshIdUnused(s);
    StepForward(s, next, c);
  }

  lemma FreshIdUnused(s: Sys)
    requires Ids(s)
    ensures s.nextId !in s.conns
  {}

  lemma StepForward(s: Sys, next: Step, c: Id)
    requires Enabled(s, next) && AssertsHold(s, next) && c in s.conns && s.nextId !in s.conns
    ensures c in After(s, next).conns && Forward(s.conns[c], After(s, next).conns[c])
  {
    match next
    case Act(l) =>
      var r := s.loops[l].phase.active[0];
      ActingForward(ActPopped(s, l), r.id, r.todo[0], c);
    case RunFunctor(l) => PerformingForward(Popped(s, l), s.loops[l].batch[0], c);
    case _ =>
  }

  lemma ActingForward(s: Sys, me: Id, a: Action, c: Id)
    requires me in s.conns && s.conns[me].loop < |s.loops| && c in s.conns && (Closes(a) ==> s.conns[me].Open())
    ensures c in Acting(s, me, a).conns && Forward(s.conns[c], Acting(s, me, a).conns[c])
  {}

  lemma PerformingForward(s: Sys, f: Functor<Id>, c: Id)
    requires f.conn in s.conns && s.conns[f.conn].loop < |s.loops| && c in s.conns
    requires f.Establish? ==> s.conns[f.conn].state.Connecting?
    ensures c in Performing(s, f).conns && Forward(s.conns[c], Performing(s, f).conns[c])
  {}

  /** Lifetime: while a channel is in a poller's map, the server map or a functor that has still to
      run holds its connection. */
  lemma RegisteredIsHeld(ioLoops: nat, steps: seq<Step>, s: Sys, c: Id)
    requires Leads(Init(ioLoops), steps, s) && c in s.conns && !s.conns[c].chan.index.KNew?
    ensures s.conns[c].alive
    ensures c in s.server || exists l | 0 <= l < |s.loops| ::
      Destroy(c) in s.loops[l].batch || Destroy(c) in s.loops[l].pending
  {
    ReachableInv(ioLoops, steps, s);
    assert Local(s, c) && Counts(s, c, StageOf(s, c));
    var l := s.conns[c].loop;
    assert CountsOn(s.loops[l], l, c, l, StageOf(s, c));
    if c !in s.server { assert Count(s.loops[l], Destroy(c)) == 1; }
  }

  /** An fd that no living connection owns, so that accept may return it again, is in no poller's map
      and in no kernel set of the connections. */
  lemma FreeFdUnregistered(ioLoops: nat, steps: seq<Step>, s: Sys, fd: int, l: nat)
    requires Leads(Init(ioLoops), steps, s) && !FdOpen(s, fd) && l < |s.loops|
    ensures fd !in s.loops[l].poll.channels && fd !in s.loops[l].poll.kernel
  {
    ReachableInv(ioLoops, steps, s);
    assert Consistent(WorldOf(s, l)) && FdAgrees(WorldOf(s, l), fd);
    if fd in s.loops[l].poll.channels { RegisteredAlive(s, l, fd); }
  }

  /** While a loop hands out events, no step of any loop or thread removes or destroys one of its
      registered channels; so the list that epoll_wait filled never dangles. */
  lemma DispatchKeepsChannels(ioLoops: nat, steps: seq<Step>, s: Sys, next: Step, c: Id)
    requires Leads(Init(ioLoops), steps, s) && Enabled(s, next) && AssertsHold(s, next)
    requires c in s.conns && !s.conns[c].chan.index.KNew?
    requires s.conns[c].loop < |s.loops| && s.loops[s.conns[c].loop].phase.Dispatching?
    ensures var t := After(s, next); c in t.conns && t.conns[c].alive && !t.conns[c].chan.index.KNew?
  {
    ReachableInv(ioLoops, steps, s);
    assert Local(s, c);
    FreshIdUnused(s);
    if next.Reclaim? && next.c == c { ReclaimStep(s, c); }
    if next.RunFunctor? { HeadTells(s, next.l); }
    RegisteredKept(s, next, c);
  }

  lemma RegisteredKept(s: Sys, next: Step, c: Id)
    requires Enabled(s, next) && AssertsHold(s, next) && s.nextId !in s.conns
    requires c in s.conns && !s.conns[c].chan.index.KNew? && s.conns[c].alive
    requires !(next.Reclaim? && next.c == c)
    requires next.RunFunctor? && s.loops[next.l].batch[0] == Destroy(c) ==> s.conns[c].loop == next.l
    requires s.conns[c].loop < |s.loops| && s.loops[s.conns[c].loop].phase.Dispatching?
    ensures var t := After(s, next); c in t.conns && t.conns[c].alive && !t.conns[c].chan.index.KNew?
  {}

  // ---------------------------------------------------------------------------------------
  // Round robin
  // ---------------------------------------------------------------------------------------

  function Load(placed: seq<nat>, loop: nat): nat {
    if placed == [] then 0 else Load(placed[..|placed|-1], loop) + Unit(placed[|placed|-1] == loop)
  }

  /** The i-th accept goes to IO loop i mod k, so loop j+1 has received floor((n + k - 1 - j) / k). */
  lemma {:induction false} SlotLoad(placed: seq<nat>, k: nat, j: nat)
    requires 0 < k && j < k && forall i | 0 <= i < |placed| :: placed[i] == 1 + i % k
    ensures Load(placed, 1 + j) == (|placed| + k - 1 - j) / k
  {
    var n := |placed|;
    if n == 0 {
      DivUnique(k - 1 - j, k, 0, k - 1 - j);
    } else {
      SlotLoad(placed[..n-1], k, j);
      NextShare(n - 1, k, j);
    }
  }

  lemma NextShare(n: nat, k: nat, j: nat)
    requires 0 < k && j < k
    ensures (n + 1 + k - 1 - j) / k == (n + k - 1 - j) / k + Unit(n % k == j)
  {
    var q, r := n / k, n % k;
    assert n == q * k + r;
    if r < j {
      DivUnique(n + k - 1 - j, k, q, r + k - 1 - j);
      DivUnique(n + k - j, k, q, r + k - j);
    } else if r == j {
      DivUnique(n + k - 1 - j, k, q, k - 1);
      assert n + k - j == (q + 1) * k + 0;
      DivUnique(n + k - j, k, q + 1, 0);
    } else {
      assert n + k - 1 - j == (q + 1) * k + (r - 1 - j);
      DivUnique(n + k - 1 - j, k, q + 1, r - 1 - j);
      assert n + k - j == (q + 1) * k + (r - j);
      DivUnique(n + k - j, k, q + 1, r - j);
    }
  }

  lemma DivUnique(n: nat, k: nat, q: nat, r: nat)
    requires k > 0 && r < k && n == q * k + r
    ensures n / k == q
  {
    ModUnique(n, k, q, r);
    assert n == (n / k) * k + n % k;
    MulAway(n / k - q, k);
  }

  /** After any run the accepted connections are spread evenly over the IO loops, and every
      connection got an id of its own. */
  lemma RoundRobinFair(ioLoops: nat, steps: seq<Step>, s: Sys, j: nat)
    requires Leads(Init(ioLoops), steps, s) && j < ioLoops
    ensures Load(s.placed, 1 + j) == (|s.placed| + ioLoops - 1 - j) / ioLoops
    ensures s.nextId == 1 + |s.placed| && forall c :: c in s.conns <==> 1 <= c < s.nextId
  {
    ReachableInv(ioLoops, steps, s);
    InitInv(ioLoops);
    LoopCount(Init(ioLoops), steps, s);
    SlotLoad(s.placed, ioLoops, j);
  }

  lemma {:induction false} LoopCount(s: Sys, steps: seq<Step>, t: Sys)
    requires Leads(s, steps, t)
    ensures |t.loops| == |s.loops|
    decreases |steps|
  {
    if steps == [] {
    } else {
      OneStepLoopCount(s, steps[0]);
      LoopCount(After(s, steps[0]), steps[1..], t);
    }
  }

  lemma OneStepLoopCount(s: Sys, step: Step)
    requires Enabled(s, step) && AssertsHold(s, step)
    ensures |After(s, step).loops| == |s.loops|
  {}
}
