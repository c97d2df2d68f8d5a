/** Exactly when forceClose and send do no harm: both ignore the connection's state, and whether the
    protocol survives a call shows only in what the loops do later. */
module ReactorGuards {
  import opened PollerModel
  import opened ConnModel
  import opened Reactor
  import opened ReactorInv
  import opened ReactorSteps
  import opened ReactorTheorems
  import opened ReactorProgress

  /** Whatever happens from here on, no assert fails and every connection's callbacks keep their order. */
  ghost predicate Harmless(s: Sys) {
    forall steps, t | Leads(s, steps, t) :: InOrder(t)
  }

  /** Every history has the allowed shape, and whatever step comes next meets its asserts. */
  ghost predicate InOrder(s: Sys) {
    (forall c <- s.conns :: Shape(s.conns[c].hist)) && (forall next | Enabled(s, next) :: AssertsHold(s, next))
  }

  lemma InvHarmless(s: Sys)
    requires Inv(s)
    ensures Harmless(s)
  {
    forall steps, t | Leads(s, steps, t) ensures InOrder(t) {
      LeadsKeepsInv(s, steps, t);
      forall c | c in t.conns ensures Shape(t.conns[c].hist) { assert Local(t, c); }
      forall next | Enabled(t, next) ensures AssertsHold(t, next) { ReactorSteps.StepKeepsInv(t, next); }
    }
  }

  lemma AssertHarms(s: Sys, steps: seq<Step>, t: Sys, next: Step)
    requires Leads(s, steps, t) && Enabled(t, next) && !AssertsHold(t, next)
    ensures !Harmless(s)
  {}

  lemma ShapeHarms(s: Sys, steps: seq<Step>, t: Sys, c: Id)
    requires Leads(s, steps, t) && c in t.conns && !Shape(t.conns[c].hist)
    ensures !Harmless(s)
  {}

  lemma StuckHarms(s: Sys, steps: seq<Step>, t: Sys, l: nat)
    requires Leads(s, steps, t) && Stuck(t, l)
    ensures !Harmless(s)
  {
    AssertHarms(s, steps, t, Next(t, l));
  }

  // ---------------------------------------------------------------------------------------
  // forceClose
  // ---------------------------------------------------------------------------------------

  lemma TwoDowns(h: seq<Event>, more: seq<Event>)
    requires Down in h && Down in more
    ensures !Shape(h + more)
  {
    var i :| 0 <= i < |h| && h[i] == Down;
    var j :| 0 <= j < |more| && more[j] == Down;
    if j == 0 && i == |h| - 1 {
      assert (h + more)[i] == Down && (h + more)[i+1] == Down;
    } else {
      assert (h + more)[i] == Down && (h + more)[|h| + j] == Down;
    }
  }

  /** A connection that was closed before is closed once more by an unguarded forceClose, when its functor
      gets its turn. */
  lemma ForcedTooLate(s: Sys, l: nat, c: Id)
    requires AtHead(s, l, CloseForced(c)) && AssertsHold(s, RunFunctor(l))
    requires c in s.conns && s.conns[c].state.Disconnecting? && Down in s.conns[c].hist
    ensures c in After(s, RunFunctor(l)).conns && !Shape(After(s, RunFunctor(l)).conns[c].hist)
  {
    assert After(s, RunFunctor(l)).conns[c].hist == s.conns[c].hist + [Down];
    TwoDowns(s.conns[c].hist, [Down]);
  }

  /** Before the connection is established, it makes the queued connectEstablished fail its assert. */
  lemma ForcedTooEarly(s: Sys, l: nat, c: Id)
    requires AtHead(s, l, Establish(c)) && c in s.conns && Order(s.conns[c].state) >= Order(Disconnecting)
    ensures Enabled(s, RunFunctor(l)) && !AssertsHold(s, RunFunctor(l))
  {}

  /** forceClose on a living connection of a reachable state does no harm exactly when the connection
      is open: the guard a caller has to check first. */
  lemma ForceCloseGuardIff(ioLoops: nat, run: seq<Step>, s: Sys, c: Id)
    requires Leads(Init(ioLoops), run, s) && LiveId(s, c)
    ensures s.conns[c].loop < |s.loops|
    ensures Harmless(ForceClosing(s, c)) <==> s.conns[c].Open()
  {
    ReachableInv(ioLoops, run, s);
    assert Local(s, c);
    if s.conns[c].Open() {
      ForceCloseStep(s, c);
      InvHarmless(ForceClosing(s, c));
    } else if s.conns[c].state.Connecting? {
      EarlyHarms(s, c);
    } else {
      LateHarms(s, c);
    }
  }

  lemma ForcedSteady(s: Sys, c: Id)
    requires Inv(s) && LiveId(s, c) && s.conns[c].loop < |s.loops|
    ensures Steady(ForceClosing(s, c), s.conns[c].loop)
    ensures Queued(ForceClosing(s, c), s.conns[c].loop, CloseForced(c))
  {
    InvSteady(s, s.conns[c].loop);
  }

  lemma EarlyHarms(s: Sys, c: Id)
    requires Inv(s) && LiveId(s, c) && s.conns[c].loop < |s.loops| && s.conns[c].state.Connecting?
    ensures !Harmless(ForceClosing(s, c))
  {
    var f, l := ForceClosing(s, c), s.conns[c].loop;
    ForcedSteady(s, c);
    EstablishQueued(s, c);
    assert Queued(f, l, Establish(c));
    var steps, t := Driven(f, l, Establish(c));
    assert Later(f.conns[c], t.conns[c]);
    if Stuck(t, l) {
      StuckHarms(f, steps, t, l);
    } else {
      ForcedTooEarly(t, l, c);
      AssertHarms(f, steps, t, RunFunctor(l));
    }
  }

  lemma EstablishQueued(s: Sys, c: Id)
    requires Inv(s) && c in s.conns && s.conns[c].state.Connecting?
    ensures Queued(s, s.conns[c].loop, Establish(c))
  {
    assert Local(s, c) && Counts(s, c, StageOf(s, c));
    var l := s.conns[c].loop;
    assert CountsOn(s.loops[l], l, c, l, StageOf(s, c));
    assert Count(s.loops[l], Establish(c)) == 1;
  }

  lemma LateHarms(s: Sys, c: Id)
    requires Inv(s) && LiveId(s, c) && s.conns[c].loop < |s.loops| && s.conns[c].state.Disconnected?
    ensures !Harmless(ForceClosing(s, c))
  {
    var f, l := ForceClosing(s, c), s.conns[c].loop;
    ForcedSteady(s, c);
    ClosedHasDown(s, c);
    var steps, t := Driven(f, l, CloseForced(c));
    assert Later(f.conns[c], t.conns[c]);
    if Stuck(t, l) {
      StuckHarms(f, steps, t, l);
    } else if t.conns[c].state.Disconnected? {
      TwoDowns(s.conns[c].hist, t.conns[c].hist[|s.conns[c].hist|..]);
      ShapeHarms(f, steps, t, c);
    } else {
      HeadHarms(f, steps, t, l, c, s.conns[c].hist);
    }
  }

  lemma ClosedHasDown(s: Sys, c: Id)
    requires Inv(s) && c in s.conns && s.conns[c].state.Disconnected?
    ensures Down in s.conns[c].hist
  {
    assert Local(s, c);
    LocalTells(s, c);
  }

  lemma HeadHarms(f: Sys, steps: seq<Step>, t: Sys, l: nat, c: Id, h: seq<Event>)
    requires Leads(f, steps, t) && AtHead(t, l, CloseForced(c)) && c in t.conns
    requires t.conns[c].state.Disconnecting? && Down in h && h <= t.conns[c].hist
    ensures !Harmless(f)
  {
    if AssertsHold(t, RunFunctor(l)) {
      assert Down in t.conns[c].hist by { var i :| 0 <= i < |h| && h[i] == Down; assert t.conns[c].hist[i] == Down; }
      ForcedTooLate(t, l, c);
      var u := After(t, RunFunctor(l));
      assert Leads(u, [], u);
      LeadsCons(t, RunFunctor(l), [], u);
      LeadsAppend(f, steps, t, [RunFunctor(l)] + [], u);
      ShapeHarms(f, steps + ([RunFunctor(l)] + []), u, c);
    } else {
      AssertHarms(f, steps, t, RunFunctor(l));
    }
  }

  // ---------------------------------------------------------------------------------------
  // send
  // ---------------------------------------------------------------------------------------

  predicate Registers(p: Poll<Id>, fd: int, c: Id) { fd in p.kernel && p.kernel[fd].chan == c }

  /** The connection waits in the loop's dispatch list behind the channel being handled. */
  predicate Lists(lp: Loop, c: Id) {
    lp.phase.Dispatching? && exists i | 0 < i < |lp.phase.active| ::
      lp.phase.active[i].ConnReady? && lp.phase.active[i].id == c
  }

  /** The channel of a connection that is not open is in the kernel set of loop l, which has nothing in
      hand that would put it in order. */
  ghost predicate Stray(s: Sys, l: nat, c: Id) {
    && Steady(s, l) && c in s.conns && s.conns[c].loop == l && !s.conns[c].Open()
    && Registers(s.loops[l].poll, s.conns[c].chan.fd, c)
    && !InHand(s.loops[l], c) && !Lists(s.loops[l], c)
    && forall d | d in s.conns && s.conns[d].alive && d != c :: s.conns[d].chan.fd != s.conns[c].chan.fd
  }

  lemma OpKeepsEntry(op: Op, p: Poll<Id>, d: Id, ch: Chan, fd: int, c: Id)
    requires Registers(p, fd, c) && ch.fd != fd
    ensures Registers(OpPoll(op, p, d, ch), fd, c)
  {}

  lemma DestroyKeepsEntry(p: Poll<Id>, d: Id, conn: Conn, fd: int, c: Id)
    requires Registers(p, fd, c) && conn.chan.fd != fd
    ensures Registers(DestroyedPoll(p, d, conn), fd, c)
  {
    OpKeepsEntry(DisableAll, p, d, conn.chan, fd, c);
    OpKeepsEntry(Remove, SeveredPoll(p, d, conn), d, Severed(conn).chan, fd, c);
  }

  /** A callback of another connection, or a harmless one of c itself. */
  lemma ActingStray(s: Sys, d: Id, a: Action, l: nat, c: Id)
    requires d in s.conns && s.conns[d].loop == l < |s.loops| && c in s.conns && s.conns[c].loop == l
    requires Registers(s.loops[l].poll, s.conns[c].chan.fd, c) && !s.conns[c].Open()
    requires if d == c then !Closes(a) && a != WriteAct(true) else s.conns[d].chan.fd != s.conns[c].chan.fd
    ensures var t := Acting(s, d, a);
            && c in t.conns && !t.conns[c].Open() && |t.loops| == |s.loops|
            && Registers(t.loops[l].poll, s.conns[c].chan.fd, c)
            && t.loops[l].phase == s.loops[l].phase && t.loops[l].batch == s.loops[l].batch
            && (forall f | f in t.loops[l].pending && f.conn == c :: f in s.loops[l].pending)
  {
    var fd := s.conns[c].chan.fd;
    if d != c {
      OpKeepsEntry(DisableAll, s.loops[l].poll, d, s.conns[d].chan, fd, c);
      OpKeepsEntry(DisableWriting, s.loops[l].poll, d, s.conns[d].chan, fd, c);
    }
  }

  /** A functor that neither establishes nor destroys c. */
  lemma PerformingStray(s: Sys, f: Functor<Id>, l: nat, c: Id)
    requires f.conn in s.conns && s.conns[f.conn].loop < |s.loops| && l < |s.loops|
    requires c in s.conns && s.conns[c].loop == l
    requires Registers(s.loops[l].poll, s.conns[c].chan.fd, c) && !s.conns[c].Open()
    requires f != Establish(c) && f != Destroy(c) && (f.conn != c ==> s.conns[f.conn].chan.fd != s.conns[c].chan.fd)
    ensures var t := Performing(s, f);
            && c in t.conns && !t.conns[c].Open() && |t.loops| == |s.loops|
            && Registers(t.loops[l].poll, s.conns[c].chan.fd, c)
            && t.loops[l].phase == s.loops[l].phase && t.loops[l].batch == s.loops[l].batch
  {
    var fd, d := s.conns[c].chan.fd, f.conn;
    var k := s.conns[d].loop;
    if d != c && k == l {
      OpKeepsEntry(EnableReading, s.loops[l].poll, d, s.conns[d].chan, fd, c);
      OpKeepsEntry(DisableAll, s.loops[l].poll, d, s.conns[d].chan, fd, c);
      DestroyKeepsEntry(s.loops[l].poll, d, s.conns[d], fd, c);
    }
  }

  lemma ActStray(s: Sys, l: nat, c: Id)
    requires Stray(s, l, c) && Enabled(s, Act(l)) && AssertsHold(s, Act(l))
    ensures var t := After(s, Act(l));
            && c in t.conns && !t.conns[c].Open() && |t.loops| == |s.loops|
            && Registers(t.loops[l].poll, s.conns[c].chan.fd, c)
            && !InHand(t.loops[l], c) && !Lists(t.loops[l], c)
  {
    var r := s.loops[l].phase.active[0];
    assert r.todo[0] in r.todo;
    TailKept(s, l, c);
    ActingStray(ActPopped(s, l), r.id, r.todo[0], l, c);
  }

  lemma TailKept(s: Sys, l: nat, c: Id)
    requires HeadConn(s, l) && s.loops[l].phase.active[0].todo != []
    ensures var lp' := ActPopped(s, l).loops[l];
            (Lists(lp', c) ==> Lists(s.loops[l], c)) && (WillDrain(lp', c) ==> WillDrain(s.loops[l], c))
  {
    var active, active' := s.loops[l].phase.active, ActPopped(s, l).loops[l].phase.active;
    assert forall i | 0 < i < |active'| :: active'[i] == active[i];
  }

  lemma RunStray(s: Sys, l: nat, c: Id)
    requires Stray(s, l, c) && Enabled(s, RunFunctor(l)) && AssertsHold(s, RunFunctor(l))
    ensures var t := After(s, RunFunctor(l));
            && c in t.conns && !t.conns[c].Open() && |t.loops| == |s.loops|
            && Registers(t.loops[l].poll, s.conns[c].chan.fd, c)
            && !InHand(t.loops[l], c) && !Lists(t.loops[l], c)
  {
    assert s.loops[l].batch[0] in s.loops[l].batch;
    PerformingStray(Popped(s, l), s.loops[l].batch[0], l, c);
  }

  lemma PhaseStray(s: Sys, l: nat, c: Id)
    requires Stray(s, l, c) && !s.loops[l].phase.Polling? && !Next(s, l).Act? && !Next(s, l).RunFunctor?
    requires Enabled(s, Next(s, l)) && AssertsHold(s, Next(s, l))
    ensures var t := After(s, Next(s, l));
            && t.conns == s.conns && |t.loops| == |s.loops| && t.loops[l].poll == s.loops[l].poll
            && !InHand(t.loops[l], c) && !Lists(t.loops[l], c)
  {
    if Next(s, l).Handled? {
      var active := s.loops[l].phase.active;
      forall i | 0 < i < |active[1..]| && active[1..][i].ConnReady? ensures active[1..][i].id != c {
        assert active[1..][i] == active[i+1];
      }
      assert active[1..] != [] ==> active[1..][0] == active[1];
    }
  }

  /** The loop's own steps up to its next poll change nothing about it. */
  lemma StrayNext(s: Sys, l: nat, c: Id)
    requires Stray(s, l, c) && !s.loops[l].phase.Polling? && AssertsHold(s, Next(s, l))
    ensures Enabled(s, Next(s, l)) && Stray(After(s, Next(s, l)), l, c)
    ensures Turned(s.loops[l], After(s, Next(s, l)).loops[l]) && Grown(s, After(s, Next(s, l)))
  {
    NextSteady(s, l);
    if Next(s, l).Act? {
      ActStray(s, l, c);
    } else if Next(s, l).RunFunctor? {
      RunStray(s, l, c);
    } else {
      PhaseStray(s, l, c);
    }
    var t := After(s, Next(s, l));
    forall d | d in s.conns ensures d in t.conns && t.conns[d].loop == s.conns[d].loop
          && t.conns[d].alive == s.conns[d].alive && t.conns[d].chan.fd == s.conns[d].chan.fd {
      NextHome(s, l, d);
    }
  }

  function PhasesLeft(lp: Loop): nat {
    match lp.phase case Dispatching(_) => 2 case Running => 1 case Polling => 0
  }

  lemma {:induction false} StrayPolls(s: Sys, l: nat, c: Id) returns (steps: seq<Step>, t: Sys)
    requires Stray(s, l, c)
    ensures Leads(s, steps, t) && AllOwn(steps) && Grown(s, t)
    ensures Stuck(t, l) || (Stray(t, l, c) && t.loops[l].phase.Polling?)
    decreases PhasesLeft(s.loops[l]), Left(s.loops[l])
  {
    if s.loops[l].phase.Polling? || !AssertsHold(s, Next(s, l)) {
      NextEnabled(s, l);
      GrownSelf(s);
      steps, t := [], s;
    } else {
      StrayNext(s, l, c);
      var more;
      more, t := StrayPolls(After(s, Next(s, l)), l, c);
      steps := OwnCons(s, l, more, t);
    }
  }

  /** A hang-up is reported for a channel in the kernel set, and handelClose fails its assert. */
  lemma StrayFails(s: Sys, l: nat, c: Id)
    requires Stray(s, l, c) && s.loops[l].phase.Polling?
    ensures var poll := PollReturn(l, [ConnReport(c, EPOLLHUP, -1, false)]);
            && Enabled(s, poll) && AssertsHold(s, poll)
            && Enabled(After(s, poll), Act(l)) && !AssertsHold(After(s, poll), Act(l))
  {
    HangUpActions();
    var poll := PollReturn(l, [ConnReport(c, EPOLLHUP, -1, false)]);
    assert s.conns[c].chan.fd in s.loops[l].poll.kernel;
    assert After(s, poll).loops[l].phase.active[0] == ConnReady(c, [CloseAct]);
  }

  lemma HangUpActions()
    ensures Actions(EPOLLHUP, -1, false) == [CloseAct] && !DoubleClose(EPOLLHUP, -1)
  {
    assert HangsUp(EPOLLHUP) && !Reads(EPOLLHUP) && !Has(EPOLLHUP, EPOLLOUT) && !Has(EPOLLHUP, EPOLLERR);
  }

  lemma StrayHarms(s: Sys, l: nat, c: Id)
    requires Stray(s, l, c)
    ensures !Harmless(s)
  {
    var steps, t := StrayPolls(s, l, c);
    if Stuck(t, l) {
      StuckHarms(s, steps, t, l);
    } else {
      StrayFails(t, l, c);
      var poll := PollReturn(l, [ConnReport(c, EPOLLHUP, -1, false)]);
      var u := After(t, poll);
      assert Leads(u, [], u);
      LeadsCons(t, poll, [], u);
      LeadsAppend(s, steps, t, [poll] + [], u);
      AssertHarms(s, steps + ([poll] + []), u, Act(l));
    }
  }

  /** After a send with bytes left over on a connection that its loop has nothing in hand for. */
  lemma SentStray(s: Sys, c: Id)
    requires Inv(s) && LiveId(s, c) && s.conns[c].loop < |s.loops| && !MaySend(s, c)
    ensures Stray(Sending(s, c), s.conns[c].loop, c)
  {
    var t, l := Sending(s, c), s.conns[c].loop;
    InvSteady(s, l);
    SendPasses(s, c);
    SentRegistered(s, c);
    NotListed(s, c);
  }

  lemma NotListed(s: Sys, c: Id)
    requires Inv(s) && c in s.conns && s.conns[c].loop < |s.loops| && !s.conns[c].Open()
    ensures !Lists(s.loops[s.conns[c].loop], c)
  {
    var l := s.conns[c].loop;
    assert Local(s, c);
    if s.loops[l].phase.Dispatching? {
      var active := s.loops[l].phase.active;
      assert DispatchOk(s, l, active);
      forall i | 0 < i < |active| && active[i].ConnReady? ensures active[i].id != c {
        assert ActiveOk(s, l, active[i], false);
      }
    }
  }

  lemma SentRegistered(s: Sys, c: Id)
    requires Worlds(s) && LiveId(s, c) && s.conns[c].loop < |s.loops|
    requires Allowed(EnableWriting, s.loops[s.conns[c].loop].poll, s.conns[c].chan)
    ensures var t := Sending(s, c); Registers(t.loops[s.conns[c].loop].poll, s.conns[c].chan.fd, c)
  {
    var t, l := Sending(s, c), s.conns[c].loop;
    PutWorlds(s, c, EnableWriting, Enabling(SideOf(s, c), c).conn);
    assert Consistent(WorldOf(t, l)) && ChanAgrees(t.loops[l].poll, c, WorldOf(t, l).chans[c]);
    WriteBitsOn(s.conns[c].chan.events);
  }

  lemma WriteBitsOn(events: bv32)
    ensures events | WRITE_EVENT != NON_EVENT
  {}

  /** A send with bytes left over, on a living connection of a reachable state, does no harm exactly when
      the connection is open or its loop, before it polls again, puts the channel in order anyway: by
      connectEstablished, by connectDestroyed, or by a write callback that drains the output. */
  lemma SendGuardIff(ioLoops: nat, run: seq<Step>, s: Sys, c: Id)
    requires Leads(Init(ioLoops), run, s) && LiveId(s, c)
    ensures s.conns[c].loop < |s.loops|
    ensures Harmless(Sending(s, c)) <==> s.conns[c].Open() || InHand(s.loops[s.conns[c].loop], c)
  {
    ReachableInv(ioLoops, run, s);
    assert Local(s, c);
    if MaySend(s, c) {
      SendStep(s, c);
      InvHarmless(Sending(s, c));
    } else {
      SentStray(s, c);
      StrayHarms(Sending(s, c), s.conns[c].loop, c);
    }
  }
}
