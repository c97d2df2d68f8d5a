/** Every step of the multi-loop server keeps the invariant, and its asserts hold. */
module ReactorSteps {
  import opened PollerModel
  import opened ConnModel
  import opened Reactor
  import opened ReactorInv

  lemma WholeIsCore(s: Sys, c: Id)
    requires c in s.conns
    ensures Whole(s) <==> Core(s, c, StageOf(s, c)) && Local(s, c)
  {
    assert Local(s, c) ==> LocalAs(s, c, true);
  }

  /** No connection of t lost its place in a dispatch list of s. */
  ghost predicate Undisturbed(s: Sys, t: Sys, c: Id) {
    LiveId(s, c) ==>
      && LiveId(t, c) && t.conns[c].loop == s.conns[c].loop < |s.loops|
      && (StageOf(s, c) == StageOf(t, c) || (StageOf(s, c).Shut? && StageOf(t, c).Removed?)
          || !s.loops[s.conns[c].loop].phase.Dispatching?)
  }

  lemma DispatchFrame(s: Sys, t: Sys)
    requires Dispatch(s) && |t.loops| == |s.loops|
    requires forall l | 0 <= l < |s.loops| :: t.loops[l].phase == s.loops[l].phase || !t.loops[l].phase.Dispatching?
    requires forall c :: Undisturbed(s, t, c)
    ensures Dispatch(t)
  {
    forall l: nat | l < |t.loops| && t.loops[l].phase.Dispatching? ensures DispatchOk(t, l, t.loops[l].phase.active) {
      var active := s.loops[l].phase.active;
      assert DispatchOk(s, l, active);
      forall i | 0 <= i < |active| ensures ActiveOk(t, l, active[i], i == 0) {
        assert ActiveOk(s, l, active[i], i == 0);
        assert active[i].ConnReady? ==> Undisturbed(s, t, active[i].id);
      }
    }
  }

  lemma PhaseStatic(s: Sys, l: nat, p: Phase)
    requires Whole(s) && l < |s.loops| && (p.Running? || (s.loops[l].batch == [] && s.loops[l].held == {}))
    ensures var t := SetPhase(s, l, p); Loops(t) && Fds(t) && Ids(t) && Worlds(t)
  {
    var t := SetPhase(s, l, p);
    forall k | 0 <= k < |t.loops| ensures LoopShape(t.loops[k]) && LoopLive(t, t.loops[k]) {
      assert LoopShape(s.loops[k]) && LoopLive(s, s.loops[k]);
    }
    StaticFrame(s, t);
    SameWorlds(s, t);
  }

  /** A change of one loop's phase, in which its head c may lose what the loop had in hand for it. */
  lemma PhaseCore(s: Sys, l: nat, p: Phase, c: Id)
    requires Whole(s) && l < |s.loops| && (p.Running? || (s.loops[l].batch == [] && s.loops[l].held == {}))
    requires c in s.conns && forall d <- s.conns | d != c :: HandKept(s, SetPhase(s, l, p), d)
    ensures Core(SetPhase(s, l, p), c, StageOf(s, c)) && StageOf(SetPhase(s, l, p), c) == StageOf(s, c)
  {
    var t := SetPhase(s, l, p);
    PhaseStatic(s, l, p);
    forall d | d in t.conns
          ensures if d == c then LocalAs(t, d, true) else Local(t, d)
          ensures Counts(t, d, StageOf(t, d)) && StageOf(t, d) == StageOf(s, d) {
      assert Local(s, d);
      LateFrame(s, t, d);
      if d != c { LocalFrame(s, t, d); }
      SameCounts(s, t, d, StageOf(s, d));
    }
  }

  lemma PhaseWhole(s: Sys, l: nat, p: Phase)
    requires Whole(s) && l < |s.loops| && (p.Running? || (s.loops[l].batch == [] && s.loops[l].held == {}))
    requires forall d <- s.conns :: HandKept(s, SetPhase(s, l, p), d)
    ensures Whole(SetPhase(s, l, p))
  {
    var t := SetPhase(s, l, p);
    PhaseStatic(s, l, p);
    forall d | d in t.conns ensures Local(t, d) && Counts(t, d, StageOf(t, d)) {
      LocalFrame(s, t, d);
      SameCounts(s, t, d, StageOf(s, d));
    }
  }

  /** A loop in epoll_wait has nothing in hand. */
  lemma PollingIdle(lp: Loop, d: Id)
    requires LoopShape(lp) && lp.phase.Polling?
    ensures !InHand(lp, d)
  {}

  lemma PollReturnStep(s: Sys, l: nat, reports: seq<Report>)
    requires Inv(s) && Enabled(s, PollReturn(l, reports))
    ensures Inv(After(s, PollReturn(l, reports)))
  {
    var t := After(s, PollReturn(l, reports));
    assert LoopShape(s.loops[l]);
    forall d | d in s.conns ensures HandKept(s, t, d) { PollingIdle(s.loops[l], d); }
    PhaseWhole(s, l, t.loops[l].phase);
    var active := t.loops[l].phase.active;
    forall i | 0 <= i < |active| ensures ActiveOk(t, l, active[i], i == 0) {
      ReportedOk(s, l, reports, i);
    }
    PollReturnDispatch(s, l, reports);
  }

  lemma ReportedOk(s: Sys, l: nat, reports: seq<Report>, i: nat)
    requires Whole(s) && Enabled(s, PollReturn(l, reports)) && i < |reports|
    ensures var t := After(s, PollReturn(l, reports)); ActiveOk(t, l, t.loops[l].phase.active[i], i == 0)
  {
    assert LoopShape(s.loops[l]);
    ReportedOpen(s, l, reports, i);
    ExpandedOk(s, After(s, PollReturn(l, reports)), l, reports[i], i == 0);
  }

  lemma ExpandedOk(s: Sys, t: Sys, l: nat, r: Report, head: bool)
    requires t.conns == s.conns && t.server == s.server
    requires match r
      case AcceptReport => l == 0
      case ConnReport(c, revents, n, _) =>
        !DoubleClose(revents, n) && LiveId(s, c) && s.conns[c].loop == l && StageOf(s, c).Opened?
    ensures ActiveOk(t, l, Expand(r), head)
  {
    if r.ConnReport? { DispatchSafeIff(r.revents, r.n, r.drains); }
  }

  lemma PollReturnDispatch(s: Sys, l: nat, reports: seq<Report>)
    requires Dispatch(s) && Enabled(s, PollReturn(l, reports))
    requires var t := After(s, PollReturn(l, reports));
             forall i | 0 <= i < |t.loops[l].phase.active| :: ActiveOk(t, l, t.loops[l].phase.active[i], i == 0)
    ensures Dispatch(After(s, PollReturn(l, reports)))
  {
    var t := After(s, PollReturn(l, reports));
    forall k: nat | k < |t.loops| && t.loops[k].phase.Dispatching? ensures DispatchOk(t, k, t.loops[k].phase.active) {
      if k != l { DispatchElsewhere(s, t, k); }
    }
  }

  lemma DispatchElsewhere(s: Sys, t: Sys, k: nat)
    requires Dispatch(s) && k < |s.loops| == |t.loops| && t.loops[k].phase == s.loops[k].phase
             && s.loops[k].phase.Dispatching?
    requires t.conns == s.conns && t.server == s.server
    ensures DispatchOk(t, k, t.loops[k].phase.active)
  {
    var active := s.loops[k].phase.active;
    assert DispatchOk(s, k, active);
    forall i | 0 <= i < |active| ensures ActiveOk(t, k, active[i], i == 0) {
      assert ActiveOk(s, k, active[i], i == 0);
    }
  }

  lemma ReportedOpen(s: Sys, l: nat, reports: seq<Report>, i: nat)
    requires Whole(s) && l < |s.loops| && Reportable(s, l, reports) && i < |reports|
    requires s.loops[l].phase.Polling? && LoopShape(s.loops[l])
    ensures match reports[i]
      case AcceptReport => l == 0
      case ConnReport(c, revents, n, _) =>
        !DoubleClose(revents, n) && LiveId(s, c) && s.conns[c].loop == l && StageOf(s, c).Opened?
  {
    assert reports[i] in reports;
    if reports[i].ConnReport? {
      var p := s.loops[l].poll;
      var fd :| fd in p.kernel && p.kernel[fd].chan == reports[i].id;
      assert Consistent(WorldOf(s, l)) && FdAgrees(WorldOf(s, l), fd);
      assert Local(s, reports[i].id);
      assert ChanAgrees(p, reports[i].id, WorldOf(s, l).chans[reports[i].id]);
      PollingIdle(s.loops[l], reports[i].id);
    }
  }

  lemma HandledStep(s: Sys, l: nat)
    requires Inv(s) && Head(s, l)
    requires s.loops[l].phase.active[0].ConnReady? ==> s.loops[l].phase.active[0].todo == []
    ensures Inv(SetPhase(s, l, Dispatching(s.loops[l].phase.active[1..])))
  {
    var t := SetPhase(s, l, Dispatching(s.loops[l].phase.active[1..]));
    assert LoopShape(s.loops[l]);
    forall d | d in s.conns ensures HandKept(s, t, d) { HandledHand(s.loops[l], d); }
    PhaseWhole(s, l, t.loops[l].phase);
    HandledDispatch(s, l);
  }

  lemma HandledHand(lp: Loop, d: Id)
    requires lp.phase.Dispatching? && lp.phase.active != []
    requires lp.phase.active[0].ConnReady? ==> lp.phase.active[0].todo == []
    ensures InHand(lp, d) ==> InHand(lp.(phase := Dispatching(lp.phase.active[1..])), d)
  {}

  lemma HandledDispatch(s: Sys, l: nat)
    requires Dispatch(s) && Head(s, l)
    ensures Dispatch(SetPhase(s, l, Dispatching(s.loops[l].phase.active[1..])))
  {
    var active := s.loops[l].phase.active;
    var t := SetPhase(s, l, Dispatching(active[1..]));
    assert DispatchOk(s, l, active);
    forall i | 0 <= i < |active[1..]| ensures ActiveOk(t, l, active[1..][i], i == 0) {
      assert ActiveOk(s, l, active[i+1], false);
    }
    forall k: nat | k < |t.loops| && t.loops[k].phase.Dispatching? ensures DispatchOk(t, k, t.loops[k].phase.active) {
      if k != l { DispatchElsewhere(s, t, k); }
    }
  }

  /** The state in which the head's next callback has been taken from its list. */
  function ActPopped(s: Sys, l: nat): Sys
    requires HeadConn(s, l) && s.loops[l].phase.active[0].todo != []
  {
    var active := s.loops[l].phase.active;
    SetPhase(s, l, Dispatching([ConnReady(active[0].id, active[0].todo[1..])] + active[1..]))
  }

  /** What a callback of the head may change in the dispatch lists' view of the system. */
  ghost predicate ActKept(s: Sys, t: Sys, l: nat)
    requires HeadConn(s, l) && s.loops[l].phase.active[0].todo != []
  {
    var c := s.loops[l].phase.active[0].id;
    && |t.loops| == |s.loops|
    && (forall k | 0 <= k < |t.loops| :: t.loops[k].phase == ActPopped(s, l).loops[k].phase)
    && LiveId(t, c) && t.conns[c].loop == l
    && (StageOf(t, c).Opened? || StageOf(t, c).Shut? || StageOf(t, c).Removed?)
    && Safe(s.loops[l].phase.active[0].todo[1..], StageOf(t, c).Opened?)
    && forall d :: d != c && LiveId(s, d) ==>
         LiveId(t, d) && t.conns[d].loop == s.conns[d].loop && StageOf(t, d) == StageOf(s, d)
  }

  lemma ActDispatch(s: Sys, t: Sys, l: nat)
    requires Dispatch(s) && HeadConn(s, l) && s.loops[l].phase.active[0].todo != [] && ActKept(s, t, l)
    ensures Dispatch(t)
  {
    assert DispatchOk(s, l, s.loops[l].phase.active);
    forall k: nat | k < |t.loops| && t.loops[k].phase.Dispatching? ensures DispatchOk(t, k, t.loops[k].phase.active) {
      assert DispatchOk(s, k, s.loops[k].phase.active);
      forall i: nat | i < |s.loops[k].phase.active| ensures ActiveOk(t, k, t.loops[k].phase.active[i], i == 0) {
        ActOneOk(s, t, l, k, i);
      }
    }
  }

  lemma ActOneOk(s: Sys, t: Sys, l: nat, k: nat, i: nat)
    requires HeadConn(s, l) && s.loops[l].phase.active[0].todo != [] && ActKept(s, t, l)
    requires DispatchOk(s, l, s.loops[l].phase.active)
    requires k < |s.loops| && s.loops[k].phase.Dispatching? && DispatchOk(s, k, s.loops[k].phase.active)
    requires i < |s.loops[k].phase.active|
    ensures |t.loops| == |s.loops| && t.loops[k].phase.Dispatching? && i < |t.loops[k].phase.active|
    ensures ActiveOk(t, k, t.loops[k].phase.active[i], i == 0)
  {
    assert ActiveOk(s, k, s.loops[k].phase.active[i], i == 0);
    assert ActiveOk(s, l, s.loops[l].phase.active[0], true);
  }

  /** What the head of a dispatch list may still do. */
  lemma HeadSafe(s: Sys, l: nat)
    requires Inv(s) && HeadConn(s, l) && s.loops[l].phase.active[0].todo != []
    ensures var r := s.loops[l].phase.active[0];
            && LiveId(s, r.id) && s.conns[r.id].loop == l && Safe(r.todo, StageOf(s, r.id).Opened?)
            && (StageOf(s, r.id).Opened? || StageOf(s, r.id).Shut? || StageOf(s, r.id).Removed?)
            && (s.conns[r.id].chan.IsWriting() ==> !StageOf(s, r.id).Opened?) && !s.conns[r.id].chan.index.KNew?
            && ActiveOk(s, l, r, true) && l < |s.loops|
  {
    assert DispatchOk(s, l, s.loops[l].phase.active);
    assert ActiveOk(s, l, s.loops[l].phase.active[0], true);
    assert Local(s, s.loops[l].phase.active[0].id);
  }

  /** The head's next callback was taken from its list. */
  lemma ActPoppedCore(s: Sys, l: nat)
    requires Inv(s) && HeadConn(s, l) && s.loops[l].phase.active[0].todo != []
    ensures var c, t := s.loops[l].phase.active[0].id, ActPopped(s, l);
            c in s.conns && Core(t, c, StageOf(s, c)) && StageOf(t, c) == StageOf(s, c)
  {
    HeadSafe(s, l);
    assert LoopShape(s.loops[l]);
    PhaseCore(s, l, ActPopped(s, l).loops[l].phase, s.loops[l].phase.active[0].id);
  }

  /** Unless that callback is the one that was to drain the output, the head keeps its place too. */
  lemma ActPoppedWhole(s: Sys, l: nat)
    requires Inv(s) && HeadConn(s, l) && s.loops[l].phase.active[0].todo != []
    requires var r := s.loops[l].phase.active[0];
             r.id in s.conns && s.conns[r.id].chan.IsWriting() ==> r.todo[0] != WriteAct(true)
    ensures Whole(ActPopped(s, l))
  {
    HeadSafe(s, l);
    ActPoppedCore(s, l);
    var r := s.loops[l].phase.active[0];
    assert Local(s, r.id);
    assert r.todo == [r.todo[0]] + r.todo[1..];
    LocalFrame(s, ActPopped(s, l), r.id);
    WholeIsCore(ActPopped(s, l), r.id);
  }

  lemma ActAsserts(s: Sys, l: nat)
    requires Inv(s) && HeadConn(s, l) && s.loops[l].phase.active[0].todo != []
    ensures AssertsHold(s, Act(l))
  {
    HeadSafe(s, l);
    HeadRegistered(s, l, s.loops[l].phase.active[0].id);
    assert Local(s, s.loops[l].phase.active[0].id);
  }

  lemma CloseKept(s: Sys, l: nat, c: Id)
    requires HeadConn(s, l) && s.loops[l].phase.active[0].todo != [] && c == s.loops[l].phase.active[0].id
    requires Ids(ActPopped(s, l)) && LiveId(s, c) && s.conns[c].loop == l
    requires StageOf(Closing(ActPopped(s, l), c), c).Shut? || StageOf(Closing(ActPopped(s, l), c), c).Removed?
    requires Safe(s.loops[l].phase.active[0].todo[1..], false)
    ensures ActKept(s, Closing(ActPopped(s, l), c), l)
  {
    ClosingFrame(ActPopped(s, l), c);
    assert forall d | d in s.conns :: StageOf(ActPopped(s, l), d) == StageOf(s, d);
  }

  lemma ActCloseKept(s: Sys, l: nat)
    requires Inv(s) && HeadConn(s, l) && s.loops[l].phase.active[0].todo != []
    requires Closes(s.loops[l].phase.active[0].todo[0])
    ensures var c := s.loops[l].phase.active[0].id;
            c in s.conns && s.conns[c].loop < |s.loops| && Whole(Closing(ActPopped(s, l), c))
                  && ActKept(s, Closing(ActPopped(s, l), c), l)
  {
    var c := s.loops[l].phase.active[0].id;
    HeadSafe(s, l);
    assert Local(s, c);
    ActPoppedWhole(s, l);
    var t0 := ActPopped(s, l);
    assert StageOf(t0, c) == StageOf(s, c);
    ClosingWhole(t0, c);
    CloseKept(s, l, c);
  }

  lemma ActClose(s: Sys, l: nat)
    requires Inv(s) && HeadConn(s, l) && s.loops[l].phase.active[0].todo != [] && AssertsHold(s, Act(l))
    requires Closes(s.loops[l].phase.active[0].todo[0])
    ensures Inv(After(s, Act(l)))
  {
    ActCloseKept(s, l);
    ActDispatch(s, After(s, Act(l)), l);
  }

  lemma ClosingWhole(s: Sys, c: Id)
    requires Whole(s) && LiveId(s, c) && StageOf(s, c).Opened?
    ensures s.conns[c].loop < |s.loops|
    ensures var t := Closing(s, c); Whole(t) && StageOf(t, c) == (if s.conns[c].loop == 0 then Removed else Shut)
  {
    WholeIsCore(s, c);
    assert Local(s, c);
    ClosingCore(s, c);
    ClosedLocal(s, c);
    WholeIsCore(Closing(s, c), c);
  }

  lemma ClosedLocal(s: Sys, c: Id)
    requires c in s.conns && s.conns[c].loop < |s.loops|
    requires Local(s, c) && StageOf(s, c).Opened? && LocalAs(Closing(s, c), c, true)
    requires StageOf(Closing(s, c), c).Shut? || StageOf(Closing(s, c), c).Removed?
    ensures Local(Closing(s, c), c)
  {}

  /** Closing c leaves every other connection and every phase as it is. */
  lemma ClosingFrame(s: Sys, c: Id)
    requires Ids(s) && c in s.conns && s.conns[c].loop < |s.loops|
    ensures var t := Closing(s, c);
            && |t.loops| == |s.loops|
            && (forall k | 0 <= k < |s.loops| :: t.loops[k].phase == s.loops[k].phase)
            && (forall d :: d != c && LiveId(s, d) ==>
                  LiveId(t, d) && t.conns[d].loop == s.conns[d].loop && StageOf(t, d) == StageOf(s, d))
            && c in t.conns && t.conns[c].alive == s.conns[c].alive && t.conns[c].loop == s.conns[c].loop
  {
    EraseFindsEntryIff(c);
  }

  lemma MessageWhole(s: Sys, c: Id)
    requires Whole(s) && LiveId(s, c) && StageOf(s, c).Opened?
    ensures var conn := s.conns[c]; var t := s.(conns := s.conns[c := conn.(hist := conn.hist + [Message])]);
            Whole(t) && StageOf(t, c).Opened?
  {
    var conn := s.conns[c];
    assert Local(s, c);
    ShapeGrows(conn.hist, Message);
    TouchedWhole(s, c, conn.(hist := conn.hist + [Message]));
  }

  /** A change of one connection that stays in its stage and keeps its channel. */
  lemma TouchedWhole(s: Sys, c: Id, conn: Conn)
    requires Whole(s) && c in s.conns
    requires conn.loop == s.conns[c].loop && conn.chan == s.conns[c].chan && conn.alive == s.conns[c].alive
    requires var t := s.(conns := s.conns[c := conn]); Local(t, c) && StageOf(t, c) == StageOf(s, c)
    ensures Whole(s.(conns := s.conns[c := conn]))
  {
    var t := s.(conns := s.conns[c := conn]);
    LoopsFrame(s, t);
    StaticFrame(s, t);
    SameWorlds(s, t);
    forall d | d in t.conns ensures Local(t, d) && Counts(t, d, StageOf(t, d)) {
      TouchedConn(s, c, conn, d);
    }
  }

  lemma TouchedConn(s: Sys, c: Id, conn: Conn, d: Id)
    requires c in s.conns && d in s.conns && Local(s, d) && Counts(s, d, StageOf(s, d)) && conn.loop == s.conns[c].loop
    requires var t := s.(conns := s.conns[c := conn]); Local(t, c) && StageOf(t, c) == StageOf(s, c)
    ensures var t := s.(conns := s.conns[c := conn]); Local(t, d) && Counts(t, d, StageOf(t, d))
  {
    var t := s.(conns := s.conns[c := conn]);
    SameCounts(s, t, d, StageOf(s, d));
    if d != c { LocalFrame(s, t, d); }
  }

  lemma LoopsFrame(s: Sys, t: Sys)
    requires Loops(s) && SameConns(s, t) && t.loops == s.loops
    ensures Loops(t)
  {
    forall k | 0 <= k < |t.loops| ensures LoopShape(t.loops[k]) && LoopLive(t, t.loops[k]) {
      assert LoopShape(s.loops[k]) && LoopLive(s, s.loops[k]);
    }
  }

  lemma ActOther(s: Sys, l: nat)
    requires Inv(s) && HeadConn(s, l) && s.loops[l].phase.active[0].todo != []
    requires !Closes(s.loops[l].phase.active[0].todo[0])
    requires AssertsHold(s, Act(l))
    ensures Inv(After(s, Act(l)))
  {
    ActOtherKept(s, l);
    ActDispatch(s, After(s, Act(l)), l);
  }

  lemma ActOtherKept(s: Sys, l: nat)
    requires Inv(s) && HeadConn(s, l) && s.loops[l].phase.active[0].todo != []
    requires !Closes(s.loops[l].phase.active[0].todo[0])
    requires AssertsHold(s, Act(l))
    ensures Whole(After(s, Act(l))) && ActKept(s, After(s, Act(l)), l)
  {
    var c, a := s.loops[l].phase.active[0].id, s.loops[l].phase.active[0].todo[0];
    HeadSafe(s, l);
    if a == WriteAct(true) && s.conns[c].chan.IsWriting() {
      DrainKept(s, l);
    } else {
      ActPoppedWhole(s, l);
      var t0 := ActPopped(s, l);
      assert StageOf(t0, c) == StageOf(s, c);
      if a.ReadAct? && a.n > 0 { MessageWhole(t0, c); }
      OtherIs(t0, c, a);
      OtherKept(s, l, c, a);
    }
  }

  /** The write callback that drains what a late send left over: the channel is as it was before. */
  lemma DrainKept(s: Sys, l: nat)
    requires Inv(s) && HeadConn(s, l) && s.loops[l].phase.active[0].todo != []
    requires s.loops[l].phase.active[0].todo[0] == WriteAct(true) && AssertsHold(s, Act(l))
    requires s.conns[s.loops[l].phase.active[0].id].chan.IsWriting()
    ensures Whole(After(s, Act(l))) && ActKept(s, After(s, Act(l)), l)
  {
    var c := s.loops[l].phase.active[0].id;
    HeadSafe(s, l);
    ActPoppedCore(s, l);
    assert Local(s, c);
    DrainWhole(ActPopped(s, l), c);
    DrainActKept(s, l, c);
  }

  lemma DrainWhole(s: Sys, c: Id)
    requires c in s.conns && s.conns[c].loop < |s.loops| && Core(s, c, StageOf(s, c)) && s.conns[c].chan.IsWriting()
    requires StageOf(s, c).Shut? || StageOf(s, c).Removed?
    ensures Whole(Acting(s, c, WriteAct(true)))
  {
    assert LocalAs(s, c, true);
    var l := s.conns[c].loop;
    var conn := s.conns[c].(chan := OpChan(DisableWriting, s.conns[c].chan));
    WriteBitOff(s.conns[c].chan.events);
    PutCore(s, c, StageOf(s, c), DisableWriting, conn);
    WholeIsCore(Put(s, c, conn, OpPoll(DisableWriting, s.loops[l].poll, c, s.conns[c].chan)), c);
  }

  lemma DrainActKept(s: Sys, l: nat, c: Id)
    requires HeadConn(s, l) && s.loops[l].phase.active[0].todo != [] && c == s.loops[l].phase.active[0].id
    requires LiveId(s, c) && s.conns[c].loop == l
    requires StageOf(s, c).Opened? || StageOf(s, c).Shut? || StageOf(s, c).Removed?
    requires Safe(s.loops[l].phase.active[0].todo[1..], StageOf(s, c).Opened?)
    ensures ActKept(s, Acting(ActPopped(s, l), c, WriteAct(true)), l)
  {}

  lemma WriteBitOff(events: bv32)
    requires events == WRITE_EVENT
    ensures events & !WRITE_EVENT == NON_EVENT
  {}

  /** While read interest is on, the callbacks that do not close the connection touch no poller. */
  lemma OtherIs(s: Sys, c: Id, a: Action)
    requires c in s.conns && s.conns[c].loop < |s.loops| && !Closes(a)
    requires !(a == WriteAct(true) && s.conns[c].chan.IsWriting())
    ensures Acting(s, c, a) ==
            if a.ReadAct? && a.n > 0 then s.(conns := s.conns[c := s.conns[c].(hist := s.conns[c].hist + [Message])])
            else s
  {
    var l := s.conns[c].loop;
    assert s.loops[l := s.loops[l].(poll := s.loops[l].poll)] == s.loops;
    assert s.conns[c := s.conns[c]] == s.conns;
  }

  lemma OtherKept(s: Sys, l: nat, c: Id, a: Action)
    requires HeadConn(s, l) && s.loops[l].phase.active[0].todo != []
    requires c == s.loops[l].phase.active[0].id && a == s.loops[l].phase.active[0].todo[0]
    requires !Closes(a) && LiveId(s, c) && s.conns[c].loop == l
    requires !(a == WriteAct(true) && s.conns[c].chan.IsWriting())
    requires StageOf(s, c).Opened? || ((StageOf(s, c).Shut? || StageOf(s, c).Removed?) && !(a.ReadAct? && a.n > 0))
    requires Safe(s.loops[l].phase.active[0].todo[1..], StageOf(s, c).Opened?)
    ensures ActKept(s, Acting(ActPopped(s, l), c, a), l)
  {}

  lemma HeadRegistered(s: Sys, l: nat, c: Id)
    requires Worlds(s) && c in s.conns && s.conns[c].loop == l < |s.loops| && !s.conns[c].chan.index.KNew?
    ensures OpAsserts(DisableWriting, s.loops[l].poll, c, s.conns[c].chan)
    ensures OpAsserts(DisableAll, s.loops[l].poll, c, s.conns[c].chan)
    ensures OpAsserts(EnableWriting, s.loops[l].poll, c, s.conns[c].chan)
  {
    assert Consistent(WorldOf(s, l));
    assert c in WorldOf(s, l).chans && ChanAgrees(s.loops[l].poll, c, WorldOf(s, l).chans[c]);
  }

  // ---------------------------------------------------------------------------------------
  // Accept
  // ---------------------------------------------------------------------------------------

  lemma EnteredIds(s: Sys, fd: int)
    requires Ids(s) && 0 < |s.loops| && s.nextId < 0x8000_0000
    ensures NextLoop(s) == Slot(|s.loops|, |s.placed|) < |s.loops| && s.nextId !in s.conns
    ensures Ids(Entered(s, fd))
  {
    var k := |s.loops| - 1;
    if k > 0 {
      assert (|s.placed| % k + 1) % k == (|s.placed| + 1) % k by { ModSucc(|s.placed|, k); }
    }
  }

  lemma ModSucc(n: nat, k: nat)
    requires k > 0
    ensures (n % k + 1) % k == (n + 1) % k
  {
    var q, r := n / k, n % k;
    assert n == q * k + r;
    if r + 1 < k {
      ModUnique(n + 1, k, q, r + 1);
      ModUnique(r + 1, k, 0, r + 1);
    } else {
      assert n + 1 == (q + 1) * k + 0;
      ModUnique(n + 1, k, q + 1, 0);
      ModUnique(r + 1, k, 1, 0);
    }
  }

  lemma ModUnique(n: nat, k: nat, q: nat, r: nat)
    requires k > 0 && r < k && n == q * k + r
    ensures n % k == r
  {
    var d := n / k - q;
    assert n == (n / k) * k + n % k;
    assert d * k == r - n % k;
    MulAway(d, k);
  }

  lemma MulAway(d: int, k: int)
    requires k > 0
    ensures d >= 1 ==> d * k >= k
    ensures d <= -1 ==> d * k <= -k
  {}

  lemma EnteredWorlds(s: Sys, fd: int)
    requires Worlds(s) && 0 < |s.loops| && NextLoop(s) < |s.loops| && s.nextId !in s.conns
    ensures Worlds(Entered(s, fd))
  {
    var c, h, t := s.nextId, NextLoop(s), Entered(s, fd);
    forall l: nat | l < |t.loops| ensures Consistent(WorldOf(t, l)) {
      assert Consistent(WorldOf(s, l));
      if l == h {
        NewChannelKeepsConsistent(WorldOf(s, l), c, NewConn(h, fd).chan);
        assert Chans(t, l) == Chans(s, l)[c := NewConn(h, fd).chan];
      } else {
        assert Chans(t, l) == Chans(s, l);
      }
    }
  }

  /** Nothing is queued for an id that was never given out. */
  lemma NothingQueued(s: Sys, c: Id, lp: Loop)
    requires LoopLive(s, lp) && c !in s.conns
    ensures forall f: Functor<Id> | f.conn == c :: Count(lp, f) == 0
  {
    forall f: Functor<Id> | f.conn == c ensures Count(lp, f) == 0 {
      assert f !in lp.batch && f !in lp.pending;
    }
  }

  lemma EnteredConns(s: Sys, fd: int, d: Id)
    requires Whole(s) && NextLoop(s) < |s.loops| && s.nextId !in s.conns
    requires d in Entered(s, fd).conns
    ensures var t := Entered(s, fd);
            Local(t, d) && Counts(t, d, if d == s.nextId then Opened else StageOf(t, d))
  {
    var t := Entered(s, fd);
    if d == s.nextId {
      forall k: nat | k < |t.loops| ensures CountsOn(t.loops[k], k, d, t.conns[d].loop, Opened) {
        assert LoopLive(s, s.loops[k]);
        NothingQueued(s, d, s.loops[k]);
      }
    } else {
      LocalFrame(s, t, d);
      SameCounts(s, t, d, StageOf(s, d));
    }
  }

  lemma EnteredLoops(s: Sys, fd: int)
    requires Loops(s) && s.nextId !in s.conns
    ensures Loops(Entered(s, fd))
  {
    var t := Entered(s, fd);
    forall k | 0 <= k < |t.loops| ensures LoopShape(t.loops[k]) && LoopLive(t, t.loops[k]) {
      assert LoopShape(s.loops[k]) && LoopLive(s, s.loops[k]);
    }
  }

  lemma EnteredFds(s: Sys, fd: int)
    requires Fds(s) && 0 < |s.loops| && !FdOpen(s, fd) && s.nextId !in s.conns
    ensures Fds(Entered(s, fd))
  {
    assert forall c | LiveId(s, c) :: s.conns[c].chan.fd != fd;
  }

  lemma EnteredCore(s: Sys, fd: int)
    requires Whole(s) && !FdOpen(s, fd) && s.nextId < 0x8000_0000
    ensures NextLoop(s) < |s.loops| && s.nextId !in s.conns && s.nextId !in s.server
    ensures Core(Entered(s, fd), s.nextId, Opened) && StageOf(Entered(s, fd), s.nextId).Fresh?
  {
    EnteredIds(s, fd);
    EnteredWorlds(s, fd);
    EnteredLoops(s, fd);
    EnteredFds(s, fd);
    var t := Entered(s, fd);
    forall d | d in t.conns ensures Local(t, d) && Counts(t, d, if d == s.nextId then Opened else StageOf(t, d)) {
      EnteredConns(s, fd, d);
    }
  }

  lemma AcceptingWhole(s: Sys, fd: int)
    requires Whole(s) && !FdOpen(s, fd) && s.nextId < 0x8000_0000
    ensures NextLoop(s) < |s.loops| && s.nextId !in s.conns && s.nextId !in s.server
    ensures NextLoop(s) == 0 ==> OpAsserts(EnableReading, s.loops[0].poll, s.nextId, NewConn(0, fd).chan)
    ensures Whole(Accepting(s, fd))
  {
    EnteredCore(s, fd);
    var c, l, t := s.nextId, NextLoop(s), Entered(s, fd);
    if l == 0 {
      EstablishingCore(t, c);
      WholeIsCore(Establishing(t, c), c);
    } else {
      forall k: nat | k < |t.loops| ensures Count(t.loops[k], CloseForced(c)) == 0 {
        assert LoopLive(s, s.loops[k]);
        NothingQueued(s, c, s.loops[k]);
      }
      PushCore(t, l, Establish(c), Opened, Fresh);
      WholeIsCore(Push(t, l, Establish(c)), c);
    }
  }

  lemma AcceptingDispatch(s: Sys, fd: int)
    requires Dispatch(s) && 0 < |s.loops| && NextLoop(s) < |s.loops| && s.nextId !in s.conns
    requires forall c | LiveId(s, c) :: s.conns[c].loop < |s.loops|
    ensures Dispatch(Accepting(s, fd))
  {
    forall c ensures Undisturbed(s, Accepting(s, fd), c) {}
    DispatchFrame(s, Accepting(s, fd));
  }

  lemma AcceptStep(s: Sys, fd: int)
    requires Inv(s) && Enabled(s, Accept(fd))
    ensures AssertsHold(s, Accept(fd)) && Inv(After(s, Accept(fd)))
  {
    HandledStep(s, 0);
    var t0 := SetPhase(s, 0, Dispatching(s.loops[0].phase.active[1..]));
    assert !FdOpen(t0, fd);
    AcceptingWhole(t0, fd);
    LoopsInRange(t0);
    AcceptingDispatch(t0, fd);
  }

  lemma LoopsInRange(s: Sys)
    requires Whole(s)
    ensures forall c | LiveId(s, c) :: s.conns[c].loop < |s.loops|
  {
    forall c | LiveId(s, c) ensures s.conns[c].loop < |s.loops| { assert Local(s, c); }
  }

  // ---------------------------------------------------------------------------------------
  // Pending functors
  // ---------------------------------------------------------------------------------------

  lemma SwapStep(s: Sys, l: nat)
    requires Inv(s) && Enabled(s, SwapPending(l))
    ensures Inv(After(s, SwapPending(l)))
  {
    var t := After(s, SwapPending(l));
    assert LoopShape(s.loops[l]) && LoopLive(s, s.loops[l]);
    forall d | d in s.conns ensures HandKept(s, t, d) { SwapHand(s.loops[l], d); }
    QueueFrame(s, t);
    SwapAllCounts(s, l);
  }

  lemma SwapHand(lp: Loop, d: Id)
    requires LoopShape(lp) && lp.phase == Dispatching([])
    ensures InHand(lp, d) ==> InHand(lp.(phase := Running, batch := lp.pending, pending := []), d)
  {}

  lemma EndHand(lp: Loop, d: Id)
    requires lp.phase.Running? && lp.batch == []
    ensures !InHand(lp, d)
  {}

  lemma SwapAllCounts(s: Sys, l: nat)
    requires Whole(s) && l < |s.loops| && s.loops[l].batch == []
    ensures var t := s.(loops := s.loops[l := s.loops[l].(phase := Running, batch := s.loops[l].pending,
            pending := [])]);
            forall d <- t.conns :: Counts(t, d, StageOf(t, d))
  {
    var t := s.(loops := s.loops[l := s.loops[l].(phase := Running, batch := s.loops[l].pending, pending := [])]);
    forall d | d in t.conns ensures Counts(t, d, StageOf(t, d)) {
      SwapCounts(s, l, d, StageOf(s, d));
    }
  }

  /** A step of one loop that only moves functors around or ends a batch. */
  lemma QueueFrame(s: Sys, t: Sys)
    requires Inv(s) && |t.loops| == |s.loops| && t == s.(loops := t.loops)
    requires forall k | 0 <= k < |s.loops| && t.loops[k] != s.loops[k] ::
               !t.loops[k].phase.Dispatching? && t.loops[k].poll == s.loops[k].poll && LoopShape(t.loops[k])
                     && LoopLive(s, t.loops[k])
    requires forall d <- s.conns :: HandKept(s, t, d)
    ensures Loops(t) && Fds(t) && Ids(t) && Worlds(t) && Dispatch(t) && forall d <- t.conns :: Local(t, d)
  {
    QueueStatic(s, t);
    forall d | d in t.conns ensures Local(t, d) { LocalFrame(s, t, d); }
    LoopsInRange(s);
    QueueDispatch(s, t);
  }

  lemma QueueStatic(s: Sys, t: Sys)
    requires Loops(s) && Fds(s) && Ids(s) && Worlds(s) && |t.loops| == |s.loops| && t == s.(loops := t.loops)
    requires forall k | 0 <= k < |s.loops| && t.loops[k] != s.loops[k] ::
               t.loops[k].poll == s.loops[k].poll && LoopShape(t.loops[k]) && LoopLive(s, t.loops[k])
    ensures Loops(t) && Fds(t) && Ids(t) && Worlds(t)
  {
    forall k | 0 <= k < |t.loops| ensures LoopShape(t.loops[k]) && LoopLive(t, t.loops[k]) {
      assert LoopShape(s.loops[k]) && LoopLive(s, s.loops[k]);
    }
    StaticFrame(s, t);
    SameWorlds(s, t);
  }

  lemma QueueDispatch(s: Sys, t: Sys)
    requires Dispatch(s) && |t.loops| == |s.loops| && t == s.(loops := t.loops)
    requires forall k | 0 <= k < |s.loops| :: t.loops[k] == s.loops[k] || !t.loops[k].phase.Dispatching?
    requires forall c | LiveId(s, c) :: s.conns[c].loop < |s.loops|
    ensures Dispatch(t)
  {
    forall c ensures Undisturbed(s, t, c) {}
    DispatchFrame(s, t);
  }

  lemma SwapCounts(s: Sys, l: nat, d: Id, st: Stage)
    requires l < |s.loops| && d in s.conns && Counts(s, d, st) && s.loops[l].batch == []
    ensures Counts(s.(loops := s.loops[l := s.loops[l].(phase := Running, batch := s.loops[l].pending,
            pending := [])]), d, st)
  {
    var t := s.(loops := s.loops[l := s.loops[l].(phase := Running, batch := s.loops[l].pending, pending := [])]);
    forall k: nat | k < |t.loops| ensures CountsOn(t.loops[k], k, d, t.conns[d].loop, st) {
      assert CountsOn(s.loops[k], k, d, s.conns[d].loop, st);
    }
  }

  lemma EndBatchStep(s: Sys, l: nat)
    requires Inv(s) && Enabled(s, EndBatch(l))
    ensures Inv(After(s, EndBatch(l)))
  {
    var t := After(s, EndBatch(l));
    assert LoopLive(s, s.loops[l]);
    forall d | d in s.conns ensures HandKept(s, t, d) { EndHand(s.loops[l], d); }
    QueueFrame(s, t);
    AllCountsSame(s, t);
  }

  lemma AllCountsSame(s: Sys, t: Sys)
    requires forall d <- s.conns :: Counts(s, d, StageOf(s, d))
    requires |t.loops| == |s.loops| && t.conns == s.conns && t.server == s.server
    requires forall l | 0 <= l < |s.loops| ::
      t.loops[l].batch == s.loops[l].batch && t.loops[l].pending == s.loops[l].pending
    ensures forall d <- t.conns :: Counts(t, d, StageOf(t, d))
  {
    forall d | d in t.conns ensures Counts(t, d, StageOf(t, d)) {
      SameCounts(s, t, d, StageOf(s, d));
    }
  }

  /** Open and finished connections have nothing to wait for. */
  lemma NeverLate(s: Sys, c: Id)
    requires c in s.conns && LocalAs(s, c, true) && (StageOf(s, c).Opened? || StageOf(s, c).Finished?)
    ensures Local(s, c)
  {}

  lemma RemovingLocal(s: Sys, c: Id)
    requires c in s.conns && s.conns[c].loop < |s.loops| && Local(s, c) && StageOf(s, c).Shut?
    requires StageOf(Removing(s, c), c).Removed? && LocalAs(Removing(s, c), c, true)
    ensures Local(Removing(s, c), c)
  {
    var l := s.conns[c].loop;
    HandGrows(s.loops[l], Removing(s, c).loops[l], c);
  }

  /** Performing a functor that was taken from the head of a batch. */
  lemma PerformingWhole(s: Sys, f: Functor<Id>, st: Stage)
    requires LiveId(s, f.conn) && StageOf(s, f.conn) == st && Core(s, f.conn, Taken(f, st))
    requires match f
      case Establish(_) => st.Fresh?
      case RemoveConn(_) => st.Shut?
      case Destroy(_) => st.Removed?
      case CloseForced(_) => !st.Fresh?
    requires f.RemoveConn? || f.CloseForced? ==> Local(s, f.conn)
    ensures s.conns[f.conn].loop < |s.loops|
    ensures match f
      case Establish(c) => OpAsserts(EnableReading, s.loops[s.conns[c].loop].poll, c, s.conns[c].chan)
            && s.conns[c].state.Connecting?
      case RemoveConn(_) => true
      case Destroy(c) => DestroyAsserts(s.loops[s.conns[c].loop].poll, c, s.conns[c])
      case CloseForced(c) => s.conns[c].Open() ==>
            OpAsserts(DisableAll, s.loops[s.conns[c].loop].poll, c, s.conns[c].chan)
    ensures Whole(Performing(s, f))
  {
    var c := f.conn;
    assert LocalAs(s, c, true);
    match f
    case Establish(_) =>
      EstablishingCore(s, c);
      NeverLate(Establishing(s, c), c);
      WholeIsCore(Establishing(s, c), c);
    case RemoveConn(_) =>
      RemovingCore(s, c);
      RemovingLocal(s, c);
      WholeIsCore(Removing(s, c), c);
    case Destroy(_) =>
      DestroyingCore(s, c);
      NeverLate(Destroying(s, c), c);
      WholeIsCore(Destroying(s, c), c);
    case CloseForced(_) =>
      WholeIsCore(s, c);
      if s.conns[c].Open() {
        ClosingWhole(s, c);
        ClosingCore(s, c);
      }
  }

  lemma PerformingFrame(s: Sys, f: Functor<Id>, d: Id)
    requires Ids(s) && f.conn in s.conns && s.conns[f.conn].loop < |s.loops| && LiveId(s, d)
    requires (f.RemoveConn? && StageOf(s, f.conn).Shut?) || f.conn != d || s.loops[s.conns[d].loop].phase.Running?
    requires s.conns[d].loop < |s.loops|
    ensures |Performing(s, f).loops| == |s.loops|
    ensures forall k | 0 <= k < |s.loops| :: Performing(s, f).loops[k].phase == s.loops[k].phase
    ensures Undisturbed(s, Performing(s, f), d)
  {
    EraseFindsEntryIff(f.conn);
  }

  lemma RunFunctorStep(s: Sys, l: nat)
    requires Inv(s) && Enabled(s, RunFunctor(l))
    ensures AssertsHold(s, RunFunctor(l)) && Inv(After(s, RunFunctor(l)))
  {
    var f, t := s.loops[l].batch[0], Popped(s, l);
    HeadTells(s, l);
    PoppedCore(s, l);
    PoppedConn(s, l, f.conn);
    PerformingWhole(t, f, StageOf(s, f.conn));
    RunFunctorDispatch(s, l);
  }

  lemma RunFunctorDispatch(s: Sys, l: nat)
    requires Inv(s) && l < |s.loops| && s.loops[l].phase.Running? && s.loops[l].batch != []
    requires s.loops[l].batch[0].conn in s.conns && s.conns[s.loops[l].batch[0].conn].loop < |s.loops|
    ensures Dispatch(Performing(Popped(s, l), s.loops[l].batch[0]))
  {
    var f, t := s.loops[l].batch[0], Popped(s, l);
    HeadTells(s, l);
    LoopsInRange(s);
    QueueDispatch(s, t);
    StaticFrame(s, t);
    assert StageOf(t, f.conn) == StageOf(s, f.conn);
    PerformingDispatch(t, f);
  }

  lemma PerformingDispatch(s: Sys, f: Functor<Id>)
    requires Dispatch(s) && Ids(s) && f.conn in s.conns && s.conns[f.conn].loop < |s.loops|
    requires (f.RemoveConn? && StageOf(s, f.conn).Shut?) || s.loops[s.conns[f.conn].loop].phase.Running?
    requires forall c | LiveId(s, c) :: s.conns[c].loop < |s.loops|
    ensures Dispatch(Performing(s, f))
  {
    EraseFindsEntryIff(f.conn);
    forall d ensures Undisturbed(s, Performing(s, f), d) {
      if LiveId(s, d) { PerformingFrame(s, f, d); }
    }
    DispatchFrame(s, Performing(s, f));
  }

  // ---------------------------------------------------------------------------------------
  // Calls from user code, and the end of a connection
  // ---------------------------------------------------------------------------------------

  function Forced(s: Sys, c: Id): Sys
    requires c in s.conns
  {
    s.(conns := s.conns[c := s.conns[c].(state := Disconnecting)])
  }

  lemma ForcedLocal(s: Sys, c: Id)
    requires c in s.conns && Local(s, c) && s.conns[c].Open()
    ensures StageOf(s, c).Opened? && StageOf(Forced(s, c), c).Opened? && Local(Forced(s, c), c)
  {}

  lemma ForcedWhole(s: Sys, c: Id)
    requires Whole(s) && LiveId(s, c) && s.conns[c].Open()
    ensures Whole(Forced(s, c)) && StageOf(s, c).Opened? && StageOf(Forced(s, c), c).Opened?
  {
    assert Local(s, c);
    ForcedLocal(s, c);
    TouchedWhole(s, c, s.conns[c].(state := Disconnecting));
  }

  lemma ForceCloseStep(s: Sys, c: Id)
    requires Inv(s) && Enabled(s, ForceClose(c))
    ensures AssertsHold(s, ForceClose(c)) && Inv(After(s, ForceClose(c)))
  {
    ForceClosedWhole(s, c);
    LoopsInRange(s);
    ForceCloseDispatch(s, c);
  }

  lemma ForceClosedWhole(s: Sys, c: Id)
    requires Whole(s) && LiveId(s, c) && s.conns[c].Open()
    ensures s.conns[c].loop < |s.loops| && Whole(ForceClosing(s, c))
  {
    assert Local(s, c);
    ForcedWhole(s, c);
    PushedForced(Forced(s, c), c);
  }

  lemma PushedForced(s: Sys, c: Id)
    requires Whole(s) && LiveId(s, c) && StageOf(s, c).Opened?
    ensures s.conns[c].loop < |s.loops| && Whole(Push(s, s.conns[c].loop, CloseForced(c)))
  {
    assert Local(s, c);
    var l := s.conns[c].loop;
    WholeIsCore(s, c);
    PushCore(s, l, CloseForced(c), Opened, Opened);
    PushLocal(s, l, CloseForced(c), c);
    WholeIsCore(Push(s, l, CloseForced(c)), c);
  }

  lemma ForceCloseDispatch(s: Sys, c: Id)
    requires Dispatch(s) && c in s.conns && s.conns[c].loop < |s.loops|
    requires forall c | LiveId(s, c) :: s.conns[c].loop < |s.loops|
    ensures Dispatch(ForceClosing(s, c))
  {
    forall d ensures Undisturbed(s, ForceClosing(s, c), d) {}
    DispatchFrame(s, ForceClosing(s, c));
  }

  /** The channel after a send with bytes left over fits the connection's stage. */
  lemma SentLocal(s: Sys, c: Id)
    requires c in s.conns && Local(s, c) && MaySend(s, c) && !StageOf(s, c).Finished?
    ensures Local(Sending(s, c), c) && StageOf(Sending(s, c), c) == StageOf(s, c)
  {
    var t, l := Sending(s, c), s.conns[c].loop;
    assert InHand(s.loops[l], c) ==> InHand(t.loops[l], c);
    if s.conns[c].Open() {
      KeepsReadBits(s.conns[c].chan.events);
    } else {
      WriteBitAlone(s.conns[c].chan.events);
    }
  }

  lemma WriteBitAlone(events: bv32)
    ensures events == NON_EVENT || events == WRITE_EVENT ==> events | WRITE_EVENT == WRITE_EVENT
  {}

  /** A loop has nothing in hand for a finished connection. */
  lemma FinishedNotInHand(s: Sys, c: Id)
    requires Inv(s) && c in s.conns && StageOf(s, c).Finished?
    ensures !MaySend(s, c)
  {
    assert Local(s, c) && Counts(s, c, StageOf(s, c));
    var l := s.conns[c].loop;
    var lp := s.loops[l];
    assert CountsOn(lp, l, c, l, StageOf(s, c));
    assert Count(lp, Establish(c)) == 0 && Count(lp, Destroy(c)) == 0;
    HeadUnfinished(s, l);
  }

  lemma HeadUnfinished(s: Sys, l: nat)
    requires Dispatch(s)
    ensures HeadConn(s, l) ==> var c := s.loops[l].phase.active[0].id; LiveId(s, c) && !StageOf(s, c).Finished?
  {
    if HeadConn(s, l) {
      assert DispatchOk(s, l, s.loops[l].phase.active) && ActiveOk(s, l, s.loops[l].phase.active[0], true);
    }
  }

  /** The poller's asserts do not stop any send: they hold for every living connection. */
  lemma SendPasses(s: Sys, c: Id)
    requires Whole(s) && LiveId(s, c)
    ensures s.conns[c].loop < |s.loops|
    ensures OpAsserts(EnableWriting, s.loops[s.conns[c].loop].poll, c, s.conns[c].chan)
    ensures Allowed(EnableWriting, s.loops[s.conns[c].loop].poll, s.conns[c].chan)
  {
    assert Local(s, c);
    if s.conns[c].chan.index.KNew? {
      WholeIsCore(s, c);
      UnregisteredFdFree(s, c, StageOf(s, c));
    } else {
      HeadRegistered(s, s.conns[c].loop, c);
    }
  }

  lemma SentWhole(s: Sys, c: Id)
    requires Whole(s) && LiveId(s, c) && MaySend(s, c) && !StageOf(s, c).Finished?
    ensures Whole(Sending(s, c))
  {
    assert Local(s, c);
    SendPasses(s, c);
    SentLocal(s, c);
    WholeIsCore(s, c);
    PutCore(s, c, StageOf(s, c), EnableWriting, Enabling(SideOf(s, c), c).conn);
    WholeIsCore(Sending(s, c), c);
  }

  lemma SendStep(s: Sys, c: Id)
    requires Inv(s) && Enabled(s, Send(c))
    ensures AssertsHold(s, Send(c)) && Inv(After(s, Send(c)))
  {
    if StageOf(s, c).Finished? { FinishedNotInHand(s, c); }
    SendPasses(s, c);
    SentWhole(s, c);
    LoopsInRange(s);
    SendDispatch(s, c);
  }

  lemma KeepsReadBits(events: bv32)
    requires events & READ_EVENT == READ_EVENT
    ensures (events | WRITE_EVENT) & READ_EVENT == READ_EVENT && events != NON_EVENT
            && events | WRITE_EVENT != NON_EVENT
  {}

  lemma SendDispatch(s: Sys, c: Id)
    requires Dispatch(s) && c in s.conns && s.conns[c].loop < |s.loops|
    requires forall c | LiveId(s, c) :: s.conns[c].loop < |s.loops|
    ensures Dispatch(Sending(s, c))
  {
    forall d ensures Undisturbed(s, Sending(s, c), d) {}
    DispatchFrame(s, Sending(s, c));
  }

  lemma UsersStep(s: Sys, users: set<Id>)
    requires Inv(s) && forall c <- users :: LiveId(s, c)
    ensures Inv(s.(users := users))
  {
    UsersStatic(s, users);
    UsersConns(s, users);
    LoopsInRange(s);
    SameDispatch(s, s.(users := users));
  }

  lemma UsersStatic(s: Sys, users: set<Id>)
    requires Loops(s) && Fds(s) && Ids(s) && Worlds(s) && forall c <- users :: LiveId(s, c)
    ensures var t := s.(users := users); Loops(t) && Fds(t) && Ids(t) && Worlds(t)
  {
    var t := s.(users := users);
    forall k | 0 <= k < |t.loops| ensures LoopShape(t.loops[k]) && LoopLive(t, t.loops[k]) {
      assert LoopShape(s.loops[k]) && LoopLive(s, s.loops[k]);
    }
    SameWorlds(s, t);
  }

  lemma UsersConns(s: Sys, users: set<Id>)
    requires forall d <- s.conns :: Local(s, d) && Counts(s, d, StageOf(s, d))
    ensures var t := s.(users := users); forall d <- t.conns :: Local(t, d) && Counts(t, d, StageOf(t, d))
  {
    var t := s.(users := users);
    AllCountsSame(s, t);
    forall d | d in t.conns ensures Local(t, d) { LocalFrame(s, t, d); }
  }

  lemma SameDispatch(s: Sys, t: Sys)
    requires Dispatch(s) && t.loops == s.loops && t.server == s.server
    requires forall c | LiveId(s, c) :: s.conns[c].loop < |s.loops|
    requires forall c | LiveId(s, c) && !StageOf(s, c).Finished? :: c in t.conns && t.conns[c] == s.conns[c]
    ensures Dispatch(t)
  {
    forall l: nat | l < |t.loops| && t.loops[l].phase.Dispatching? ensures DispatchOk(t, l, t.loops[l].phase.active) {
      var active := s.loops[l].phase.active;
      assert DispatchOk(s, l, active);
      forall i | 0 <= i < |active| ensures ActiveOk(t, l, active[i], i == 0) {
        assert ActiveOk(s, l, active[i], i == 0);
      }
    }
  }

  /** Only a finished connection is without an owner. */
  lemma UnownedFinished(s: Sys, c: Id)
    requires Whole(s) && LiveId(s, c) && c !in s.server
    requires forall l | 0 <= l < |s.loops| ::
      (forall f <- s.loops[l].batch :: f.conn != c) && (forall f <- s.loops[l].pending :: f.conn != c)
    ensures StageOf(s, c).Finished?
  {
    assert Local(s, c) && Counts(s, c, StageOf(s, c));
    var l := s.conns[c].loop;
    assert CountsOn(s.loops[l], l, c, l, StageOf(s, c));
    assert Destroy(c) !in s.loops[l].batch && Destroy(c) !in s.loops[l].pending;
    assert Count(s.loops[l], Destroy(c)) == 0;
  }

  lemma ReclaimStep(s: Sys, c: Id)
    requires Inv(s) && Enabled(s, Reclaim(c))
    ensures AssertsHold(s, Reclaim(c)) && Inv(After(s, Reclaim(c)))
  {
    UnownedFinished(s, c);
    assert Local(s, c);
    forall l: nat | HeadConn(s, l) ensures s.loops[l].phase.active[0].id != c {
      assert DispatchOk(s, l, s.loops[l].phase.active) && ActiveOk(s, l, s.loops[l].phase.active[0], true);
    }
    ReclaimWhole(s, c);
    LoopsInRange(s);
    SameDispatch(s, s.(conns := s.conns[c := s.conns[c].(alive := false)]));
  }

  lemma ReclaimWhole(s: Sys, c: Id)
    requires Whole(s) && LiveId(s, c) && !Referenced(s, c) && StageOf(s, c).Finished?
    ensures Whole(s.(conns := s.conns[c := s.conns[c].(alive := false)]))
  {
    var t := s.(conns := s.conns[c := s.conns[c].(alive := false)]);
    ReclaimStatic(s, c);
    assert Local(s, c);
    ReclaimLocal(s, c);
    forall d | d in t.conns ensures Local(t, d) && Counts(t, d, StageOf(t, d)) {
      TouchedConn(s, c, s.conns[c].(alive := false), d);
    }
  }

  lemma ReclaimLocal(s: Sys, c: Id)
    requires c in s.conns && Local(s, c) && StageOf(s, c).Finished?
    ensures var t := s.(conns := s.conns[c := s.conns[c].(alive := false)]);
            Local(t, c) && StageOf(t, c) == StageOf(s, c)
  {}

  lemma ReclaimStatic(s: Sys, c: Id)
    requires Loops(s) && Fds(s) && Ids(s) && Worlds(s) && LiveId(s, c) && !Referenced(s, c)
    ensures var t := s.(conns := s.conns[c := s.conns[c].(alive := false)]); Loops(t) && Fds(t) && Ids(t) && Worlds(t)
  {
    ReclaimLoops(s, c);
    SameWorlds(s, s.(conns := s.conns[c := s.conns[c].(alive := false)]));
  }

  lemma ReclaimLoops(s: Sys, c: Id)
    requires Loops(s) && LiveId(s, c) && !Referenced(s, c)
    ensures Loops(s.(conns := s.conns[c := s.conns[c].(alive := false)]))
  {
    var t := s.(conns := s.conns[c := s.conns[c].(alive := false)]);
    forall k | 0 <= k < |t.loops| ensures LoopShape(t.loops[k]) && LoopLive(t, t.loops[k]) {
      assert LoopShape(s.loops[k]) && LoopLive(s, s.loops[k]);
    }
  }

  lemma StepKeepsInv(s: Sys, step: Step)
    requires Inv(s) && Enabled(s, step)
    ensures AssertsHold(s, step) && Inv(After(s, step))
  {
    match step
    case PollReturn(l, reports) => PollReturnStep(s, l, reports);
    case Act(l) =>
      ActAsserts(s, l);
      var a := s.loops[l].phase.active[0].todo[0];
      if Closes(a) { ActClose(s, l); } else { ActOther(s, l); }
    case Handled(l) => HandledStep(s, l);
    case Accept(fd) => AcceptStep(s, fd);
    case SwapPending(l) => SwapStep(s, l);
    case RunFunctor(l) => RunFunctorStep(s, l);
    case EndBatch(l) => EndBatchStep(s, l);
    case ForceClose(c) => ForceCloseStep(s, c);
    case Send(c) => SendStep(s, c);
    case Retain(c) => UsersStep(s, s.users + {c});
    case Release(c) => UsersStep(s, s.users - {c});
    case Reclaim(c) => ReclaimStep(s, c);
  }
}
