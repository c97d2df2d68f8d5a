/** Concrete runs in which a call that the protocol does not expect breaks it: the failing inputs
    behind the guards of forceClose and send are reachable. */
module ReactorRuns {
  import opened PollerModel
  import opened ConnModel
  import opened Reactor
  import opened ReactorInv
  import opened ReactorTheorems
  import opened ReactorProgress
  import opened ReactorGuards

  ghost predicate Reaches(s: Sys, t: Sys) { exists steps :: Leads(s, steps, t) }

  lemma ReachesItself(s: Sys)
    ensures Reaches(s, s)
  {
    assert Leads(s, [], s);
  }

  lemma Extends(s: Sys, t: Sys, next: Step)
    requires Reaches(s, t) && Enabled(t, next) && AssertsHold(t, next)
    ensures Reaches(s, After(t, next))
  {
    var steps :| Leads(s, steps, t);
    assert Leads(After(t, next), [], After(t, next));
    LeadsCons(t, next, [], After(t, next));
    LeadsAppend(s, steps, t, [next] + [], After(t, next));
  }

  const FD := 5
  const EMPTY: Poll<Id> := Poll(map[], map[], 0)

  /** A server without IO loops that has accepted one connection, 1. */
  function One(lp: Loop, conn: Conn, server: set<Id>, users: set<Id>): Sys {
    Sys([lp], map[1 := conn], server, users, 0, 2, [0])
  }

  // The connection and its poller: established, closed, destroyed.
  function Up1(): Conn { ConnModel.Established(NewConn(0, FD)) }
  function UpPoll(): Poll<Id> { OpPoll(EnableReading, EMPTY, 1, NewConn(0, FD).chan) }
  function Down1(): Conn { ConnModel.Closed(Up1()) }
  function DownPoll(): Poll<Id> { OpPoll(DisableAll, UpPoll(), 1, Up1().chan) }
  function Gone1(): Conn { ConnModel.Destroyed(Down1()) }
  function GonePoll(): Poll<Id> { DestroyedPoll(DownPoll(), 1, Down1()) }

  lemma PollFacts()
    ensures FD in UpPoll().kernel && UpPoll().kernel[FD].chan == 1
    ensures OpAsserts(DisableAll, UpPoll(), 1, Up1().chan)
    ensures DestroyAsserts(DownPoll(), 1, Down1()) && DestroyAsserts(DownPoll(), 1, Down1().(state := Disconnecting))
    ensures Gone1().chan.index.KNew? && FD !in GonePoll().channels && FD !in GonePoll().kernel
    ensures DestroyedPoll(DownPoll(), 1, Down1().(state := Disconnecting)) == GonePoll()
  {}

  // ---------------------------------------------------------------------------------------
  // Single steps of this server
  // ---------------------------------------------------------------------------------------

  lemma OneReported(s: Sys, l: nat, r: Report)
    requires Enabled(s, PollReturn(l, [r]))
    ensures After(s, PollReturn(l, [r])) == SetPhase(s, l, Dispatching([Expand(r)]))
  {
    var active := After(s, PollReturn(l, [r])).loops[l].phase.active;
    assert |active| == 1 && active[0] == Expand(r);
    assert active == [Expand(r)];
  }

  lemma SetOnly(lp: Loop, lp': Loop)
    ensures [lp][0 := lp'] == [lp']
  {}

  /** The acceptor is reported on an idle server. */
  lemma AcceptReported(k: nat)
    ensures Reaches(Init(k), SetPhase(Init(k), 0, Dispatching([AcceptReady])))
  {
    var s0 := Init(k);
    ReachesItself(s0);
    Extends(s0, s0, PollReturn(0, [AcceptReport]));
    OneReported(s0, 0, AcceptReport);
  }

  lemma FirstAccept(k: nat)
    ensures var s := SetPhase(Init(k), 0, Dispatching([AcceptReady]));
            Enabled(s, Accept(FD)) && AssertsHold(s, Accept(FD))
            && After(s, Accept(FD)) == Accepting(SetPhase(Init(k), 0, Dispatching([])), FD)
  {
    var s0 := Init(k);
    var s := SetPhase(s0, 0, Dispatching([AcceptReady]));
    assert [AcceptReady][1..] == [];
    assert SetPhase(s, 0, Dispatching([])).loops == SetPhase(s0, 0, Dispatching([])).loops;
  }

  lemma Accepts()
    ensures Reaches(Init(0), One(Loop(Dispatching([]), [], [], {}, UpPoll()), Up1(), {1}, {}))
  {
    AcceptReported(0);
    FirstAccept(0);
    var s1 := SetPhase(Init(0), 0, Dispatching([AcceptReady]));
    Extends(Init(0), s1, Accept(FD));
    var idle := Loop(Polling, [], [], {}, EMPTY);
    assert Init(0).loops == [idle];
    SetOnly(idle, idle.(phase := Dispatching([])));
    SetOnly(idle.(phase := Dispatching([])), idle.(phase := Dispatching([]), poll := UpPoll()));
    var t := Accepting(SetPhase(Init(0), 0, Dispatching([])), FD);
    assert t.loops == [idle.(phase := Dispatching([]), poll := UpPoll())];
    assert t.conns == map[1 := Up1()];
    assert t.placed == [0] && t.server == {1};
  }

  lemma Swaps(s0: Sys, p: seq<Functor<Id>>, held: set<Id>, poll: Poll<Id>, conn: Conn, server: set<Id>, users: set<Id>)
    requires Reaches(s0, One(Loop(Dispatching([]), p, [], held, poll), conn, server, users))
    ensures Reaches(s0, One(Loop(Running, [], p, held, poll), conn, server, users))
  {
    var s := One(Loop(Dispatching([]), p, [], held, poll), conn, server, users);
    Extends(s0, s, SwapPending(0));
    assert After(s, SwapPending(0)).loops == [Loop(Running, [], p, held, poll)];
  }

  lemma Ends(s0: Sys, p: seq<Functor<Id>>, held: set<Id>, poll: Poll<Id>, conn: Conn, server: set<Id>, users: set<Id>)
    requires Reaches(s0, One(Loop(Running, p, [], held, poll), conn, server, users))
    ensures Reaches(s0, One(Loop(Polling, p, [], {}, poll), conn, server, users))
  {
    var s := One(Loop(Running, p, [], held, poll), conn, server, users);
    Extends(s0, s, EndBatch(0));
    assert After(s, EndBatch(0)).loops == [Loop(Polling, p, [], {}, poll)];
  }

  lemma Finishes(s0: Sys, p: seq<Functor<Id>>, poll: Poll<Id>, conn: Conn, server: set<Id>, users: set<Id>)
    requires Reaches(s0, One(Loop(Dispatching([ConnReady(1, [])]), p, [], {}, poll), conn, server, users))
    ensures Reaches(s0, One(Loop(Dispatching([]), p, [], {}, poll), conn, server, users))
  {
    var s := One(Loop(Dispatching([ConnReady(1, [])]), p, [], {}, poll), conn, server, users);
    Extends(s0, s, Handled(0));
    assert [ConnReady(1, [])][1..] == [];
    assert After(s, Handled(0)).loops == [Loop(Dispatching([]), p, [], {}, poll)];
  }

  /** The peer has sent its end of file and can still receive; later, a reset is reported as a hang-up. */
  const END_OF_FILE: Report := ConnReport(1, EPOLLIN, 0, false)
  const HANG_UP: Report := ConnReport(1, EPOLLHUP, -1, false)

  lemma ReportActions()
    ensures Expand(END_OF_FILE) == ConnReady(1, [ReadAct(0)]) && !DoubleClose(EPOLLIN, 0)
    ensures Expand(HANG_UP) == ConnReady(1, [CloseAct]) && !DoubleClose(EPOLLHUP, -1)
  {
    assert !HangsUp(EPOLLIN) && Reads(EPOLLIN) && !Has(EPOLLIN, EPOLLOUT) && !Has(EPOLLIN, EPOLLERR);
    HangUpActions();
  }

  lemma ReportedNow(s0: Sys, r: Report, poll: Poll<Id>, conn: Conn, server: set<Id>, users: set<Id>)
    requires Reaches(s0, One(Loop(Polling, [], [], {}, poll), conn, server, users))
    requires FD in poll.kernel && poll.kernel[FD].chan == 1 && (r == END_OF_FILE || r == HANG_UP)
    ensures Reaches(s0, One(Loop(Dispatching([Expand(r)]), [], [], {}, poll), conn, server, users))
  {
    var s := One(Loop(Polling, [], [], {}, poll), conn, server, users);
    ReportActions();
    assert FD in s.loops[0].poll.kernel;
    Extends(s0, s, PollReturn(0, [r]));
    OneReported(s, 0, r);
    assert After(s, PollReturn(0, [r])).loops == [Loop(Dispatching([Expand(r)]), [], [], {}, poll)];
  }

  lemma Closes1(s0: Sys, poll: Poll<Id>, conn: Conn, users: set<Id>)
    requires Reaches(s0, One(Loop(Dispatching([ConnReady(1, [ReadAct(0)])]), [], [], {}, poll), conn, {1}, users))
    requires conn.loop == 0 && conn.alive && conn.Open() && OpAsserts(DisableAll, poll, 1, conn.chan)
    ensures var closed := OpPoll(DisableAll, poll, 1, conn.chan);
            Reaches(s0, One(Loop(Dispatching([ConnReady(1, [])]), [Destroy(1)], [], {}, closed),
                            ConnModel.Closed(conn), {}, users))
  {
    var s := One(Loop(Dispatching([ConnReady(1, [ReadAct(0)])]), [], [], {}, poll), conn, {1}, users);
    Extends(s0, s, Act(0));
    var lp := Loop(Dispatching([ConnReady(1, [])]), [], [], {}, poll);
    assert [ReadAct(0)][1..] == [] && [ConnReady(1, [])] + [ConnReady(1, [ReadAct(0)])][1..] == [ConnReady(1, [])];
    SetOnly(s.loops[0], lp);
    assert After(s, Act(0)) == Closing(One(lp, conn, {1}, users), 1);
    ClosingOne(lp, conn, users);
    assert lp.pending + [Destroy(1)] == [Destroy(1)];
  }

  lemma ClosingOne(lp: Loop, conn: Conn, users: set<Id>)
    requires conn.loop == 0
    ensures Closing(One(lp, conn, {1}, users), 1)
         == One(lp.(pending := lp.pending + [Destroy(1)], poll := OpPoll(DisableAll, lp.poll, 1, conn.chan)),
                ConnModel.Closed(conn), {}, users)
  {
    var lp1 := lp.(poll := OpPoll(DisableAll, lp.poll, 1, conn.chan));
    SetOnly(lp, lp1);
    SetOnly(lp1, lp1.(pending := lp1.pending + [Destroy(1)]));
    SetConn(conn, ConnModel.Closed(conn));
    assert {1} - {AsInt32(1)} == {};
  }

  lemma SetConn(conn: Conn, conn': Conn)
    ensures map[1 := conn][1 := conn'] == map[1 := conn']
  {}

  lemma Destroys(s0: Sys, rest: seq<Functor<Id>>, poll: Poll<Id>, conn: Conn, server: set<Id>, users: set<Id>)
    requires Reaches(s0, One(Loop(Running, [], [Destroy(1)] + rest, {}, poll), conn, server, users))
    requires conn.loop == 0 && conn.alive && DestroyAsserts(poll, 1, conn)
    ensures Reaches(s0, One(Loop(Running, [], rest, {1}, DestroyedPoll(poll, 1, conn)), ConnModel.Destroyed(conn),
            server, users))
  {
    var s := One(Loop(Running, [], [Destroy(1)] + rest, {}, poll), conn, server, users);
    Extends(s0, s, RunFunctor(0));
    assert ([Destroy(1)] + rest)[1..] == rest && {} + {1} == {1};
    var lp := Loop(Running, [], rest, {1}, poll);
    SetOnly(s.loops[0], lp);
    assert After(s, RunFunctor(0)) == Destroying(One(lp, conn, server, users), 1);
    DestroyingOne(lp, conn, server, users);
  }

  lemma DestroyingOne(lp: Loop, conn: Conn, server: set<Id>, users: set<Id>)
    requires conn.loop == 0
    ensures Destroying(One(lp, conn, server, users), 1)
         == One(lp.(poll := DestroyedPoll(lp.poll, 1, conn)), ConnModel.Destroyed(conn), server, users)
  {
    SetOnly(lp, lp.(poll := DestroyedPoll(lp.poll, 1, conn)));
    SetConn(conn, ConnModel.Destroyed(conn));
  }

  lemma ForcingOne(lp: Loop, conn: Conn, server: set<Id>, users: set<Id>)
    requires conn.loop == 0
    ensures ForceClosing(One(lp, conn, server, users), 1)
         == One(lp.(pending := lp.pending + [CloseForced(1)]), conn.(state := Disconnecting), server, users)
  {
    SetOnly(lp, lp.(pending := lp.pending + [CloseForced(1)]));
    SetConn(conn, conn.(state := Disconnecting));
  }

  lemma SendingOne(lp: Loop, conn: Conn, server: set<Id>, users: set<Id>)
    requires conn.loop == 0
    ensures Sending(One(lp, conn, server, users), 1)
         == One(lp.(poll := OpPoll(EnableWriting, lp.poll, 1, conn.chan)),
               conn.(chan := OpChan(EnableWriting, conn.chan)), server, users)
  {
    SetOnly(lp, lp.(poll := OpPoll(EnableWriting, lp.poll, 1, conn.chan)));
    SetConn(conn, conn.(chan := OpChan(EnableWriting, conn.chan)));
  }

  /** The peer's end of file is read: handelClose has run, and connectDestroyed is queued. */
  lemma EndOfFileRun()
    ensures Reaches(Init(0),
            One(Loop(Dispatching([ConnReady(1, [])]), [Destroy(1)], [], {}, DownPoll()), Down1(), {}, {}))
  {
    PollFacts();
    Accepts();
    Swaps(Init(0), [], {}, UpPoll(), Up1(), {1}, {});
    Ends(Init(0), [], {}, UpPoll(), Up1(), {1}, {});
    ReportActions();
    ReportedNow(Init(0), END_OF_FILE, UpPoll(), Up1(), {1}, {});
    Closes1(Init(0), UpPoll(), Up1(), {});
  }

  // ---------------------------------------------------------------------------------------
  // forceClose on a closed connection, for instance from its down callback
  // ---------------------------------------------------------------------------------------

  /** The state s of a closed connection is reachable, and an unguarded forceClose leads on to t. */
  ghost predicate ForcedLate(s: Sys, t: Sys) {
    && Reaches(Init(0), s) && LiveId(s, 1) && s.conns[1].state.Disconnected? && s.conns[1].loop < |s.loops|
    && Reaches(ForceClosing(s, 1), t) && 1 in t.conns
  }

  /** forceClose in a reachable state with a living, disconnected connection leads to a run without a
      failing assert at whose end the connection was closed twice, once more after connectDestroyed. */
  lemma LateForceCloseRun()
    ensures exists s, t :: ForcedLate(s, t) && t.conns[1].hist == [Up, Down, Gone, Down] && !Shape(t.conns[1].hist)
  {
    EndOfFileRun();
    var lp := Loop(Dispatching([ConnReady(1, [])]), [Destroy(1)], [], {}, DownPoll());
    ForcingOne(lp, Down1(), {}, {});
    var t := ForcedTail(ForceClosing(One(lp, Down1(), {}, {}), 1));
    assert ForcedLate(One(lp, Down1(), {}, {}), t);
    assert t.conns[1].hist[1] == Down;
  }

  lemma ForcedTail(f: Sys) returns (t: Sys)
    requires var lp := Loop(Dispatching([ConnReady(1, [])]), [Destroy(1)] + [CloseForced(1)], [], {}, DownPoll());
             f == One(lp, Down1().(state := Disconnecting), {}, {})
    ensures Reaches(f, t) && 1 in t.conns && t.conns[1].hist == [Up, Down, Gone, Down]
  {
    PollFacts();
    var conn := Down1().(state := Disconnecting);
    var both: seq<Functor<Id>> := [Destroy(1)] + [CloseForced(1)];
    ReachesItself(f);
    Finishes(f, both, DownPoll(), conn, {}, {});
    Swaps(f, both, {}, DownPoll(), conn, {}, {});
    Destroys(f, [CloseForced(1)], DownPoll(), conn, {}, {});
    t := ClosesAgain(f, ConnModel.Destroyed(conn));
  }

  lemma ClosesAgain(s0: Sys, conn: Conn) returns (t: Sys)
    requires Reaches(s0, One(Loop(Running, [], [CloseForced(1)], {1}, GonePoll()), conn, {}, {}))
    requires conn.loop == 0 && conn.alive && conn.Open() && conn.chan == Gone1().chan
    ensures Reaches(s0, t) && 1 in t.conns && t.conns[1].hist == conn.hist + [Down]
  {
    PollFacts();
    var s := One(Loop(Running, [], [CloseForced(1)], {1}, GonePoll()), conn, {}, {});
    Extends(s0, s, RunFunctor(0));
    t := After(s, RunFunctor(0));
  }

  // ---------------------------------------------------------------------------------------
  // forceClose before connectEstablished
  // ---------------------------------------------------------------------------------------

  /** One IO loop, and an accepted connection that it has still to establish. */
  function Two(base: Loop, io: Loop, conn: Conn): Sys { Sys([base, io], map[1 := conn], {1}, {}, 0, 2, [1]) }

  function Waiting(p: seq<Functor<Id>>, conn: Conn): Sys {
    Two(Loop(Dispatching([]), [], [], {}, EMPTY), Loop(Polling, p, [], {}, EMPTY), conn)
  }

  function Started(p: seq<Functor<Id>>, conn: Conn): Sys {
    Two(Loop(Dispatching([]), [], [], {}, EMPTY), Loop(Running, [], p, {}, EMPTY), conn)
  }

  lemma SetSecond(a: Loop, b: Loop, b': Loop)
    ensures [a, b][1 := b'] == [a, b']
  {}

  lemma AcceptsElsewhere()
    ensures Reaches(Init(1), Waiting([Establish(1)], NewConn(1, FD)))
  {
    AcceptReported(1);
    FirstAccept(1);
    Extends(Init(1), SetPhase(Init(1), 0, Dispatching([AcceptReady])), Accept(FD));
    AcceptedElsewhere(SetPhase(Init(1), 0, Dispatching([])));
  }

  lemma AcceptedElsewhere(s: Sys)
    requires s == SetPhase(Init(1), 0, Dispatching([]))
    ensures Accepting(s, FD) == Waiting([Establish(1)], NewConn(1, FD))
  {
    var base, io := Loop(Dispatching([]), [], [], {}, EMPTY), Loop(Polling, [], [], {}, EMPTY);
    assert s.loops == [base, io];
    SetSecond(base, io, io.(pending := io.pending + [Establish(1)]));
    assert [] + [Establish(1)] == [Establish(1)] && Accepting(s, FD).placed == [1];
  }

  lemma StartsBatch(s0: Sys, p: seq<Functor<Id>>, conn: Conn)
    requires Reaches(s0, Waiting(p, conn))
    ensures Reaches(s0, Started(p, conn))
  {
    var s := Waiting(p, conn);
    var base, io := s.loops[0], s.loops[1];
    Extends(s0, s, PollReturn(1, []));
    assert After(s, PollReturn(1, [])).loops[1].phase.active == [];
    SetSecond(base, io, io.(phase := Dispatching([])));
    var m := Two(base, io.(phase := Dispatching([])), conn);
    assert After(s, PollReturn(1, [])) == m;
    Extends(s0, m, SwapPending(1));
    SetSecond(base, m.loops[1], io.(phase := Running, batch := p, pending := []));
  }

  /** The state s between accept and the queued connectEstablished is reachable, and an unguarded
      forceClose leads on to t. */
  ghost predicate ForcedEarly(s: Sys, t: Sys) {
    && Reaches(Init(1), s) && LiveId(s, 1) && s.conns[1].state.Connecting? && s.conns[1].loop < |s.loops|
    && Reaches(ForceClosing(s, 1), t)
  }

  /** There connectEstablished fails its state assert. */
  lemma EarlyForceCloseRun()
    ensures exists s, t :: ForcedEarly(s, t) && Enabled(t, RunFunctor(1)) && !AssertsHold(t, RunFunctor(1))
  {
    AcceptsElsewhere();
    var s, conn := Waiting([Establish(1)], NewConn(1, FD)), NewConn(1, FD).(state := Disconnecting);
    var both: seq<Functor<Id>> := [Establish(1)] + [CloseForced(1)];
    SetSecond(s.loops[0], s.loops[1], Waiting(both, conn).loops[1]);
    SetConn(NewConn(1, FD), conn);
    assert ForceClosing(s, 1) == Waiting(both, conn);
    ReachesItself(Waiting(both, conn));
    StartsBatch(Waiting(both, conn), both, conn);
    assert ForcedEarly(s, Started(both, conn));
  }

  // ---------------------------------------------------------------------------------------
  // send on a closed connection
  // ---------------------------------------------------------------------------------------

  lemma Retains(s0: Sys, lp: Loop, conn: Conn)
    requires Reaches(s0, One(lp, conn, {}, {})) && conn.alive
    ensures Reaches(s0, One(lp, conn, {}, {1}))
  {
    var s := One(lp, conn, {}, {});
    Extends(s0, s, Retain(1));
    assert {} + {1} == {1};
    assert After(s, Retain(1)) == One(lp, conn, {}, {1});
  }

  /** A functor of user code holds the pointer; connectDestroyed has just run before it in the batch. */
  lemma KeptRun()
    ensures Reaches(Init(0), One(Loop(Running, [], [], {1}, GonePoll()), Gone1(), {}, {1}))
  {
    PollFacts();
    EndOfFileRun();
    var p: seq<Functor<Id>> := [Destroy(1)];
    Retains(Init(0), Loop(Dispatching([ConnReady(1, [])]), p, [], {}, DownPoll()), Down1());
    Finishes(Init(0), p, DownPoll(), Down1(), {}, {1});
    Swaps(Init(0), p, {}, DownPoll(), Down1(), {}, {1});
    assert p == [Destroy(1)] + [];
    Destroys(Init(0), [], DownPoll(), Down1(), {}, {1});
  }

  /** The state s of a closed connection is reachable, an in-loop send with bytes left over passes the
      poller's asserts, and it leads on to t. */
  ghost predicate SentLate(s: Sys, t: Sys) {
    && Reaches(Init(0), s) && LiveId(s, 1) && s.conns[1].state.Disconnected? && s.conns[1].loop < |s.loops|
    && OpAsserts(EnableWriting, s.loops[s.conns[1].loop].poll, 1, s.conns[1].chan)
    && Reaches(Sending(s, 1), t)
  }

  /** On a connection that its peer's end of file closed, and that can still be written to, the send
      registers the channel again; a reset is then reported for it, and handelClose fails its state assert. */
  lemma LateSendRun()
    ensures exists s, t :: SentLate(s, t) && Enabled(t, Act(0)) && !AssertsHold(t, Act(0))
  {
    PollFacts();
    KeptRun();
    var lp := Loop(Running, [], [], {1}, GonePoll());
    SendingOne(lp, Gone1(), {}, {1});
    var t := SentTail(Sending(One(lp, Gone1(), {}, {1}), 1));
    assert SentLate(One(lp, Gone1(), {}, {1}), t);
  }

  lemma SentTail(f: Sys) returns (t: Sys)
    requires var poll := OpPoll(EnableWriting, GonePoll(), 1, Gone1().chan);
             f == One(Loop(Running, [], [], {1}, poll), Gone1().(chan := OpChan(EnableWriting, Gone1().chan)), {}, {1})
    ensures Reaches(f, t) && Enabled(t, Act(0)) && !AssertsHold(t, Act(0))
  {
    PollFacts();
    var poll := OpPoll(EnableWriting, GonePoll(), 1, Gone1().chan);
    ReachesItself(f);
    Ends(f, [], {1}, poll, f.conns[1], {}, {1});
    ReportActions();
    ReportedNow(f, HANG_UP, poll, f.conns[1], {}, {1});
    t := One(Loop(Dispatching([ConnReady(1, [CloseAct])]), [], [], {}, poll), f.conns[1], {}, {1});
  }
}
