/** The multi-loop server as a transition system: loop 0 is the base loop that accepts, the other
    loops are IO loops; with no IO loop the base loop does everything inline. Any interleaving of
    the loops' steps and of calls from other threads is a run. */
module Reactor {
  import opened PollerModel
  import opened ConnModel

  type Id = int

  /** One ready channel as epoll_wait reports it: a connection with the callbacks its revents
      trigger, or the acceptor. */
  datatype Ready = ConnReady(id: Id, todo: seq<Action>) | AcceptReady

  /** What the environment chooses for one ready connection. */
  datatype Report = ConnReport(id: Id, revents: bv32, n: int, drains: bool) | AcceptReport

  datatype Phase = Polling | Dispatching(active: seq<Ready>) | Running

  datatype Loop = Loop(
    phase: Phase,
    pending: seq<Functor<Id>>,   // _pendingFunctors
    batch: seq<Functor<Id>>,     // swapped functors that have not run
    held: set<Id>,               // connections bound by functors of this batch that have run
    poll: Poll<Id>)

  datatype Sys = Sys(
    loops: seq<Loop>,
    conns: map<Id, Conn>,        // every TcpConnection ever made
    server: set<Id>,             // keys of TcpServer::_connections
    users: set<Id>,              // connections that user code keeps a TcpConnectionPtr to
    nextIdx: nat,                // EventLoopThreadPool::_next_idx
    nextId: int,                 // TcpServer::_next_conn_id
    placed: seq<nat>)          // history: loop of each accepted connection

  function Init(ioLoops: nat): Sys {
    Sys(seq(1 + ioLoops, _ => Loop(Polling, [], [], {}, Poll(map[], map[], 0))), map[], {}, {}, 0, 1, [])
  }

  datatype Step =
    | PollReturn(l: nat, reports: seq<Report>)
    | Act(l: nat)              // the next callback of the channel being handled
    | Handled(l: nat)          // handleEvent returns; also an accept() that fails
    | Accept(fd: int)          // the acceptor's read callback
    | SwapPending(l: nat)
    | RunFunctor(l: nat)
    | EndBatch(l: nat)
    | ForceClose(c: Id)        // from any thread that can reach the connection
    | Send(c: Id)              // an in-loop send that leaves bytes over
    | Retain(c: Id) | Release(c: Id)
    | Reclaim(c: Id)           // the last TcpConnectionPtr goes away

  // ---------------------------------------------------------------------------------------
  // Effects
  // ---------------------------------------------------------------------------------------

  function Push(s: Sys, l: nat, f: Functor<Id>): Sys
    requires l < |s.loops|
  {
    s.(loops := s.loops[l := s.loops[l].(pending := s.loops[l].pending + [f])])
  }

  /** Writes back one connection and its loop's poller. */
  function Put(s: Sys, c: Id, conn: Conn, p: Poll<Id>): Sys
    requires conn.loop < |s.loops|
  {
    s.(conns := s.conns[c := conn], loops := s.loops[conn.loop := s.loops[conn.loop].(poll := p)])
  }

  function Establishing(s: Sys, c: Id): Sys
    requires c in s.conns && s.conns[c].loop < |s.loops|
  {
    var conn := s.conns[c];
    Put(s, c, ConnModel.Established(conn), OpPoll(EnableReading, s.loops[conn.loop].poll, c, conn.chan))
  }

  /** The id that erase() is called with: id() returns an int. */
  function AsInt32(id: int): int {
    var m := id % 0x1_0000_0000;
    if m < 0x8000_0000 then m else m - 0x1_0000_0000
  }

  lemma EraseFindsEntryIff(id: int)
    requires id >= 1
    ensures AsInt32(id) == id <==> id < 0x8000_0000
    ensures -0x8000_0000 <= AsInt32(id) < 0x8000_0000 && (AsInt32(id) - id) % 0x1_0000_0000 == 0
  {
    assert id >= 0x8000_0000 ==> AsInt32(id) < 0x8000_0000;
  }

  function Removing(s: Sys, c: Id): Sys
    requires c in s.conns && s.conns[c].loop < |s.loops|
  {
    Push(s.(server := s.server - {AsInt32(c)}), s.conns[c].loop, Destroy(c))
  }

  /** handelClose on the connection's loop; removeConnection runs inline when that is the base loop. */
  function Closing(s: Sys, c: Id): Sys
    requires c in s.conns && s.conns[c].loop < |s.loops|
  {
    var conn := s.conns[c];
    var t := Put(s, c, ConnModel.Closed(conn), OpPoll(DisableAll, s.loops[conn.loop].poll, c, conn.chan));
    if conn.loop == 0 then Removing(t, c) else Push(t, 0, RemoveConn(c))
  }

  function Destroying(s: Sys, c: Id): Sys
    requires c in s.conns && s.conns[c].loop < |s.loops|
  {
    var conn := s.conns[c];
    Put(s, c, ConnModel.Destroyed(conn), DestroyedPoll(s.loops[conn.loop].poll, c, conn))
  }

  function Acting(s: Sys, c: Id, a: Action): Sys
    requires c in s.conns && s.conns[c].loop < |s.loops|
  {
    var conn := s.conns[c];
    var x := Acted(Side(conn, s.loops[conn.loop].poll), c, a);
    if Closes(a) then Closing(s, c) else Put(s, c, x.conn, x.poll)
  }

  function Performing(s: Sys, f: Functor<Id>): Sys
    requires f.conn in s.conns && s.conns[f.conn].loop < |s.loops|
  {
    match f
    case Establish(c) => Establishing(s, c)
    case CloseForced(c) => if s.conns[c].Open() then Closing(s, c) else s
    case RemoveConn(c) => Removing(s, c)
    case Destroy(c) => Destroying(s, c)
  }

  function SideOf(s: Sys, c: Id): Side<Id>
    requires c in s.conns && s.conns[c].loop < |s.loops|
  {
    Side(s.conns[c], s.loops[s.conns[c].loop].poll)
  }

  /** The functor that closing c leaves behind on the base loop. */
  function CloseLeaves(s: Sys, c: Id): Functor<Id>
    requires c in s.conns
  {
    if s.conns[c].loop == 0 then Destroy(c) else RemoveConn(c)
  }

  /** A callback changes its connection and poller as Acted says, and queues a functor exactly when it
      closes the connection. */
  lemma ActingSide(s: Sys, c: Id, a: Action, l: nat)
    requires c in s.conns && s.conns[c].loop < |s.loops| && l < |s.loops|
    ensures var t := Acting(s, c, a);
            && c in t.conns && t.conns[c].loop == s.conns[c].loop && |t.loops| == |s.loops|
            && SideOf(t, c) == Acted(SideOf(s, c), c, a)
            && t.loops[l].pending == s.loops[l].pending + (if Closes(a) && l == 0 then [CloseLeaves(s, c)] else [])
            && t.server == (if Closes(a) && s.conns[c].loop == 0 then s.server - {AsInt32(c)} else s.server)
  {}

  /** A functor changes its connection and poller as Performed says. */
  lemma PerformingSide(s: Sys, f: Functor<Id>)
    requires f.conn in s.conns && s.conns[f.conn].loop < |s.loops|
    ensures var t := Performing(s, f);
            && f.conn in t.conns && t.conns[f.conn].loop == s.conns[f.conn].loop && |t.loops| == |s.loops|
            && SideOf(t, f.conn) == Performed(SideOf(s, f.conn), f.conn, f)
  {}

  /** It queues connectDestroyed or the hop to the base loop exactly when it closes or removes. */
  lemma PerformingQueues(s: Sys, f: Functor<Id>, l: nat)
    requires f.conn in s.conns && s.conns[f.conn].loop < |s.loops| && l < |s.loops|
    ensures var t, c := Performing(s, f), f.conn; var closes := f.CloseForced? && s.conns[c].Open();
            && t.loops[l].pending == s.loops[l].pending
                 + (if closes && l == 0 then [CloseLeaves(s, c)]
                    else if f.RemoveConn? && l == s.conns[c].loop then [Destroy(c)] else [])
            && t.server == (if f.RemoveConn? || (closes && s.conns[c].loop == 0)
                            then s.server - {AsInt32(c)} else s.server)
  {}

  /** EventLoopThreadPool::getNextLoop. */
  function NextLoop(s: Sys): nat { if |s.loops| == 1 then 0 else 1 + s.nextIdx }
  function NextIdx(s: Sys): nat
    requires |s.loops| > 0
  { if |s.loops| == 1 then s.nextIdx else (s.nextIdx + 1) % (|s.loops| - 1) }

  /** The connection is made and entered into the server map, and nothing is queued for it yet. */
  function Entered(s: Sys, fd: int): Sys
    requires 0 < |s.loops|
  {
    var c, l := s.nextId, NextLoop(s);
    s.(conns := s.conns[c := NewConn(l, fd)], server := s.server + {c}, nextIdx := NextIdx(s),
       nextId := c + 1, placed := s.placed + [l])
  }

  /** TcpServer::onNewConnection; runInLoop is inline exactly when the chosen loop is the base loop. */
  function Accepting(s: Sys, fd: int): Sys
    requires 0 < |s.loops| && NextLoop(s) < |s.loops|
  {
    var c, l := s.nextId, NextLoop(s);
    if l == 0 then Establishing(Entered(s, fd), c) else Push(Entered(s, fd), l, Establish(c))
  }

  /** The new connection is in the server map under the next id. A single loop establishes it at once;
      otherwise exactly one functor on the loop whose turn it is will. */
  lemma AcceptingSide(s: Sys, fd: int, l: nat)
    requires 0 < |s.loops| && NextLoop(s) < |s.loops| && l < |s.loops|
    ensures var t, c := Accepting(s, fd), s.nextId;
            && c in t.conns && t.server == s.server + {c} && t.nextId == c + 1
            && t.conns[c].loop == (if |s.loops| == 1 then 0 else 1 + s.nextIdx)
            && t.conns[c].state == (if |s.loops| == 1 then Connected else Connecting)
            && t.conns[c].hist == (if |s.loops| == 1 then [Up] else [])
            && t.conns[c].chan.events == (if |s.loops| == 1 then EPOLLIN | EPOLLPRI else 0)
            && t.loops[l].pending == s.loops[l].pending
                 + (if |s.loops| > 1 && l == 1 + s.nextIdx then [Establish(c)] else [])
  {
    assert NON_EVENT | READ_EVENT == EPOLLIN | EPOLLPRI;
  }

  /** forceClose, which does not look at the state. */
  function ForceClosing(s: Sys, c: Id): Sys
    requires c in s.conns && s.conns[c].loop < |s.loops|
  {
    Push(s.(conns := s.conns[c := s.conns[c].(state := Disconnecting)]), s.conns[c].loop, CloseForced(c))
  }

  lemma ForceClosingSide(s: Sys, c: Id, l: nat)
    requires c in s.conns && s.conns[c].loop < |s.loops| && l < |s.loops|
    ensures var t := ForceClosing(s, c);
            && t.conns == s.conns[c := s.conns[c].(state := Disconnecting)]
            && t.loops[l].pending == s.loops[l].pending + (if l == s.conns[c].loop then [CloseForced(c)] else [])
            && t.loops[l].poll == s.loops[l].poll
  {}

  /** sendInloop with bytes left over, which does not look at the state either. */
  function Sending(s: Sys, c: Id): Sys
    requires c in s.conns && s.conns[c].loop < |s.loops|
  {
    var x := Enabling(SideOf(s, c), c);
    Put(s, c, x.conn, x.poll)
  }

  function Expand(r: Report): Ready {
    match r
    case ConnReport(id, revents, n, drains) => ConnReady(id, Actions(revents, n, drains))
    case AcceptReport => AcceptReady
  }

  function SetPhase(s: Sys, l: nat, p: Phase): Sys
    requires l < |s.loops|
  {
    s.(loops := s.loops[l := s.loops[l].(phase := p)])
  }

  // ---------------------------------------------------------------------------------------
  // Steps
  // ---------------------------------------------------------------------------------------

  /** epoll_wait returns registered channels, each at most once; the acceptor belongs to the base
      loop; a hang-up that can also be read carries EPOLLIN. */
  ghost predicate Reportable(s: Sys, l: nat, reports: seq<Report>)
    requires l < |s.loops|
  {
    && (forall r <- reports :: r.AcceptReport? ==> l == 0)
    && (forall r <- reports :: r.ConnReport? ==>
          !DoubleClose(r.revents, r.n) && exists fd <- s.loops[l].poll.kernel ::
                s.loops[l].poll.kernel[fd].chan == r.id)
    && (forall i, j | 0 <= i < j < |reports| && reports[i].ConnReport? && reports[j].ConnReport? ::
       reports[i].id != reports[j].id)
  }

  ghost predicate FdOpen(s: Sys, fd: int) {
    exists c <- s.conns :: s.conns[c].alive && s.conns[c].chan.fd == fd
  }

  predicate Head(s: Sys, l: nat) {
    l < |s.loops| && s.loops[l].phase.Dispatching? && s.loops[l].phase.active != []
  }

  predicate HeadConn(s: Sys, l: nat) {
    Head(s, l) && s.loops[l].phase.active[0].ConnReady?
  }

  /** Before it polls again the loop runs f. */
  predicate WillRun(lp: Loop, f: Functor<Id>) {
    f in lp.batch || (lp.phase.Dispatching? && f in lp.pending)
  }

  /** The dispatch that is under way has still to run a write callback that empties c's output buffer. */
  predicate WillDrain(lp: Loop, c: Id) {
    && lp.phase.Dispatching? && lp.phase.active != [] && lp.phase.active[0].ConnReady?
    && lp.phase.active[0].id == c && WriteAct(true) in lp.phase.active[0].todo
  }

  /** Before it polls again, connection c's loop puts c's channel in order: it runs connectEstablished or
      connectDestroyed, or a write callback that switches the write interest off. */
  predicate InHand(lp: Loop, c: Id) {
    WillRun(lp, Establish(c)) || WillRun(lp, Destroy(c)) || WillDrain(lp, c)
  }

  /** Where a send may leave bytes over. */
  predicate MaySend(s: Sys, c: Id)
    requires c in s.conns
  {
    s.conns[c].loop < |s.loops| && (s.conns[c].Open() || InHand(s.loops[s.conns[c].loop], c))
  }

  /** Somebody still owns the connection: the server map, user code, a queued functor, or a functor
      of a batch that has not ended. */
  ghost predicate Referenced(s: Sys, c: Id) {
    || c in s.server
    || c in s.users
    || exists l | 0 <= l < |s.loops| :: c in s.loops[l].held
         || (exists f <- s.loops[l].batch :: f.conn == c) || (exists f <- s.loops[l].pending :: f.conn == c)
  }

  ghost predicate Enabled(s: Sys, step: Step) {
    match step
    case PollReturn(l, reports) => l < |s.loops| && s.loops[l].phase.Polling? && Reportable(s, l, reports)
    case Act(l) => HeadConn(s, l) && s.loops[l].phase.active[0].todo != []
    case Handled(l) => Head(s, l) && (s.loops[l].phase.active[0].ConnReady? ==> s.loops[l].phase.active[0].todo == [])
    case Accept(fd) => Head(s, 0) && s.loops[0].phase.active[0].AcceptReady? && !FdOpen(s, fd) && s.nextId < 0x8000_0000
    case SwapPending(l) => l < |s.loops| && s.loops[l].phase == Dispatching([])
    case RunFunctor(l) => l < |s.loops| && s.loops[l].phase.Running? && s.loops[l].batch != []
    case EndBatch(l) => l < |s.loops| && s.loops[l].phase.Running? && s.loops[l].batch == []
    case ForceClose(c) => c in s.conns && s.conns[c].alive && s.conns[c].Open()
    case Send(c) => c in s.conns && s.conns[c].alive && MaySend(s, c)
    case Retain(c) => c in s.conns && s.conns[c].alive
    case Release(c) => c in s.users
    case Reclaim(c) => c in s.conns && s.conns[c].alive && !Referenced(s, c)
  }

  /** Every assert the code reaches in a step, the thread checks, and that no dead object is used. */
  ghost predicate AssertsHold(s: Sys, step: Step) {
    match step
    case Act(l) => HeadConn(s, l) && s.loops[l].phase.active[0].todo != [] &&
      (var c, a := s.loops[l].phase.active[0].id, s.loops[l].phase.active[0].todo[0];
       && c in s.conns && s.conns[c].alive && s.conns[c].loop == l
       && (Closes(a) ==>
             s.conns[c].Open() && OpAsserts(DisableAll, s.loops[l].poll, c, s.conns[c].chan))
       && (a.WriteAct? ==> OpAsserts(DisableWriting, s.loops[l].poll, c, s.conns[c].chan)))
    case RunFunctor(l) => l < |s.loops| && s.loops[l].batch != [] &&
      (var f := s.loops[l].batch[0];
       && f.conn in s.conns && s.conns[f.conn].alive
       && (var conn := s.conns[f.conn];
           && (if f.RemoveConn? then l == 0 else l == conn.loop)
           && conn.loop < |s.loops|
           && (f.Establish? ==> conn.state.Connecting? && OpAsserts(EnableReading, s.loops[l].poll, f.conn, conn.chan))
           && (f.CloseForced? && conn.Open() ==> OpAsserts(DisableAll, s.loops[l].poll, f.conn, conn.chan))
           && (f.Destroy? ==> DestroyAsserts(s.loops[l].poll, f.conn, conn))))
    case Accept(fd) => 0 < |s.loops| && NextLoop(s) < |s.loops| && s.nextId !in s.server && s.nextId !in s.conns
      && (NextLoop(s) == 0 ==> OpAsserts(EnableReading, s.loops[0].poll, s.nextId, NewConn(0, fd).chan))
    case ForceClose(c) => c in s.conns && s.conns[c].loop < |s.loops|
    case Send(c) => c in s.conns && s.conns[c].loop < |s.loops|
      && OpAsserts(EnableWriting, s.loops[s.conns[c].loop].poll, c, s.conns[c].chan)
    case Reclaim(c) => c in s.conns && s.conns[c].state.Disconnected? && !s.conns[c].chan.addedToLoop
      && forall l: nat | HeadConn(s, l) :: s.loops[l].phase.active[0].id != c
    case _ => true
  }

  ghost function After(s: Sys, step: Step): Sys
    requires Enabled(s, step) && AssertsHold(s, step)
  {
    match step
    case PollReturn(l, reports) => SetPhase(s, l,
          Dispatching(seq(|reports|, i requires 0 <= i < |reports| => Expand(reports[i]))))
    case Act(l) =>
      var active := s.loops[l].phase.active;
      var t := SetPhase(s, l, Dispatching([ConnReady(active[0].id, active[0].todo[1..])] + active[1..]));
      Acting(t, active[0].id, active[0].todo[0])
    case Handled(l) => SetPhase(s, l, Dispatching(s.loops[l].phase.active[1..]))
    case Accept(fd) => Accepting(SetPhase(s, 0, Dispatching(s.loops[0].phase.active[1..])), fd)
    case SwapPending(l) =>
      s.(loops := s.loops[l := s.loops[l].(phase := Running, batch := s.loops[l].pending, pending := [])])
    case RunFunctor(l) =>
      var lp := s.loops[l];
      Performing(s.(loops := s.loops[l := lp.(batch := lp.batch[1..], held := lp.held + {lp.batch[0].conn})]),
            lp.batch[0])
    case EndBatch(l) => s.(loops := s.loops[l := s.loops[l].(phase := Polling, held := {})])
    case ForceClose(c) => ForceClosing(s, c)
    case Send(c) => Sending(s, c)
    case Retain(c) => s.(users := s.users + {c})
    case Release(c) => s.(users := s.users - {c})
    case Reclaim(c) => s.(conns := s.conns[c := s.conns[c].(alive := false)])
  }
}
