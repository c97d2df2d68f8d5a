/** The invariant of the multi-loop server and its preservation by every step. */
module ReactorInv {
  import opened Common
  import opened PollerModel
  import opened ConnModel
  import opened Reactor

  /** Where a connection is in its life, read off its history and the server map. */
  datatype Stage = Fresh | Opened | Shut | Removed | Finished

  function StageOf(s: Sys, c: Id): Stage
    requires c in s.conns
  {
    var h := s.conns[c].hist;
    if h == [] then Fresh
    else match h[|h|-1]
      case Up => Opened
      case Message => Opened
      case Down => if c in s.server then Shut else Removed
      case Gone => Finished
  }

  predicate Chan0(ch: Chan) { ch.index.KNew? && !ch.addedToLoop }

  /** A send on a connection that is not open has registered its channel with write interest alone. */
  predicate SentLate(ch: Chan) { ch.index.KAdded? && ch.events == WRITE_EVENT }

  /** State, channel, reference and history of a connection agree with its stage. */
  ghost predicate Local(s: Sys, c: Id)
    requires c in s.conns
  {
    LocalAs(s, c, s.conns[c].loop < |s.loops| && InHand(s.loops[s.conns[c].loop], c))
  }

  /** The same, where late says whether a late send is accepted. */
  ghost predicate LocalAs(s: Sys, c: Id, late: bool)
    requires c in s.conns
  {
    var conn, st := s.conns[c], StageOf(s, c);
    && conn.loop < |s.loops|
    && Shape(conn.hist)
    && (st.Fresh? ==> conn.state.Connecting? && c in s.server)
    && (st.Fresh? ==> (Chan0(conn.chan) && conn.chan.events == NON_EVENT) || (late && SentLate(conn.chan)))
    && (st.Opened? ==>
          conn.Open() && conn.chan.index.KAdded? && conn.chan.events & READ_EVENT == READ_EVENT && c in s.server)
    && (st.Shut? || st.Removed? || st.Finished? ==> conn.state.Disconnected?)
    && (st.Shut? || st.Removed? ==>
          (conn.chan.index.KDeleted? && conn.chan.events == NON_EVENT) || (late && SentLate(conn.chan)))
    && (st.Finished? ==> Chan0(conn.chan) && c !in s.server)
    && (!conn.alive ==> st.Finished?)
  }

  /** How often a functor is queued on a loop and has not run. */
  function Count(lp: Loop, f: Functor<Id>): nat {
    multiset(lp.batch)[f] + multiset(lp.pending)[f]
  }

  /** In stage st exactly the functor that leads to the next stage is queued, once, on its loop. */
  ghost predicate CountsOn(lp: Loop, l: nat, c: Id, home: nat, st: Stage) {
    && Count(lp, Establish(c)) == Unit(st.Fresh? && l == home)
    && Count(lp, RemoveConn(c)) == Unit(st.Shut? && l == 0)
    && Count(lp, Destroy(c)) == Unit(st.Removed? && l == home)
    && (Count(lp, CloseForced(c)) > 0 ==> l == home && !st.Fresh?)
  }

  ghost predicate Counts(s: Sys, c: Id, st: Stage)
    requires c in s.conns
  {
    forall l: nat | l < |s.loops| :: CountsOn(s.loops[l], l, c, s.conns[c].loop, st)
  }

  ghost predicate LoopShape(lp: Loop) {
    lp.phase.Running? || (lp.batch == [] && lp.held == {})
  }

  ghost predicate LiveId(s: Sys, c: Id) { c in s.conns && s.conns[c].alive }

  ghost predicate LoopLive(s: Sys, lp: Loop) {
    && (forall f <- lp.batch :: LiveId(s, f.conn))
    && (forall f <- lp.pending :: LiveId(s, f.conn))
    && (forall c <- lp.held :: LiveId(s, c))
  }

  ghost predicate Loops(s: Sys) {
    && 0 < |s.loops|
    && (forall l | 0 <= l < |s.loops| :: LoopShape(s.loops[l]) && LoopLive(s, s.loops[l]))
  }

  ghost predicate Fds(s: Sys) {
    forall c, d | LiveId(s, c) && LiveId(s, d) && c != d :: s.conns[c].chan.fd != s.conns[d].chan.fd
  }

  /** The loop of the i-th accept. */
  function Slot(loops: nat, i: nat): nat { if loops <= 1 then 0 else 1 + i % (loops - 1) }

  ghost predicate Ids(s: Sys) {
    && s.nextId == 1 + |s.placed|
    && s.nextId <= 0x8000_0000
    && s.nextIdx == (if |s.loops| <= 1 then 0 else |s.placed| % (|s.loops| - 1))
    && (forall c :: c in s.conns <==> 1 <= c < s.nextId)
    && (forall c <- s.conns :: s.placed[c - 1] == s.conns[c].loop)
    && (forall i | 0 <= i < |s.placed| :: s.placed[i] == Slot(|s.loops|, i))
    && (forall c <- s.server :: c in s.conns)
    && (forall c <- s.users :: LiveId(s, c))
  }

  ghost function Chans(s: Sys, l: nat): map<Id, Chan> {
    map c | c in s.conns && s.conns[c].loop == l :: s.conns[c].chan
  }

  ghost function WorldOf(s: Sys, l: nat): World<Id>
    requires l < |s.loops|
  {
    World(Chans(s, l), s.loops[l].poll)
  }

  ghost predicate Worlds(s: Sys) {
    forall l: nat | l < |s.loops| :: Consistent(WorldOf(s, l))
  }

  /** A connection waiting to be handled, or being handled (head), by its loop. */
  ghost predicate ActiveOk(s: Sys, l: nat, r: Ready, head: bool) {
    match r
    case AcceptReady => l == 0
    case ConnReady(c, todo) =>
      && LiveId(s, c) && s.conns[c].loop == l
      && (StageOf(s, c).Opened? || (head && (StageOf(s, c).Shut? || StageOf(s, c).Removed?)))
      && Safe(todo, StageOf(s, c).Opened?)
  }

  ghost predicate DispatchOk(s: Sys, l: nat, active: seq<Ready>) {
    && (forall i | 0 <= i < |active| :: ActiveOk(s, l, active[i], i == 0))
    && (forall i, j | 0 <= i < j < |active| && active[i].ConnReady? && active[j].ConnReady? ::
       active[i].id != active[j].id)
  }

  ghost predicate Dispatch(s: Sys) {
    forall l: nat | l < |s.loops| && s.loops[l].phase.Dispatching? :: DispatchOk(s, l, s.loops[l].phase.active)
  }

  /** Everything but the dispatch lists, where connection c's queued functors are those of stage st, and
      c's loop may just have taken what it had in hand for c. */
  ghost predicate Core(s: Sys, c: Id, st: Stage) {
    && Loops(s) && Fds(s) && Ids(s) && Worlds(s)
    && (forall d <- s.conns ::
          (if d == c then LocalAs(s, d, true) else Local(s, d)) && Counts(s, d, if d == c then st else StageOf(s, d)))
  }

  ghost predicate Whole(s: Sys) {
    && Loops(s) && Fds(s) && Ids(s) && Worlds(s)
    && (forall d <- s.conns :: Local(s, d) && Counts(s, d, StageOf(s, d)))
  }

  ghost predicate Inv(s: Sys) { Whole(s) && Dispatch(s) }

  // ---------------------------------------------------------------------------------------
  // Building blocks
  // ---------------------------------------------------------------------------------------

  lemma PushCount(lp: Loop, f: Functor<Id>, g: Functor<Id>)
    ensures Count(lp.(pending := lp.pending + [f]), g) == Count(lp, g) + Unit(f == g)
  {}

  lemma PopCount(lp: Loop, g: Functor<Id>, held: set<Id>)
    requires lp.batch != []
    ensures Count(lp.(batch := lp.batch[1..], held := held), g) == Count(lp, g) - Unit(lp.batch[0] == g)
  {
    assert lp.batch == [lp.batch[0]] + lp.batch[1..];
  }

  /** Queueing a functor of c changes nobody else's counts. */
  lemma PushCounts(s: Sys, l: nat, f: Functor<Id>, d: Id, st: Stage, st': Stage)
    requires l < |s.loops| && d in s.conns && Counts(s, d, st)
    requires d != f.conn ==> st' == st
    requires d == f.conn ==> match f
      case Establish(_) => (st.Opened? || st.Finished?) && st'.Fresh? && l == s.conns[d].loop
                           && forall k: nat | k < |s.loops| :: Count(s.loops[k], CloseForced(d)) == 0
      case CloseForced(_) => st' == st && !st.Fresh? && l == s.conns[d].loop
      case RemoveConn(_) => (st.Opened? || st.Finished?) && st'.Shut? && l == 0
      case Destroy(_) => (st.Opened? || st.Finished?) && st'.Removed? && l == s.conns[d].loop
    ensures Counts(Push(s, l, f), d, st')
  {
    forall k: nat | k < |s.loops| ensures CountsOn(Push(s, l, f).loops[k], k, d, s.conns[d].loop, st') {
      assert CountsOn(s.loops[k], k, d, s.conns[d].loop, st);
      PushCount(s.loops[k], f, Establish(d));
      PushCount(s.loops[k], f, RemoveConn(d));
      PushCount(s.loops[k], f, Destroy(d));
      PushCount(s.loops[k], f, CloseForced(d));
    }
  }

  function Popped(s: Sys, l: nat): Sys
    requires l < |s.loops| && s.loops[l].batch != []
  {
    var lp := s.loops[l];
    s.(loops := s.loops[l := lp.(batch := lp.batch[1..], held := lp.held + {lp.batch[0].conn})])
  }

  /** The stage whose queued functors remain after one functor of c was taken from its loop. */
  function Taken(f: Functor<Id>, st: Stage): Stage {
    if f.CloseForced? then st else Opened
  }

  /** A queued functor tells the stage of its connection and the loop it runs on. */
  lemma HeadTells(s: Sys, l: nat)
    requires Inv(s) && l < |s.loops| && s.loops[l].batch != []
    ensures var f := s.loops[l].batch[0];
            && LiveId(s, f.conn)
            && (f.Establish? ==> StageOf(s, f.conn).Fresh? && l == s.conns[f.conn].loop)
            && (f.RemoveConn? ==> StageOf(s, f.conn).Shut? && l == 0)
            && (f.Destroy? ==> StageOf(s, f.conn).Removed? && l == s.conns[f.conn].loop)
            && (f.CloseForced? ==> !StageOf(s, f.conn).Fresh? && l == s.conns[f.conn].loop)
  {
    var f := s.loops[l].batch[0];
    assert LoopLive(s, s.loops[l]) && f in s.loops[l].batch;
    assert Counts(s, f.conn, StageOf(s, f.conn));
    assert CountsOn(s.loops[l], l, f.conn, s.conns[f.conn].loop, StageOf(s, f.conn));
    assert Count(s.loops[l], f) > 0;
  }

  lemma PoppedCounts(s: Sys, l: nat, d: Id)
    requires Inv(s) && l < |s.loops| && s.loops[l].batch != [] && d in s.conns
    ensures var f := s.loops[l].batch[0];
            Counts(Popped(s, l), d, if d == f.conn then Taken(f, StageOf(s, d)) else StageOf(s, d))
  {
    var f, t := s.loops[l].batch[0], Popped(s, l);
    var st := if d == f.conn then Taken(f, StageOf(s, d)) else StageOf(s, d);
    HeadTells(s, l);
    assert Counts(s, d, StageOf(s, d));
    forall k: nat | k < |s.loops| ensures CountsOn(t.loops[k], k, d, s.conns[d].loop, st) {
      assert CountsOn(s.loops[k], k, d, s.conns[d].loop, StageOf(s, d));
      if k == l {
        var held := s.loops[l].held + {f.conn};
        PopCount(s.loops[l], Establish(d), held);
        PopCount(s.loops[l], RemoveConn(d), held);
        PopCount(s.loops[l], Destroy(d), held);
        PopCount(s.loops[l], CloseForced(d), held);
      }
    }
  }

  /** What d's loop has in hand for d it still has, if it matters. */
  ghost predicate HandKept(s: Sys, t: Sys, d: Id)
    requires d in s.conns && |t.loops| == |s.loops|
  {
    var l := s.conns[d].loop;
    l < |s.loops| && SentLate(s.conns[d].chan) && InHand(s.loops[l], d) ==> InHand(t.loops[l], d)
  }

  lemma LocalFrame(s: Sys, t: Sys, d: Id)
    requires d in s.conns && d in t.conns && t.conns[d] == s.conns[d] && |t.loops| == |s.loops|
    requires d in t.server <==> d in s.server
    requires Local(s, d) && HandKept(s, t, d)
    ensures Local(t, d) && StageOf(t, d) == StageOf(s, d)
  {}

  lemma LateFrame(s: Sys, t: Sys, d: Id)
    requires d in s.conns && d in t.conns && t.conns[d] == s.conns[d] && |t.loops| == |s.loops|
    requires d in t.server <==> d in s.server
    requires LocalAs(s, d, true)
    ensures LocalAs(t, d, true) && StageOf(t, d) == StageOf(s, d)
  {}

  /** Queueing takes nothing out of a loop's hands. */
  lemma HandGrows(lp: Loop, lp': Loop, d: Id)
    requires lp'.phase == lp.phase && lp'.batch == lp.batch && lp.pending <= lp'.pending
    ensures InHand(lp, d) ==> InHand(lp', d)
  {
    assert forall f | f in lp.pending :: f in lp'.pending;
  }

  /** The connections of t are those of s up to state, channel bits and history. */
  ghost predicate SameConns(s: Sys, t: Sys) {
    && |t.loops| == |s.loops|
    && (forall c :: c in t.conns <==> c in s.conns)
    && (forall c | c in s.conns :: t.conns[c].loop == s.conns[c].loop
          && t.conns[c].chan.fd == s.conns[c].chan.fd && t.conns[c].alive == s.conns[c].alive)
    && t.nextId == s.nextId && t.nextIdx == s.nextIdx && t.placed == s.placed
    && t.server <= s.server && t.users == s.users
  }

  lemma StaticFrame(s: Sys, t: Sys)
    requires Fds(s) && Ids(s) && SameConns(s, t)
    ensures Fds(t) && Ids(t)
  {}

  lemma PoppedCore(s: Sys, l: nat)
    requires Inv(s) && l < |s.loops| && s.loops[l].phase.Running? && s.loops[l].batch != []
    ensures var f := s.loops[l].batch[0]; Core(Popped(s, l), f.conn, Taken(f, StageOf(s, f.conn)))
  {
    var f, t := s.loops[l].batch[0], Popped(s, l);
    forall d | d in t.conns
          ensures if d == f.conn then LocalAs(t, d, true) else Local(t, d)
          ensures Counts(t, d, if d == f.conn then Taken(f, StageOf(s, d)) else StageOf(t, d)) {
      PoppedConn(s, l, d);
    }
    PoppedStatic(s, l);
  }

  lemma PoppedConn(s: Sys, l: nat, d: Id)
    requires Inv(s) && l < |s.loops| && s.loops[l].batch != [] && d in s.conns
    ensures var f, t := s.loops[l].batch[0], Popped(s, l);
            && StageOf(t, d) == StageOf(s, d) && LocalAs(t, d, true)
            && (d != f.conn || f.RemoveConn? || f.CloseForced? ==> Local(t, d))
            && Counts(t, d, if d == f.conn then Taken(f, StageOf(s, d)) else StageOf(t, d))
  {
    assert Local(s, d);
    PoppedCounts(s, l, d);
    LateFrame(s, Popped(s, l), d);
    var f := s.loops[l].batch[0];
    if d != f.conn || f.RemoveConn? || f.CloseForced? {
      assert LoopShape(s.loops[l]) by { assert Loops(s); }
      PoppedHand(s.loops[l], f, d);
      LocalFrame(s, Popped(s, l), d);
    }
  }

  lemma PoppedHand(lp: Loop, f: Functor<Id>, d: Id)
    requires LoopShape(lp) && lp.batch != [] && lp.batch[0] == f && f != Establish(d) && f != Destroy(d)
    ensures InHand(lp, d) ==> InHand(lp.(batch := lp.batch[1..], held := lp.held + {f.conn}), d)
  {
    assert lp.batch == [f] + lp.batch[1..];
  }

  lemma PoppedStatic(s: Sys, l: nat)
    requires Inv(s) && l < |s.loops| && s.loops[l].phase.Running? && s.loops[l].batch != []
    ensures var t := Popped(s, l); Loops(t) && Fds(t) && Ids(t) && Worlds(t)
  {
    PoppedLoops(s, l);
    StaticFrame(s, Popped(s, l));
    SameWorlds(s, Popped(s, l));
  }

  lemma PoppedLoops(s: Sys, l: nat)
    requires Inv(s) && l < |s.loops| && s.loops[l].phase.Running? && s.loops[l].batch != []
    ensures Loops(Popped(s, l))
  {
    var t := Popped(s, l);
    forall k | 0 <= k < |t.loops| ensures LoopShape(t.loops[k]) && LoopLive(t, t.loops[k]) {
      assert LoopShape(s.loops[k]) && LoopLive(s, s.loops[k]);
    }
  }

  /** Worlds depend only on the channels and the pollers. */
  lemma SameWorlds(s: Sys, t: Sys)
    requires Worlds(s) && |t.loops| == |s.loops|
    requires forall c :: c in t.conns <==> c in s.conns
    requires forall c | c in s.conns :: t.conns[c].chan == s.conns[c].chan && t.conns[c].loop == s.conns[c].loop
    requires forall l | 0 <= l < |s.loops| :: t.loops[l].poll == s.loops[l].poll
    ensures Worlds(t)
  {
    forall l: nat | l < |t.loops| ensures Consistent(WorldOf(t, l)) {
      assert forall c :: c in Chans(t, l) <==> c in Chans(s, l);
      assert forall c | c in Chans(s, l) :: Chans(t, l)[c] == Chans(s, l)[c];
      assert Chans(t, l) == Chans(s, l);
      assert Consistent(WorldOf(s, l));
    }
  }

  // ---------------------------------------------------------------------------------------
  // Effects on one connection
  // ---------------------------------------------------------------------------------------

  /** Whatever a poller's fd map points to is a living connection of that loop with that fd. */
  lemma RegisteredAlive(s: Sys, l: nat, fd: int)
    requires Worlds(s) && l < |s.loops| && fd in s.loops[l].poll.channels
    requires forall d <- s.conns :: LocalAs(s, d, true)
    ensures var d := s.loops[l].poll.channels[fd];
            && LiveId(s, d) && s.conns[d].loop == l && s.conns[d].chan.fd == fd && !s.conns[d].chan.index.KNew?
  {
    var w := WorldOf(s, l);
    assert Consistent(w) && FdAgrees(w, fd);
    var d := w.poll.channels[fd];
    assert ChanAgrees(w.poll, d, w.chans[d]);
    assert LocalAs(s, d, true);
  }

  lemma CoreLocal(s: Sys, c: Id, st: Stage)
    requires Core(s, c, st)
    ensures forall d <- s.conns :: LocalAs(s, d, true)
  {
    forall d | d in s.conns ensures LocalAs(s, d, true) {
      if d != c { assert Local(s, d); }
    }
  }

  /** The fd of a connection that is not registered is free in its loop's poller, even when the
      kernel hands out an fd number again. */
  lemma UnregisteredFdFree(s: Sys, c: Id, st: Stage)
    requires Core(s, c, st) && LiveId(s, c) && s.conns[c].chan.index.KNew?
    ensures s.conns[c].chan.fd !in s.loops[s.conns[c].loop].poll.channels
  {
    var fd, l := s.conns[c].chan.fd, s.conns[c].loop;
    CoreLocal(s, c, st);
    if fd in s.loops[l].poll.channels { RegisteredAlive(s, l, fd); }
  }

  /** A channel operation on c and the matching poller update keep every loop's poller consistent. */
  lemma PutWorlds(s: Sys, c: Id, op: Op, conn: Conn)
    requires Worlds(s) && c in s.conns && s.conns[c].loop < |s.loops|
    requires conn.loop == s.conns[c].loop && conn.chan == OpChan(op, s.conns[c].chan)
    requires Allowed(op, s.loops[conn.loop].poll, s.conns[c].chan)
    ensures Worlds(Put(s, c, conn, OpPoll(op, s.loops[conn.loop].poll, c, s.conns[c].chan)))
  {
    var t := Put(s, c, conn, OpPoll(op, s.loops[conn.loop].poll, c, s.conns[c].chan));
    forall l: nat | l < |t.loops| ensures Consistent(WorldOf(t, l)) {
      assert Consistent(WorldOf(s, l));
      if l == conn.loop {
        OpKeepsConsistent(WorldOf(s, l), c, op);
        assert Chans(t, l) == Chans(s, l)[c := conn.chan];
      } else {
        assert Chans(t, l) == Chans(s, l);
      }
    }
  }

  lemma PutLoops(s: Sys, c: Id, conn: Conn, p: Poll<Id>)
    requires Loops(s) && c in s.conns && conn.loop < |s.loops| && conn.alive == s.conns[c].alive
    ensures Loops(Put(s, c, conn, p))
  {
    var t := Put(s, c, conn, p);
    forall k | 0 <= k < |t.loops| ensures LoopShape(t.loops[k]) && LoopLive(t, t.loops[k]) {
      assert LoopShape(s.loops[k]) && LoopLive(s, s.loops[k]);
    }
  }

  lemma PutCounts(s: Sys, c: Id, conn: Conn, p: Poll<Id>, d: Id, st: Stage)
    requires c in s.conns && conn.loop < |s.loops| && conn.loop == s.conns[c].loop
    requires d in s.conns && Counts(s, d, st)
    ensures Counts(Put(s, c, conn, p), d, st)
  {
    var t := Put(s, c, conn, p);
    forall k: nat | k < |t.loops| ensures CountsOn(t.loops[k], k, d, t.conns[d].loop, st) {
      assert CountsOn(s.loops[k], k, d, s.conns[d].loop, st);
    }
  }

  lemma PutLocal(s: Sys, c: Id, conn: Conn, p: Poll<Id>, d: Id)
    requires c in s.conns && conn.loop < |s.loops| && conn.loop == s.conns[c].loop
    requires d in s.conns && d != c && Local(s, d)
    ensures Local(Put(s, c, conn, p), d) && StageOf(Put(s, c, conn, p), d) == StageOf(s, d)
  {
    LocalFrame(s, Put(s, c, conn, p), d);
  }

  lemma PutCore(s: Sys, c: Id, st: Stage, op: Op, conn: Conn)
    requires Core(s, c, st) && c in s.conns && conn.loop == s.conns[c].loop < |s.loops|
             && conn.alive == s.conns[c].alive
    requires conn.chan == OpChan(op, s.conns[c].chan)
    requires Allowed(op, s.loops[conn.loop].poll, s.conns[c].chan)
    requires LocalAs(Put(s, c, conn, OpPoll(op, s.loops[conn.loop].poll, c, s.conns[c].chan)), c, true)
    ensures Core(Put(s, c, conn, OpPoll(op, s.loops[conn.loop].poll, c, s.conns[c].chan)), c, st)
  {
    var p := OpPoll(op, s.loops[conn.loop].poll, c, s.conns[c].chan);
    var t := Put(s, c, conn, p);
    PutWorlds(s, c, op, conn);
    PutLoops(s, c, conn, p);
    StaticFrame(s, t);
    forall d | d in t.conns
          ensures if d == c then LocalAs(t, d, true) else Local(t, d)
          ensures Counts(t, d, if d == c then st else StageOf(t, d)) {
      PutCounts(s, c, conn, p, d, if d == c then st else StageOf(s, d));
      if d != c { PutLocal(s, c, conn, p, d); }
    }
  }

  lemma PushLoops(s: Sys, l: nat, f: Functor<Id>)
    requires Loops(s) && l < |s.loops| && LiveId(s, f.conn)
    ensures Loops(Push(s, l, f))
  {
    var t := Push(s, l, f);
    forall k | 0 <= k < |t.loops| ensures LoopShape(t.loops[k]) && LoopLive(t, t.loops[k]) {
      assert LoopShape(s.loops[k]) && LoopLive(s, s.loops[k]);
    }
  }

  lemma PushCore(s: Sys, l: nat, f: Functor<Id>, st: Stage, st': Stage)
    requires Core(s, f.conn, st) && l < |s.loops| && LiveId(s, f.conn)
    requires match f
      case Establish(d) => (st.Opened? || st.Finished?) && st'.Fresh? && l == s.conns[d].loop
                           && forall k: nat | k < |s.loops| :: Count(s.loops[k], CloseForced(d)) == 0
      case CloseForced(d) => st' == st && !st.Fresh? && l == s.conns[d].loop
      case RemoveConn(d) => (st.Opened? || st.Finished?) && st'.Shut? && l == 0
      case Destroy(d) => (st.Opened? || st.Finished?) && st'.Removed? && l == s.conns[d].loop
    ensures Core(Push(s, l, f), f.conn, st')
  {
    var t := Push(s, l, f);
    PushStatic(s, l, f);
    forall d | d in t.conns
          ensures if d == f.conn then LocalAs(t, d, true) else Local(t, d)
          ensures Counts(t, d, if d == f.conn then st' else StageOf(t, d)) {
      LateFrame(s, t, d);
      PushLocal(s, l, f, d);
      PushCounts(s, l, f, d, if d == f.conn then st else StageOf(s, d), if d == f.conn then st' else StageOf(s, d));
    }
  }

  lemma PushLocal(s: Sys, l: nat, f: Functor<Id>, d: Id)
    requires l < |s.loops| && d in s.conns
    ensures Local(s, d) ==> Local(Push(s, l, f), d)
  {
    var home := s.conns[d].loop;
    if home < |s.loops| { HandGrows(s.loops[home], Push(s, l, f).loops[home], d); }
    if Local(s, d) { LocalFrame(s, Push(s, l, f), d); }
  }

  lemma PushStatic(s: Sys, l: nat, f: Functor<Id>)
    requires Loops(s) && Fds(s) && Ids(s) && Worlds(s) && l < |s.loops| && LiveId(s, f.conn)
    ensures var t := Push(s, l, f); Loops(t) && Fds(t) && Ids(t) && Worlds(t)
  {
    PushLoops(s, l, f);
    StaticFrame(s, Push(s, l, f));
    SameWorlds(s, Push(s, l, f));
  }

  lemma ShapeGrows(h: seq<Event>, e: Event)
    requires Shape(h)
    requires match e
      case Up => h == []
      case Message => h != [] && (h[|h|-1].Up? || h[|h|-1].Message?)
      case Down => h != [] && (h[|h|-1].Up? || h[|h|-1].Message?)
      case Gone => h != [] && h[|h|-1].Down?
    ensures Shape(h + [e])
  {}

  lemma ReadBitsOn(events: bv32)
    ensures (events | READ_EVENT) & READ_EVENT == READ_EVENT && events | READ_EVENT != NON_EVENT
  {}

  lemma EstablishingCore(s: Sys, c: Id)
    requires Core(s, c, Opened) && LiveId(s, c) && StageOf(s, c).Fresh?
    ensures s.conns[c].loop < |s.loops|
    ensures OpAsserts(EnableReading, s.loops[s.conns[c].loop].poll, c, s.conns[c].chan)
    ensures StageOf(Establishing(s, c), c).Opened? && Core(Establishing(s, c), c, Opened)
  {
    assert LocalAs(s, c, true);
    if s.conns[c].chan.index.KNew? { UnregisteredFdFree(s, c, Opened); }
    ShapeGrows([], Up);
    ReadBitsOn(s.conns[c].chan.events);
    PutCore(s, c, Opened, EnableReading, ConnModel.Established(s.conns[c]));
  }

  lemma ErasedCore(s: Sys, c: Id)
    requires Core(s, c, Opened) && LiveId(s, c) && StageOf(s, c).Shut?
    ensures var t := s.(server := s.server - {c}); StageOf(t, c).Removed? && Core(t, c, Opened)
  {
    var t := s.(server := s.server - {c});
    assert LocalAs(s, c, true);
    ErasedStatic(s, c);
    forall d | d in t.conns
          ensures if d == c then LocalAs(t, d, true) else Local(t, d)
          ensures Counts(t, d, if d == c then Opened else StageOf(t, d)) {
      SameCounts(s, t, d, if d == c then Opened else StageOf(s, d));
      if d != c {
        assert Local(s, d);
        LocalFrame(s, t, d);
      }
    }
  }

  lemma ErasedStatic(s: Sys, c: Id)
    requires Loops(s) && Fds(s) && Ids(s) && Worlds(s)
    ensures var t := s.(server := s.server - {c}); Loops(t) && Fds(t) && Ids(t) && Worlds(t)
  {
    var t := s.(server := s.server - {c});
    forall k | 0 <= k < |t.loops| ensures LoopShape(t.loops[k]) && LoopLive(t, t.loops[k]) {
      assert LoopShape(s.loops[k]) && LoopLive(s, s.loops[k]);
    }
    StaticFrame(s, t);
    SameWorlds(s, t);
  }

  lemma SameCounts(s: Sys, t: Sys, d: Id, st: Stage)
    requires d in s.conns && d in t.conns && s.conns[d].loop == t.conns[d].loop && Counts(s, d, st)
    requires |t.loops| == |s.loops|
    requires forall l | 0 <= l < |s.loops| ::
      t.loops[l].batch == s.loops[l].batch && t.loops[l].pending == s.loops[l].pending
    ensures Counts(t, d, st)
  {
    forall k: nat | k < |t.loops| ensures CountsOn(t.loops[k], k, d, t.conns[d].loop, st) {
      assert CountsOn(s.loops[k], k, d, s.conns[d].loop, st);
    }
  }

  lemma RemovingCore(s: Sys, c: Id)
    requires Core(s, c, Opened) && LiveId(s, c) && StageOf(s, c).Shut?
    ensures s.conns[c].loop < |s.loops|
    ensures StageOf(Removing(s, c), c).Removed? && Core(Removing(s, c), c, Removed)
  {
    assert LocalAs(s, c, true);
    EraseFindsEntryIff(c);
    ErasedCore(s, c);
    PushCore(s.(server := s.server - {c}), s.conns[c].loop, Destroy(c), Opened, Removed);
  }

  lemma ClosingPutCore(s: Sys, c: Id, t: Sys)
    requires Core(s, c, Opened) && LiveId(s, c) && StageOf(s, c).Opened? && s.conns[c].loop < |s.loops|
    requires t == Put(s, c, ConnModel.Closed(s.conns[c]),
             OpPoll(DisableAll, s.loops[s.conns[c].loop].poll, c, s.conns[c].chan))
    ensures OpAsserts(DisableAll, s.loops[s.conns[c].loop].poll, c, s.conns[c].chan)
    ensures StageOf(t, c).Shut? && Core(t, c, Opened)
  {
    assert LocalAs(s, c, true);
    ShapeGrows(s.conns[c].hist, Down);
    PutCore(s, c, Opened, DisableAll, ConnModel.Closed(s.conns[c]));
  }

  lemma ClosingCore(s: Sys, c: Id)
    requires Core(s, c, Opened) && LiveId(s, c) && StageOf(s, c).Opened?
    ensures s.conns[c].loop < |s.loops| && s.conns[c].Open()
    ensures OpAsserts(DisableAll, s.loops[s.conns[c].loop].poll, c, s.conns[c].chan)
    ensures var t := Closing(s, c);
            StageOf(t, c) == (if s.conns[c].loop == 0 then Removed else Shut) && Core(t, c, StageOf(t, c))
  {
    assert LocalAs(s, c, true);
    var conn := s.conns[c];
    var t := Put(s, c, ConnModel.Closed(conn), OpPoll(DisableAll, s.loops[conn.loop].poll, c, conn.chan));
    ClosingPutCore(s, c, t);
    if conn.loop == 0 { RemovingCore(t, c); } else { PushCore(t, 0, RemoveConn(c), Opened, Shut); }
  }

  lemma DestroyingCore(s: Sys, c: Id)
    requires Core(s, c, Opened) && LiveId(s, c) && StageOf(s, c).Removed?
    ensures s.conns[c].loop < |s.loops|
    ensures DestroyAsserts(s.loops[s.conns[c].loop].poll, c, s.conns[c])
    ensures StageOf(Destroying(s, c), c).Finished? && Core(Destroying(s, c), c, Opened)
  {
    assert LocalAs(s, c, true);
    var w := WorldOf(s, s.conns[c].loop);
    assert Consistent(w) && ChanAgrees(w.poll, c, w.chans[c]);
    ShapeGrows(s.conns[c].hist, Gone);
    PutCore(s, c, Opened, Remove, ConnModel.Destroyed(s.conns[c]));
  }
}
