/** Values shared by the connection objects and the multi-loop transition system. */
module ConnModel {
  import opened PollerModel

  datatype State = Disconnected | Connecting | Connected | Disconnecting {
    predicate Open() { Connected? || Disconnecting? }
  }

  /** History of one connection: connectEstablished (with its up callback), a message callback,
      handelClose (with its down callback), connectDestroyed. */
  datatype Event = Up | Message | Down | Gone

  datatype Conn = Conn(loop: nat, state: State, chan: Chan, hist: seq<Event>, alive: bool) {
    predicate Open() { state.Open() }
  }

  function NewConn(loop: nat, fd: int): Conn {
    Conn(loop, Connecting, Chan(fd, NON_EVENT, KNew, false), [], true)
  }

  function Established(c: Conn): Conn {
    c.(state := Connected, chan := OpChan(EnableReading, c.chan), hist := c.hist + [Up])
  }

  function Closed(c: Conn): Conn {
    c.(state := Disconnected, chan := OpChan(DisableAll, c.chan), hist := c.hist + [Down])
  }

  /** The first half of connectDestroyed, for a connection that is still connected. */
  function Severed(c: Conn): Conn {
    if c.state.Connected? then c.(chan := OpChan(DisableAll, c.chan), hist := c.hist + [Down]) else c
  }

  function SeveredPoll<C>(p: Poll<C>, me: C, c: Conn): Poll<C> {
    if c.state.Connected? then OpPoll(DisableAll, p, me, c.chan) else p
  }

  function Destroyed(c: Conn): Conn {
    Severed(c).(chan := OpChan(Remove, Severed(c).chan), hist := Severed(c).hist + [Gone])
  }

  function DestroyedPoll<C>(p: Poll<C>, me: C, c: Conn): Poll<C> {
    OpPoll(Remove, SeveredPoll(p, me, c), me, Severed(c).chan)
  }

  predicate DestroyAsserts<C(==)>(p: Poll<C>, me: C, c: Conn) {
    && (c.state.Connected? ==> OpAsserts(DisableAll, p, me, c.chan))
    && OpAsserts(Remove, SeveredPoll(p, me, c), me, Severed(c).chan)
  }

  /** The functors that the server and its connections post to loops. */
  datatype Functor<C> = Establish(conn: C) | CloseForced(conn: C) | RemoveConn(conn: C) | Destroy(conn: C)

  // ---------------------------------------------------------------------------------------
  // Channel::handleEventWithGuard
  // ---------------------------------------------------------------------------------------

  /** What one ready channel does: the close callback, the read callback with readFd's result,
      the write callback (and whether it would empty the output buffer), the error callback. */
  datatype Action = CloseAct | ReadAct(n: int) | WriteAct(drains: bool) | ErrorAct

  function Has(revents: bv32, bits: bv32): bool { revents & bits != 0 }

  /** What one posted functor does to its connection and the poller. */
  function Performed<C, D>(x: Side<C>, me: C, f: Functor<D>): Side<C> {
    var c := x.conn;
    match f
    case Establish(_) => Side(Established(c), OpPoll(EnableReading, x.poll, me, c.chan))
    case CloseForced(_) => if c.Open() then Side(Closed(c), OpPoll(DisableAll, x.poll, me, c.chan)) else x
    case RemoveConn(_) => x
    case Destroy(_) => Side(Destroyed(c), DestroyedPoll(x.poll, me, c))
  }

  /** The connection's channel is in the poller's map; no callback of handleEvent takes it out. */
  predicate Registered<C(==)>(x: Side<C>, me: C) {
    !x.conn.chan.index.KNew? && RemoveAsserts(x.poll, me, x.conn.chan)
  }

  lemma RegisteredStays<C>(x: Side<C>, me: C, a: Action)
    requires Registered(x, me)
    ensures Registered(Acted(x, me, a), me)
    ensures OpAsserts(DisableAll, x.poll, me, x.conn.chan) && OpAsserts(DisableWriting, x.poll, me, x.conn.chan)
  {}

  function Opt(b: bool, a: Action): seq<Action> { if b then [a] else [] }

  function ActionList(close: bool, read: bool, write: bool, error: bool, n: int, drains: bool): seq<Action> {
    Opt(close, CloseAct) + Opt(read, ReadAct(n)) + Opt(write, WriteAct(drains)) + Opt(error, ErrorAct)
  }

  predicate HangsUp(revents: bv32) { Has(revents, EPOLLHUP) && !Has(revents, EPOLLIN) }
  predicate Reads(revents: bv32) { Has(revents, EPOLLIN | EPOLLPRI) || Has(revents, EPOLLRDHUP) }

  function Actions(revents: bv32, n: int, drains: bool): seq<Action> {
    ActionList(HangsUp(revents), Reads(revents), Has(revents, EPOLLOUT), Has(revents, EPOLLERR), n, drains)
  }

  /** Which bits lead to which callback. */
  lemma CallbackBits(revents: bv32, n: int, drains: bool)
    ensures HangsUp(revents) <==> revents & EPOLLHUP != 0 && revents & EPOLLIN == 0
    ensures Reads(revents) <==> revents & (EPOLLIN | EPOLLPRI | EPOLLRDHUP) != 0
    ensures var todo := Actions(revents, n, drains);
            && (CloseAct in todo <==> revents & EPOLLHUP != 0 && revents & EPOLLIN == 0)
            && (ReadAct(n) in todo <==> revents & (EPOLLIN | EPOLLPRI | EPOLLRDHUP) != 0)
            && (WriteAct(drains) in todo <==> revents & EPOLLOUT != 0)
            && (ErrorAct in todo <==> revents & EPOLLERR != 0)
  {
    ReadBits(revents);
  }

  lemma ReadBits(revents: bv32)
    ensures Reads(revents) <==> revents & (EPOLLIN | EPOLLPRI | EPOLLRDHUP) != 0
  {}

  /** A connection together with its loop's poller. */
  datatype Side<C> = Side(conn: Conn, poll: Poll<C>)

  /** What one callback does to the connection and the poller. */
  function Acted<C>(x: Side<C>, me: C, a: Action): Side<C> {
    var c := x.conn;
    match a
    case CloseAct => Side(Closed(c), OpPoll(DisableAll, x.poll, me, c.chan))
    case ReadAct(n) =>
      if n == 0 then Side(Closed(c), OpPoll(DisableAll, x.poll, me, c.chan))
      else if n > 0 then x.(conn := c.(hist := c.hist + [Message]))
      else x
    case WriteAct(drains) =>
      if c.chan.IsWriting() && drains
      then Side(c.(chan := OpChan(DisableWriting, c.chan)), OpPoll(DisableWriting, x.poll, me, c.chan))
      else x
    case ErrorAct => x
  }

  function ActedAll<C>(x: Side<C>, me: C, todo: seq<Action>): Side<C>
    decreases |todo|
  {
    if todo == [] then x else ActedAll(Acted(x, me, todo[0]), me, todo[1..])
  }

  /** Write interest switched on, in the channel and in the poller. */
  function Enabling<C>(x: Side<C>, me: C): Side<C> {
    Side(x.conn.(chan := OpChan(EnableWriting, x.conn.chan)), OpPoll(EnableWriting, x.poll, me, x.conn.chan))
  }

  predicate Closes(a: Action) { a.CloseAct? || a == ReadAct(0) }

  lemma ActedCons<C>(x: Side<C>, me: C, a: Action, rest: seq<Action>)
    ensures ActedAll(x, me, [a] + rest) == ActedAll(Acted(x, me, a), me, rest)
  {
    assert ([a] + rest)[1..] == rest;
  }

  function ActedIf<C>(b: bool, x: Side<C>, me: C, a: Action): Side<C> { if b then Acted(x, me, a) else x }

  lemma ActedOpt<C>(b: bool, x: Side<C>, me: C, a: Action, rest: seq<Action>)
    ensures ActedAll(x, me, Opt(b, a) + rest) == ActedAll(ActedIf(b, x, me, a), me, rest)
  {
    ActedCons(x, me, a, rest);
    assert !b ==> Opt(b, a) + rest == rest;
  }

  /** The callbacks run in the order close, read, write, error. */
  lemma ActedInOrder<C>(x: Side<C>, me: C, revents: bv32, n: int, drains: bool)
    ensures var x1 := ActedIf(HangsUp(revents), x, me, CloseAct);
            var x2 := ActedIf(Reads(revents), x1, me, ReadAct(n));
            ActedAll(x, me, Actions(revents, n, drains)) == ActedIf(Has(revents, EPOLLOUT), x2, me, WriteAct(drains))
  {
    ActedList(x, me, HangsUp(revents), Reads(revents), Has(revents, EPOLLOUT), Has(revents, EPOLLERR), n, drains);
  }

  /** What a report makes of the connection, on the event bits: it is closed by a hang-up without
      EPOLLIN and by a read that finds the end of file, and by nothing else. */
  lemma ReportOutcome<C>(x: Side<C>, me: C, revents: bv32, n: int, drains: bool)
    ensures var hup := revents & EPOLLHUP != 0 && revents & EPOLLIN == 0;
            var input := revents & (EPOLLIN | EPOLLPRI | EPOLLRDHUP) != 0;
            var c := ActedAll(x, me, Actions(revents, n, drains)).conn;
            && c.state == (if hup || (input && n == 0) then Disconnected else x.conn.state)
            && c.hist == x.conn.hist + (if hup then [Down] else [])
                 + (if !input || n < 0 then [] else if n == 0 then [Down] else [Message])
            && (hup || (input && n == 0) ==> c.chan.events == NON_EVENT)
            && (!hup && (!input || n != 0) && (revents & EPOLLOUT == 0 || !drains) ==> c.chan == x.conn.chan)
  {
    ReadBits(revents);
    ActedInOrder(x, me, revents, n, drains);
  }

  lemma ActedList<C>(x: Side<C>, me: C, close: bool, read: bool, write: bool, error: bool, n: int, drains: bool)
    ensures var x1 := ActedIf(close, x, me, CloseAct);
            var x2 := ActedIf(read, x1, me, ReadAct(n));
            ActedAll(x, me, ActionList(close, read, write, error, n, drains)) ==
                  ActedIf(write, x2, me, WriteAct(drains))
  {
    var x1 := ActedIf(close, x, me, CloseAct);
    var x2 := ActedIf(read, x1, me, ReadAct(n));
    var last := Opt(error, ErrorAct);
    ActedOpt(close, x, me, CloseAct, Opt(read, ReadAct(n)) + (Opt(write, WriteAct(drains)) + last));
    ActedOpt(read, x1, me, ReadAct(n), Opt(write, WriteAct(drains)) + last);
    ActedOpt(write, x2, me, WriteAct(drains), last);
    ActedOpt(error, ActedIf(write, x2, me, WriteAct(drains)), me, ErrorAct, []);
    assert last + [] == last;
    assert ActionList(close, read, write, error, n, drains)
        == Opt(close, CloseAct) + (Opt(read, ReadAct(n)) + (Opt(write, WriteAct(drains)) + last));
  }

  /** The callbacks respect the connection's window: handelClose's assert holds whenever it is
      reached, and no message is delivered once the connection is closed. */
  predicate Safe(todo: seq<Action>, open: bool) {
    todo == [] ||
    match todo[0]
    case CloseAct => open && Safe(todo[1..], false)
    case ReadAct(n) => (n >= 0 ==> open) && Safe(todo[1..], open && n != 0)
    case WriteAct(_) => Safe(todo[1..], open)
    case ErrorAct => Safe(todo[1..], open)
  }

  /** A hang-up without EPOLLIN whose read callback still reads data or end of file: the one
      combination that runs handelClose first and the read path afterwards. */
  predicate DoubleClose(revents: bv32, n: int) { HangsUp(revents) && Reads(revents) && n >= 0 }

  lemma SafeCons(a: Action, rest: seq<Action>, open: bool)
    ensures Safe([a] + rest, open) <==>
      match a
      case CloseAct => open && Safe(rest, false)
      case ReadAct(n) => (n >= 0 ==> open) && Safe(rest, open && n != 0)
      case WriteAct(_) => Safe(rest, open)
      case ErrorAct => Safe(rest, open)
  {
    assert ([a] + rest)[1..] == rest;
  }

  lemma SafeTail(write: bool, error: bool, n: int, drains: bool, open: bool)
    ensures Safe(ActionList(false, false, write, error, n, drains), open)
  {
    var e := if error then [ErrorAct] else [];
    SafeCons(ErrorAct, [], open);
    SafeCons(WriteAct(drains), e, open);
    assert [ErrorAct] + [] == [ErrorAct];
    assert ActionList(false, false, write, error, n, drains) == (if write then [WriteAct(drains)] + e else e);
  }

  lemma ReadSafeIff(read: bool, write: bool, error: bool, n: int, drains: bool, open: bool)
    ensures Safe(ActionList(false, read, write, error, n, drains), open) <==> (read && n >= 0 ==> open)
  {
    var tail := ActionList(false, false, write, error, n, drains);
    SafeTail(write, error, n, drains, open);
    SafeTail(write, error, n, drains, open && n != 0);
    SafeCons(ReadAct(n), tail, open);
    assert ActionList(false, read, write, error, n, drains) == if read then [ReadAct(n)] + tail else tail;
  }

  lemma ListSafeIff(close: bool, read: bool, write: bool, error: bool, n: int, drains: bool)
    ensures Safe(ActionList(close, read, write, error, n, drains), true) <==> !(close && read && n >= 0)
  {
    var rest := ActionList(false, read, write, error, n, drains);
    ReadSafeIff(read, write, error, n, drains, true);
    ReadSafeIff(read, write, error, n, drains, false);
    SafeCons(CloseAct, rest, true);
    assert ActionList(close, read, write, error, n, drains) == if close then [CloseAct] + rest else rest;
  }

  /** One dispatch of an open connection is safe exactly for the reports that are no double close. */
  lemma DispatchSafeIff(revents: bv32, n: int, drains: bool)
    ensures Safe(Actions(revents, n, drains), true) <==> !DoubleClose(revents, n)
  {
    ListSafeIff(HangsUp(revents), Reads(revents), Has(revents, EPOLLOUT), Has(revents, EPOLLERR), n, drains);
  }

  /** Before the dispatch nobody knows what the read will return: a report is safe whatever it returns
      exactly when it does not both hang up and read. */
  lemma SafeWhateverReadIff(revents: bv32, drains: bool)
    ensures (forall n: int :: Safe(Actions(revents, n, drains), true)) <==> !(HangsUp(revents) && Reads(revents))
  {
    if HangsUp(revents) && Reads(revents) {
      DispatchSafeIff(revents, 0, drains);
    } else {
      forall n: int ensures Safe(Actions(revents, n, drains), true) { DispatchSafeIff(revents, n, drains); }
    }
  }

  /** The histories the design allows: up first and once, messages in between, down once, gone
      once and only directly after down. */
  predicate Shape(h: seq<Event>) {
    && (h != [] ==> h[0] == Up)
    && (forall i | 0 < i < |h| :: h[i] != Up)
    && (forall i | 0 <= i < |h| && h[i] == Down :: i == |h| - 1 || (i == |h| - 2 && h[i+1] == Gone))
    && (forall i | 0 <= i < |h| && h[i] == Gone :: i == |h| - 1 && 0 < i && h[i-1] == Down)
  }
}
