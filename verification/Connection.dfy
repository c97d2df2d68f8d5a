/** The mutable connection and server objects. Their methods are proved against the same connection
    and poller functions that the multi-loop transition system is built from. */
module ConnectionObjects {
  import opened Common
  import opened PollerModel
  import opened PollerObjects
  import opened ConnModel
  import opened LoopObjects
  import opened BufferObjects
  import OutputModel
  import FrameModel
  import FrameObjects
  import Reactor

  type Task = Functor<TcpConnection>

  /** readFd's result for what readv delivers. */
  function Got(arrived: Option<seq<byte>>): int { if arrived.Some? then |arrived.value| else -1 }

  /** The bodies that one read callback delivers, and the bytes it keeps. */
  function Fed(reading: bool, arrived: Option<seq<byte>>, kept: seq<byte>): (seq<seq<byte>>, seq<byte>) {
    if reading && arrived.Some? && arrived.value != [] then FrameModel.Feed(kept, arrived.value) else ([], kept)
  }

  class TcpConnection {
    const id: int                    // what id() returns
    const loop: EventLoop<Task>
    const server: TcpServer
    const channel: Channel
    const inputBuffer: Buffer
    const outputBuffer: Buffer
    var state: State
    ghost var hist: seq<Event>       // callbacks that ran
    ghost var wire: seq<byte>        // bytes the socket took
    ghost var owed: seq<byte>        // payloads whose direct write did not fail

    constructor (loop: EventLoop<Task>, fd: int, id: int, server: TcpServer)
      ensures this.loop == loop && this.server == server && this.id == Reactor.AsInt32(id)
      ensures channel.poller == loop.poller && View() == NewConn(loop.threadId, fd)
      ensures fresh(channel) && fresh(inputBuffer) && fresh(outputBuffer) && inputBuffer != outputBuffer
      ensures outputBuffer.Valid() && inputBuffer.Valid() && OutView() == OutputModel.Out(NON_EVENT, [], [], [])
    {
      this.loop, this.server, this.id := loop, server, Reactor.AsInt32(id);
      channel := new Channel(loop.poller, fd);
      inputBuffer := new Buffer();
      outputBuffer := new Buffer();
      state := Connecting;
      hist, wire, owed := [], [], [];
    }

    ghost function View(): Conn reads this, channel {
      Conn(loop.threadId, state, channel.View(), hist, true)
    }

    ghost function OutView(): OutputModel.Out
      requires outputBuffer.Valid()
      reads this, channel, outputBuffer, outputBuffer.buffer
    {
      OutputModel.Out(channel.events, outputBuffer.Contents(), wire, owed)
    }

    ghost predicate Wired() { channel.poller == loop.poller }

    method ConnectEstablished(thread: nat)
      requires loop.IsInLoopThread(thread) && state.Connecting? && Wired()
      requires OpAsserts(EnableReading, loop.poller.View(), channel, channel.View())
      modifies this`state, this`hist, channel, loop.poller
      ensures View() == Established(old(View()))
      ensures loop.poller.View() == OpPoll(EnableReading, old(loop.poller.View()), channel, old(channel.View()))
      ensures state == Connected && hist == old(hist) + [Up]
      ensures channel.events == old(channel.events) | EPOLLIN | EPOLLPRI
    {
      state := Connected;
      channel.EnableReading();
      hist := hist + [Up];
    }

    method ConnectDestroyed(thread: nat)
      requires loop.IsInLoopThread(thread) && Wired()
      requires DestroyAsserts(loop.poller.View(), channel, View())
      modifies this`state, this`hist, channel, loop.poller
      ensures View() == Destroyed(old(View()))
      ensures loop.poller.View() == DestroyedPoll(old(loop.poller.View()), channel, old(View()))
      ensures state == old(state) && hist == old(hist) + if state == Connected then [Down, Gone] else [Gone]
      ensures channel.events == if state == Connected then NON_EVENT else old(channel.events)
      ensures channel.index == KNew && !channel.addedToLoop && channel.fd !in loop.poller.channels
    {
      if state == Connected {
        channel.DisableAll();
        hist := hist + [Down];
      }
      channel.Remove();
      hist := hist + [Gone];
    }

    /** What handelClose needs: its state assert, the poller's asserts, and loops that can be queued on. */
    ghost predicate Closable(thread: nat)
      reads this, channel, loop, loop.poller, server.baseLoop
    {
      && state.Open() && OpAsserts(DisableAll, loop.poller.View(), channel, channel.View())
      && loop.Valid() && loop.CanQueue(thread)
      && server.baseLoop.Valid() && server.baseLoop.CanQueue(thread)
    }

    /** A closed connection is out of the server map or on its way there; otherwise nothing moved. */
    ghost predicate Moved(closed: bool, servers: map<int, TcpConnection>, thread: nat, home: seq<Task>, base: seq<Task>)
      reads loop, server, server.baseLoop
    {
      if closed then server.Removed(this, thread, servers) && server.Requeued(this, thread, home, base)
      else server.connections == servers && loop.pendingFunctors == home && server.baseLoop.pendingFunctors == base
    }

    /** The connection was closed: it and its poller are those of Closed, it is out of the server map
        or on its way there, and exactly one functor was queued for it. */
    ghost predicate JustClosed(was: Side<Channel>, servers: map<int, TcpConnection>, thread: nat, home: seq<Task>,
          base: seq<Task>)
      reads this, channel, loop, loop.poller, server, server.baseLoop
    {
      && loop.Valid() && server.baseLoop.Valid()
      && View() == Closed(was.conn) && loop.poller.View() == OpPoll(DisableAll, was.poll, channel, was.conn.chan)
      && Moved(true, servers, thread, home, base)
    }

    ghost function SideView(): Side<Channel> reads this, channel, loop.poller { Side(View(), loop.poller.View()) }

    /** handelClose: afterwards exactly one functor is queued for the connection, connectDestroyed
        here when the IO loop is the base loop, and the hop to the base loop otherwise. */
    method HandleClose(thread: nat)
      requires loop.IsInLoopThread(thread) && Wired() && Closable(thread)
      modifies this`state, this`hist, channel, loop.poller, server`connections, loop, server.baseLoop
      ensures JustClosed(old(SideView()), old(server.connections), thread, old(loop.pendingFunctors),
              old(server.baseLoop.pendingFunctors))
      ensures state == Disconnected && channel.events == NON_EVENT && hist == old(hist) + [Down]
      ensures if thread == server.baseLoop.threadId then
                && server.connections == old(server.connections) - {id}
                && loop.pendingFunctors == old(loop.pendingFunctors) + [Destroy(this)]
              else
                && server.connections == old(server.connections)
                && server.baseLoop.pendingFunctors == old(server.baseLoop.pendingFunctors) + [RemoveConn(this)]
      ensures loop != server.baseLoop ==>
        if thread == server.baseLoop.threadId
        then server.baseLoop.pendingFunctors == old(server.baseLoop.pendingFunctors)
        else loop.pendingFunctors == old(loop.pendingFunctors)
    {
      state := Disconnected;
      channel.DisableAll();
      hist := hist + [Down];
      server.RemoveConnection(this, thread);
    }

    method ForceClose(thread: nat)
      requires loop.Valid() && loop.CanQueue(thread)
      modifies this`state, loop
      ensures state == Disconnecting && loop.Valid()
      ensures loop.pendingFunctors == old(loop.pendingFunctors) + [CloseForced(this)]
    {
      state := Disconnecting;
      loop.QueueInLoop(CloseForced(this), thread);
    }

    /** Nothing happened to the connection and its surroundings. */
    ghost predicate Untouched(was: Side<Channel>, servers: map<int, TcpConnection>, home: seq<Task>, base: seq<Task>)
      reads this, channel, loop, loop.poller, server, server.baseLoop
    {
      SideView() == was && Moved(false, servers, 0, home, base)
    }

    method ForceCloseInLoop(thread: nat)
      requires loop.IsInLoopThread(thread) && Wired()
      requires state.Open() ==> Closable(thread)
      modifies this`state, this`hist, channel, loop.poller, server`connections, loop, server.baseLoop
      ensures if old(state).Open()
              then JustClosed(old(SideView()), old(server.connections), thread, old(loop.pendingFunctors),
                   old(server.baseLoop.pendingFunctors))
              else Untouched(old(SideView()), old(server.connections), old(loop.pendingFunctors),
                             old(server.baseLoop.pendingFunctors))
      ensures (old(loop.Valid()) ==> loop.Valid()) && (old(server.baseLoop.Valid()) ==> server.baseLoop.Valid())
      ensures if old(state) == Connected || old(state) == Disconnecting
              then state == Disconnected && hist == old(hist) + [Down]
              else state == old(state) && hist == old(hist) && loop.pendingFunctors == old(loop.pendingFunctors)
    {
      if state == Connected || state == Disconnecting {
        HandleClose(thread);
      }
    }

    /** handelRead; arrived is what readv delivers, None its failure. End of file closes, an error is
        only logged, data goes through the message callback. */
    method HandleRead(arrived: Option<seq<byte>>, thread: nat) returns (delivered: seq<seq<byte>>)
      requires loop.IsInLoopThread(thread) && Wired() && inputBuffer.Valid()
      requires arrived.Some? ==> |arrived.value| <= inputBuffer.ReadRoom()
      requires arrived == Some([]) ==> Closable(thread)
      modifies this`state, this`hist, channel, loop.poller, server`connections, loop, server.baseLoop, inputBuffer,
               inputBuffer.buffer
      ensures inputBuffer.Valid() && (inputBuffer.buffer == old(inputBuffer.buffer) || fresh(inputBuffer.buffer))
      ensures arrived == Some([]) ==>
        JustClosed(old(SideView()), old(server.connections), thread, old(loop.pendingFunctors),
              old(server.baseLoop.pendingFunctors))
      ensures arrived != Some([]) ==>
        Untouched(Acted(old(SideView()), channel, ReadAct(Got(arrived))), old(server.connections),
                  old(loop.pendingFunctors), old(server.baseLoop.pendingFunctors))
      ensures (delivered, inputBuffer.Contents()) == Fed(true, arrived, old(inputBuffer.Contents()))
      ensures arrived == Some([]) ==> state == Disconnected && hist == old(hist) + [Down]
      ensures arrived != Some([]) ==> state == old(state) && channel.events == old(channel.events)
                                      && hist == old(hist) + if arrived.Some? then [Message] else []
    {
      delivered := [];
      ghost var before := inputBuffer.Contents();
      var n := inputBuffer.ReadFd(arrived);
      if n == 0 {
        assert before + [] == before;
        HandleClose(thread);
        return;
      } else if n < 0 {
        assert before + [] == before;
        return;
      }
      hist := hist + [Message];
      delivered := FrameObjects.OnMessage(inputBuffer);
    }

    /** sendInloop; w is what write(2) returns if it is called. */
    method SendInLoop(data: seq<byte>, w: int, thread: nat)
      requires loop.IsInLoopThread(thread) && Wired() && outputBuffer.Valid() && -1 <= w <= |data|
      requires OpAsserts(EnableWriting, loop.poller.View(), channel, channel.View())
      modifies this`wire, this`owed, channel, loop.poller, outputBuffer, outputBuffer.buffer
      ensures outputBuffer.Valid() && OutView() == OutputModel.Sent(old(OutView()), data, w)
      ensures outputBuffer.buffer == old(outputBuffer.buffer) || fresh(outputBuffer.buffer)
      ensures var rest := outputBuffer.Contents() != old(outputBuffer.Contents()) && !old(channel.View()).IsWriting();
              SideView() == if rest then Enabling(old(SideView()), channel) else old(SideView())
      ensures var s := old(outputBuffer.Contents());
              if old(channel.events) == EPOLLOUT || s != [] then
                && wire == old(wire) && outputBuffer.Contents() == s + data
                && channel.events == if data == [] then old(channel.events) else old(channel.events) | EPOLLOUT
              else if w < 0 then
                wire == old(wire) && outputBuffer.Contents() == s && channel.events == old(channel.events)
              else
                && wire == old(wire) + data[..w] && outputBuffer.Contents() == data[w..]
                && channel.events == if w == |data| then old(channel.events) else old(channel.events) | EPOLLOUT
    {
      OutputModel.SentIs(OutView(), data, w);
      var failed := false;
      var written := 0;
      if !channel.View().IsWriting() && outputBuffer.ReadableBytes() == 0 {
        written := w;
        if written < 0 {
          failed := true;
          written := 0;
        }
      }
      wire := wire + data[..written];
      owed := if failed then owed else owed + data;
      if written < |data| && !failed {
        KeepRest(data[written..]);
      }
    }

    method KeepRest(rest: seq<byte>)
      requires Wired() && outputBuffer.Valid() && rest != []
      requires OpAsserts(EnableWriting, loop.poller.View(), channel, channel.View())
      modifies channel, loop.poller, outputBuffer, outputBuffer.buffer
      ensures outputBuffer.Valid() && outputBuffer.Contents() == old(outputBuffer.Contents()) + rest
      ensures outputBuffer.buffer == old(outputBuffer.buffer) || fresh(outputBuffer.buffer)
      ensures SideView() == if old(channel.View()).IsWriting() then old(SideView())
                            else Enabling(old(SideView()), channel)
    {
      outputBuffer.Append(rest);
      if !channel.View().IsWriting() {
        channel.EnableWriting();
      }
    }

    /** handelWrite; w is what write(2) returns if it is called. */
    method HandleWrite(w: int, thread: nat)
      requires loop.IsInLoopThread(thread) && Wired() && outputBuffer.Valid() && w <= outputBuffer.ReadableBytes()
      requires OpAsserts(DisableWriting, loop.poller.View(), channel, channel.View())
      modifies this`wire, channel, loop.poller, outputBuffer, outputBuffer.buffer
      ensures outputBuffer.Valid() && OutView() == OutputModel.Flushed(old(OutView()), w)
      ensures SideView() == Acted(old(SideView()), channel, WriteAct(w > 0 && w == |old(outputBuffer.Contents())|))
      ensures var s := old(outputBuffer.Contents());
              if old(channel.events) != EPOLLOUT || w <= 0 then
                wire == old(wire) && outputBuffer.Contents() == s && SideView() == old(SideView())
              else
                && wire == old(wire) + s[..w] && outputBuffer.Contents() == s[w..]
                && (w < |s| ==> SideView() == old(SideView())) && (w == |s| ==> channel.events == NON_EVENT)
    {
      if !channel.View().IsWriting() { return; }
      if w <= 0 { return; }
      wire := wire + outputBuffer.Contents()[..w];
      outputBuffer.Retrieve(w);
      if outputBuffer.ReadableBytes() == 0 {
        channel.DisableWriting();
      }
    }

    /** The close callback runs and the read callback then finds the end of file: handelClose's assert
        fails the second time. */
    static predicate ClosesTwice(revents: bv32, arrived: Option<seq<byte>>) {
      HangsUp(revents) && Reads(revents) && arrived == Some([])
    }

    /** The output side of one dispatch: a close switches all interest off before the write callback. */
    static function Written(o: OutputModel.Out, closed: bool, writable: bool, w: int): OutputModel.Out
      requires w <= |o.buf|
    {
      var p := if closed then OutputModel.Closed(o) else o;
      if writable then OutputModel.Flushed(p, w) else p
    }

    static predicate ClosesIn(revents: bv32, arrived: Option<seq<byte>>) {
      HangsUp(revents) || (Reads(revents) && arrived == Some([]))
    }

    /** The first two callbacks of handleEvent: close, then read. */
    method HandleInput(revents: bv32, arrived: Option<seq<byte>>, thread: nat) returns (delivered: seq<seq<byte>>)
      requires loop.IsInLoopThread(thread) && Wired() && Closable(thread) && Registered(SideView(), channel)
      requires inputBuffer.Valid() && (arrived.Some? ==> |arrived.value| <= inputBuffer.ReadRoom())
      requires !ClosesTwice(revents, arrived)
      modifies this`state, this`hist, channel, loop.poller, server`connections, loop, server.baseLoop, inputBuffer,
               inputBuffer.buffer
      ensures inputBuffer.Valid() && (inputBuffer.buffer == old(inputBuffer.buffer) || fresh(inputBuffer.buffer))
      ensures Registered(SideView(), channel)
      ensures channel.events == if ClosesIn(revents, arrived) then NON_EVENT else old(channel.events)
      ensures SideView() == ActedIf(Reads(revents), ActedIf(HangsUp(revents), old(SideView()), channel, CloseAct),
              channel, ReadAct(Got(arrived)))
      ensures Moved(ClosesIn(revents, arrived), old(server.connections), thread, old(loop.pendingFunctors),
              old(server.baseLoop.pendingFunctors))
      ensures (delivered, inputBuffer.Contents()) == Fed(Reads(revents), arrived, old(inputBuffer.Contents()))
    {
      delivered := [];
      RegisteredStays(SideView(), channel, CloseAct);
      RegisteredStays(SideView(), channel, ReadAct(Got(arrived)));
      if HangsUp(revents) {
        HandleClose(thread);
        RegisteredStays(SideView(), channel, ReadAct(Got(arrived)));
      }
      if Reads(revents) {
        delivered := HandleRead(arrived, thread);
      }
    }

    /** The third callback: write. */
    method HandleOutput(revents: bv32, w: int, thread: nat)
      requires loop.IsInLoopThread(thread) && Wired() && Registered(SideView(), channel)
      requires outputBuffer.Valid() && w <= outputBuffer.ReadableBytes()
      modifies this`wire, channel, loop.poller, outputBuffer, outputBuffer.buffer
      ensures outputBuffer.Valid()
      ensures OutView() == if Has(revents, EPOLLOUT) then OutputModel.Flushed(old(OutView()), w) else old(OutView())
      ensures var drains := w > 0 && w == |old(outputBuffer.Contents())|;
              SideView() == ActedIf(Has(revents, EPOLLOUT), old(SideView()), channel, WriteAct(drains))
    {
      if Has(revents, EPOLLOUT) {
        RegisteredStays(SideView(), channel, WriteAct(true));
        HandleWrite(w, thread);
      }
    }

    /** The first two callbacks change nothing on the output side but the interest bits. */
    method InputOnly(revents: bv32, arrived: Option<seq<byte>>, thread: nat) returns (delivered: seq<seq<byte>>)
      requires loop.IsInLoopThread(thread) && Wired() && Closable(thread) && Registered(SideView(), channel)
      requires inputBuffer.Valid() && (arrived.Some? ==> |arrived.value| <= inputBuffer.ReadRoom())
      requires outputBuffer.Valid() && inputBuffer != outputBuffer && inputBuffer.buffer != outputBuffer.buffer
      requires !ClosesTwice(revents, arrived)
      modifies this`state, this`hist, channel, loop.poller, server`connections, loop, server.baseLoop, inputBuffer,
               inputBuffer.buffer
      ensures inputBuffer.Valid() && outputBuffer.Valid() && inputBuffer.buffer != outputBuffer.buffer
      ensures Registered(SideView(), channel)
      ensures SideView() == ActedIf(Reads(revents), ActedIf(HangsUp(revents), old(SideView()), channel, CloseAct),
                                    channel, ReadAct(Got(arrived)))
      ensures OutView() == if ClosesIn(revents, arrived) then OutputModel.Closed(old(OutView())) else old(OutView())
      ensures Moved(ClosesIn(revents, arrived), old(server.connections), thread,
                    old(loop.pendingFunctors), old(server.baseLoop.pendingFunctors))
      ensures (delivered, inputBuffer.Contents()) == Fed(Reads(revents), arrived, old(inputBuffer.Contents()))
    {
      delivered := HandleInput(revents, arrived, thread);
    }

    /** The three callbacks in order, each under its own bits. */
    method Dispatch(revents: bv32, arrived: Option<seq<byte>>, w: int, thread: nat) returns (delivered: seq<seq<byte>>)
      requires loop.IsInLoopThread(thread) && Wired() && Closable(thread) && Registered(SideView(), channel)
      requires inputBuffer.Valid() && outputBuffer.Valid()
      requires inputBuffer != outputBuffer && inputBuffer.buffer != outputBuffer.buffer
      requires arrived.Some? ==> |arrived.value| <= inputBuffer.ReadRoom()
      requires w <= outputBuffer.ReadableBytes() && !ClosesTwice(revents, arrived)
      modifies this`state, this`hist, this`wire, channel, loop.poller, server`connections, loop, server.baseLoop
      modifies inputBuffer, inputBuffer.buffer, outputBuffer, outputBuffer.buffer
      ensures inputBuffer.Valid() && outputBuffer.Valid()
      ensures var x1 := ActedIf(HangsUp(revents), old(SideView()), channel, CloseAct);
              var x2 := ActedIf(Reads(revents), x1, channel, ReadAct(Got(arrived)));
              var drains := w > 0 && w == |old(outputBuffer.Contents())|;
              SideView() == ActedIf(Has(revents, EPOLLOUT), x2, channel, WriteAct(drains))
      ensures OutView() == Written(old(OutView()), ClosesIn(revents, arrived), Has(revents, EPOLLOUT), w)
      ensures Moved(ClosesIn(revents, arrived), old(server.connections), thread,
                    old(loop.pendingFunctors), old(server.baseLoop.pendingFunctors))
      ensures (delivered, inputBuffer.Contents()) == Fed(Reads(revents), arrived, old(inputBuffer.Contents()))
    {
      delivered := InputOnly(revents, arrived, thread);
      ghost var kept := inputBuffer.Contents();
      HandleOutput(revents, w, thread);
      assert inputBuffer.Contents() == kept;
    }

    /** Channel::handleEvent for this connection. No assert fails unless the close callback runs twice,
        and the effects are those of ActedAll on connection and poller, of the output path on the bytes
        to send, and of the frame decoder on the bytes read. */
    method HandleEvent(revents: bv32, arrived: Option<seq<byte>>, w: int, thread: nat)
          returns (delivered: seq<seq<byte>>)
      requires loop.IsInLoopThread(thread) && Wired() && Closable(thread) && Registered(SideView(), channel)
      requires inputBuffer.Valid() && outputBuffer.Valid()
      requires inputBuffer != outputBuffer && inputBuffer.buffer != outputBuffer.buffer
      requires arrived.Some? ==> |arrived.value| <= inputBuffer.ReadRoom()
      requires w <= outputBuffer.ReadableBytes() && !ClosesTwice(revents, arrived)
      modifies this`state, this`hist, this`wire, channel, loop.poller, server`connections, loop, server.baseLoop
      modifies inputBuffer, inputBuffer.buffer, outputBuffer, outputBuffer.buffer
      ensures inputBuffer.Valid() && outputBuffer.Valid()
      ensures var drains := w > 0 && w == |old(outputBuffer.Contents())|;
              SideView() == ActedAll(old(SideView()), channel, Actions(revents, Got(arrived), drains))
      ensures OutView() == Written(old(OutView()), ClosesIn(revents, arrived), Has(revents, EPOLLOUT), w)
      ensures Moved(ClosesIn(revents, arrived), old(server.connections), thread,
                    old(loop.pendingFunctors), old(server.baseLoop.pendingFunctors))
      ensures (delivered, inputBuffer.Contents()) == Fed(Reads(revents), arrived, old(inputBuffer.Contents()))
      ensures revents & EPOLLIN != 0 && arrived != Some([]) ==>
        && state == old(state) && server.connections == old(server.connections)
        && loop.pendingFunctors == old(loop.pendingFunctors)
        && server.baseLoop.pendingFunctors == old(server.baseLoop.pendingFunctors)
      ensures revents & EPOLLHUP != 0 && revents & EPOLLIN == 0 ==> state == Disconnected
      ensures var hup := revents & EPOLLHUP != 0 && revents & EPOLLIN == 0;
              var input := revents & (EPOLLIN | EPOLLPRI | EPOLLRDHUP) != 0;
              if hup || (input && arrived == Some([])) then
                && state == Disconnected && channel.events == NON_EVENT
                && if thread == server.baseLoop.threadId
                   then server.connections == old(server.connections) - {id}
                        && loop.pendingFunctors == old(loop.pendingFunctors) + [Destroy(this)]
                   else server.connections == old(server.connections) &&
                        server.baseLoop.pendingFunctors == old(server.baseLoop.pendingFunctors) + [RemoveConn(this)]
              else
                && state == old(state) && server.connections == old(server.connections)
                && loop.pendingFunctors == old(loop.pendingFunctors)
                && server.baseLoop.pendingFunctors == old(server.baseLoop.pendingFunctors)
      ensures var kept, input := old(inputBuffer.Contents()), revents & (EPOLLIN | EPOLLPRI | EPOLLRDHUP) != 0;
              if input && arrived.Some? && arrived.value != [] then
                var d := FrameModel.Decode(kept + arrived.value);
                delivered == d.bodies && inputBuffer.Contents() == FrameModel.Kept(d.stop)
              else delivered == [] && inputBuffer.Contents() == kept
      ensures var s := old(outputBuffer.Contents());
              if revents & EPOLLOUT != 0 && old(channel.events) == EPOLLOUT && w > 0 && state == old(state)
              then wire == old(wire) + s[..w] && outputBuffer.Contents() == s[w..]
              else wire == old(wire) && outputBuffer.Contents() == s
    {
      ghost var drains := w > 0 && w == |outputBuffer.Contents()|;
      ActedInOrder(SideView(), channel, revents, Got(arrived), drains);
      ReportOutcome(SideView(), channel, revents, Got(arrived), drains);
      ReadBits(revents);
      delivered := Dispatch(revents, arrived, w, thread);
    }

    /** What the asserts of the functor's body demand of the state it runs in. */
    ghost predicate Runnable(task: Task, thread: nat)
      reads this, channel, loop, loop.poller, server.baseLoop
    {
      match task
      case Establish(_) => loop.IsInLoopThread(thread) && state.Connecting?
                           && OpAsserts(EnableReading, loop.poller.View(), channel, channel.View())
      case CloseForced(_) => loop.IsInLoopThread(thread) && (state.Open() ==> Closable(thread))
      case RemoveConn(_) => server.baseLoop.IsInLoopThread(thread) && loop.Valid() && loop.CanQueue(thread)
      case Destroy(_) => loop.IsInLoopThread(thread) && DestroyAsserts(loop.poller.View(), channel, View())
    }

    /** Runs a functor that was posted for this connection: the step RunFunctor of the multi-loop
        system, on the objects. */
    method RunTask(task: Task, thread: nat)
      requires task.conn == this && Wired() && Runnable(task, thread)
      modifies this`state, this`hist, channel, loop.poller, server`connections, loop, server.baseLoop
      ensures SideView() == Performed(old(SideView()), channel, task)
      ensures !task.RemoveConn? ==> Moved(task.CloseForced? && old(state).Open(), old(server.connections), thread,
                                          old(loop.pendingFunctors), old(server.baseLoop.pendingFunctors))
      ensures task.RemoveConn? ==> server.connections == old(server.connections) - {id}
                                   && loop.pendingFunctors == old(loop.pendingFunctors) + [Destroy(this)]
      ensures task.Establish? ==> state == Connected && hist == old(hist) + [Up]
      ensures task.CloseForced? ==>
        if old(state) == Connected || old(state) == Disconnecting
        then state == Disconnected && hist == old(hist) + [Down]
        else state == old(state) && hist == old(hist)
      ensures task.Destroy? ==> state == old(state) && channel.fd !in loop.poller.channels
                                && hist == old(hist) + if state == Connected then [Down, Gone] else [Gone]
      ensures task.RemoveConn? && loop != server.baseLoop ==>
        server.baseLoop.pendingFunctors == old(server.baseLoop.pendingFunctors)
      ensures old(loop.Valid()) ==> loop.Valid()
      ensures old(server.baseLoop.Valid()) ==> server.baseLoop.Valid()
    {
      match task {
        case Establish(_) => ConnectEstablished(thread);
        case CloseForced(_) => ForceCloseInLoop(thread);
        case RemoveConn(_) => server.RemoveConnectionInLoop(this, thread);
        case Destroy(_) => ConnectDestroyed(thread);
      }
    }
  }

  class EventLoopThreadPool {
    const baseLoop: EventLoop<Task>
    var threadNum: nat
    var nextIdx: nat
    var loops: seq<EventLoop<Task>>

    constructor (baseLoop: EventLoop<Task>)
      ensures this.baseLoop == baseLoop && threadNum == 0 && nextIdx == 0 && loops == []
    {
      this.baseLoop := baseLoop;
      threadNum, nextIdx, loops := 0, 0, [];
    }

    /** start() has made one loop per thread. */
    predicate Started() reads this { |loops| == threadNum && (threadNum > 0 ==> nextIdx < threadNum) }

    method GetNextLoop(thread: nat) returns (l: EventLoop<Task>)
      requires baseLoop.IsInLoopThread(thread) && Started()
      modifies this`nextIdx
      ensures Started()
      ensures l == if threadNum == 0 then baseLoop else loops[old(nextIdx)]
      ensures nextIdx == if threadNum == 0 then old(nextIdx) else (old(nextIdx) + 1) % threadNum
    {
      if threadNum == 0 { return baseLoop; }
      l := loops[nextIdx];
      nextIdx := (nextIdx + 1) % |loops|;
    }
  }

  class TcpServer {
    const baseLoop: EventLoop<Task>
    const pool: EventLoopThreadPool
    var nextConnId: int
    var connections: map<int, TcpConnection>

    constructor (baseLoop: EventLoop<Task>, pool: EventLoopThreadPool)
      ensures this.baseLoop == baseLoop && this.pool == pool && nextConnId == 1 && connections == map[]
    {
      this.baseLoop, this.pool := baseLoop, pool;
      nextConnId, connections := 1, map[];
    }

    /** The server map after conn's close callback ran on the given thread: at once without conn when
        that is the base thread, unchanged until the hop otherwise. */
    ghost predicate Removed(conn: TcpConnection, thread: nat, before: map<int, TcpConnection>) reads this {
      connections == if baseLoop.IsInLoopThread(thread) then before - {conn.id} else before
    }

    /** The one functor the close callback leaves behind. */
    ghost predicate Requeued(conn: TcpConnection, thread: nat, home: seq<Task>, base: seq<Task>)
      reads conn.loop, baseLoop
    {
      if baseLoop.IsInLoopThread(thread) then
        && conn.loop.pendingFunctors == home + [Destroy(conn)]
        && (conn.loop != baseLoop ==> baseLoop.pendingFunctors == base)
      else
        && baseLoop.pendingFunctors == base + [RemoveConn(conn)]
        && (conn.loop != baseLoop ==> conn.loop.pendingFunctors == home)
    }

    /** onNewConnection: the connection is in the map under a new id, and established at once or by
        exactly one functor on the loop that round robin chose. */
    method OnNewConnection(fd: int, thread: nat) returns (conn: TcpConnection)
      requires baseLoop.IsInLoopThread(thread) && pool.baseLoop == baseLoop && pool.Started()
      requires forall l <- pool.loops :: l.Valid() && l.CanQueue(thread) && !l.IsInLoopThread(thread)
      requires fd !in baseLoop.poller.channels
      modifies this, pool`nextIdx, baseLoop.poller, pool.loops
      ensures fresh(conn) && conn.server == this && conn.id == Reactor.AsInt32(old(nextConnId))
      ensures nextConnId == old(nextConnId) + 1 && connections == old(connections)[old(nextConnId) := conn]
      ensures conn.loop == if pool.threadNum == 0 then baseLoop else pool.loops[old(pool.nextIdx)]
      ensures pool.Started()
      ensures pool.nextIdx == if pool.threadNum == 0 then old(pool.nextIdx)
                              else (old(pool.nextIdx) + 1) % pool.threadNum
      ensures pool.threadNum == 0 ==>
        && conn.View() == Established(NewConn(baseLoop.threadId, fd))
        && conn.state == Connected && conn.hist == [Up] && conn.channel.events == EPOLLIN | EPOLLPRI
        && baseLoop.poller.View() ==
           OpPoll(EnableReading, old(baseLoop.poller.View()), conn.channel, NewConn(baseLoop.threadId, fd).chan)
      ensures pool.threadNum > 0 ==>
        && conn.View() == NewConn(conn.loop.threadId, fd) && conn.state == Connecting && conn.hist == []
        && conn.channel.events == NON_EVENT && !conn.channel.addedToLoop
        && baseLoop.poller.View() == old(baseLoop.poller.View())
        && conn.loop.pendingFunctors == old(pool.loops[pool.nextIdx].pendingFunctors) + [Establish(conn)]
      ensures forall l <- pool.loops :: l.Valid() && (l != conn.loop ==> l.pendingFunctors == old(l.pendingFunctors))
    {
      var ioLoop := pool.GetNextLoop(thread);
      var id := nextConnId;
      nextConnId := nextConnId + 1;
      conn := new TcpConnection(ioLoop, fd, id, this);
      connections := connections[id := conn];
      if ioLoop.IsInLoopThread(thread) {
        conn.ConnectEstablished(thread);
      } else {
        ioLoop.QueueInLoop(Establish(conn), thread);
      }
    }

    method RemoveConnection(conn: TcpConnection, thread: nat)
      requires conn.loop.Valid() && conn.loop.CanQueue(thread)
      requires baseLoop.Valid() && baseLoop.CanQueue(thread)
      modifies this`connections, conn.loop, baseLoop
      ensures Removed(conn, thread, old(connections))
      ensures conn.loop.Valid() && baseLoop.Valid()
      ensures Requeued(conn, thread, old(conn.loop.pendingFunctors), old(baseLoop.pendingFunctors))
      ensures if thread == baseLoop.threadId then
                && connections == old(connections) - {conn.id}
                && conn.loop.pendingFunctors == old(conn.loop.pendingFunctors) + [Destroy(conn)]
              else
                && connections == old(connections)
                && baseLoop.pendingFunctors == old(baseLoop.pendingFunctors) + [RemoveConn(conn)]
    {
      if baseLoop.IsInLoopThread(thread) {
        RemoveConnectionInLoop(conn, thread);
      } else {
        baseLoop.QueueInLoop(RemoveConn(conn), thread);
      }
    }

    method RemoveConnectionInLoop(conn: TcpConnection, thread: nat)
      requires baseLoop.IsInLoopThread(thread)
      requires conn.loop.Valid() && conn.loop.CanQueue(thread)
      modifies this`connections, conn.loop
      ensures connections == old(connections) - {conn.id} && conn.loop.Valid()
      ensures conn.loop.pendingFunctors == old(conn.loop.pendingFunctors) + [Destroy(conn)]
    {
      connections := connections - {conn.id};
      conn.loop.QueueInLoop(Destroy(conn), thread);
    }
  }
}
