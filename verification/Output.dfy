/** The output path of one connection (sendInloop and handelWrite), over every run of sends and
    write events with arbitrary partial writes. */
module OutputModel {
  import opened BufferObjects
  import opened PollerModel

  type Bytes = seq<byte>

  /** Interest bits, output buffer, bytes the socket took, and the bytes owed to the peer: every
      payload in order, except those whose direct write failed. */
  datatype Out = Out(events: bv32, buf: Bytes, wire: Bytes, owed: Bytes)

  /** isWriting() is an equality test on the interest bits. */
  predicate IsWriting(o: Out) { o.events == WRITE_EVENT }

  predicate WritesDirectly(o: Out) { !IsWriting(o) && o.buf == [] }

  /** sendInloop(data); w is what write(2) returns if it is called. */
  function Sent(o: Out, data: Bytes, w: int): Out
    requires w <= |data|
  {
    if WritesDirectly(o) && w < 0 then o
    else
      var n := if WritesDirectly(o) then w else 0;
      var rest := data[n..];
      Out(if rest != [] && !IsWriting(o) then o.events | WRITE_EVENT else o.events,
          o.buf + rest, o.wire + data[..n], o.owed + data)
  }

  /** A send that must queue, one that the socket refuses, and one that it takes in part or completely. */
  lemma SentIs(o: Out, data: Bytes, w: int)
    requires w <= |data|
    ensures var t := Sent(o, data, w);
            if o.events == EPOLLOUT || o.buf != [] then
              && t.wire == o.wire && t.buf == o.buf + data
              && t.events == if data == [] then o.events else o.events | EPOLLOUT
            else if w < 0 then t == o
            else
              && t.wire == o.wire + data[..w] && t.buf == data[w..]
              && t.events == if w == |data| then o.events else o.events | EPOLLOUT
  {
    if WritesDirectly(o) {
      if w >= 0 { assert o.buf + data[w..] == data[w..]; }
    } else {
      if o.events == EPOLLOUT { assert o.events | EPOLLOUT == o.events; }
      assert data[0..] == data && o.wire + data[..0] == o.wire && o.buf + data == o.buf + data[0..];
    }
  }

  /** handelWrite; w is what write(2) returns if it is called. */
  function Flushed(o: Out, w: int): Out
    requires w <= |o.buf|
  {
    if !IsWriting(o) || w <= 0 then o
    else Out(if w == |o.buf| then o.events & !WRITE_EVENT else o.events, o.buf[w..], o.wire + o.buf[..w], o.owed)
  }

  /** handelClose switches all interest off; sendInloop and handelWrite do not look at the state. */
  function Closed(o: Out): Out { o.(events := NON_EVENT) }

  datatype Op = Send(data: Bytes, w: int) | Writable(w: int) | Close

  predicate Possible(o: Out, op: Op) {
    match op
    case Send(data, w) => w <= |data|
    case Writable(w) => w <= |o.buf|
    case Close => true
  }

  function Do(o: Out, op: Op): Out
    requires Possible(o, op)
  {
    match op
    case Send(data, w) => Sent(o, data, w)
    case Writable(w) => Flushed(o, w)
    case Close => Closed(o)
  }

  predicate IsRun(o: Out, ops: seq<Op>)
    decreases |ops|
  {
    ops == [] || (Possible(o, ops[0]) && IsRun(Do(o, ops[0]), ops[1..]))
  }

  function Final(o: Out, ops: seq<Op>): Out
    requires IsRun(o, ops)
    decreases |ops|
  {
    if ops == [] then o else Final(Do(o, ops[0]), ops[1..])
  }

  /** No byte is lost, doubled or reordered. */
  predicate Conserved(o: Out) { o.wire + o.buf == o.owed }

  /** Unsent bytes keep the write interest on. */
  predicate Waiting(o: Out) { o.buf != [] ==> o.events & WRITE_EVENT != 0 }

  lemma DoConserves(o: Out, op: Op)
    requires Conserved(o) && Possible(o, op)
    ensures Conserved(Do(o, op))
    ensures Waiting(o) && !op.Close? ==> Waiting(Do(o, op))
  {
    match op
    case Send(data, w) =>
      WriteBitOn(o.events);
      if WritesDirectly(o) {
        if w >= 0 { assert (o.wire + data[..w]) + data[w..] == o.wire + data; }
      } else {
        assert data[0..] == data && o.wire + data[..0] == o.wire;
        assert o.wire + (o.buf + data) == (o.wire + o.buf) + data;
      }
    case Writable(w) =>
      if w > 0 { assert (o.wire + o.buf[..w]) + o.buf[w..] == o.wire + o.buf; }
    case Close =>
  }

  lemma WriteBitOn(events: bv32)
    ensures (events | WRITE_EVENT) & WRITE_EVENT != 0
  {}

  /** Over every run; the write interest until the connection is closed. */
  lemma {:induction false} RunConserves(o: Out, ops: seq<Op>)
    requires Conserved(o) && IsRun(o, ops)
    ensures Conserved(Final(o, ops))
    ensures Waiting(o) && Close !in ops ==> Waiting(Final(o, ops))
    decreases |ops|
  {
    if ops == [] {
    } else {
      DoConserves(o, ops[0]);
      RunConserves(Do(o, ops[0]), ops[1..]);
    }
  }

  /** What a step adds to the bytes meant for the peer: a payload, unless the socket refused it at once. */
  function Taken(o: Out, op: Op): Bytes {
    if !op.Send? || (o.events != EPOLLOUT && o.buf == [] && op.w < 0) then [] else op.data
  }

  /** The payloads of the sends of a run, in order, without those that the socket refused. */
  function Accepted(o: Out, ops: seq<Op>): Bytes
    requires IsRun(o, ops)
    decreases |ops|
  {
    if ops == [] then [] else Taken(o, ops[0]) + Accepted(Do(o, ops[0]), ops[1..])
  }

  lemma Regroup(a: Bytes, b: Bytes, c: Bytes)
    ensures a + (b + c) == (a + b) + c
  {}

  lemma TakesOnce(o: Out, op: Op)
    requires Possible(o, op)
    ensures var d := Do(o, op); d.wire + d.buf == (o.wire + o.buf) + Taken(o, op) && d.owed == o.owed + Taken(o, op)
  {
    match op
    case Send(data, w) =>
      if WritesDirectly(o) {
        if w >= 0 { assert (o.wire + data[..w]) + data[w..] == (o.wire + []) + data; }
      } else {
        assert (o.wire + data[..0]) + (o.buf + data[0..]) == (o.wire + o.buf) + data;
      }
    case Writable(w) =>
      if w > 0 { assert (o.wire + o.buf[..w]) + o.buf[w..] == o.wire + o.buf; }
    case Close =>
  }

  /** Over every run what the socket took, followed by what is buffered, grows by exactly the payloads:
      none is lost, doubled, cut or moved before an earlier one. */
  lemma {:induction false} PayloadsInOrder(o: Out, ops: seq<Op>)
    requires IsRun(o, ops)
    ensures var f := Final(o, ops);
            f.wire + f.buf == (o.wire + o.buf) + Accepted(o, ops) && f.owed == o.owed + Accepted(o, ops)
    decreases |ops|
  {
    if ops == [] {
    } else {
      var d, more := Do(o, ops[0]), Accepted(Do(o, ops[0]), ops[1..]);
      TakesOnce(o, ops[0]);
      PayloadsInOrder(d, ops[1..]);
      Regroup(o.wire + o.buf, Taken(o, ops[0]), more);
      Regroup(o.owed, Taken(o, ops[0]), more);
    }
  }

  function Payloads(ops: seq<Op>): Bytes {
    if ops == [] then [] else Payload(ops[0]) + Payloads(ops[1..])
  }

  function Payload(op: Op): Bytes { if op.Send? then op.data else [] }

  lemma StallsOnce(o: Out, op: Op)
    requires Possible(o, op) && !op.Close? && o.buf != [] && o.events & WRITE_EVENT != 0 && !IsWriting(o)
    ensures var d := Do(o, op); d.wire == o.wire && d.buf == o.buf + Payload(op) && d.events == o.events
  {
    WriteBitIdempotent(o.events);
    match op
    case Send(data, _) => assert data[0..] == data && o.wire + data[..0] == o.wire;
    case Writable(_) => assert o.buf + [] == o.buf;
  }

  /** As long as any other interest bit is on, nothing that was ever buffered leaves: until the close
      the socket gets no further byte and the buffer collects every payload. */
  lemma {:induction false} Stalls(o: Out, ops: seq<Op>)
    requires IsRun(o, ops) && Close !in ops && o.buf != [] && o.events & WRITE_EVENT != 0 && !IsWriting(o)
    ensures var f := Final(o, ops); f.wire == o.wire && f.buf == o.buf + Payloads(ops) && f.events == o.events
    decreases |ops|
  {
    if ops == [] {
      assert o.buf + [] == o.buf;
    } else {
      StallsOnce(o, ops[0]);
      Stalls(Do(o, ops[0]), ops[1..]);
      assert (o.buf + Payload(ops[0])) + Payloads(ops[1..]) == o.buf + (Payload(ops[0]) + Payloads(ops[1..]));
    }
  }

  lemma WriteBitIdempotent(events: bv32)
    requires events & WRITE_EVENT != 0
    ensures events | WRITE_EVENT == events
  {}

  predicate Drains(o: Out, ops: seq<Op>) { IsRun(o, ops) && Final(o, ops).buf == [] }

  /** Before the close a buffered output can be drained exactly when write interest is the only
      interest. */
  lemma DrainsIff(o: Out)
    requires Waiting(o) && o.buf != []
    ensures (exists ops: seq<Op> :: Close !in ops && Drains(o, ops)) <==> IsWriting(o)
  {
    if IsWriting(o) {
      DrainedAtOnce(o);
      assert Close !in [Writable(|o.buf|)];
    } else {
      forall ops: seq<Op> | Close !in ops ensures !Drains(o, ops) {
        if IsRun(o, ops) { Stalls(o, ops); }
      }
    }
  }

  lemma DrainedAtOnce(o: Out)
    requires IsWriting(o) && o.buf != []
    ensures Drains(o, [Writable(|o.buf|)]) && Final(o, [Writable(|o.buf|)]).wire == o.wire + o.buf
  {
    var ops: seq<Op> := [Writable(|o.buf|)];
    assert ops[1..] == [] && Possible(o, ops[0]);
    assert IsRun(Do(o, ops[0]), ops[1..]);
    assert o.buf[|o.buf|..] == [] && o.buf[..|o.buf|] == o.buf;
  }

  /** After the close the rest is still in the buffer, and the next payload sent makes write interest
      the only interest, so that both are written to the socket of a closed connection. */
  lemma SendAfterCloseDrains(o: Out, data: Bytes)
    requires o.buf != [] && data != []
    ensures var ops := [Close, Send(data, 0), Writable(|o.buf + data|)];
            Drains(o, ops) && Final(o, ops).wire == o.wire + (o.buf + data)
  {
    var all := o.buf + data;
    var last: seq<Op> := [Writable(|all|)];
    var tail: seq<Op> := [Send(data, 0)] + last;
    var c := Closed(o);
    var d := Do(c, Send(data, 0));
    assert data[0..] == data && data[..0] == [] && c.wire + [] == c.wire;
    assert d == Out(WRITE_EVENT, all, o.wire, o.owed + data) by { assert NON_EVENT | WRITE_EVENT == WRITE_EVENT; }
    DrainedAtOnce(d);
    assert tail[0] == Send(data, 0) && tail[1..] == last;
    assert IsRun(c, tail) && Final(c, tail) == Final(d, last);
    assert [Close, Send(data, 0), Writable(|all|)][1..] == tail;
  }

  /** On a connection with read interest on, which connectEstablished switches on, the rest of a first
      send that the socket takes only in part is not written before the close. */
  lemma PartialWriteIsFinal(o: Out, data: Bytes, w: int, ops: seq<Op>)
    requires o.events & READ_EVENT == READ_EVENT && o.buf == [] && 0 <= w < |data|
    requires IsRun(Sent(o, data, w), ops) && Close !in ops
    ensures Final(Sent(o, data, w), ops).wire == o.wire + data[..w]
  {
    ReadingIsNotWriting(o.events);
    WriteBitOn(o.events);
    Stalls(Sent(o, data, w), ops);
  }

  lemma ReadingIsNotWriting(events: bv32)
    requires events & READ_EVENT == READ_EVENT
    ensures events != WRITE_EVENT && events | WRITE_EVENT != WRITE_EVENT
  {}
}
