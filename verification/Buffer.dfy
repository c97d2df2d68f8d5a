/** The growable byte buffer with a reader and a writer index (net/src/buffer.cpp): every operation
    acts on the readable bytes as the obvious sequence operation. */
module BufferObjects {
  import opened Common

  newtype byte = x: int | 0 <= x < 256

  const INITIAL_SIZE: nat := 1024
  const CHEAP_PREPEND: nat := 8
  const STACK_SEGMENT: nat := 65536
  const NEWLINE: byte := 10

  /** The first line of s with its line end, if there is a line end. */
  function FirstLine(s: seq<byte>): Option<seq<byte>> {
    if s == [] then None
    else if s[0] == NEWLINE then Some(s[..1])
    else match FirstLine(s[1..])
      case None => None
      case Some(line) => Some(s[..1] + line)
  }

  /** FirstLine is the shortest prefix that ends in a line end. */
  lemma {:induction false} FirstLineIs(s: seq<byte>, n: nat)
    requires n <= |s| && NEWLINE !in s[..n]
    ensures n == |s| ==> FirstLine(s) == None
    ensures n < |s| && s[n] == NEWLINE ==> FirstLine(s) == Some(s[..n+1])
  {
    if n == 0 {
    } else {
      assert s[0] in s[..n];
      assert s[1..][..n-1] == s[..n][1..];
      FirstLineIs(s[1..], n - 1);
      if n < |s| { assert s[..1] + s[1..][..n] == s[..n+1]; }
    }
  }

  lemma PrefixSlice(s: seq<byte>, t: seq<byte>, i: nat, j: nat)
    requires i <= j <= |s| <= |t| && t[..|s|] == s
    ensures t[i..j] == s[i..j]
  {
    forall k | i <= k < j ensures t[k] == s[k] { assert t[..|s|][k] == t[k]; }
  }

  class Buffer {
    var buffer: array<byte>
    var readerIdx: nat
    var writerIdx: nat

    ghost predicate Valid() reads this {
      CHEAP_PREPEND <= buffer.Length && readerIdx <= writerIdx <= buffer.Length
    }

    /** The readable bytes. */
    ghost function Contents(): seq<byte>
      requires Valid()
      reads this, buffer
    {
      buffer[readerIdx..writerIdx]
    }

    constructor ()
      ensures Valid() && Contents() == [] && fresh(buffer)
    {
      buffer := new byte[INITIAL_SIZE + CHEAP_PREPEND];
      readerIdx, writerIdx := CHEAP_PREPEND, CHEAP_PREPEND;
    }

    constructor Copy(other: Buffer)
      requires other.Valid()
      ensures Valid() && Contents() == old(other.Contents()) && fresh(buffer)
    {
      var source := other.buffer;
      buffer := new byte[other.buffer.Length](i requires 0 <= i < source.Length reads source => source[i]);
      readerIdx, writerIdx := other.readerIdx, other.writerIdx;
    }

    /** The moved-from buffer is left empty and usable. */
    constructor Move(other: Buffer)
      requires other.Valid()
      modifies other
      ensures Valid() && Contents() == old(other.Contents()) && buffer == old(other.buffer)
      ensures other.Valid() && other.Contents() == [] && fresh(other.buffer)
    {
      buffer := new byte[0];
      readerIdx, writerIdx := 0, 0;
      new;
      var tmp := new Buffer();
      tmp.Swap(other);
      tmp.Swap(this);
    }

    method Assign(other: Buffer)
      requires other.Valid()
      modifies this
      ensures Valid() && Contents() == old(other.Contents()) && fresh(buffer)
    {
      var tmp := new Buffer.Copy(other);
      tmp.Swap(this);
    }

    method AssignMove(other: Buffer)
      requires other.Valid()
      modifies this, other
      ensures Valid() && Contents() == old(other.Contents()) && buffer == old(other.buffer)
      ensures other != this ==> other.Valid() && other.Contents() == [] && fresh(other.buffer)
    {
      var tmp := new Buffer.Move(other);
      tmp.Swap(this);
    }

    method Swap(other: Buffer)
      modifies this, other
      ensures buffer == old(other.buffer) && readerIdx == old(other.readerIdx) && writerIdx == old(other.writerIdx)
      ensures other.buffer == old(buffer) && other.readerIdx == old(readerIdx) && other.writerIdx == old(writerIdx)
    {
      buffer, other.buffer := other.buffer, buffer;
      readerIdx, other.readerIdx := other.readerIdx, readerIdx;
      writerIdx, other.writerIdx := other.writerIdx, writerIdx;
    }

    function ReadableBytes(): (n: nat)
      requires Valid()
      reads this, buffer
      ensures n == |Contents()|
    { writerIdx - readerIdx }

    function WritableBytes(): nat
      requires Valid()
      reads this
    { buffer.Length - writerIdx }

    function PrependableBytes(): nat reads this { readerIdx }

    /** How much one readv can deliver: with enough writable room the stack segment is not offered. */
    function ReadRoom(): (n: nat)
      requires Valid()
      reads this
      ensures 65536 <= n && WritableBytes() <= n
      ensures n > WritableBytes() <==> WritableBytes() < 65536
    { if WritableBytes() >= STACK_SEGMENT then WritableBytes() else WritableBytes() + STACK_SEGMENT }

    /** Makes room for len bytes by growing, or by moving the readable bytes down in place. */
    method MakeSpace(len: nat)
      requires Valid() && WritableBytes() < len
      modifies this, buffer
      ensures Valid() && Contents() == old(Contents()) && len <= WritableBytes()
      ensures if old(readerIdx + WritableBytes()) < len + 8
              then fresh(buffer) && buffer.Length == old(writerIdx) + len && readerIdx == old(readerIdx)
              else buffer == old(buffer) && readerIdx == 8
    {
      if PrependableBytes() + WritableBytes() < len + CHEAP_PREPEND {
        Resize(writerIdx + len);
        PrefixSlice(old(buffer[..]), buffer[..], readerIdx, writerIdx);
      } else {
        assert CHEAP_PREPEND < readerIdx;
        var dataSize := ReadableBytes();
        MoveDown(dataSize);
        readerIdx := CHEAP_PREPEND;
        writerIdx := readerIdx + dataSize;
      }
    }

    /** std::vector::resize to a larger size. */
    method Resize(size: nat)
      requires Valid() && buffer.Length < size
      modifies this`buffer
      ensures fresh(buffer) && buffer.Length == size && buffer[..old(buffer.Length)] == old(buffer[..])
    {
      var grown := new byte[size](_ => 0);
      for i := 0 to buffer.Length
        invariant buffer == old(buffer) && grown[..i] == buffer[..i]
      {
        grown[i] := buffer[i];
      }
      buffer := grown;
    }

    /** std::copy of the readable bytes to the cheap-prepend mark; source and target overlap. */
    method MoveDown(n: nat)
      requires Valid() && CHEAP_PREPEND < readerIdx && n == writerIdx - readerIdx
      modifies buffer
      ensures buffer[CHEAP_PREPEND..CHEAP_PREPEND+n] == old(buffer[readerIdx..writerIdx])
    {
      for i := 0 to n
        invariant buffer[CHEAP_PREPEND..CHEAP_PREPEND+i] == old(buffer[readerIdx..readerIdx+i])
        invariant buffer[readerIdx+i..writerIdx] == old(buffer[readerIdx+i..writerIdx])
      {
        assert buffer[readerIdx+i] == buffer[readerIdx+i..writerIdx][0];
        buffer[CHEAP_PREPEND + i] := buffer[readerIdx + i];
      }
    }

    method Retrieve(len: nat)
      requires Valid() && len <= ReadableBytes()
      modifies this`readerIdx
      ensures Valid() && Contents() == old(Contents())[len..]
    {
      readerIdx := readerIdx + len;
    }

    method RetrieveAll()
      requires Valid()
      modifies this`readerIdx, this`writerIdx
      ensures Valid() && Contents() == [] && readerIdx == writerIdx == 8
    {
      readerIdx, writerIdx := CHEAP_PREPEND, CHEAP_PREPEND;
    }

    method RetrieveAsString(len: nat) returns (s: seq<byte>)
      requires Valid() && len <= ReadableBytes()
      modifies this`readerIdx
      ensures Valid() && s == old(Contents())[..len] && Contents() == old(Contents())[len..]
    {
      s := buffer[readerIdx..readerIdx+len];
      Retrieve(len);
    }

    method RetrieveAllAsString() returns (s: seq<byte>)
      requires Valid()
      modifies this`readerIdx
      ensures Valid() && s == old(Contents()) && Contents() == []
    {
      s := RetrieveAsString(ReadableBytes());
    }

    method Append(data: seq<byte>)
      requires Valid()
      modifies this, buffer
      ensures Valid() && Contents() == old(Contents()) + data
      ensures buffer == old(buffer) || fresh(buffer)
    {
      EnsureWritableBytes(|data|);
      Fill(data);
    }

    method EnsureWritableBytes(len: nat)
      requires Valid()
      modifies this, buffer
      ensures Valid() && Contents() == old(Contents()) && len <= WritableBytes()
      ensures buffer == old(buffer) || fresh(buffer)
    {
      if len > WritableBytes() { MakeSpace(len); }
    }

    /** Copies data behind the readable bytes, where there is room, and makes it readable. */
    method Fill(data: seq<byte>)
      requires Valid() && |data| <= WritableBytes()
      modifies this`writerIdx, buffer
      ensures Valid() && Contents() == old(Contents()) + data && writerIdx == old(writerIdx) + |data|
    {
      CopyAt(writerIdx, data);
      assert Contents() == buffer[..writerIdx][readerIdx..];
      HasWritten(|data|);
    }

    /** std::copy of bytes from outside to a place in the buffer; nothing else changes. */
    method CopyAt(pos: nat, data: seq<byte>)
      requires pos + |data| <= buffer.Length
      modifies buffer
      ensures buffer[pos..pos+|data|] == data
      ensures buffer[..pos] == old(buffer[..pos]) && buffer[pos+|data|..] == old(buffer[pos+|data|..])
    {
      for i := 0 to |data|
        invariant buffer[..pos] == old(buffer[..pos]) && buffer[pos+|data|..] == old(buffer[pos+|data|..])
        invariant forall k | 0 <= k < i :: buffer[pos + k] == data[k]
      {
        buffer[pos + i] := data[i];
      }
    }

    method HasWritten(len: nat)
      requires Valid() && len <= WritableBytes()
      modifies this`writerIdx
      ensures Valid() && Contents() == old(Contents()) + old(buffer[writerIdx..writerIdx+len])
    {
      writerIdx := writerIdx + len;
    }

    /** readFd: readv fills the writable room first and a 64 KiB stack segment after it; None is a
        failing readv. Whatever the kernel delivers is appended, in order. */
    method ReadFd(arrived: Option<seq<byte>>) returns (n: int)
      requires Valid()
      requires arrived.Some? ==> |arrived.value| <= ReadRoom()
      modifies this, buffer
      ensures Valid() && (buffer == old(buffer) || fresh(buffer))
      ensures n == if arrived.Some? then |arrived.value| else -1
      ensures Contents() == old(Contents()) + (if arrived.Some? then arrived.value else [])
    {
      var writableSize := WritableBytes();
      match arrived {
        case None => n := -1;
        case Some(bytes) =>
          n := |bytes|;
          if n <= writableSize {
            Fill(bytes);
          } else {
            Fill(bytes[..writableSize]);
            Append(bytes[writableSize..]);
            assert bytes[..writableSize] + bytes[writableSize..] == bytes;
          }
      }
    }

    method Prepend(data: seq<byte>)
      requires Valid() && |data| <= PrependableBytes()
      modifies this`readerIdx, buffer
      ensures Valid() && Contents() == data + old(Contents())
    {
      readerIdx := readerIdx - |data|;
      CopyAt(readerIdx, data);
      var mid := readerIdx + |data|;
      assert buffer[mid..writerIdx] == buffer[mid..][..writerIdx-mid]
          == old(buffer[readerIdx..])[..writerIdx-mid] == old(Contents());
      assert buffer[readerIdx..writerIdx] == buffer[readerIdx..mid] + buffer[mid..writerIdx];
    }

    /** Takes the first line off the front, or nothing when no line is complete. */
    method GetLine() returns (line: Option<seq<byte>>)
      requires Valid()
      modifies this`readerIdx
      ensures Valid() && line == FirstLine(old(Contents()))
      ensures line.Some? ==> |line.value| <= |old(Contents())|
      ensures Contents() == if line.None? then old(Contents()) else old(Contents())[|line.value|..]
    {
      ghost var s := Contents();
      var n := 0;
      while n < ReadableBytes() && buffer[readerIdx + n] != NEWLINE
        invariant Contents() == s && n <= |s| && NEWLINE !in s[..n]
      {
        assert buffer[readerIdx + n] == s[n] && s[..n+1] == s[..n] + [s[n]];
        n := n + 1;
      }
      FirstLineIs(s, n);
      if n == ReadableBytes() { return None; }
      assert buffer[readerIdx + n] == s[n];
      var taken := RetrieveAsString(n + 1);
      line := Some(taken);
    }
  }
}
