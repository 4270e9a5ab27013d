/** The connection's byte buffer: one growable vector, a reader index and a writer index. */
module Buffers {
  import opened BufferLayout
  import opened SystemCalls

  class Buffer {
    var buffer: array<char>
    var readerIndex: nat
    var writerIndex: nat

    ghost predicate Valid()
      reads this
    {
      CHEAP_PREPEND <= readerIndex <= writerIndex <= buffer.Length
    }

    ghost function Shape(): Layout
      reads this
    {
      Layout(buffer.Length, readerIndex, writerIndex)
    }

    /** The readable bytes, oldest first. */
    ghost function Contents(): seq<char>
      reads this, buffer
      requires Valid()
    {
      buffer[readerIndex..writerIndex]
    }

    ghost function View(): State
      reads this, buffer
      requires Valid()
    {
      State(Shape(), Contents())
    }

    constructor (initialSize: nat := INITIAL_SIZE)
      ensures Valid() && fresh(buffer)
      ensures Shape() == Created(initialSize) && Contents() == []
    {
      buffer := new char[CHEAP_PREPEND + initialSize](_ => '\0');
      readerIndex := CHEAP_PREPEND;
      writerIndex := CHEAP_PREPEND;
    }

    function ReadableBytes(): nat
      reads this
      requires Valid()
    {
      writerIndex - readerIndex
    }

    function WritableBytes(): nat
      reads this
      requires Valid()
    {
      buffer.Length - writerIndex
    }

    function PrependableBytes(): nat
      reads this
    {
      readerIndex
    }

    method Retrieve(len: nat)
      requires Valid()
      modifies this`readerIndex, this`writerIndex
      ensures Valid() && Shape() == Retrieved(old(Shape()), len)
      ensures len <= |old(Contents())| ==> Contents() == old(Contents())[len..]
      ensures len > |old(Contents())| ==> Contents() == []
    {
      if len < ReadableBytes() {
        readerIndex := readerIndex + len;
      } else {
        RetrieveAll();
      }
    }

    method RetrieveAll()
      requires Valid()
      modifies this`readerIndex, this`writerIndex
      ensures Valid() && Shape() == old(Shape()).(reader := CHEAP_PREPEND, writer := CHEAP_PREPEND)
      ensures Contents() == []
    {
      readerIndex := CHEAP_PREPEND;
      writerIndex := CHEAP_PREPEND;
    }

    method RetrieveAsString(len: nat) returns (result: seq<char>)
      requires Valid() && len <= ReadableBytes()
      modifies this`readerIndex, this`writerIndex
      ensures Valid() && Shape() == Retrieved(old(Shape()), len)
      ensures result + Contents() == old(Contents()) && |result| == len
    {
      ghost var was := Contents();
      result := buffer[readerIndex..readerIndex + len];
      assert result == was[..len] && was == was[..len] + was[len..];
      Retrieve(len);
      assert Contents() == was[len..];
    }

    method RetrieveAllAsString() returns (result: seq<char>)
      requires Valid()
      modifies this`readerIndex, this`writerIndex
      ensures Valid() && Shape() == Retrieved(old(Shape()), old(ReadableBytes()))
      ensures result == old(Contents()) && Contents() == []
    {
      result := RetrieveAsString(ReadableBytes());
    }

    method EnsureWritableBytes(len: nat)
      requires Valid()
      modifies this, buffer
      ensures Valid() && (buffer == old(buffer) || fresh(buffer))
      ensures Shape() == Ensured(old(Shape()), len)
      ensures Contents() == old(Contents())
    {
      if WritableBytes() < len {
        MakeSpace(len);
      }
    }

    method Append(data: seq<char>)
      requires Valid()
      modifies this, buffer
      ensures Valid() && (buffer == old(buffer) || fresh(buffer))
      ensures Shape() == Appended(old(Shape()), |data|)
      ensures Contents() == old(Contents()) + data
    {
      EnsureWritableBytes(|data|);
      TakeIn(data);
    }

    /** Copies bytes from outside the buffer to the writer index and moves that index past them. */
    method TakeIn(data: seq<char>)
      requires Valid() && |data| <= WritableBytes()
      modifies this`writerIndex, buffer
      ensures Valid() && Shape() == old(Shape()).(writer := old(writerIndex) + |data|)
      ensures Contents() == old(Contents()) + data
    {
      for i := 0 to |data|
        invariant unchanged(this) && buffer[readerIndex..writerIndex] == old(Contents())
        invariant buffer[writerIndex..writerIndex + i] == data[..i]
      {
        buffer[writerIndex + i] := data[i];
      }
      assert data[..|data|] == data;
      writerIndex := writerIndex + |data|;
    }

    /** The scatter read: the kernel fills the vector's tail first and the stack area after it. */
    method ReadFd(r: ReadResult) returns (n: int)
      requires Valid()
      requires r.Received? ==> |r.bytes| <= Offered(Shape())
      modifies this, buffer
      ensures Valid() && (buffer == old(buffer) || fresh(buffer))
      ensures r.ReadFailed? ==> n == -1 && Shape() == old(Shape()) && Contents() == old(Contents())
      ensures r.Received? ==> n == |r.bytes| && Shape() == Filled(old(Shape()), n)
      ensures r.Received? ==> Contents() == old(Contents()) + r.bytes
    {
      match r
      case ReadFailed => n := -1;
      case Received(bytes) =>
        n := |bytes|;
        if n <= WritableBytes() {
          TakeIn(bytes);
        } else {
          TakeInBoth(bytes);
        }
    }

    /** The vector's tail is full, and the rest, which is in the stack area, is appended. */
    method TakeInBoth(bytes: seq<char>)
      requires Valid() && |bytes| > WritableBytes()
      modifies this, buffer
      ensures Valid() && (buffer == old(buffer) || fresh(buffer))
      ensures Shape() == Filled(old(Shape()), |bytes|)
      ensures Contents() == old(Contents()) + bytes
    {
      var writable := WritableBytes();
      TakeIn(bytes[..writable]);
      Append(bytes[writable..]);
      assert bytes == bytes[..writable] + bytes[writable..];
    }

    /** Hands the readable bytes to the kernel, which takes a prefix of them; the indices stay. */
    method WriteFd(r: IoResult) returns (n: int, ghost taken: seq<char>)
      requires Valid() && Fits(r, ReadableBytes())
      ensures n == if r.Wrote? then r.n else -1
      ensures |taken| == (if n < 0 then 0 else n) && taken <= Contents()
    {
      match r
      case Failed(_) => n, taken := -1, [];
      case Wrote(count) => n, taken := count, Contents()[..count];
    }

    /** Moves the readable bytes down to the reserved prefix, or grows the vector. */
    method MakeSpace(len: nat)
      requires Valid() && WritableBytes() < len
      modifies this, buffer
      ensures Valid() && (buffer == old(buffer) || fresh(buffer))
      ensures Shape() == MadeSpace(old(Shape()), len)
      ensures Contents() == old(Contents())
    {
      if WritableBytes() + PrependableBytes() < len + CHEAP_PREPEND {
        Grow(writerIndex + len);
      } else {
        var readable := ReadableBytes();
        CompactionMovesDown(Shape(), len);
        CopyForward(readerIndex, writerIndex, CHEAP_PREPEND);
        readerIndex := CHEAP_PREPEND;
        writerIndex := readerIndex + readable;
      }
    }

    /** A larger vector with the same readable bytes. */
    method Grow(size: nat)
      requires Valid() && buffer.Length <= size
      modifies this`buffer
      ensures Valid() && fresh(buffer) && Shape() == old(Shape()).(size := size)
      ensures Contents() == old(Contents())
    {
      ghost var was := Contents();
      Resize(size);
      assert forall k | 0 <= k < |was| :: Contents()[k] == was[k];
    }

    /** The vector's resize to a larger size: the old elements stay, the new ones are zero. */
    method Resize(size: nat)
      requires buffer.Length <= size
      modifies this`buffer
      ensures fresh(buffer) && buffer.Length == size
      ensures forall k | 0 <= k < old(buffer.Length) :: buffer[k] == old(buffer[k])
      ensures forall k | old(buffer.Length) <= k < size :: buffer[k] == '\0'
    {
      var was := buffer;
      var now := new char[size](i requires 0 <= i < size reads was => if i < was.Length then was[i] else '\0');
      buffer := now;
    }

    /** The ascending element copy; source and target overlap, and the target starts below the source. */
    method CopyForward(first: nat, last: nat, target: nat)
      requires target < first <= last <= buffer.Length
      modifies buffer
      ensures buffer[target..target + (last - first)] == old(buffer[first..last])
    {
      for i := 0 to last - first
        invariant buffer[target..target + i] == old(buffer[first..last])[..i]
        invariant buffer[first + i..last] == old(buffer[first..last])[i..]
      {
        assert buffer[first + i] == buffer[first + i..last][0];
        buffer[target + i] := buffer[first + i];
      }
    }

    // ---- Whole runs

    /** One operation; taken is what it hands to the user. */
    method Do(op: Op) returns (taken: seq<char>)
      requires Valid() && (op.ReadFd? ==> |op.bytes| <= Offered(Shape()))
      modifies this, buffer
      ensures Valid() && (buffer == old(buffer) || fresh(buffer))
      ensures View() == Step(old(View()), op) && taken == TakenOutBy(old(View()), op)
    {
      taken := [];
      match op
      case Append(data) => Append(data);
      case Retrieve(len) => taken := RetrieveAsString(if len < ReadableBytes() then len else ReadableBytes());
      case ReadFd(bytes) => var n := ReadFd(Received(bytes));
    }

    /** A list of operations over the array does what the run says, so that what holds of runs holds of it: what
        has been handed out, followed by what is left, is what was there and what was put in, in order. */
    method DoAll(ops: seq<Op>) returns (taken: seq<char>)
      requires Valid() && Possible(View(), ops)
      modifies this, buffer
      ensures Valid() && (buffer == old(buffer) || fresh(buffer))
      ensures View() == Run(old(View()), ops)
      ensures taken + Contents() == old(Contents()) + PutIn(ops)
    {
      ghost var before := View();
      taken := [];
      for i := 0 to |ops|
        invariant Valid() && (buffer == old(buffer) || fresh(buffer))
        invariant View() == Run(before, ops[..i]) && taken == TakenOut(before, ops[..i])
      {
        assert PossibleAt(before, ops, i);
        assert ops[..i + 1][..i] == ops[..i];
        var more := Do(ops[i]);
        taken := taken + more;
      }
      assert ops[..|ops|] == ops;
      Fifo(before, ops);
    }
  }
}
