/** A stream of bytes read from chunks that come one after the other and may be empty. */
module RawStream {
  import opened Bytes

  function Concat(chunks: seq<seq<Byte>>): seq<Byte> {
    if chunks == [] then [] else chunks[0] + Concat(chunks[1..])
  }

  lemma {:induction false} NextChunk(chunks: seq<seq<Byte>>, k: nat)
    requires k < |chunks|
    ensures Concat(chunks[k..]) == chunks[k] + Concat(chunks[k + 1..])
  {
    assert chunks[k..][1..] == chunks[k + 1..];
  }

  class IterRawStream {
    const iterable: seq<seq<Byte>>
    var next: nat
    var leftover: seq<Byte>

    ghost predicate Valid()
      reads this
    {
      next <= |iterable|
    }

    /** All bytes that have not been read: what is left of the last chunk, and the chunks to come. */
    ghost function Remaining(): seq<Byte>
      requires Valid()
      reads this
    {
      leftover + Concat(iterable[next..])
    }

    constructor (iterable: seq<seq<Byte>>)
      ensures Valid() && Remaining() == Concat(iterable)
    {
      this.iterable := iterable;
      next := 0;
      leftover := [];
    }

    /**
     Fill the start of the buffer with the next bytes, as many as one chunk offers. The result is
     zero only at the end of all chunks, or when there is no room in the buffer.
     */
    method ReadInto(b: array<Byte>) returns (n: nat)
      requires Valid()
      modifies this, b
      ensures Valid() && n <= b.Length
      ensures b[..n] + Remaining() == old(Remaining())
      ensures forall i | n <= i < b.Length :: b[i] == old(b[i])
      ensures n == 0 <==> b.Length == 0 || old(Remaining()) == []
    {
      var chunk := leftover;
      while chunk == []
        invariant Valid() && leftover == old(leftover)
        invariant chunk + Concat(iterable[next..]) == old(Remaining())
        decreases |iterable| - next, chunk == []
        modifies this
      {
        if next == |iterable| {
          return 0;
        }
        NextChunk(iterable, next);
        chunk := iterable[next];
        next := next + 1;
      }
      n := if b.Length < |chunk| then b.Length else |chunk|;
      var output := chunk[..n];
      leftover := chunk[n..];
      forall i | 0 <= i < n {
        b[i] := output[i];
      }
      assert b[..n] == output && output + leftover == chunk;
    }
  }

  /** Reading with buffers of these sizes yields what was next, and leaves the rest. */
  method ReadWithBuffers(stream: IterRawStream, sizes: seq<nat>) returns (outputs: seq<seq<Byte>>)
    requires stream.Valid()
    modifies stream
    ensures stream.Valid() && |outputs| == |sizes|
    ensures Concat(outputs) + stream.Remaining() == old(stream.Remaining())
    ensures forall i | 0 <= i < |sizes| :: |outputs[i]| <= sizes[i]
    ensures forall i | 0 <= i < |sizes| :: outputs[i] == [] && sizes[i] > 0 ==> stream.Remaining() == []
  {
    outputs := [];
    for i := 0 to |sizes|
      invariant stream.Valid() && |outputs| == i
      invariant Concat(outputs) + stream.Remaining() == old(stream.Remaining())
      invariant forall j | 0 <= j < i :: |outputs[j]| <= sizes[j]
      invariant forall j | 0 <= j < i :: outputs[j] == [] && sizes[j] > 0 ==> stream.Remaining() == []
    {
      var buffer := new Byte[sizes[i]];
      var n := stream.ReadInto(buffer);
      ConcatAppend(outputs, buffer[..n]);
      outputs := outputs + [buffer[..n]];
    }
  }

  lemma {:induction false} ConcatAppend(chunks: seq<seq<Byte>>, last: seq<Byte>)
    ensures Concat(chunks + [last]) == Concat(chunks) + last
  {
    if chunks == [] {
      assert [last][1..] == [];
    } else {
      ConcatAppend(chunks[1..], last);
      assert (chunks + [last])[1..] == chunks[1..] + [last];
    }
  }

  /** Reading until nothing more comes, with any buffer that has room, yields all chunks in order. */
  method ReadAll(stream: IterRawStream, bufferSize: nat) returns (all: seq<Byte>)
    requires stream.Valid() && bufferSize > 0
    modifies stream
    ensures all == old(stream.Remaining()) && stream.Valid() && stream.Remaining() == []
  {
    all := [];
    var buffer := new Byte[bufferSize];
    var n := stream.ReadInto(buffer);
    while n > 0
      invariant stream.Valid() && buffer.Length == bufferSize && 0 <= n <= buffer.Length && fresh(buffer)
      invariant all + buffer[..n] + stream.Remaining() == old(stream.Remaining())
      invariant n == 0 ==> stream.Remaining() == []
      decreases |stream.Remaining()| + n
    {
      all := all + buffer[..n];
      n := stream.ReadInto(buffer);
    }
    assert all + buffer[..0] + [] == all;
  }
}
