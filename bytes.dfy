/** Bytes, runs of equal bytes, and the in-memory byte buffer (Go's `bytes.Buffer`)
    that every region writer appends to. */
module Bytes {

  /** An unsigned 8-bit value (Go's `byte`). */
  newtype byte = x: int | 0 <= x < 256

  /** `count` copies of `b`: what a loop `for i := 0; i < count; i++ { w.Write([]byte{b}) }` writes. */
  function Fill(count: nat, b: byte): (r: seq<byte>)
    ensures |r| == count
    ensures forall i :: 0 <= i < count ==> r[i] == b
  {
    seq(count, _ => b)
  }

  /** Growing a run by one byte appends that byte. */
  lemma FillSnoc(count: nat, b: byte)
    ensures Fill(count + 1, b) == Fill(count, b) + [b]
  {
    assert Fill(count + 1, b)[..count] == Fill(count, b);
  }

  /** Concatenation is associative; called where a long chain of writes meets a long concatenation. */
  lemma AppendAssoc<T>(a: seq<T>, b: seq<T>, c: seq<T>)
    ensures a + b + c == a + (b + c)
  {
  }

  /** A sequence is a prefix of itself followed by anything. */
  lemma PrefixOfAppend<T>(a: seq<T>, b: seq<T>)
    ensures a <= a + b
  {
  }

  /** An unbounded, infallible byte sink. `Write` appends and never fails,
      as `bytes.Buffer.Write` is documented to, so the model drops its results. */
  class Buffer {
    /** Everything written so far, in order (what `Bytes()` returns). */
    var data: seq<byte>

    constructor ()
      ensures data == []
    {
      data := [];
    }

    method Write(p: seq<byte>)
      modifies this
      ensures data == old(data) + p
    {
      data := data + p;
    }
  }
}
