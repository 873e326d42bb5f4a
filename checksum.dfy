/** The write-through checksum accumulator of the save file's checksummed region
    (`checksumWriter` in internal/pokegen/gen.go) and the arithmetic it rests on. */
module Checksum {
  import opened Bytes

  /** The plain, unbounded sum of the bytes of `s`. */
  function ByteSum(s: seq<byte>): nat
  {
    if |s| == 0 then 0 else s[0] as nat + ByteSum(s[1..])
  }

  /** Go's `a += b` on bytes: addition that wraps around at 256, which is 8-bit vector addition. */
  function AddWrapping(a: byte, b: byte): byte
  {
    ((a as int + b as int) % 256) as byte
  }

  /** The 8-bit wrapping sum of `s`, i.e. the accumulator's value after `s` was fed to it from zero. */
  function SumMod256(s: seq<byte>): byte
  {
    (ByteSum(s) % 256) as byte
  }

  /** Go's `^b` on a byte, the one's complement: every bit flipped, so `b` and `^b` add up to 0xFF. */
  function Complement(b: byte): (r: byte)
    ensures b as int + r as int == 0xFF
  {
    0xFF - b
  }

  /** `Complement` is Go's `^b`: for every 8-bit value `x`, it maps the byte `x` to the byte whose
      bits are those of `x` flipped. */
  lemma ComplementIsBitwiseNot(x: bv8)
    ensures Complement(x as int as byte) == (!x) as int as byte
  {
  }

  lemma {:induction false} SumAppend(a: seq<byte>, b: seq<byte>)
    ensures ByteSum(a + b) == ByteSum(a) + ByteSum(b)
  {
    if |a| == 0 {
      assert a + b == b;
    } else {
      assert (a + b)[1..] == a[1..] + b;
      SumAppend(a[1..], b);
    }
  }

  /** A run of `count` copies of `b` adds `count * b` to the sum. */
  lemma {:induction false} SumFill(count: nat, b: byte)
    ensures ByteSum(Fill(count, b)) == count * b as int
  {
    if count > 0 {
      assert Fill(count, b)[1..] == Fill(count - 1, b);
      SumFill(count - 1, b);
    }
  }

  /** Feeding one more byte to the accumulator is one wrapping addition. */
  lemma SumMod256Snoc(s: seq<byte>, b: byte)
    ensures SumMod256(s + [b]) == AddWrapping(SumMod256(s), b)
  {
    SumAppend(s, [b]);
    assert ByteSum([b]) == b as int;
  }

  /** The wrapping sum of a concatenation combines the wrapping sums of its parts. */
  lemma SumMod256Append(a: seq<byte>, b: seq<byte>)
    ensures SumMod256(a + b) == AddWrapping(SumMod256(a), SumMod256(b))
  {
    SumAppend(a, b);
    ModAdd(ByteSum(a), ByteSum(b));
  }

  /** Reducing modulo 256 commutes with addition. */
  lemma ModAdd(x: nat, y: nat)
    ensures (x + y) % 256 == (x % 256 + y % 256) % 256
  {
    var qx, rx := x / 256, x % 256;
    var qy, ry := y / 256, y % 256;
    assert x + y == 256 * (qx + qy) + (rx + ry);
  }

  /** A region followed by the complement of its wrapping sum sums to 0xFF. */
  lemma ChecksumCompletes(s: seq<byte>)
    ensures SumMod256(s + [Complement(SumMod256(s))]) == 0xFF
    ensures (ByteSum(s) + Complement(SumMod256(s)) as int) % 256 == 0xFF
  {
    SumMod256Snoc(s, Complement(SumMod256(s)));
    var q, m := ByteSum(s) / 256, ByteSum(s) % 256;
    assert ByteSum(s) == 256 * q + m;
    assert Complement(SumMod256(s)) as int == 0xFF - m;
    assert ByteSum(s) + Complement(SumMod256(s)) as int == 256 * q + 0xFF;
  }

  /** The checksum catches every change to a single byte of the region. */
  lemma SingleByteChangeDetected(s: seq<byte>, i: nat, b: byte)
    requires i < |s| && b != s[i]
    ensures SumMod256(s[i := b]) != SumMod256(s)
  {
    assert s == s[..i] + [s[i]] + s[i + 1..];
    assert s[i := b] == s[..i] + [b] + s[i + 1..];
    SumAppend(s[..i] + [s[i]], s[i + 1..]);
    SumAppend(s[..i], [s[i]]);
    SumAppend(s[..i] + [b], s[i + 1..]);
    SumAppend(s[..i], [b]);
    assert ByteSum([b]) == b as int && ByteSum([s[i]]) == s[i] as int;
  }

  /** A write-through accumulator around a buffer: every byte written goes to the
      buffer unchanged and is added, modulo 256, to `sum`. */
  class ChecksumWriter {
    /** The wrapped writer. */
    const w: Buffer
    /** The 8-bit running sum. */
    var sum: byte
    /** What the buffer held when it was wrapped. */
    ghost const base: seq<byte>
    /** Every byte written through the accumulator so far. */
    ghost var written: seq<byte>

    ghost predicate Valid()
      reads this, w
    {
      && sum == SumMod256(written)
      && w.data == base + written
    }

    constructor (w: Buffer)
      ensures this.w == w && base == w.data
      ensures written == [] && sum == 0
      ensures Valid()
    {
      this.w := w;
      sum := 0;
      base := w.data;
      written := [];
    }

    /** Adds each byte of `p` to `sum`, then forwards `p` to the wrapped writer. */
    method Write(p: seq<byte>)
      requires Valid()
      modifies this, w
      ensures Valid()
      ensures written == old(written) + p
      ensures w.data == old(w.data) + p
    {
      assert written + p[..0] == written;
      for i := 0 to |p|
        invariant written == old(written) && w.data == old(w.data)
        invariant sum == SumMod256(written + p[..i])
      {
        SumMod256Snoc(written + p[..i], p[i]);
        assert written + p[..i + 1] == (written + p[..i]) + [p[i]];
        sum := AddWrapping(sum, p[i]);
      }
      assert p[..|p|] == p;
      w.Write(p);
      written := written + p;
    }

    /** Writes the complement of `sum`. The source gives this method a value receiver:
        it changes nothing in the accumulator, so its own byte is never added to `sum`. */
    method WriteChecksum()
      requires Valid()
      modifies w
      ensures w.data == old(w.data) + [Complement(sum)]
      ensures w.data == base + written + [Complement(SumMod256(written))]
    {
      w.Write([Complement(sum)]);
    }
  }
}
