/** The constant parts of the save file are written as a fixed sequence of writes, each one either a
    literal byte slice (`w.Write([]byte{...})`) or a loop writing one byte a number of times
    (`for i := 0; i < count; i++ { w.Write([]byte{value}) }`). A `Plan` lists such writes in order. */
module Runs {
  import opened Bytes
  import opened Checksum

  /** One write of a constant region. */
  datatype Run = Literal(bytes: seq<byte>) | Repeat(count: nat, value: byte)

  /** A fixed sequence of writes: `Then(r, p)` does `r`, then everything `p` does. */
  datatype Plan = Done | Then(first: Run, rest: Plan)

  /** The bytes one write puts out. */
  function RunBytes(r: Run): seq<byte>
  {
    match r
    case Literal(bs) => bs
    case Repeat(n, b) => Fill(n, b)
  }

  /** The bytes a plan puts out, in order. */
  function Expand(p: Plan): seq<byte>
  {
    match p
    case Done => []
    case Then(r, q) => RunBytes(r) + Expand(q)
  }

  /** The number of bytes of a write, without expanding a repeated byte. */
  function RunLength(r: Run): nat
  {
    match r
    case Literal(bs) => |bs|
    case Repeat(n, _) => n
  }

  /** The byte sum of a write, without expanding a repeated byte. */
  function RunSum(r: Run): nat
  {
    match r
    case Literal(bs) => ByteSum(bs)
    case Repeat(n, b) => n * b as nat
  }

  /** The number of bytes a plan puts out, counted write by write. */
  function PlanLength(p: Plan): nat
  {
    match p
    case Done => 0
    case Then(r, q) => RunLength(r) + PlanLength(q)
  }

  /** The byte sum of what a plan puts out, counted write by write. */
  function PlanSum(p: Plan): nat
  {
    match p
    case Done => 0
    case Then(r, q) => RunSum(r) + PlanSum(q)
  }

  /** Counting one write without expanding it agrees with its bytes. */
  lemma RunFacts(r: Run)
    ensures |RunBytes(r)| == RunLength(r)
    ensures ByteSum(RunBytes(r)) == RunSum(r)
  {
    if r.Repeat? {
      SumFill(r.count, r.value);
    }
  }

  /** Counting write by write agrees with the bytes of the whole plan. */
  lemma {:induction false} ExpandFacts(p: Plan)
    ensures |Expand(p)| == PlanLength(p)
    ensures ByteSum(Expand(p)) == PlanSum(p)
  {
    match p
    case Done =>
    case Then(r, q) =>
      ExpandFacts(q);
      RunFacts(r);
      SumAppend(RunBytes(r), Expand(q));
  }

  /** A writer that has put out `done` and still owes `Expand(p)` to reach `target` still owes
      `Expand(p.rest)` once it has put out the first write of `p`. */
  lemma Advance(p: Plan, target: seq<byte>, done: seq<byte>)
    requires p.Then?
    requires target == done + Expand(p)
    ensures target == (done + RunBytes(p.first)) + Expand(p.rest)
  {
    AppendAssoc(done, RunBytes(p.first), Expand(p.rest));
  }
}
