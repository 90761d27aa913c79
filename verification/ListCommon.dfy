/** What the models of the list, the allocator and the reclaimer share. */
module ListCommon {

  /** The slots of the sentinels. */
  const HEAD: nat := 0
  const TAIL: nat := 1

  const INT_MIN: int := -0x8000_0000
  const INT_MAX: int := 0x7FFF_FFFF

  const EPOCH_FREQ: nat := 64
  const EMPTY_FREQ: nat := 128

  /** The `next` word of a node: an index, and the delete mark of the node that holds it. */
  datatype Link = Link(idx: nat, mark: bool)

  /** A reservation; `Never` is UINT64_MAX, held by threads outside operations. */
  datatype Res = At(n: nat) | Never

  predicate Before(e: nat, r: Res) { r.At? ==> e < r.n }

  predicate AtMost(a: Res, b: Res) { b.Never? || (a.At? && a.n <= b.n) }

  predicate Less(a: Res, b: Res) { !AtMost(b, a) }

  /** A retired slot, with the epoch it was retired in. */
  datatype Entry = Entry(idx: nat, epoch: nat)

  /** `__builtin_ffs` takes an int, so it sees the low 32 bits of each 64-bit word of the bitmap. */
  predicate InLowHalf(x: nat) { x % 64 < 32 }
}
