/** The bitmap allocator of linkedlist/include/bitmap.h: one bit per slot in 64-bit words, set while the
    slot is free. A word is modelled by its bits, lowest first. */
module SlotBitmap {
  import opened ListCommon

  type Word = w: seq<bool> | |w| == 64 witness seq(64, _ => true)

  /** `__builtin_ffs`, whose argument is an int: one plus the position of the lowest set bit among the low
      32, or 0. */
  function Ffs(w: Word, k: nat): (r: nat)
    requires k <= 32
    ensures r == 0 <==> forall j :: k <= j < 32 ==> !w[j]
    ensures r > 0 ==> k < r <= 32 && w[r - 1] && forall j :: k <= j < r - 1 ==> !w[j]
    decreases 32 - k
  {
    if k == 32 then 0 else if w[k] then k + 1 else Ffs(w, k + 1)
  }

  class Bitmap {
    const words: array<Word>

    /** BM_INIT: every slot is free. */
    constructor (size: nat)
      ensures words.Length == size / 64 && fresh(words)
      ensures forall x: nat :: IsFree(x) <==> x < (size / 64) * 64
    {
      words := new Word[size / 64](_ => seq(64, _ => true));
    }

    predicate IsFree(x: nat)
      reads words
    {
      x < words.Length * 64 && words[x / 64][x % 64]
    }

    ghost function Free(): set<nat>
      reads words
    {
      set x: nat | x < words.Length * 64 && IsFree(x)
    }

    /** bm_clear_bit: returns whether the bit was set. */
    method ClearBit(k: nat) returns (was: bool)
      requires k < words.Length * 64
      modifies words
      ensures was == (k in old(Free()))
      ensures Free() == old(Free()) - {k}
      ensures forall x: nat :: IsFree(x) <==> old(IsFree(x)) && x != k
    {
      was := words[k / 64][k % 64];
      words[k / 64] := words[k / 64][k % 64 := false];
    }

    /** bm_set_bit. */
    method SetBit(k: nat)
      requires k < words.Length * 64
      modifies words
      ensures Free() == old(Free()) + {k}
      ensures forall x: nat :: IsFree(x) <==> old(IsFree(x)) || x == k
    {
      words[k / 64] := words[k / 64][k % 64 := true];
    }

    /** bm_find_first_bit_set: one plus the lowest free slot it can find, or 0. With no word at all the
        macro leaves its result unassigned. */
    method FindFirst() returns (ret: nat)
      requires words.Length > 0
      ensures ret == 0 <==> forall x: nat :: x in Free() ==> !InLowHalf(x)
      ensures ret > 0 ==> ret - 1 in Free() && InLowHalf(ret - 1)
      ensures ret > 0 ==> forall x: nat :: x in Free() && InLowHalf(x) ==> ret - 1 <= x
    {
      ret := 0;
      var i := 0;
      while i < words.Length
        invariant 0 <= i <= words.Length && ret == 0
        invariant forall x: nat :: x < i * 64 && IsFree(x) ==> !InLowHalf(x)
      {
        ret := Ffs(words[i], 0);
        if ret != 0 {
          ret := ret + i * 64;
          assert (ret - 1) / 64 == i && (ret - 1) % 64 == ret - 1 - i * 64;
          assert ret - 1 in Free();
          return;
        }
        i := i + 1;
      }
    }
  }

  predicate IsSlot(x: nat, n: nat) { x < n }

  function Range(n: nat): set<nat> { set x: nat | x < n && IsSlot(x, n) }

  function FindableBelow(n: nat): set<nat> { set x: nat | x < n && InLowHalf(x) }

  lemma {:induction false} RangeSize(n: nat)
    ensures |Range(n)| == n
  {
    if n > 0 {
      RangeSize(n - 1);
      assert Range(n) == Range(n - 1) + {n - 1};
    } else {
      assert Range(0) == {};
    }
  }

  lemma {:induction false} FindableStep(words: nat, k: nat)
    requires k <= 64
    ensures |FindableBelow(words * 64 + k)| == |FindableBelow(words * 64)| + if k < 32 then k else 32
  {
    if k > 0 {
      FindableStep(words, k - 1);
      var x := words * 64 + k - 1;
      assert x % 64 == k - 1;
      assert FindableBelow(x + 1) == FindableBelow(x) + if k - 1 < 32 then {x} else {};
    }
  }

  /** Half of the slots can never be found, so the list holds at most half of LL_SIZE nodes, sentinels
      included, and not LL_SIZE - 2 beside them as config.h says. */
  lemma {:induction false} HalfIsFindable(words: nat)
    ensures |FindableBelow(words * 64)| == words * 32
  {
    if words > 0 {
      HalfIsFindable(words - 1);
      FindableStep(words - 1, 64);
      assert (words - 1) * 64 + 64 == words * 64;
    } else {
      assert FindableBelow(0) == {};
    }
  }

  /** Until FindFirst fails every slot it can find has been handed out, and no other. */
  lemma FullMeansHalf(bm: Bitmap)
    requires forall x: nat :: x in bm.Free() ==> !InLowHalf(x)
    requires forall x: nat :: x < bm.words.Length * 64 && !InLowHalf(x) ==> x in bm.Free()
    ensures |Range(bm.words.Length * 64) - bm.Free()| == bm.words.Length * 32
  {
    HalfIsFindable(bm.words.Length);
    assert Range(bm.words.Length * 64) - bm.Free() == FindableBelow(bm.words.Length * 64);
  }
}
