/** The delete mark of linkedlist/linkedlist.c:128-147: bit 31 of a node's `next` word. The other modules
    take a word apart into an index and a mark; this one says when that is right. */
module MarkBits {

  /** is_marked_idx; its conversion to int keeps the bit, as the sign. */
  predicate IsMarked(w: bv64) { w & 0x8000_0000 != 0 }

  function GetUnmarked(w: bv64): bv64 { w & 0xFFFF_FFFF_7FFF_FFFF }

  function GetMarked(w: bv64): bv64 { w | 0x8000_0000 }

  /** Marking can be undone for exactly the indices that leave bit 31 alone. */
  lemma MarkRoundTrip(idx: bv64)
    ensures !IsMarked(idx) <==> GetUnmarked(GetMarked(idx)) == idx
    ensures IsMarked(GetMarked(idx)) && !IsMarked(GetUnmarked(idx))
  {}

  /** The mark and the index make up the word. */
  lemma WordIsIndexAndMark(w: bv64)
    ensures IsMarked(w) ==> GetMarked(GetUnmarked(w)) == w
    ensures !IsMarked(w) ==> GetUnmarked(w) == w
  {}
}
