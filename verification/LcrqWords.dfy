/** The 64-bit words of a ring: a counter in the low 63 bits and one flag, `unsafe` or `closed`, in the top bit.
    These lemmas justify treating a word as a pair of a number and a flag, as `LcrqConcurrent` does. */
module LcrqWords {

  type Word = bv64

  const TOP: Word := 0x8000_0000_0000_0000

  function NodeIndex(i: Word): Word {
    i & !TOP
  }

  function SetUnsafe(i: Word): Word {
    i | TOP
  }

  function NodeUnsafe(i: Word): Word {
    i & TOP
  }

  function TailIndex(t: Word): Word {
    t & !TOP
  }

  predicate CrqIsClosed(t: Word) {
    t & TOP != 0
  }

  /** A word is its index and its flag. */
  lemma WordIsPair(w: Word)
    ensures w == (NodeUnsafe(w) | NodeIndex(w))
    ensures NodeUnsafe(w) == 0 || NodeUnsafe(w) == TOP
  {
  }

  /** Two words agreeing in index and flag are equal, so comparing words compares the pairs. */
  lemma PairDeterminesWord(w: Word, u: Word)
    requires NodeIndex(w) == NodeIndex(u) && NodeUnsafe(w) == NodeUnsafe(u)
    ensures w == u
  {
    WordIsPair(w);
    WordIsPair(u);
  }

  /** Setting the flag keeps the index, and a flagged word exceeds every index: this is why a closed tail is never
      moved by the repair loop, which compares whole words. */
  lemma FlaggedWord(w: Word, h: Word)
    ensures NodeIndex(SetUnsafe(w)) == NodeIndex(w) && NodeUnsafe(SetUnsafe(w)) == TOP
    ensures CrqIsClosed(w) && !CrqIsClosed(h) ==> w > h
  {
  }

  /** Below the last index, fetch-and-add moves the index by one and leaves the flag. */
  lemma FetchAndAdd(w: Word)
    requires TailIndex(w) < 0x7FFF_FFFF_FFFF_FFFF
    ensures TailIndex(w + 1) == TailIndex(w) + 1 && CrqIsClosed(w + 1) == CrqIsClosed(w)
  {
  }
}
