/** Machine words and the few sequence notions every other module uses. */
module Words {
  /** A 32-bit register or trace word. */
  type Word = bv32

  /** What RRD returns once the trace memory is empty; also the block terminator in the trace buffer. */
  const ONES: Word := 0xFFFF_FFFF

  /** What a circular buffer of `depth` words still holds after the words `s` went into it. */
  function Last<T>(s: seq<T>, depth: nat): (r: seq<T>)
    ensures |r| <= depth && |r| <= |s|
    ensures r == s[|s| - |r|..]
    ensures |r| == |s| || |r| == depth
  {
    if |s| <= depth then s else s[|s| - depth..]
  }

  lemma LastAppend<T>(s: seq<T>, x: T, depth: nat)
    ensures Last(Last(s, depth) + [x], depth) == Last(s + [x], depth)
  {
  }
}
