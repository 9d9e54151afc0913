/**
 * The trace buffer as a stream of blocks. The dump ends a block with an all-ones word, so the stream can be split again
 * exactly because no word of formatted trace is all ones.
 */
module Framing {
  import opened Words
  import opened Sessions

  /** Split a stream at each all-ones word; the words after the last one form an unfinished block. */
  function Parse(s: seq<Word>): (r: (seq<seq<Word>>, seq<Word>))
  {
    if s == [] then ([], [])
    else
      var (blocks, open) := Parse(s[..|s| - 1]);
      var x := s[|s| - 1];
      if x == ONES then (blocks + [open], []) else (blocks, open + [x])
  }

  function Blocks(sessions: seq<seq<Word>>, depth: nat): (r: seq<seq<Word>>)
    ensures |r| == |sessions| && forall k :: 0 <= k < |r| ==> r[k] == Last(sessions[k], depth)
  {
    seq(|sessions|, k requires 0 <= k < |sessions| => Last(sessions[k], depth))
  }

  lemma {:induction false} ParseMore(s: seq<Word>, t: seq<Word>)
    requires ONES !in t
    ensures Parse(s + t) == (Parse(s).0, Parse(s).1 + t)
  {
    if t == [] {
      assert s + t == s;
      assert Parse(s).1 + [] == Parse(s).1;
    } else {
      var u := s + t;
      assert u[..|u| - 1] == s + t[..|t| - 1] && u[|u| - 1] == t[|t| - 1];
      ParseMore(s, t[..|t| - 1]);
      assert t == t[..|t| - 1] + [t[|t| - 1]];
      assert Parse(s).1 + t == Parse(s).1 + t[..|t| - 1] + [t[|t| - 1]];
    }
  }

  /** A block without an all-ones word, and its terminator, parse as one more block. */
  lemma ParseBlock(s: seq<Word>, block: seq<Word>)
    requires ONES !in block && Parse(s).1 == []
    ensures Parse(s + block + [ONES]) == (Parse(s).0 + [block], [])
  {
    ParseMore(s, block);
    hide Parse;
    ParseEnd(s + block);
    assert [] + block == block;
  }

  lemma ParseEnd(s: seq<Word>)
    ensures Parse(s + [ONES]) == (Parse(s).0 + [Parse(s).1], [])
  {
    var t := s + [ONES];
    assert t[..|t| - 1] == s && t[|t| - 1] == ONES;
  }

  lemma LastClean(s: seq<Word>, depth: nat)
    requires ONES !in s
    ensures ONES !in Last(s, depth)
  {
  }

  lemma BlocksAppend(sessions: seq<seq<Word>>, depth: nat)
    requires sessions != []
    ensures Blocks(sessions, depth) == Blocks(Front(sessions), depth) + [Last(sessions[|sessions| - 1], depth)]
  {
    hide Last;
  }

  lemma RenderStep(sessions: seq<seq<Word>>, depth: nat)
    requires sessions != []
    ensures Render(sessions, depth) == Render(Front(sessions), depth) + Last(sessions[|sessions| - 1], depth) + [ONES]
  {
    hide Last;
  }

  /** Splitting what the dumps wrote returns the list of drained blocks, empty ones included, with nothing left over. */
  lemma {:induction false} ParseRender(sessions: seq<seq<Word>>, depth: nat)
    requires forall k :: 0 <= k < |sessions| ==> ONES !in sessions[k]
    ensures Parse(Render(sessions, depth)) == (Blocks(sessions, depth), [])
  {
    if sessions == [] {
      ParseNothing(sessions, depth);
    } else {
      hide Last, Parse, Render, Blocks;
      var last := sessions[|sessions| - 1];
      ParseRender(Front(sessions), depth);
      LastClean(last, depth);
      ParseBlock(Render(Front(sessions), depth), Last(last, depth));
      RenderStep(sessions, depth);
      BlocksAppend(sessions, depth);
    }
  }

  lemma ParseNothing(sessions: seq<seq<Word>>, depth: nat)
    requires sessions == []
    ensures Parse(Render(sessions, depth)) == (Blocks(sessions, depth), [])
  {
  }

  // ---- Formatter frames (ARM IHI 0029, trace formatter) ----

  /**
   * A 16-byte frame. Bytes at even positions (0 to 14) carry either a new source ID (bit 0 set) or data whose bit 0
   * has moved to the auxiliary byte (bit 0 clear); bytes at odd positions are plain data; byte 15 is auxiliary.
   */
  datatype Slot = NewId(id: bv8) | Data(value: bv8)

  datatype Frame = Frame(even: seq<Slot>, odd: seq<bv8>, aux: bv8)

  predicate FrameShape(f: Frame) { |f.even| == 8 && |f.odd| == 7 }

  /** The IDs this driver can make the formatter emit: the null source 0, the trace unit's ID 6 and the trigger 0x7D. */
  ghost predicate FrameOk(f: Frame)
  {
    && FrameShape(f)
    && forall k :: 0 <= k < 8 && f.even[k].NewId? ==>
         f.even[k].id == 0 || f.even[k].id == 6 || f.even[k].id == 0x7D
  }

  function SlotByte(s: Slot): bv8
  {
    match s
    case NewId(id) => (id << 1) | 1
    case Data(v) => v & 0xFE
  }

  function FrameByte(f: Frame, k: nat): bv8
    requires FrameShape(f) && k < 16
  {
    if k == 15 then f.aux else if k % 2 == 0 then SlotByte(f.even[k / 2]) else f.odd[k / 2]
  }

  /** The k-th aligned little-endian word of a frame. */
  function FrameWord(f: Frame, k: nat): Word
    requires FrameShape(f) && k < 4
  {
    (FrameByte(f, 4 * k) as Word) | ((FrameByte(f, 4 * k + 1) as Word) << 8)
      | ((FrameByte(f, 4 * k + 2) as Word) << 16) | ((FrameByte(f, 4 * k + 3) as Word) << 24)
  }

  /** The first byte of every aligned word is at an even position, where 0xFF would be the ID 0x7F. */
  lemma FormattedWordsNotOnes(f: Frame, k: nat)
    requires FrameOk(f) && k < 4
    ensures FrameWord(f, k) != 0xFFFF_FFFF
  {
    var b := FrameByte(f, 4 * k);
    assert (4 * k) / 2 == 2 * k && (4 * k) % 2 == 0;
    assert b == SlotByte(f.even[2 * k]);
    LowByte(b, FrameByte(f, 4 * k + 1), FrameByte(f, 4 * k + 2), FrameByte(f, 4 * k + 3));
  }

  lemma LowByte(a: bv8, b: bv8, c: bv8, d: bv8)
    requires a != 0xFF
    ensures (a as Word) | ((b as Word) << 8) | ((c as Word) << 16) | ((d as Word) << 24) != ONES
  {
  }
}
