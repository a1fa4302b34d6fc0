/** The fixed-size text chunker of pkg/files/chunker.go, on decoded runes. */
module Chunker {
  type Rune = nat

  /** unicode.IsSpace. */
  predicate IsSpace(r: Rune) {
    9 <= r <= 13 || r == 0x20 || r == 0x85 || r == 0xA0 || r == 0x1680 ||
    0x2000 <= r <= 0x200A || r == 0x2028 || r == 0x2029 || r == 0x202F || r == 0x205F || r == 0x3000
  }

  datatype Piece = Piece(index: nat, text: seq<Rune>, start: nat, end: nat)

  /** Where the chunk starting at `pos` must end: at the last whitespace of the
      second half of the window, or at its far edge when there is none. */
  ghost predicate EndsAt(runes: seq<Rune>, pos: nat, max: nat, end: nat) {
    if pos + max >= |runes| then end == |runes|
    else
      && pos + max / 2 < end <= pos + max
      && (forall i | end < i <= pos + max :: !IsSpace(runes[i]))
      && (!IsSpace(runes[end]) ==> end == pos + max && forall i | pos + max / 2 < i <= pos + max :: !IsSpace(runes[i]))
  }

  ghost predicate Exact(c: Piece, k: nat, runes: seq<Rune>, max: nat) {
    && c.index == k
    && c.start < c.end <= |runes| && c.end - c.start <= max
    && c.text == runes[c.start..c.end]
    && EndsAt(runes, c.start, max, c.end)
  }

  /** Windows numbered from 0 that only move forward and leave no gap. */
  ghost predicate Advancing(chunks: seq<Piece>, runes: seq<Rune>, max: nat) {
    && (forall k | 0 <= k < |chunks| :: Exact(chunks[k], k, runes, max))
    && (forall j, k | 0 <= j < k < |chunks| && k == j + 1 ::
          chunks[j].start < chunks[k].start <= chunks[j].end <= chunks[k].end)
  }

  /** A cover of the text, from its first rune to its last. */
  ghost predicate Covers(chunks: seq<Piece>, runes: seq<Rune>, max: nat) {
    && Advancing(chunks, runes, max)
    && (runes != [] ==> chunks != [] && chunks[0].start == 0 && chunks[|chunks| - 1].end == |runes|)
  }

  /** The next start: `overlap` runes before the end, or one rune further on when
      that would not advance. */
  function NextStart(c: Piece, overlap: nat): int {
    if c.end - c.start > overlap then c.end - overlap else c.start + 1
  }

  ghost predicate Stepped(chunks: seq<Piece>, overlap: nat) {
    forall j, k | 0 <= j < k < |chunks| && k == j + 1 :: chunks[k].start == NextStart(chunks[j], overlap)
  }

  /** Each chunk repeats the last `overlap` runes of the one before if that moves on, and
      moves on by one rune if not. */
  lemma {:induction false} OverlapsOrMovesOn(chunks: seq<Piece>, overlap: nat, k: nat)
    requires Stepped(chunks, overlap) && 0 < k < |chunks|
    ensures chunks[k - 1].start < chunks[k - 1].end - overlap ==> chunks[k].start == chunks[k - 1].end - overlap
    ensures chunks[k - 1].start >= chunks[k - 1].end - overlap ==> chunks[k].start == chunks[k - 1].start + 1
  {
    assert k == (k - 1) + 1;
  }

  /** The backward whitespace search cannot move an end back. */
  lemma EndsNeverMoveBack(runes: seq<Rune>, max: nat, pos: nat, end: nat, pos': nat, end': nat)
    requires pos < pos' < |runes| && EndsAt(runes, pos, max, end) && EndsAt(runes, pos', max, end')
    requires pos' <= end
    ensures end <= end'
  {
  }

  /** The loop's invariant: what has been cut off so far, and where it goes on. */
  ghost predicate CutUpTo(chunks: seq<Piece>, runes: seq<Rune>, max: nat, overlap: nat, pos: nat) {
    && Advancing(chunks, runes, max) && Stepped(chunks, overlap)
    && (chunks == [] ==> pos == 0)
    && (chunks != [] ==>
          && chunks[0].start == 0
          && pos == NextStart(chunks[|chunks| - 1], overlap)
          && (pos >= |runes| ==> chunks[|chunks| - 1].end == |runes|))
  }

  lemma {:induction false} AdvanceByOne(chunks: seq<Piece>, c: Piece, runes: seq<Rune>, max: nat)
    requires Advancing(chunks, runes, max) && Exact(c, |chunks|, runes, max)
    requires chunks != [] ==>
               var last := chunks[|chunks| - 1];
               last.start < c.start <= last.end <= c.end
    ensures Advancing(chunks + [c], runes, max)
  {
    var more := chunks + [c];
    forall k | 0 <= k < |more|
      ensures Exact(more[k], k, runes, max)
    {
      assert more[k] == if k < |chunks| then chunks[k] else c;
    }
    forall j, k | 0 <= j < k < |more| && k == j + 1
      ensures more[j].start < more[k].start <= more[j].end <= more[k].end
    {
      assert more[j] == chunks[j] && more[k] == if k < |chunks| then chunks[k] else c;
    }
  }

  lemma CutOneMore(chunks: seq<Piece>, runes: seq<Rune>, max: nat, overlap: nat, pos: nat, end: nat)
    requires CutUpTo(chunks, runes, max, overlap, pos)
    requires max > 0 && pos < |runes| && EndsAt(runes, pos, max, end) && pos < end <= |runes|
    ensures var c := Piece(|chunks|, runes[pos..end], pos, end);
            CutUpTo(chunks + [c], runes, max, overlap, NextStart(c, overlap))
  {
    if chunks != [] {
      var last := chunks[|chunks| - 1];
      assert Exact(last, |chunks| - 1, runes, max);
      EndsNeverMoveBack(runes, max, last.start, last.end, pos, end);
    }
    AdvanceByOne(chunks, Piece(|chunks|, runes[pos..end], pos, end), runes, max);
  }

  class FixedSizeChunker {
    const maxChunkChars: nat
    const overlapChars: nat

    constructor (maxTokens: int, overlapTokens: int)
      ensures maxChunkChars == 4 * (if maxTokens <= 0 then 800 else maxTokens)
      ensures overlapChars == 4 * (if overlapTokens < 0 then 0 else overlapTokens)
    {
      maxChunkChars := 4 * (if maxTokens <= 0 then 800 else maxTokens);
      overlapChars := 4 * (if overlapTokens < 0 then 0 else overlapTokens);
    }

    /** The end of the window at `pos`, moved back to whitespace if there is some. */
    method FindEnd(runes: seq<Rune>, pos: nat) returns (end: nat)
      requires maxChunkChars > 0 && pos < |runes|
      ensures pos < end <= |runes| && end <= pos + maxChunkChars && EndsAt(runes, pos, maxChunkChars, end)
    {
      end := pos + maxChunkChars;
      if end > |runes| {
        end := |runes|;
      }
      if end < |runes| {
        var breakAt := end;
        while breakAt > pos + maxChunkChars / 2
          invariant pos + maxChunkChars / 2 <= breakAt <= pos + maxChunkChars
          invariant forall i | breakAt < i <= pos + maxChunkChars :: !IsSpace(runes[i])
          invariant end == pos + maxChunkChars < |runes|
        {
          if IsSpace(runes[breakAt]) {
            end := breakAt;
            break;
          }
          breakAt := breakAt - 1;
        }
      }
    }

    method Chunk(runes: seq<Rune>) returns (chunks: seq<Piece>)
      requires maxChunkChars > 0
      ensures Covers(chunks, runes, maxChunkChars) && Stepped(chunks, overlapChars)
      ensures runes == [] ==> chunks == []
    {
      chunks := [];
      var pos, index := 0, 0;
      while pos < |runes|
        invariant index == |chunks| && (runes == [] ==> chunks == [])
        invariant CutUpTo(chunks, runes, maxChunkChars, overlapChars, pos)
      {
        var end := FindEnd(runes, pos);
        CutOneMore(chunks, runes, maxChunkChars, overlapChars, pos, end);
        chunks := chunks + [Piece(index, runes[pos..end], pos, end)];
        index := index + 1;
        var advance := end - pos - overlapChars;
        if advance <= 0 {
          advance := 1;
        }
        pos := pos + advance;
      }
    }
  }

  // ----- What a cover means -----

  function Concat(chunks: seq<Piece>): seq<Rune> {
    if chunks == [] then [] else Concat(chunks[..|chunks| - 1]) + chunks[|chunks| - 1].text
  }

  lemma Glue(runes: seq<Rune>, i: nat, j: nat)
    requires i <= j <= |runes|
    ensures runes[..i] + runes[i..j] == runes[..j]
  {
  }

  lemma {:induction false} OneMoreChunk(chunks: seq<Piece>, n: nat)
    requires 0 < n <= |chunks|
    ensures Concat(chunks[..n]) == Concat(chunks[..n - 1]) + chunks[n - 1].text
  {
    assert chunks[..n][..n - 1] == chunks[..n - 1];
  }

  /** Without overlap a chunk starts where the one before it ended. */
  lemma {:induction false} StartsAtTheEnd(chunks: seq<Piece>, runes: seq<Rune>, max: nat, n: nat)
    requires Covers(chunks, runes, max) && Stepped(chunks, 0) && 0 < n < |chunks|
    ensures chunks[n].start == chunks[n - 1].end <= chunks[n].end <= |runes|
    ensures chunks[n].text == runes[chunks[n].start..chunks[n].end]
  {
    assert Exact(chunks[n - 1], n - 1, runes, max) && Exact(chunks[n], n, runes, max);
  }

  lemma {:induction false} PrefixConcat(chunks: seq<Piece>, runes: seq<Rune>, max: nat, n: nat)
    requires Covers(chunks, runes, max) && Stepped(chunks, 0) && 0 < n <= |chunks|
    ensures chunks[n - 1].end <= |runes| && Concat(chunks[..n]) == runes[..chunks[n - 1].end]
  {
    OneMoreChunk(chunks, n);
    if n > 1 {
      PrefixConcat(chunks, runes, max, n - 1);
      StartsAtTheEnd(chunks, runes, max, n - 1);
      Glue(runes, chunks[n - 1].start, chunks[n - 1].end);
    } else {
      assert Exact(chunks[0], 0, runes, max) && chunks[..0] == [];
    }
  }

  /** A chunk that is not the last holds more than half a window. */
  lemma {:induction false} HalfFull(chunks: seq<Piece>, runes: seq<Rune>, max: nat, n: nat)
    requires Covers(chunks, runes, max) && Stepped(chunks, 0) && 0 < n < |chunks|
    ensures chunks[n].start >= chunks[n - 1].start + max / 2 + 1
  {
    assert Exact(chunks[n - 1], n - 1, runes, max) && Exact(chunks[n], n, runes, max);
  }

  lemma {:induction false} StartsFarApart(chunks: seq<Piece>, runes: seq<Rune>, max: nat, n: nat)
    requires Covers(chunks, runes, max) && Stepped(chunks, 0) && n < |chunks|
    ensures n * (max / 2 + 1) <= chunks[n].start
  {
    if n > 0 {
      StartsFarApart(chunks, runes, max, n - 1);
      HalfFull(chunks, runes, max, n);
      OneMoreTime(n, max / 2 + 1);
    }
  }

  lemma {:induction false} OneMoreTime(n: nat, h: nat)
    ensures n * h == (n - 1) * h + h
  {
  }

  /** Without overlap the chunks are the text, and there are few of them. */
  lemma NoOverlapPartitions(chunks: seq<Piece>, runes: seq<Rune>, max: nat)
    requires runes != [] && Covers(chunks, runes, max) && Stepped(chunks, 0)
    ensures Concat(chunks) == runes
    ensures (|chunks| - 1) * (max / 2 + 1) < |runes|
  {
    var n := |chunks|;
    PrefixConcat(chunks, runes, max, n);
    assert chunks[..n] == chunks;
    StartsFarApart(chunks, runes, max, n - 1);
    assert Exact(chunks[n - 1], n - 1, runes, max);
  }

  /** Every rune of the text lies in some chunk. */
  lemma {:induction false} NoGaps(chunks: seq<Piece>, runes: seq<Rune>, max: nat, i: nat, n: nat) returns (k: nat)
    requires Covers(chunks, runes, max) && 0 < n <= |chunks|
    requires i < chunks[n - 1].end && |runes| > 0
    ensures k < n && chunks[k].start <= i < chunks[k].end
  {
    if n > 1 && i < chunks[n - 1].start {
      k := NoGaps(chunks, runes, max, i, n - 1);
    } else {
      k := n - 1;
    }
  }

  /** Once a chunk reaches the end, what follows only repeats the tail: at most
      one chunk for each rune of overlap. */
  lemma FewChunksAfterTheEnd(chunks: seq<Piece>, runes: seq<Rune>, max: nat, overlap: nat, k: nat)
    requires Covers(chunks, runes, max) && Stepped(chunks, overlap)
    requires k < |chunks| && chunks[k].end == |runes|
    ensures |chunks| - 1 - k <= overlap
  {
    assert Exact(chunks[k], k, runes, max);
    if k + 1 < |chunks| {
      assert chunks[k].start < chunks[k + 1].start;
      StartsAdvance(chunks, runes, max, k + 1, |chunks| - 1);
      assert Exact(chunks[|chunks| - 1], |chunks| - 1, runes, max);
    }
  }

  lemma {:induction false} StartsAdvance(chunks: seq<Piece>, runes: seq<Rune>, max: nat, j: nat, k: nat)
    requires Covers(chunks, runes, max) && j <= k < |chunks|
    ensures chunks[j].start + (k - j) <= chunks[k].start
    decreases k
  {
    if j < k {
      StartsAdvance(chunks, runes, max, j, k - 1);
    }
  }
}
