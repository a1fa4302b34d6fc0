/** Citation matching of pkg/engine/annotations.go: the longest common substring by
    two rolling rows, and the sentence fallback. */
module Annotations {
  import opened Wrappers
  import opened Utf8

  // ----- Runs that two texts share -----

  /** The k runes of a before i are the k runes of b before j. */
  ghost predicate CommonRun(a: seq<Rune>, b: seq<Rune>, i: nat, j: nat, k: nat) {
    k <= i <= |a| && k <= j <= |b| && a[i - k..i] == b[j - k..j]
  }

  /** The cell (i, j) of the table: the longest run ending there in both. */
  function Cell(a: seq<Rune>, b: seq<Rune>, i: nat, j: nat): nat
    requires i <= |a| && j <= |b|
  {
    if i > 0 && j > 0 && a[i - 1] == b[j - 1] then Cell(a, b, i - 1, j - 1) + 1 else 0
  }

  lemma RunGrows(a: seq<Rune>, b: seq<Rune>, i: nat, j: nat, k: nat)
    requires 0 < k <= i <= |a| && k <= j <= |b|
    ensures CommonRun(a, b, i, j, k) <==> a[i - 1] == b[j - 1] && CommonRun(a, b, i - 1, j - 1, k - 1)
  {
    var x, y := a[i - k..i], b[j - k..j];
    assert x[k - 1] == a[i - 1] && y[k - 1] == b[j - 1];
    assert x[..k - 1] == a[i - k..i - 1] && y[..k - 1] == b[j - k..j - 1];
    assert x == x[..k - 1] + [x[k - 1]] && y == y[..k - 1] + [y[k - 1]];
  }

  lemma {:induction false} CellIsLongest(a: seq<Rune>, b: seq<Rune>, i: nat, j: nat, k: nat)
    requires i <= |a| && j <= |b|
    ensures CommonRun(a, b, i, j, k) <==> k <= Cell(a, b, i, j)
  {
    if k == 0 {
      assert a[i..i] == b[j..j];
    } else {
      if k <= i && k <= j {
        RunGrows(a, b, i, j, k);
      }
      if i > 0 && j > 0 {
        CellIsLongest(a, b, i - 1, j - 1, k - 1);
      }
    }
  }

  /** The k runes of a before e occur in b, no common run is longer, and none as long
      ends earlier. */
  ghost predicate BestRun(a: seq<Rune>, b: seq<Rune>, e: nat, k: nat) {
    && k <= e <= |a|
    && (exists j: nat :: CommonRun(a, b, e, j, k))
    && (forall i: nat, j: nat, k': nat :: CommonRun(a, b, i, j, k') ==> k' <= k && (k' == k ==> e <= i))
  }

  // ----- The table scan -----

  /** Cells are visited row by row. */
  predicate Before(i: nat, j: nat, row: nat, column: nat) {
    i < row || (i == row && j < column)
  }

  /** The best cell among those before (row, column), the first of its kind. */
  ghost predicate BestBefore(a: seq<Rune>, b: seq<Rune>, row: nat, column: nat, bestLen: nat, bestEndA: nat) {
    && (forall i: nat, j: nat | i <= |a| && j <= |b| && Before(i, j, row, column) ::
          Cell(a, b, i, j) <= bestLen && (Cell(a, b, i, j) == bestLen ==> bestEndA <= i))
    && bestEndA <= |a|
    && (exists j: nat :: j <= |b| && Cell(a, b, bestEndA, j) == bestLen)
  }

  ghost predicate IsRow(a: seq<Rune>, b: seq<Rune>, i: nat, row: seq<int>)
    requires i <= |a|
  {
    |row| == |b| + 1 && forall j | 0 <= j <= |b| :: row[j] == Cell(a, b, i, j)
  }

  lemma BestCellIsBestRun(a: seq<Rune>, b: seq<Rune>, bestLen: nat, bestEndA: nat)
    requires BestBefore(a, b, |a| + 1, 0, bestLen, bestEndA)
    ensures BestRun(a, b, bestEndA, bestLen)
  {
    var j: nat :| j <= |b| && Cell(a, b, bestEndA, j) == bestLen;
    CellIsLongest(a, b, bestEndA, j, bestLen);
    forall i: nat, j: nat, k: nat | CommonRun(a, b, i, j, k)
      ensures k <= bestLen && (k == bestLen ==> bestEndA <= i)
    {
      CellIsLongest(a, b, i, j, k);
      assert Before(i, j, |a| + 1, 0);
    }
  }

  lemma ScanCell(a: seq<Rune>, b: seq<Rune>, i: nat, j: nat, bestLen: nat, bestEndA: nat)
    requires i <= |a| && j <= |b| && bestEndA <= i && BestBefore(a, b, i, j, bestLen, bestEndA)
    ensures var cell := Cell(a, b, i, j);
            if cell > bestLen then BestBefore(a, b, i, j + 1, cell, i) else BestBefore(a, b, i, j + 1, bestLen, bestEndA)
  {
  }

  lemma ScanNextRow(a: seq<Rune>, b: seq<Rune>, i: nat, bestLen: nat, bestEndA: nat)
    requires BestBefore(a, b, i, |b| + 1, bestLen, bestEndA)
    ensures BestBefore(a, b, i + 1, 0, bestLen, bestEndA)
  {
  }

  /** One row of the table, from the one above it. */
  method FillRow(a: seq<Rune>, b: seq<Rune>, i: nat, prev: array<int>, curr: array<int>, len0: nat, end0: nat)
    returns (bestLen: nat, bestEndA: nat)
    requires 1 <= i <= |a| && prev != curr
    requires IsRow(a, b, i - 1, prev[..]) && curr.Length == |b| + 1 && curr[0] == 0
    requires BestBefore(a, b, i, 0, len0, end0) && end0 < i
    modifies curr
    ensures IsRow(a, b, i, curr[..])
    ensures BestBefore(a, b, i + 1, 0, bestLen, bestEndA) && bestEndA <= i
  {
    bestLen, bestEndA := len0, end0;
    ScanCell(a, b, i, 0, bestLen, bestEndA);
    for j := 1 to |b| + 1
      invariant curr[0] == 0 && forall j' | 0 <= j' < j :: curr[j'] == Cell(a, b, i, j')
      invariant prev[..] == old(prev[..])
      invariant BestBefore(a, b, i, j, bestLen, bestEndA) && bestEndA <= i
    {
      assert prev[..][j - 1] == prev[j - 1];
      ScanCell(a, b, i, j, bestLen, bestEndA);
      if a[i - 1] == b[j - 1] {
        curr[j] := prev[j - 1] + 1;
        if curr[j] > bestLen {
          bestLen := curr[j];
          bestEndA := i;
        }
      } else {
        curr[j] := 0;
      }
    }
    ScanNextRow(a, b, i, bestLen, bestEndA);
  }

  /** Zeroes a row for reuse. */
  method Clear(row: array<int>)
    modifies row
    ensures forall k | 0 <= k < row.Length :: row[k] == 0
  {
    for k := 0 to row.Length
      invariant forall k' | 0 <= k' < k :: row[k'] == 0
    {
      row[k] := 0;
    }
  }

  method ByteLength(runes: seq<Rune>, from: nat, to: nat) returns (bytes: nat)
    requires from <= to <= |runes|
    ensures bytes == |Encode(runes[from..to])|
  {
    bytes := 0;
    for i := from to to
      invariant bytes == |Encode(runes[from..i])|
    {
      EncodeSnoc(runes[from..i], runes[i]);
      assert runes[from..i + 1] == runes[from..i] + [runes[i]];
      bytes := bytes + |EncodeRune(runes[i])|;
    }
  }

  method ScanTable(aRunes: seq<Rune>, bRunes: seq<Rune>) returns (bestLen: nat, bestEndA: nat)
    ensures BestRun(aRunes, bRunes, bestEndA, bestLen)
  {
    var m, n := |aRunes|, |bRunes|;
    var prev := new int[n + 1](_ => 0);
    var curr := new int[n + 1](_ => 0);
    bestLen, bestEndA := 0, 0;
    assert Cell(aRunes, bRunes, 0, 0) == 0;
    for i := 1 to m + 1
      invariant prev != curr && fresh(prev) && fresh(curr)
      invariant IsRow(aRunes, bRunes, i - 1, prev[..]) && curr.Length == n + 1
      invariant curr[0] == 0
      invariant BestBefore(aRunes, bRunes, i, 0, bestLen, bestEndA) && bestEndA < i
    {
      bestLen, bestEndA := FillRow(aRunes, bRunes, i, prev, curr, bestLen, bestEndA);
      prev, curr := curr, prev;
      Clear(curr);
    }
    BestCellIsBestRun(aRunes, bRunes, bestLen, bestEndA);
  }

  /** The bytes of the k code points before e. */
  ghost predicate IsRange(runes: seq<Rune>, e: nat, k: nat, startByte: nat, matchBytes: nat) {
    && k <= e <= |runes|
    && startByte == |Encode(runes[..e - k])|
    && matchBytes == |Encode(runes[e - k..e])|
  }

  /** The byte range in a of the best run of code points. */
  ghost predicate IsBestRange(a: seq<byte>, b: seq<byte>, startByte: nat, matchBytes: nat) {
    exists e: nat, k: nat :: BestRun(Decode(a), Decode(b), e, k) && IsRange(Decode(a), e, k, startByte, matchBytes)
  }

  method LongestCommonSubstring(a: seq<byte>, b: seq<byte>) returns (startByte: nat, matchBytes: nat)
    requires ValidUtf8(a) && ValidUtf8(b)
    ensures IsBestRange(a, b, startByte, matchBytes)
  {
    var aRunes, bRunes := Decode(a), Decode(b);
    if |a| == 0 || |b| == 0 {
      EmptyRun(aRunes, bRunes);
      return 0, 0;
    }
    var bestLen, bestEndA := ScanTable(aRunes, bRunes);
    var startRune := bestEndA - bestLen;
    startByte := ByteLength(aRunes, 0, startRune);
    matchBytes := ByteLength(aRunes, startRune, bestEndA);
    assert aRunes[0..startRune] == aRunes[..startRune];
  }

  lemma EmptyRun(a: seq<Rune>, b: seq<Rune>)
    requires a == [] || b == []
    ensures BestRun(a, b, 0, 0)
  {
    assert CommonRun(a, b, 0, 0, 0);
  }

  predicate IsAt(part: seq<byte>, text: seq<byte>, at: int) {
    0 <= at && at + |part| <= |text| && text[at..at + |part|] == part
  }

  ghost predicate OccursIn(part: seq<byte>, text: seq<byte>) {
    exists at :: IsAt(part, text, at)
  }

  lemma {:induction false} SliceIsAt(runes: seq<Rune>, from: nat, to: nat)
    requires from <= to <= |runes|
    ensures IsAt(Encode(runes[from..to]), Encode(runes), |Encode(runes[..from])|)
  {
    EncodeSlice(runes, from, to);
  }

  lemma {:induction false} RunBytesShared(a: seq<Rune>, b: seq<Rune>, e: nat, j: nat, k: nat)
    requires CommonRun(a, b, e, j, k)
    ensures IsAt(Encode(a[e - k..e]), Encode(a), |Encode(a[..e - k])|)
    ensures OccursIn(Encode(a[e - k..e]), Encode(b))
    ensures ValidUtf8(Encode(a[e - k..e]))
  {
    SliceIsAt(a, e - k, e);
    SliceIsAt(b, j - k, j);
  }

  /** The range lies in a, and holds the bytes of whole code points that b has too. */
  lemma BestRangeIsShared(a: seq<byte>, b: seq<byte>, startByte: nat, matchBytes: nat) returns (quote: seq<byte>)
    requires ValidUtf8(a) && ValidUtf8(b) && IsBestRange(a, b, startByte, matchBytes)
    ensures |quote| == matchBytes && IsAt(quote, a, startByte)
    ensures ValidUtf8(quote) && OccursIn(quote, b)
  {
    var x, y := Decode(a), Decode(b);
    var e: nat, k: nat :| BestRun(x, y, e, k) && IsRange(x, e, k, startByte, matchBytes);
    var j: nat :| CommonRun(x, y, e, j, k);
    quote := Encode(x[e - k..e]);
    EncodeDecode(a);
    EncodeDecode(b);
    RunBytesShared(x, y, e, j, k);
  }

  // ----- The matcher -----

  /** The library functions strings.ToLower and strings.TrimSpace. */
  datatype Strings = Strings(toLower: seq<byte> -> seq<byte>, trimSpace: seq<byte> -> seq<byte>)

  predicate IsSentenceEnd(b: byte) {
    b == 0x2E || b == 0x3F || b == 0x21
  }

  /** The end marks are the period, the question mark and the exclamation mark. */
  lemma {:induction false} EndMarks(b: byte)
    ensures IsSentenceEnd(b) <==> exists c :: c in ".?!" && b == c as int
  {
    assert '.' in ".?!" && '?' in ".?!" && '!' in ".?!";
  }

  /** The sentences of text from `start` on, when no end has been met before `i`. */
  function SentencesFrom(text: seq<byte>, start: nat, i: nat): seq<seq<byte>>
    requires start <= |text| && i <= |text|
    decreases |text| - i
  {
    if i == |text| then
      if start < |text| then [text[start..]] else []
    else if IsSentenceEnd(text[i]) then
      (if i > start then [text[start..i + 1]] else []) + SentencesFrom(text, i + 1, i + 1)
    else SentencesFrom(text, start, i + 1)
  }

  function Concat(pieces: seq<seq<byte>>): seq<byte> {
    if pieces == [] then [] else pieces[0] + Concat(pieces[1..])
  }

  /** A piece has no end mark but at its end. */
  predicate IsPiece(piece: seq<byte>) {
    piece != [] && forall i | 0 <= i < |piece| - 1 :: !IsSentenceEnd(piece[i])
  }

  /** The text cut after every end mark. */
  predicate IsCut(text: seq<byte>, pieces: seq<seq<byte>>) {
    && Concat(pieces) == text
    && (forall i | 0 <= i < |pieces| :: IsPiece(pieces[i]))
    && (forall i | 0 <= i < |pieces| - 1 :: IsSentenceEnd(pieces[i][|pieces[i]| - 1]))
  }

  predicate IsLoneMark(piece: seq<byte>) {
    |piece| == 1 && IsSentenceEnd(piece[0])
  }

  function WithoutLoneMarks(pieces: seq<seq<byte>>): seq<seq<byte>> {
    if pieces == [] then []
    else (if IsLoneMark(pieces[0]) then [] else [pieces[0]]) + WithoutLoneMarks(pieces[1..])
  }

  lemma {:induction false} CutOff(text: seq<byte>, start: nat, end: nat, rest: seq<seq<byte>>)
    requires start < end <= |text| && IsCut(text[end..], rest) && IsPiece(text[start..end])
    requires rest != [] ==> IsSentenceEnd(text[end - 1])
    ensures IsCut(text[start..], [text[start..end]] + rest)
    ensures WithoutLoneMarks([text[start..end]] + rest)
         == (if IsLoneMark(text[start..end]) then [] else [text[start..end]]) + WithoutLoneMarks(rest)
  {
    var pieces := [text[start..end]] + rest;
    assert pieces[1..] == rest;
    assert text[start..end] + text[end..] == text[start..];
    assert text[start..end][end - start - 1] == text[end - 1];
    forall i | 0 <= i < |pieces|
      ensures IsPiece(pieces[i]) && (i < |pieces| - 1 ==> IsSentenceEnd(pieces[i][|pieces[i]| - 1]))
    {
      assert i > 0 ==> pieces[i] == rest[i - 1];
    }
  }

  lemma {:induction false} LastPiece(piece: seq<byte>)
    requires piece != [] && forall i | 0 <= i < |piece| :: !IsSentenceEnd(piece[i])
    ensures IsCut(piece, [piece]) && WithoutLoneMarks([piece]) == [piece]
  {
    assert [piece][1..] == [];
  }

  /** The sentences are the pieces between end marks but for lone marks. */
  lemma {:induction false} SentencesAreCut(text: seq<byte>, start: nat, i: nat) returns (pieces: seq<seq<byte>>)
    requires start <= i <= |text| && forall k | start <= k < i :: !IsSentenceEnd(text[k])
    ensures IsCut(text[start..], pieces) && SentencesFrom(text, start, i) == WithoutLoneMarks(pieces)
    decreases |text| - i
  {
    hide IsSentenceEnd;
    if i == |text| {
      pieces := if start < |text| then [text[start..]] else [];
      if start < |text| {
        LastPiece(text[start..]);
      }
    } else if IsSentenceEnd(text[i]) {
      var rest := SentencesAreCut(text, i + 1, i + 1);
      assert text[start..i + 1][0] == text[start];
      CutOff(text, start, i + 1, rest);
      pieces := [text[start..i + 1]] + rest;
    } else {
      pieces := SentencesAreCut(text, start, i + 1);
    }
  }

  method SplitSentences(text: seq<byte>) returns (sentences: seq<seq<byte>>)
    ensures sentences == SentencesFrom(text, 0, 0)
    ensures exists pieces :: IsCut(text, pieces) && sentences == WithoutLoneMarks(pieces)
  {
    ghost var pieces := SentencesAreCut(text, 0, 0);
    assert text[0..] == text;
    sentences := [];
    var start := 0;
    for i := 0 to |text|
      invariant start <= i
      invariant sentences + SentencesFrom(text, start, i) == SentencesFrom(text, 0, 0)
    {
      if IsSentenceEnd(text[i]) {
        if i > start {
          sentences := sentences + [text[start..i + 1]];
        }
        start := i + 1;
      }
    }
    if start < |text| {
      sentences := sentences + [text[start..]];
    }
  }

  /** strings.Index. */
  method Index(text: seq<byte>, part: seq<byte>) returns (idx: int)
    ensures if idx >= 0 then IsAt(part, text, idx) else !OccursIn(part, text)
    ensures forall at :: IsAt(part, text, at) ==> idx <= at
  {
    idx := 0;
    while idx + |part| <= |text|
      invariant 0 <= idx && forall at | 0 <= at < idx :: !IsAt(part, text, at)
      decreases |text| - idx
    {
      if text[idx..idx + |part|] == part {
        return;
      }
      idx := idx + 1;
    }
    idx := -1;
  }

  /** A citation's byte range, and whether the sentence fallback found it. */
  datatype Found = Found(start: nat, end: nat, bySentence: bool)

  /** A source sentence long enough to cite that the output contains. */
  ghost predicate Cites(lib: Strings, minLen: int, outputLower: seq<byte>, content: seq<byte>, sentence: seq<byte>) {
    && sentence in SentencesFrom(content, 0, 0)
    && |lib.trimSpace(sentence)| >= minLen
    && OccursIn(lib.toLower(lib.trimSpace(sentence)), outputLower)
  }

  ghost predicate IsFirstAt(part: seq<byte>, text: seq<byte>, at: int) {
    IsAt(part, text, at) && forall earlier :: IsAt(part, text, earlier) ==> at <= earlier
  }

  /** The j-th sentence is the first to cite, at its first occurrence. */
  ghost predicate CitesFirst(lib: Strings, minLen: int, outputLower: seq<byte>, content: seq<byte>, j: nat, found: Found) {
    var sentences := SentencesFrom(content, 0, 0);
    && j < |sentences| && Cites(lib, minLen, outputLower, content, sentences[j])
    && (forall i | 0 <= i < j :: !Cites(lib, minLen, outputLower, content, sentences[i]))
    && var sent := lib.trimSpace(sentences[j]);
       IsFirstAt(lib.toLower(sent), outputLower, found.start) && found.end == found.start + |sent| && found.bySentence
  }

  class SubstringMatcher {
    const minMatchLen: int
    const lib: Strings

    constructor (minLen: int, lib: Strings)
      ensures minMatchLen == if minLen <= 0 then 20 else minLen
      ensures this.lib == lib
    {
      minMatchLen := if minLen <= 0 then 20 else minLen;
      this.lib := lib;
    }

    method MatchSource(outputLower: seq<byte>, content: seq<byte>) returns (r: Option<Found>)
      requires ValidUtf8(outputLower) && ValidUtf8(lib.toLower(content))
      ensures exists start: nat, length: nat ::
                && IsBestRange(outputLower, lib.toLower(content), start, length)
                && (if length >= minMatchLen then r == Some(Found(start, start + length, false))
                    else r.Some? ==> r.value.bySentence)
      ensures r.Some? && r.value.bySentence ==> exists j: nat :: CitesFirst(lib, minMatchLen, outputLower, content, j, r.value)
      ensures r.None? ==> forall sentence :: !Cites(lib, minMatchLen, outputLower, content, sentence)
      ensures Plain(lib, outputLower, content) ==> !(r.Some? && r.value.bySentence)
    {
      var srcLower := lib.toLower(content);
      var matchStart, matchLen := LongestCommonSubstring(outputLower, srcLower);
      if matchLen >= minMatchLen {
        return Some(Found(matchStart, matchStart + matchLen, false));
      }
      r := SearchSentences(outputLower, content);
      if Plain(lib, outputLower, content) {
        forall sentence
          ensures !Cites(lib, minMatchLen, outputLower, content, sentence)
        {
          FallbackFindsNothing(lib, minMatchLen, outputLower, content, matchStart, matchLen, sentence);
        }
      }
    }

    /** The fallback: the first sentence of the source found in the output. */
    method SearchSentences(outputLower: seq<byte>, content: seq<byte>) returns (r: Option<Found>)
      ensures r.Some? ==> exists j: nat :: CitesFirst(lib, minMatchLen, outputLower, content, j, r.value)
      ensures r.Some? ==> r.value.bySentence
      ensures r.None? ==> forall sentence :: !Cites(lib, minMatchLen, outputLower, content, sentence)
    {
      var sentences := SplitSentences(content);
      for i := 0 to |sentences|
        invariant forall j | 0 <= j < i :: !Cites(lib, minMatchLen, outputLower, content, sentences[j])
      {
        var sent := lib.trimSpace(sentences[i]);
        if |sent| < minMatchLen {
          continue;
        }
        var idx := Index(outputLower, lib.toLower(sent));
        if idx >= 0 {
          r := Some(Found(idx, idx + |sent|, true));
          assert CitesFirst(lib, minMatchLen, outputLower, content, i, r.value);
          return;
        }
      }
      return None;
    }
  }

  // ----- Single-byte text -----

  function LowerByte(b: byte): byte {
    if 0x41 <= b <= 0x5A then b + 0x20 else b
  }

  function AsciiLower(text: seq<byte>): (lower: seq<byte>)
    ensures |lower| == |text| && forall i | 0 <= i < |text| :: lower[i] == LowerByte(text[i])
  {
    seq(|text|, i requires 0 <= i < |text| => LowerByte(text[i]))
  }

  ghost predicate LowersAscii(lib: Strings, text: seq<byte>) {
    SingleByte(text) ==> lib.toLower(text) == AsciiLower(text)
  }

  ghost predicate TrimsWithin(lib: Strings, text: seq<byte>) {
    OccursIn(lib.trimSpace(text), text)
  }

  /** Single-byte texts, and what the library does on those. */
  ghost predicate Plain(lib: Strings, outputLower: seq<byte>, content: seq<byte>) {
    && SingleByte(outputLower) && SingleByte(content)
    && forall text :: LowersAscii(lib, text) && TrimsWithin(lib, text)
  }

  lemma {:induction false} SentenceIsSlice(text: seq<byte>, start: nat, i: nat, sentence: seq<byte>) returns (s: nat, e: nat)
    requires start <= i <= |text| && sentence in SentencesFrom(text, start, i)
    ensures s <= e <= |text| && sentence == text[s..e]
    decreases |text| - i
  {
    if i == |text| {
      s, e := start, |text|;
    } else if IsSentenceEnd(text[i]) {
      if i > start && sentence == text[start..i + 1] {
        s, e := start, i + 1;
      } else {
        s, e := SentenceIsSlice(text, i + 1, i + 1, sentence);
      }
    } else {
      s, e := SentenceIsSlice(text, start, i + 1, sentence);
    }
  }

  ghost predicate SameCodes(runes: seq<Rune>, text: seq<byte>) {
    |runes| == |text| && forall i | 0 <= i < |text| :: runes[i] == text[i] < 0x80
  }

  lemma SharedBytesAreRun(a: seq<byte>, b: seq<byte>, x: seq<Rune>, y: seq<Rune>, at: nat, bt: nat, n: nat)
    requires SameCodes(x, a) && SameCodes(y, b)
    requires at + n <= |a| && bt + n <= |b| && a[at..at + n] == b[bt..bt + n]
    ensures CommonRun(x, y, at + n, bt + n, n)
  {
    var u, v, xs, ys := a[at..at + n], b[bt..bt + n], x[at..at + n], y[bt..bt + n];
    forall t | 0 <= t < n
      ensures xs[t] == ys[t]
    {
      assert xs[t] == a[at + t] == u[t] && ys[t] == b[bt + t] == v[t];
    }
  }

  lemma RangeInCodes(runes: seq<Rune>, text: seq<byte>, e: nat, k: nat, start: nat, length: nat)
    requires SameCodes(runes, text) && IsRange(runes, e, k, start, length)
    ensures length == k
  {
    SingleByteWidth(runes[e - k..e]);
  }

  /** Bytes that two single-byte texts share are no longer than the best range. */
  lemma SharedTextIsRun(a: seq<byte>, b: seq<byte>, at: nat, bt: nat, n: nat, start: nat, length: nat)
    requires SingleByte(a) && SingleByte(b) && IsBestRange(a, b, start, length)
    requires at + n <= |a| && bt + n <= |b| && a[at..at + n] == b[bt..bt + n]
    ensures n <= length
  {
    var x, y := Decode(a), Decode(b);
    var e: nat, k: nat :| BestRun(x, y, e, k) && IsRange(x, e, k, start, length);
    assert SameCodes(x, a) by { SingleByteDecode(a); }
    assert SameCodes(y, b) by { SingleByteDecode(b); }
    RangeInCodes(x, a, e, k, start, length);
    SharedBytesAreRun(a, b, x, y, at, bt, n);
  }

  lemma {:induction false} PlainText(lib: Strings, outputLower: seq<byte>, content: seq<byte>, text: seq<byte>)
    requires Plain(lib, outputLower, content)
    ensures SingleByte(text) ==> lib.toLower(text) == AsciiLower(text)
    ensures TrimsWithin(lib, text)
  {
    assert LowersAscii(lib, text) && TrimsWithin(lib, text);
  }

  lemma {:induction false} PartIsSingleByte(content: seq<byte>, part: seq<byte>, from: nat)
    requires SingleByte(content) && IsAt(part, content, from)
    ensures SingleByte(part)
  {
    forall i | 0 <= i < |part|
      ensures part[i] < 0x80
    {
      assert part[i] == content[from..from + |part|][i] == content[from + i];
    }
  }

  /** A part of the content that is long enough to cite does not occur in lower case. */
  lemma {:induction false} PartNotFound(outputLower: seq<byte>, content: seq<byte>, part: seq<byte>, from: nat, start: nat, length: nat)
    requires SingleByte(outputLower) && SingleByte(content) && IsAt(part, content, from)
    requires IsBestRange(outputLower, AsciiLower(content), start, length) && length < |part|
    ensures !OccursIn(AsciiLower(part), outputLower)
  {
    if OccursIn(AsciiLower(part), outputLower) {
      LoweredPartIsShort(outputLower, content, part, from, start, length);
    }
  }

  /** On single-byte text the fallback cannot find what the table scan missed. */
  lemma {:induction false} FallbackFindsNothing(lib: Strings, minLen: int, outputLower: seq<byte>, content: seq<byte>,
                                                start: nat, length: nat, sentence: seq<byte>)
    requires Plain(lib, outputLower, content) && length < minLen
    requires IsBestRange(outputLower, lib.toLower(content), start, length)
    ensures !Cites(lib, minLen, outputLower, content, sentence)
  {
    var trimmed := lib.trimSpace(sentence);
    if sentence in SentencesFrom(content, 0, 0) && |trimmed| >= minLen {
      PlainText(lib, outputLower, content, content);
      PlainText(lib, outputLower, content, sentence);
      PlainText(lib, outputLower, content, trimmed);
      var from := TrimmedInContent(lib, content, sentence);
      PartIsSingleByte(content, trimmed, from);
      PartNotFound(outputLower, content, trimmed, from, start, length);
    }
  }

  /** A part of the content whose lower case occurs in the output is no longer than the
      best range. */
  lemma {:induction false} LoweredPartIsShort(outputLower: seq<byte>, content: seq<byte>, part: seq<byte>, from: nat, start: nat, length: nat)
    requires SingleByte(outputLower) && SingleByte(content) && IsAt(part, content, from)
    requires OccursIn(AsciiLower(part), outputLower)
    requires IsBestRange(outputLower, AsciiLower(content), start, length)
    ensures |part| <= length
  {
    LowerOfSlice(content, from, from + |part|);
    var at: nat :| IsAt(AsciiLower(part), outputLower, at);
    SharedTextIsRun(outputLower, AsciiLower(content), at, from, |part|, start, length);
  }

  lemma {:induction false} TrimmedInContent(lib: Strings, content: seq<byte>, sentence: seq<byte>) returns (from: nat)
    requires TrimsWithin(lib, sentence) && sentence in SentencesFrom(content, 0, 0)
    ensures IsAt(lib.trimSpace(sentence), content, from)
  {
    var s, e := SentenceIsSlice(content, 0, 0, sentence);
    var i: nat :| IsAt(lib.trimSpace(sentence), sentence, i);
    NestedSlice(content, s, e, i, |lib.trimSpace(sentence)|);
    from := s + i;
  }

  lemma NestedSlice(text: seq<byte>, s: nat, e: nat, i: nat, n: nat)
    requires s <= e <= |text| && i + n <= e - s
    ensures text[s..e][i..i + n] == text[s + i..s + i + n]
  {
    var whole := text[s..e];
    var part, direct := whole[i..i + n], text[s + i..s + i + n];
    forall t | 0 <= t < n
      ensures part[t] == direct[t]
    {
      assert part[t] == whole[i + t] == text[s + (i + t)];
    }
  }

  lemma LowerOfSlice(content: seq<byte>, from: nat, to: nat)
    requires SingleByte(content) && from <= to <= |content|
    ensures SingleByte(content[from..to]) && SingleByte(AsciiLower(content))
    ensures AsciiLower(content[from..to]) == AsciiLower(content)[from..to]
  {
    var part := content[from..to];
    var low, whole := AsciiLower(part), AsciiLower(content);
    forall t | 0 <= t < |part|
      ensures low[t] == whole[from..to][t] && part[t] < 0x80
    {
      assert part[t] == content[from + t];
    }
    forall t | 0 <= t < |content|
      ensures whole[t] < 0x80
    {
      assert content[t] < 0x80;
    }
  }
}
