/**
 Splitting a message into chunks that fit a channel's limit. Text is a sequence of UTF-16
 code units, as the source's string length and slices count them.
 */
module SplitMessage {

  newtype Unit = n: int | 0 <= n < 0x10000

  type Text = seq<Unit>

  const NEWLINE: Unit := 10

  /** The code units the source's trim removes: white space and line terminators. */
  predicate IsSpace(u: Unit) {
    || 9 <= u <= 13 || u == 32 || u == 0xA0 || u == 0x1680 || 0x2000 <= u <= 0x200A
    || u == 0x2028 || u == 0x2029 || u == 0x202F || u == 0x205F || u == 0x3000 || u == 0xFEFF
  }

  predicate AllSpace(t: Text) {
    forall i :: 0 <= i < |t| ==> IsSpace(t[i])
  }

  function TrimEnd(t: Text): (r: Text)
    ensures r <= t && AllSpace(t[|r|..])
    ensures r != [] ==> !IsSpace(r[|r| - 1])
  {
    if t != [] && IsSpace(t[|t| - 1]) then
      var r := TrimEnd(t[..|t| - 1]);
      assert t[|r|..] == t[..|t| - 1][|r|..] + [t[|t| - 1]];
      r
    else t
  }

  function TrimStart(t: Text): (r: Text)
    ensures |r| <= |t| && t[|t| - |r|..] == r && AllSpace(t[..|t| - |r|])
    ensures r != [] ==> !IsSpace(r[0])
  {
    if t != [] && IsSpace(t[0]) then
      var r := TrimStart(t[1..]);
      assert t[..|t| - |r|] == [t[0]] + t[1..][..|t[1..]| - |r|];
      r
    else t
  }

  /** `pattern` occurs in `t` at `i`. */
  predicate At(t: Text, pattern: Text, i: int) {
    0 <= i && i + |pattern| <= |t| && t[i..i + |pattern|] == pattern
  }

  /** The last occurrence at or before `from`, or -1. */
  function LastIndex(t: Text, pattern: Text, from: int): (i: int)
    ensures i == -1 || (0 <= i <= from && At(t, pattern, i))
    ensures forall j :: i < j <= from ==> !At(t, pattern, j)
  {
    if from < 0 then -1 else if At(t, pattern, from) then from else LastIndex(t, pattern, from - 1)
  }

  /** Where a text longer than the limit is cut: a paragraph break, else a line break, else the limit. */
  function CutAt(t: Text, limit: nat): (cut: int)
    requires limit > 0
    ensures 0 < cut <= limit
  {
    var paragraph := LastIndex(t, [NEWLINE, NEWLINE], limit);
    var line := LastIndex(t, [NEWLINE], limit);
    if paragraph > 0 then paragraph else if line > 0 then line else limit
  }

  function Chunks(t: Text, limit: nat): seq<Text>
    requires limit > 0
    decreases |t|
  {
    if t == [] then []
    else if |t| <= limit then [t]
    else
      var cut := CutAt(t, limit);
      [TrimEnd(t[..cut])] + Chunks(TrimStart(t[cut..]), limit)
  }

  function Split(text: Text, maxLength: nat): seq<Text>
    requires maxLength > 0
  {
    if |text| <= maxLength then [text] else Chunks(text, maxLength)
  }

  method LastIndexOf(t: Text, pattern: Text, from: nat) returns (i: int)
    ensures i == LastIndex(t, pattern, from)
  {
    i := from;
    while i >= 0 && !At(t, pattern, i)
      invariant -1 <= i <= from
      invariant LastIndex(t, pattern, from) == LastIndex(t, pattern, i)
    {
      i := i - 1;
    }
  }

  method SplitPoint(remaining: Text, maxLength: nat) returns (splitAt: int)
    requires 0 < maxLength < |remaining|
    ensures splitAt == CutAt(remaining, maxLength)
  {
    splitAt := LastIndexOf(remaining, [NEWLINE, NEWLINE], maxLength);
    if splitAt <= 0 {
      splitAt := LastIndexOf(remaining, [NEWLINE], maxLength);
    }
    if splitAt <= 0 {
      splitAt := maxLength;
    }
  }

  lemma {:induction false} ChunksCons(t: Text, limit: nat)
    requires 0 < limit < |t|
    ensures Chunks(t, limit) == [TrimEnd(t[..CutAt(t, limit)])] + Chunks(TrimStart(t[CutAt(t, limit)..]), limit)
  {
  }

  lemma {:induction false} ChunksSmall(t: Text, limit: nat)
    requires limit > 0 && |t| <= limit
    ensures Chunks(t, limit) == if t == [] then [] else [t]
  {
  }

  method SplitMessage(text: Text, maxLength: nat) returns (chunks: seq<Text>)
    requires maxLength > 0
    ensures chunks == Split(text, maxLength)
  {
    if |text| <= maxLength {
      return [text];
    }
    assert Split(text, maxLength) == Chunks(text, maxLength);
    hide *;
    chunks := [];
    var remaining := text;
    while |remaining| > 0
      invariant chunks + Chunks(remaining, maxLength) == Chunks(text, maxLength)
      decreases |remaining|
    {
      if |remaining| <= maxLength {
        ChunksSmall(remaining, maxLength);
        chunks := chunks + [remaining];
        return;
      }
      var splitAt := SplitPoint(remaining, maxLength);
      var head, tail := TrimEnd(remaining[..splitAt]), TrimStart(remaining[splitAt..]);
      assert |tail| < |remaining|;
      ChunksCons(remaining, maxLength);
      assert chunks + ([head] + Chunks(tail, maxLength)) == chunks + [head] + Chunks(tail, maxLength);
      chunks, remaining := chunks + [head], tail;
    }
    ChunksSmall(remaining, maxLength);
    assert chunks + [] == chunks;
  }

  // ---------------------------------------------------------------- empty chunks

  lemma {:induction false} TrimEndEmpty(t: Text)
    ensures TrimEnd(t) == [] <==> AllSpace(t)
  {
    var r := TrimEnd(t);
    if r == [] {
      assert t[|r|..] == t;
    } else {
      assert t[|r| - 1] == r[|r| - 1];
    }
  }

  /** What follows a cut starts with a character to keep, so no later chunk is empty. */
  lemma {:induction false} NoEmptyChunk(t: Text, limit: nat)
    requires limit > 0 && (t != [] ==> !IsSpace(t[0]))
    ensures forall i :: 0 <= i < |Chunks(t, limit)| ==> Chunks(t, limit)[i] != []
    decreases |t|
  {
    if |t| > limit {
      var cut := CutAt(t, limit);
      assert t[..cut][0] == t[0];
      TrimEndEmpty(t[..cut]);
      NoEmptyChunk(TrimStart(t[cut..]), limit);
    }
  }

  /**
   Only the first chunk of a split can be empty: for an empty text, and for a longer one
   exactly when all it has before the first cut is white space.
   */
  lemma {:induction false} EmptyChunks(text: Text, maxLength: nat)
    requires maxLength > 0
    ensures var chunks := Split(text, maxLength);
            && (forall i :: 0 < i < |chunks| ==> chunks[i] != [])
            && chunks != []
            && (chunks[0] == [] <==>
                  text == [] || (|text| > maxLength && AllSpace(text[..CutAt(text, maxLength)])))
  {
    if |text| > maxLength {
      var cut := CutAt(text, maxLength);
      ChunksCons(text, maxLength);
      TrimEndEmpty(text[..cut]);
      NoEmptyChunk(TrimStart(text[cut..]), maxLength);
    }
  }

  // ---------------------------------------------------------------- trimmed seams

  /** No chunk but the last ends with white space. */
  lemma {:induction false} ChunkEnds(t: Text, limit: nat)
    requires limit > 0
    ensures var chunks := Chunks(t, limit);
            forall i :: 0 <= i < |chunks| - 1 && chunks[i] != [] ==> !IsSpace(chunks[i][|chunks[i]| - 1])
    decreases |t|
  {
    hide TrimEnd, TrimStart, CutAt, IsSpace;
    if |t| > limit {
      ChunksCons(t, limit);
      ChunkEnds(TrimStart(t[CutAt(t, limit)..]), limit);
    }
  }

  /** No chunk of what is left after a cut starts with white space. */
  lemma {:induction false} ChunkStarts(t: Text, limit: nat)
    requires limit > 0 && (t != [] ==> !IsSpace(t[0]))
    ensures var chunks := Chunks(t, limit);
            forall i :: 0 <= i < |chunks| && chunks[i] != [] ==> !IsSpace(chunks[i][0])
    decreases |t|
  {
    hide TrimEnd, TrimStart, CutAt, IsSpace;
    if |t| > limit {
      ChunksCons(t, limit);
      ChunkStarts(TrimStart(t[CutAt(t, limit)..]), limit);
    }
  }

  /** A text that fits is left whole; otherwise white space is trimmed at every seam, and only there. */
  lemma {:induction false} SeamsTrimmed(text: Text, maxLength: nat)
    requires maxLength > 0
    ensures var chunks := Split(text, maxLength);
            && (|text| <= maxLength ==> chunks == [text])
            && (forall i :: 0 <= i < |chunks| - 1 && chunks[i] != [] ==> !IsSpace(chunks[i][|chunks[i]| - 1]))
            && (forall i :: 0 < i < |chunks| && chunks[i] != [] ==> !IsSpace(chunks[i][0]))
  {
    if |text| > maxLength {
      ChunksCons(text, maxLength);
      ChunkEnds(text, maxLength);
      ChunkStarts(TrimStart(text[CutAt(text, maxLength)..]), maxLength);
    }
  }

  // ---------------------------------------------------------------- what a split keeps

  lemma {:induction false} ChunksFit(t: Text, limit: nat)
    requires limit > 0
    ensures forall i :: 0 <= i < |Chunks(t, limit)| ==> |Chunks(t, limit)[i]| <= limit
    decreases |t|
  {
    if |t| > limit {
      ChunksFit(TrimStart(t[CutAt(t, limit)..]), limit);
    }
  }

  lemma {:induction false} SplitFits(text: Text, maxLength: nat)
    requires maxLength > 0
    ensures forall i :: 0 <= i < |Split(text, maxLength)| ==> |Split(text, maxLength)[i]| <= maxLength
  {
    ChunksFit(text, maxLength);
  }

  ghost predicate LastBreak(t: Text, pattern: Text, limit: nat, cut: int) {
    0 < cut <= limit && At(t, pattern, cut) && forall j :: cut < j <= limit ==> !At(t, pattern, j)
  }

  ghost predicate HasBreak(t: Text, pattern: Text, limit: nat) {
    exists i :: 0 < i <= limit && At(t, pattern, i)
  }

  /**
   A cut is at the last paragraph break within the limit, else at the last line break within it,
   else at the limit; a break the text starts with is none.
   */
  lemma {:induction false} CutPrefersBreaks(t: Text, limit: nat)
    requires limit > 0
    ensures var cut, paragraph, line := CutAt(t, limit), [NEWLINE, NEWLINE], [NEWLINE];
            if HasBreak(t, paragraph, limit) then LastBreak(t, paragraph, limit, cut)
            else if HasBreak(t, line, limit) then LastBreak(t, line, limit, cut)
            else cut == limit
  {
  }

  /** The chunks with the removed text between and after them. */
  function Interleave(chunks: seq<Text>, gaps: seq<Text>): Text
    requires |chunks| == |gaps|
  {
    if chunks == [] then [] else chunks[0] + gaps[0] + Interleave(chunks[1..], gaps[1..])
  }

  ghost predicate Rebuilds(t: Text, chunks: seq<Text>, gaps: seq<Text>) {
    && |chunks| == |gaps|
    && (forall i :: 0 <= i < |gaps| ==> AllSpace(gaps[i]))
    && t == Interleave(chunks, gaps)
  }

  /** What trimming removes on the two sides of a cut is white space. */
  lemma {:induction false} CutGap(t: Text, cut: nat) returns (gap: Text)
    requires cut <= |t|
    ensures AllSpace(gap)
    ensures t == TrimEnd(t[..cut]) + gap + TrimStart(t[cut..])
  {
    hide TrimEnd, TrimStart, IsSpace;
    var left, right := t[..cut], t[cut..];
    var head, tail := TrimEnd(left), TrimStart(right);
    var before, after := left[|head|..], right[..|right| - |tail|];
    gap := before + after;
    assert left == head + before;
    assert right == after + tail;
    assert t == left + right;
    assert head + before + (after + tail) == head + (before + after) + tail;
  }

  lemma {:induction false} InterleaveCons(head: Text, gap: Text, chunks: seq<Text>, gaps: seq<Text>)
    requires |chunks| == |gaps|
    ensures Interleave([head] + chunks, [gap] + gaps) == head + gap + Interleave(chunks, gaps)
  {
    assert ([head] + chunks)[1..] == chunks && ([gap] + gaps)[1..] == gaps;
  }

  lemma {:induction false} RebuildWithGaps(t: Text, limit: nat) returns (gaps: seq<Text>)
    requires limit > 0
    ensures Rebuilds(t, Chunks(t, limit), gaps)
    decreases |t|
  {
    if t == [] {
      gaps := [];
    } else if |t| <= limit {
      gaps := [[]];
    } else {
      var cut := CutAt(t, limit);
      var head, tail := TrimEnd(t[..cut]), TrimStart(t[cut..]);
      ChunksCons(t, limit);
      var rest := RebuildWithGaps(tail, limit);
      var gap := CutGap(t, cut);
      gaps := [gap] + rest;
      InterleaveCons(head, gap, Chunks(tail, limit), rest);
    }
  }

  /** The original text is the chunks in order, with only white space removed at the seams. */
  lemma {:induction false} SplitLosesOnlySpace(text: Text, maxLength: nat)
    requires maxLength > 0
    ensures exists gaps :: Rebuilds(text, Split(text, maxLength), gaps)
    ensures NonSpace(Flatten(Split(text, maxLength))) == NonSpace(text)
  {
    var gaps := [[]];
    if |text| <= maxLength {
      InterleaveCons(text, [], [], []);
      assert text + [] + [] == text;
      assert Rebuilds(text, [text], gaps);
    } else {
      gaps := RebuildWithGaps(text, maxLength);
    }
    InterleaveNonSpace(Split(text, maxLength), gaps);
  }

  function NonSpace(t: Text): Text {
    if t == [] then [] else (if IsSpace(t[0]) then [] else [t[0]]) + NonSpace(t[1..])
  }

  function Flatten(chunks: seq<Text>): Text {
    if chunks == [] then [] else chunks[0] + Flatten(chunks[1..])
  }

  lemma {:induction false} NonSpaceAppend(a: Text, b: Text)
    ensures NonSpace(a + b) == NonSpace(a) + NonSpace(b)
  {
    hide IsSpace;
    if a == [] {
      assert a + b == b;
    } else {
      NonSpaceAppend(a[1..], b);
      assert (a + b)[1..] == a[1..] + b;
      var head := if IsSpace(a[0]) then [] else [a[0]];
      assert head + (NonSpace(a[1..]) + NonSpace(b)) == head + NonSpace(a[1..]) + NonSpace(b);
    }
  }

  lemma {:induction false} NonSpaceOfSpace(t: Text)
    requires AllSpace(t)
    ensures NonSpace(t) == []
  {
    if t != [] {
      NonSpaceOfSpace(t[1..]);
    }
  }

  lemma {:induction false} InterleaveNonSpace(chunks: seq<Text>, gaps: seq<Text>)
    requires |chunks| == |gaps| && forall i :: 0 <= i < |gaps| ==> AllSpace(gaps[i])
    ensures NonSpace(Interleave(chunks, gaps)) == NonSpace(Flatten(chunks))
  {
    if chunks != [] {
      InterleaveNonSpace(chunks[1..], gaps[1..]);
      NonSpaceAppend(chunks[0] + gaps[0], Interleave(chunks[1..], gaps[1..]));
      NonSpaceAppend(chunks[0], gaps[0]);
      NonSpaceOfSpace(gaps[0]);
      NonSpaceAppend(chunks[0], Flatten(chunks[1..]));
      assert NonSpace(chunks[0]) + [] == NonSpace(chunks[0]);
    }
  }
}
