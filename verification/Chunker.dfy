/** Splitting a document into chunks that keep their offsets into the raw text. */
module Chunker {
  import opened Outcomes

  const DEFAULT_OVERLAP_CHARS: int := 100

  datatype Span = Span(start: nat, end: nat)

  datatype Document = Document(sourcePath: string, sourceId: string, rawText: string)

  datatype Chunk = Chunk(sourcePath: string, sourceId: string, index: nat, text: string, start: nat, end: nat)

  // ---------------------------------------------------------------------------
  // str.strip, str.find, str.rfind
  // ---------------------------------------------------------------------------

  /** `s[lo:hi].strip()` */
  function StripRange(s: string, lo: nat, hi: nat): string
    requires lo <= hi <= |s|
    decreases hi - lo
  {
    if lo == hi then s[lo..hi]
    else if IsSpace(s[lo]) then StripRange(s, lo + 1, hi)
    else if IsSpace(s[hi - 1]) then StripRange(s, lo, hi - 1)
    else s[lo..hi]
  }

  /** `t` is s[lo..hi] without leading and trailing white space; it begins at `at`. */
  ghost predicate IsTrim(s: string, lo: nat, hi: nat, t: string, at: nat) {
    && lo <= at && at + |t| <= hi <= |s| && t == s[at..at + |t|]
    && (forall i | lo <= i < hi && !(at <= i < at + |t|) :: IsSpace(s[i]))
    && (|t| > 0 ==> !IsSpace(t[0]) && !IsSpace(t[|t| - 1]))
  }

  lemma TrimWider(s: string, lo: nat, hi: nat, inLo: nat, inHi: nat, t: string, at: nat)
    requires lo <= inLo <= inHi <= hi <= |s| && IsTrim(s, inLo, inHi, t, at)
    requires forall i | lo <= i < hi && !(inLo <= i < inHi) :: IsSpace(s[i])
    ensures IsTrim(s, lo, hi, t, at)
  {
    hide IsSpace;
  }

  lemma {:induction false} StripTrims(s: string, lo: nat, hi: nat) returns (at: nat)
    requires lo <= hi <= |s|
    ensures IsTrim(s, lo, hi, StripRange(s, lo, hi), at)
    decreases hi - lo
  {
    hide IsSpace;
    at := lo;
    if lo == hi {
      assert StripRange(s, lo, hi) == s[lo..hi];
    } else if IsSpace(s[lo]) {
      hide IsTrim;
      at := StripTrims(s, lo + 1, hi);
      TrimWider(s, lo, hi, lo + 1, hi, StripRange(s, lo + 1, hi), at);
    } else if IsSpace(s[hi - 1]) {
      hide IsTrim;
      at := StripTrims(s, lo, hi - 1);
      TrimWider(s, lo, hi, lo, hi - 1, StripRange(s, lo, hi - 1), at);
    } else {
      assert StripRange(s, lo, hi) == s[lo..hi];
    }
  }

  ghost predicate OccursAt(text: string, part: string, i: int) {
    0 <= i && i + |part| <= |text| && text[i..i + |part|] == part
  }

  method Find(text: string, part: string, from: nat) returns (i: int)
    ensures i == -1 || (from <= i && OccursAt(text, part, i))
    ensures forall k | from <= k && (i == -1 || k < i) :: !OccursAt(text, part, k)
  {
    i := from;
    while i + |part| <= |text|
      invariant from <= i
      invariant forall k | from <= k < i :: !OccursAt(text, part, k)
    {
      if text[i..i + |part|] == part { return; }
      i := i + 1;
    }
    i := -1;
  }

  /** The last index of `c` in text[lo..hi], or -1. */
  function RFind(text: string, c: char, lo: nat, hi: nat): (i: int)
    requires lo <= hi <= |text|
    ensures i == -1 || (lo <= i < hi && text[i] == c)
    decreases hi
  {
    if lo == hi then -1
    else if text[hi - 1] == c then hi - 1
    else RFind(text, c, lo, hi - 1)
  }

  lemma {:induction false} RFindIsLast(text: string, c: char, lo: nat, hi: nat, k: nat)
    requires lo <= k < hi <= |text| && RFind(text, c, lo, hi) < k
    ensures text[k] != c
    decreases hi
  {
    if k < hi - 1 { RFindIsLast(text, c, lo, hi - 1, k); }
  }

  // ---------------------------------------------------------------------------
  // Fixed-size windows
  // ---------------------------------------------------------------------------

  function Slice(text: string, s: Span): string {
    if s.start <= s.end <= |text| then text[s.start..s.end] else text[..0]
  }

  /** A window ends at the text's end, at the hard limit, or before a space or newline. */
  function WindowEnd(text: string, pos: nat, maxChars: nat): (end: nat)
    requires pos < |text| && 1 <= maxChars
    ensures pos < end <= |text| && end - pos <= maxChars
    ensures end == |text| || end - pos == maxChars || text[end] == ' ' || text[end] == '\n'
  {
    var end := if pos + maxChars < |text| then pos + maxChars else |text|;
    if end < |text| then
      var space := RFind(text, ' ', pos, end);
      var boundary := if space == -1 then RFind(text, '\n', pos, end) else space;
      if boundary > pos then boundary else end
    else end
  }

  /** Where a window ends: with the text when that is within reach; otherwise before its last space, or
      without any space before its last newline, unless that is its first character; otherwise at the
      hard limit. */
  lemma WindowEndIsLastBoundary(text: string, pos: nat, maxChars: nat)
    requires 1 <= maxChars && pos < |text|
    ensures var end, limit := WindowEnd(text, pos, maxChars), pos + maxChars;
            if limit >= |text| then end == |text|
            else if end == limit
            then (forall k | pos < k < limit :: text[k] != ' ')
                 && (text[pos] == ' ' || forall k | pos < k < limit :: text[k] != '\n')
            else pos < end < limit &&
                 if text[end] == ' ' then forall k | end < k < limit :: text[k] != ' '
                 else && text[end] == '\n' && (forall k | pos <= k < limit :: text[k] != ' ')
                      && forall k | end < k < limit :: text[k] != '\n'
  {
    hide RFind;
    var limit := if pos + maxChars < |text| then pos + maxChars else |text|;
    forall k, c | pos <= k < limit && RFind(text, c, pos, limit) < k
      ensures text[k] != c
    {
      RFindIsLast(text, c, pos, limit, k);
    }
  }

  function Advance(pos: nat, end: nat, overlap: int): (n: nat)
    requires pos < end
    ensures 1 <= n
  {
    if end - pos - overlap > 1 then end - pos - overlap else 1
  }

  function Windows(text: string, pos: nat, maxChars: nat, overlap: int): seq<Span>
    requires 1 <= maxChars
    decreases |text| - pos
  {
    if pos >= |text| then []
    else
      var end := WindowEnd(text, pos, maxChars);
      [Span(pos, end)] +
      (if end >= |text| then [] else Windows(text, pos + Advance(pos, end, overlap), maxChars, overlap))
  }

  function Segment(text: string, w: Span): string {
    if w.start <= w.end <= |text| then StripRange(text, w.start, w.end) else text[..0]
  }

  /** `before` and the chunk of one window into `text`, itself at `offset` in the document;
      a blank window adds none. */
  function WithWindow(doc: Document, text: string, w: Span, offset: nat, index: nat, before: seq<Chunk>): seq<Chunk> {
    var segment := Segment(text, w);
    if |segment| == 0 then before
    else before + [Chunk(doc.sourcePath, doc.sourceId, index + |before|, segment, offset + w.start, offset + w.end)]
  }

  /** The chunks of the first `k` windows, numbered from `index`. */
  function Emit(doc: Document, text: string, windows: seq<Span>, k: nat, offset: nat, index: nat): seq<Chunk>
    requires k <= |windows|
  {
    if k == 0 then []
    else WithWindow(doc, text, windows[k - 1], offset, index, Emit(doc, text, windows, k - 1, offset, index))
  }

  ghost predicate WindowOk(text: string, maxChars: nat, pos: nat, w: Span) {
    pos <= w.start < w.end <= |text| && w.end - w.start <= maxChars
  }

  /** Every window is non-empty, inside the text and at most `maxChars` long. */
  lemma {:induction false} WindowsFit(text: string, pos: nat, maxChars: nat, overlap: int)
    requires 1 <= maxChars
    ensures forall i | 0 <= i < |Windows(text, pos, maxChars, overlap)| ::
              WindowOk(text, maxChars, pos, Windows(text, pos, maxChars, overlap)[i])
    decreases |text| - pos
  {
    hide WindowEnd, RFind;
    if pos < |text| {
      var end := WindowEnd(text, pos, maxChars);
      if end < |text| {
        var next := pos + Advance(pos, end, overlap);
        WindowsFit(text, next, maxChars, overlap);
        var ws, rest := Windows(text, pos, maxChars, overlap), Windows(text, next, maxChars, overlap);
        assert forall i | 0 < i < |ws| :: ws[i] == rest[i - 1] && WindowOk(text, maxChars, next, rest[i - 1]);
      }
    }
  }

  /** The first window, and the windows after it. */
  lemma WindowsUnfold(text: string, pos: nat, maxChars: nat, overlap: int)
    requires 1 <= maxChars
    ensures pos >= |text| ==> Windows(text, pos, maxChars, overlap) == []
    ensures pos < |text| ==>
              var end := WindowEnd(text, pos, maxChars);
              Windows(text, pos, maxChars, overlap) ==
              [Span(pos, end)] +
              if end >= |text| then [] else Windows(text, pos + Advance(pos, end, overlap), maxChars, overlap)
  {
    hide WindowEnd, Advance;
  }

  /** With a non-negative overlap the next window starts no later than this one ends. */
  lemma NextIsInside(pos: nat, end: nat, overlap: int, i: nat)
    requires pos < end <= i && 0 <= overlap
    ensures pos < pos + Advance(pos, end, overlap) <= i
  {
  }

  ghost predicate Covered(ws: seq<Span>, i: nat) {
    exists k | 0 <= k < |ws| :: ws[k].start <= i < ws[k].end
  }

  lemma CoveredCons(w: Span, rest: seq<Span>, i: nat)
    requires w.start <= i < w.end || Covered(rest, i)
    ensures Covered([w] + rest, i)
  {
    var ws := [w] + rest;
    if w.start <= i < w.end {
      assert ws[0].start <= i < ws[0].end;
    } else {
      var k :| 0 <= k < |rest| && rest[k].start <= i < rest[k].end;
      assert ws[k + 1].start <= i < ws[k + 1].end;
    }
  }

  /** With a non-negative overlap the windows leave no gap, however large the overlap is. */
  lemma {:induction false} WindowsCover(text: string, pos: nat, maxChars: nat, overlap: int, i: nat)
    requires 1 <= maxChars && 0 <= overlap && pos <= i < |text|
    ensures Covered(Windows(text, pos, maxChars, overlap), i)
    decreases |text| - pos
  {
    hide WindowEnd, Windows, Covered, Advance;
    WindowsUnfold(text, pos, maxChars, overlap);
    var end := WindowEnd(text, pos, maxChars);
    var next := pos + Advance(pos, end, overlap);
    var rest := if end >= |text| then [] else Windows(text, next, maxChars, overlap);
    if i >= end {
      NextIsInside(pos, end, overlap, i);
      WindowsCover(text, next, maxChars, overlap, i);
    }
    CoveredCons(Span(pos, end), rest, i);
  }

  /** Window starts strictly increase, so there are at most |text| windows. */
  lemma {:induction false} WindowsIncrease(text: string, pos: nat, maxChars: nat, overlap: int, i: nat, j: nat)
    requires 1 <= maxChars
    requires i < j < |Windows(text, pos, maxChars, overlap)|
    ensures Windows(text, pos, maxChars, overlap)[i].start < Windows(text, pos, maxChars, overlap)[j].start
    decreases |text| - pos
  {
    hide WindowEnd, RFind;
    var end := WindowEnd(text, pos, maxChars);
    var next := pos + Advance(pos, end, overlap);
    var ws, rest := Windows(text, pos, maxChars, overlap), Windows(text, next, maxChars, overlap);
    assert ws == [Span(pos, end)] + rest;
    if i == 0 {
      WindowsFit(text, next, maxChars, overlap);
      assert WindowOk(text, maxChars, next, rest[j - 1]);
    } else {
      WindowsIncrease(text, next, maxChars, overlap, i - 1, j - 1);
    }
  }

  /** The word-boundary search of one window. */
  method AlignedEnd(text: string, pos: nat, maxChars: nat) returns (end: nat)
    requires pos < |text| && 1 <= maxChars
    ensures end == WindowEnd(text, pos, maxChars)
  {
    end := if pos + maxChars < |text| then pos + maxChars else |text|;
    if end < |text| {
      var boundary := RFind(text, ' ', pos, end);
      if boundary == -1 { boundary := RFind(text, '\n', pos, end); }
      if boundary > pos { end := boundary; }
    }
  }

  /** How consecutive windows of text[pos..] are linked. */
  ghost predicate IsWindowing(text: string, pos: nat, maxChars: nat, overlap: int, ws: seq<Span>)
    requires 1 <= maxChars
  {
    && (ws == [] <==> pos >= |text|)
    && (ws != [] ==> ws[0].start == pos)
    && (forall k | 0 <= k < |ws| :: IsWindow(text, maxChars, ws[k]))
    && (forall k | 0 <= k < |ws| :: k == |ws| - 1 <==> Next(text, overlap, ws[k]) >= |text|)
    && (forall k | 0 <= k < |ws| - 1 :: NextAt(text, overlap, ws, k))
  }

  ghost predicate NextAt(text: string, overlap: int, ws: seq<Span>, k: nat) {
    k + 1 < |ws| && ws[k + 1].start == Next(text, overlap, ws[k])
  }

  ghost predicate IsWindow(text: string, maxChars: nat, w: Span)
    requires 1 <= maxChars
  {
    w.start < |text| && w.end == WindowEnd(text, w.start, maxChars)
  }

  ghost function Next(text: string, overlap: int, w: Span): nat {
    if w.end >= |text| || w.end <= w.start then |text| else w.start + Advance(w.start, w.end, overlap)
  }

  lemma {:induction false} WindowsAreLinked(text: string, pos: nat, maxChars: nat, overlap: int)
    requires 1 <= maxChars
    ensures IsWindowing(text, pos, maxChars, overlap, Windows(text, pos, maxChars, overlap))
    decreases |text| - pos
  {
    hide WindowEnd, Windows, IsWindowing, Advance;
    WindowsUnfold(text, pos, maxChars, overlap);
    LastWindowing(text, pos, maxChars, overlap);
    if pos < |text| {
      var end := WindowEnd(text, pos, maxChars);
      if end < |text| {
        var next := pos + Advance(pos, end, overlap);
        WindowsAreLinked(text, next, maxChars, overlap);
        WindowingCons(text, pos, maxChars, overlap, Windows(text, next, maxChars, overlap));
      }
    }
  }

  /** The next window starts one character after this one, or `overlap` characters before its end,
      whichever is later. */
  ghost predicate Overlapping(ws: seq<Span>, overlap: int) {
    forall k | 0 <= k < |ws| - 1 :: OverlapAt(ws, overlap, k)
  }

  ghost predicate OverlapAt(ws: seq<Span>, overlap: int, k: nat) {
    && k + 1 < |ws|
    && ws[k + 1].start == Later(ws[k].start + 1, ws[k].end - overlap)
  }

  function Later(a: int, b: int): int { if a < b then b else a }

  /** A window that is longer than the overlap by more than one character shares exactly `overlap`
      characters with the next one; the first starts where the text does and the last ends with it. */
  lemma WindowsOverlap(text: string, maxChars: nat, overlap: int)
    requires 1 <= maxChars
    ensures var ws := Windows(text, 0, maxChars, overlap);
            && Overlapping(ws, overlap)
            && (forall k | 0 <= k < |ws| - 1 && ws[k].end - ws[k].start > overlap + 1 ::
                  ws[k].end - ws[k + 1].start == overlap)
            && (ws == [] <==> text == []) && (ws != [] ==> ws[0].start == 0)
            && (ws != [] && 0 <= overlap ==> ws[|ws| - 1].end == |text|)
  {
    hide WindowEnd, Windows;
    var ws := Windows(text, 0, maxChars, overlap);
    WindowsAreLinked(text, 0, maxChars, overlap);
    WindowsFit(text, 0, maxChars, overlap);
    forall k | 0 <= k < |ws| - 1
      ensures OverlapAt(ws, overlap, k) && (ws[k].end - ws[k].start > overlap + 1 ==>
                                              ws[k].end - ws[k + 1].start == overlap)
    {
      assert NextAt(text, overlap, ws, k) && IsWindow(text, maxChars, ws[k + 1]);
      assert WindowOk(text, maxChars, 0, ws[k]);
    }
    if ws != [] {
      assert IsWindow(text, maxChars, ws[|ws| - 1]) && WindowOk(text, maxChars, 0, ws[|ws| - 1]);
    }
  }

  lemma LastWindowing(text: string, pos: nat, maxChars: nat, overlap: int)
    requires 1 <= maxChars
    ensures pos >= |text| ==> IsWindowing(text, pos, maxChars, overlap, [])
    ensures pos < |text| <= WindowEnd(text, pos, maxChars) ==>
              IsWindowing(text, pos, maxChars, overlap, [Span(pos, WindowEnd(text, pos, maxChars))] + [])
  {
    hide WindowEnd;
  }

  lemma WindowingCons(text: string, pos: nat, maxChars: nat, overlap: int, rest: seq<Span>)
    requires 1 <= maxChars && pos < |text| && WindowEnd(text, pos, maxChars) < |text|
    requires IsWindowing(text, pos + Advance(pos, WindowEnd(text, pos, maxChars), overlap), maxChars, overlap, rest)
    ensures IsWindowing(text, pos, maxChars, overlap, [Span(pos, WindowEnd(text, pos, maxChars))] + rest)
  {
    hide WindowEnd, RFind;
    var ws := [Span(pos, WindowEnd(text, pos, maxChars))] + rest;
    assert Next(text, overlap, ws[0]) == pos + Advance(pos, WindowEnd(text, pos, maxChars), overlap);
    assert forall k | 0 < k < |ws| :: ws[k] == rest[k - 1];
    forall k | 0 <= k < |ws| - 1
      ensures NextAt(text, overlap, ws, k)
    {
      if k > 0 { assert NextAt(text, overlap, rest, k - 1); }
    }
  }

  lemma EmitNext(doc: Document, text: string, windows: seq<Span>, k: nat, offset: nat, index: nat, pos: nat, end: nat)
    requires k < |windows| && windows[k] == Span(pos, end) && pos <= end <= |text|
    ensures var before := Emit(doc, text, windows, k, offset, index);
            var segment := StripRange(text, pos, end);
            Emit(doc, text, windows, k + 1, offset, index) ==
            if |segment| == 0 then before
            else before + [Chunk(doc.sourcePath, doc.sourceId, index + |before|, segment, offset + pos, offset + end)]
  {
    hide StripRange;
  }

  method FixedSizeChunks(doc: Document, text: string, offset: nat, indexStart: nat, maxChars: nat, overlap: int)
    returns (chunks: seq<Chunk>)
    requires 1 <= maxChars
    ensures var windows := Windows(text, 0, maxChars, overlap);
            chunks == Emit(doc, text, windows, |windows|, offset, indexStart)
  {
    hide Windows, Slice, StripRange, WindowEnd, Segment, RFind, IsSpace, WithWindow;
    chunks := [];
    var pos: nat := 0;
    var index: nat := indexStart;
    ghost var windows := Windows(text, 0, maxChars, overlap);
    ghost var k: nat := 0;
    WindowsAreLinked(text, 0, maxChars, overlap);
    while pos < |text|
      invariant k <= |windows| && (k == |windows| <==> pos >= |text|)
      invariant k < |windows| ==> windows[k].start == pos
      invariant chunks == Emit(doc, text, windows, k, offset, indexStart)
      invariant index == indexStart + |chunks|
      decreases |text| - pos
    {
      var end := AlignedEnd(text, pos, maxChars);
      assert IsWindow(text, maxChars, windows[k]);
      assert k < |windows| - 1 ==> NextAt(text, overlap, windows, k);
      EmitNext(doc, text, windows, k, offset, indexStart, pos, end);
      var segment := StripRange(text, pos, end);
      if |segment| > 0 {
        chunks := chunks + [Chunk(doc.sourcePath, doc.sourceId, index, segment, offset + pos, offset + end)];
        index := index + 1;
      }
      k := k + 1;
      if end >= |text| {
        break;
      }
      var advance := if end - pos - overlap > 1 then end - pos - overlap else 1;
      assert pos + advance == Next(text, overlap, windows[k - 1]);
      pos := pos + advance;
    }
  }

  // ---------------------------------------------------------------------------
  // Paragraphs
  // ---------------------------------------------------------------------------

  predicate BreakAt(text: string, i: nat) {
    i + 1 < |text| && text[i] == '\n' && text[i + 1] == '\n'
  }

  function NextBreak(text: string, i: nat): (b: nat)
    requires i <= |text|
    ensures i <= b <= |text| && (b == |text| || BreakAt(text, b))
    ensures forall k | i <= k < b :: !BreakAt(text, k)
    decreases |text| - i
  {
    if i == |text| || BreakAt(text, i) then i else NextBreak(text, i + 1)
  }

  function NewlinesEnd(text: string, i: nat): (e: nat)
    requires i <= |text|
    ensures i <= e <= |text| && (e == |text| || text[e] != '\n')
    ensures forall k | i <= k < e :: text[k] == '\n'
    decreases |text| - i
  {
    if i < |text| && text[i] == '\n' then NewlinesEnd(text, i + 1) else i
  }

  /** Where the pieces of `re.split(r'\n{2,}', text)` lie, from `start` on. */
  function ParagraphSpans(text: string, start: nat): seq<Span>
    requires start <= |text|
    decreases |text| - start
  {
    var b := NextBreak(text, start);
    if b == |text| then [Span(start, b)]
    else
      var e := NewlinesEnd(text, b);
      assert text[b] == '\n' && b < e;
      [Span(start, b)] + ParagraphSpans(text, e)
  }

  /** What the regular expression split returns: the pieces, without their positions. */
  function RegexSplit(text: string): (pieces: seq<string>)
    ensures |pieces| == |ParagraphSpans(text, 0)|
    ensures forall i | 0 <= i < |pieces| :: pieces[i] == Slice(text, ParagraphSpans(text, 0)[i])
  {
    var spans := ParagraphSpans(text, 0);
    seq(|spans|, i requires 0 <= i < |spans| => Slice(text, spans[i]))
  }

  ghost predicate BlankLineAt(text: string, i: nat) {
    i + 2 <= |text| && text[i..i + 2] == "\n\n"
  }

  lemma BreakIsBlankLine(text: string, i: nat)
    ensures BreakAt(text, i) <==> BlankLineAt(text, i)
  {
    if i + 2 <= |text| { assert text[i..i + 2] == [text[i], text[i + 1]]; }
  }

  lemma PieceToBreak(text: string, start: nat)
    requires start <= |text|
    ensures PieceOk(text, Span(start, NextBreak(text, start)))
  {
    hide BlankLineAt, BreakAt;
    forall k: nat
      ensures BreakAt(text, k) <==> BlankLineAt(text, k)
    {
      BreakIsBlankLine(text, k);
    }
  }

  ghost predicate PieceOk(text: string, s: Span) {
    && s.start <= s.end <= |text|
    && forall k | s.start <= k && k + 1 < s.end :: !BlankLineAt(text, k)
  }

  ghost predicate GapAt(text: string, spans: seq<Span>, i: nat) {
    i + 1 < |spans| && GapOk(text, spans[i], spans[i + 1])
  }

  ghost predicate GapOk(text: string, a: Span, b: Span) {
    && a.end + 2 <= b.start <= |text|
    && (forall k | a.end <= k < b.start :: text[k] == '\n')
    && (b.start < |text| ==> text[b.start] != '\n')
  }

  /** `spans` are the maximal pieces of text[start..] between runs of two or more newlines. */
  ghost predicate Paragraphing(text: string, start: nat, spans: seq<Span>) {
    && spans != [] && spans[0].start == start && spans[|spans| - 1].end == |text|
    && (forall i | 0 <= i < |spans| :: PieceOk(text, spans[i]))
    && (forall i | 0 <= i < |spans| - 1 :: GapAt(text, spans, i))
  }

  lemma {:induction false} SplitIsParagraphing(text: string, start: nat)
    requires start <= |text|
    ensures Paragraphing(text, start, ParagraphSpans(text, start))
    decreases |text| - start
  {
    hide PieceOk;
    PieceToBreak(text, start);
    var b := NextBreak(text, start);
    if b < |text| {
      var e := NewlinesEnd(text, b);
      assert text[b] == '\n' && text[b + 1] == '\n';
      assert b + 2 <= e;
      SplitIsParagraphing(text, e);
      var rest := ParagraphSpans(text, e);
      var spans := ParagraphSpans(text, start);
      assert spans == [Span(start, b)] + rest;
      assert PieceOk(text, spans[0]) && GapOk(text, spans[0], rest[0]);
      forall i | 0 < i < |spans|
        ensures PieceOk(text, spans[i]) && (i < |spans| - 1 ==> GapAt(text, spans, i))
      {
        assert spans[i] == rest[i - 1];
        if i < |spans| - 1 { assert GapAt(text, rest, i - 1); }
      }
      assert GapAt(text, spans, 0);
    }
  }

  /** Every character outside the newline runs lies in some piece. */
  lemma {:induction false} ParagraphsCover(text: string, start: nat, i: nat)
    requires start <= i < |text| && text[i] != '\n'
    ensures exists k :: 0 <= k < |ParagraphSpans(text, start)|
                        && ParagraphSpans(text, start)[k].start <= i < ParagraphSpans(text, start)[k].end
    decreases |text| - start
  {
    var b := NextBreak(text, start);
    var spans := ParagraphSpans(text, start);
    if i < b {
      assert spans[0].start <= i < spans[0].end;
    } else {
      var e := NewlinesEnd(text, b);
      assert i >= e;
      ParagraphsCover(text, e, i);
      var k :| 0 <= k < |ParagraphSpans(text, e)|
               && ParagraphSpans(text, e)[k].start <= i < ParagraphSpans(text, e)[k].end;
      assert spans[k + 1] == ParagraphSpans(text, e)[k];
    }
  }

  ghost predicate AllSpace(text: string, lo: nat, hi: nat) {
    forall k | lo <= k < hi && k < |text| :: IsSpace(text[k])
  }

  lemma DiffersAt(text: string, part: string, p: nat, j: nat)
    requires j < |part| && p + j < |text| && text[p + j] != part[j]
    ensures !OccursAt(text, part, p)
  {
    assert p + |part| <= |text| ==> text[p..p + |part|][j] == text[p + j];
  }

  /** From any cursor that lags behind a paragraph by white space only, `find` stops at the
      paragraph's true position: no earlier occurrence exists. */
  lemma FindHitsTrueStart(text: string, spans: seq<Span>, i: nat, cursor: nat, p: nat)
    requires Paragraphing(text, 0, spans) && i < |spans|
    requires !Blank(Slice(text, spans[i]))
    requires cursor <= spans[i].start && AllSpace(text, cursor, spans[i].start)
    requires cursor <= p < spans[i].start
    ensures !OccursAt(text, Slice(text, spans[i]), p)
  {
    var para, start := Slice(text, spans[i]), spans[i].start;
    assert PieceOk(text, spans[i]);
    assert GapAt(text, spans, i - 1);
    assert forall j | 0 <= j < |para| :: para[j] == text[start + j];
    assert text[start - 1] == '\n' && text[start - 2] == '\n';
    if p == start - 1 {
      DiffersAt(text, para, p, 0);
    } else if p + |para| <= start {
      var j :| 0 <= j < |para| && !IsSpace(para[j]);
      DiffersAt(text, para, p, j);
    } else {
      var j := start - 2 - p;
      assert !BlankLineAt(text, start + j);
      BreakIsBlankLine(text, start + j);
      if para[j] != '\n' { DiffersAt(text, para, p, j); } else { DiffersAt(text, para, p, j + 1); }
    }
  }

  lemma RecoveredStart(text: string, spans: seq<Span>, i: nat, cursor: nat, found: int)
    requires Paragraphing(text, 0, spans) && i < |spans|
    requires !Blank(Slice(text, spans[i]))
    requires cursor <= spans[i].start && AllSpace(text, cursor, spans[i].start)
    requires found == -1 || (cursor <= found && OccursAt(text, Slice(text, spans[i]), found))
    requires forall k | cursor <= k && (found == -1 || k < found) :: !OccursAt(text, Slice(text, spans[i]), k)
    ensures found == spans[i].start
  {
    assert PieceOk(text, spans[i]);
    assert OccursAt(text, Slice(text, spans[i]), spans[i].start);
    if cursor <= found < spans[i].start { FindHitsTrueStart(text, spans, i, cursor, found); }
  }

  lemma LagPastParagraph(text: string, spans: seq<Span>, i: nat)
    requires Paragraphing(text, 0, spans) && i + 1 < |spans|
    ensures spans[i].end <= spans[i + 1].start && AllSpace(text, spans[i].end, spans[i + 1].start)
  {
    assert GapAt(text, spans, i);
  }

  /** The chunks of the first `k` paragraphs, built from their true positions. */
  function ParagraphChunks(doc: Document, maxChars: nat, spans: seq<Span>, k: nat): seq<Chunk>
    requires 1 <= maxChars && k <= |spans|
  {
    if k == 0 then []
    else WithParagraph(doc, maxChars, spans[k - 1], ParagraphChunks(doc, maxChars, spans, k - 1))
  }

  function WithParagraph(doc: Document, maxChars: nat, s: Span, before: seq<Chunk>): seq<Chunk>
    requires 1 <= maxChars
  {
    var para := Slice(doc.rawText, s);
    if Blank(para) then before
    else if |para| <= maxChars then
      before + [Chunk(doc.sourcePath, doc.sourceId, |before|, para, s.start, s.end)]
    else
      var windows := Windows(para, 0, maxChars, DEFAULT_OVERLAP_CHARS);
      before + Emit(doc, para, windows, |windows|, s.start, |before|)
  }

  lemma FirstParagraph(doc: Document, maxChars: nat)
    requires 1 <= maxChars
    ensures var spans := ParagraphSpans(doc.rawText, 0);
            && Paragraphing(doc.rawText, 0, spans)
            && AllSpace(doc.rawText, 0, 0) && spans[0].start == 0
            && ParagraphChunks(doc, maxChars, spans, 0) == []
  {
    SplitIsParagraphing(doc.rawText, 0);
  }

  /** Where the paragraph is taken to start: the next occurrence from the cursor, or the cursor. */
  method Locate(text: string, para: string, cursor: nat, ghost spans: seq<Span>, ghost i: nat)
    returns (paraStart: int)
    requires Paragraphing(text, 0, spans) && i < |spans|
    requires para == Slice(text, spans[i]) && !Blank(para)
    requires cursor <= spans[i].start && AllSpace(text, cursor, spans[i].start)
    ensures 0 <= paraStart == spans[i].start && paraStart + |para| == spans[i].end <= |text|
    ensures para == text[paraStart..paraStart + |para|]
  {
    paraStart := Find(text, para, cursor);
    ghost var found := paraStart;
    if paraStart == -1 { paraStart := cursor; }
    RecoveredStart(text, spans, i, cursor, found);
    assert PieceOk(text, spans[i]);
  }

  /** The body of the loop for a paragraph that is not blank. */
  method AddParagraph(doc: Document, maxChars: nat, para: string, paraStart: nat, before: seq<Chunk>)
    returns (chunks: seq<Chunk>)
    requires 1 <= maxChars && !Blank(para)
    requires paraStart + |para| <= |doc.rawText| && para == doc.rawText[paraStart..paraStart + |para|]
    ensures chunks == WithParagraph(doc, maxChars, Span(paraStart, paraStart + |para|), before)
  {
    hide Windows, Emit, Blank;
    var index := |before|;
    if |para| <= maxChars {
      chunks := before + [Chunk(doc.sourcePath, doc.sourceId, index, para, paraStart, paraStart + |para|)];
    } else {
      var subChunks := FixedSizeChunks(doc, para, paraStart, index, maxChars, DEFAULT_OVERLAP_CHARS);
      chunks := before + subChunks;
    }
  }

  lemma NextParagraph(doc: Document, maxChars: nat, spans: seq<Span>, k: nat)
    requires 1 <= maxChars && k < |spans|
    ensures var before := ParagraphChunks(doc, maxChars, spans, k);
            && ParagraphChunks(doc, maxChars, spans, k + 1) == WithParagraph(doc, maxChars, spans[k], before)
            && (Blank(Slice(doc.rawText, spans[k])) ==> WithParagraph(doc, maxChars, spans[k], before) == before)
  {
    hide Windows, Emit, Slice, Blank;
  }

  /** The offsets that `find` recovers from the lagging cursor are the true ones, on every text. */
  method ChunkByParagraph(doc: Document, maxChars: nat) returns (chunks: seq<Chunk>)
    requires 1 <= maxChars
    ensures var spans := ParagraphSpans(doc.rawText, 0);
            chunks == ParagraphChunks(doc, maxChars, spans, |spans|)
  {
    hide *;
    var text := doc.rawText;
    var paras := RegexSplit(text);
    chunks := [];
    var cursor: nat := 0;
    ghost var spans := ParagraphSpans(text, 0);
    FirstParagraph(doc, maxChars);
    for i := 0 to |paras|
      invariant chunks == ParagraphChunks(doc, maxChars, spans, i)
      invariant i < |spans| ==> cursor <= spans[i].start && AllSpace(text, cursor, spans[i].start)
    {
      var para := paras[i];
      NextParagraph(doc, maxChars, spans, i);
      if Blank(para) {
        LagPastBlank(text, spans, i, cursor);
        cursor := cursor + |para| + 2;
        continue;
      }
      var paraStart := Locate(text, para, cursor, spans, i);
      chunks := AddParagraph(doc, maxChars, para, paraStart, chunks);
      cursor := paraStart + |para|;
      if i + 1 < |spans| { LagPastParagraph(text, spans, i); }
    }
  }

  lemma LagPastBlank(text: string, spans: seq<Span>, i: nat, cursor: nat)
    requires Paragraphing(text, 0, spans) && i < |spans|
    requires Blank(Slice(text, spans[i]))
    requires cursor <= spans[i].start && AllSpace(text, cursor, spans[i].start)
    ensures i + 1 < |spans| ==>
              && cursor + |Slice(text, spans[i])| + 2 <= spans[i + 1].start
              && AllSpace(text, cursor + |Slice(text, spans[i])| + 2, spans[i + 1].start)
  {
    if i + 1 < |spans| {
      assert PieceOk(text, spans[i]) && GapAt(text, spans, i);
      forall k | cursor <= k < spans[i + 1].start
        ensures IsSpace(text[k])
      {
        if spans[i].start <= k < spans[i].end {
          assert text[k] == Slice(text, spans[i])[k - spans[i].start];
        }
      }
    }
  }

  // ---------------------------------------------------------------------------
  // chunk_document, and what every chunk list promises
  // ---------------------------------------------------------------------------

  ghost predicate HasParagraphs(text: string) {
    exists i: nat :: OccursAt(text, "\n\n", i) || OccursAt(text, "\n\r\n", i)
  }

  ghost function DocumentChunks(doc: Document, maxChars: nat): seq<Chunk>
    requires 1 <= maxChars
  {
    if HasParagraphs(doc.rawText) then
      var spans := ParagraphSpans(doc.rawText, 0);
      ParagraphChunks(doc, maxChars, spans, |spans|)
    else
      var windows := Windows(doc.rawText, 0, maxChars, DEFAULT_OVERLAP_CHARS);
      Emit(doc, doc.rawText, windows, |windows|, 0, 0)
  }

  method ChunkDocument(doc: Document, maxChars: nat) returns (chunks: seq<Chunk>)
    requires 1 <= maxChars
    ensures chunks == DocumentChunks(doc, maxChars)
  {
    hide Windows, Emit, ParagraphSpans, ParagraphChunks;
    var unix := Find(doc.rawText, "\n\n", 0);
    var dos := Find(doc.rawText, "\n\r\n", 0);
    if unix != -1 || dos != -1 {
      chunks := ChunkByParagraph(doc, maxChars);
    } else {
      chunks := FixedSizeChunks(doc, doc.rawText, 0, 0, maxChars, DEFAULT_OVERLAP_CHARS);
    }
  }

  /** `c` covers a stretch of at most `maxChars` characters and holds its text, exactly or stripped. */
  ghost predicate ChunkOk(doc: Document, maxChars: nat, c: Chunk) {
    && c.sourcePath == doc.sourcePath && c.sourceId == doc.sourceId
    && c.start < c.end <= |doc.rawText| && c.end - c.start <= maxChars
    && |c.text| > 0
    && (c.text == doc.rawText[c.start..c.end] || exists at :: IsTrim(doc.rawText, c.start, c.end, c.text, at))
  }

  /** Chunks numbered from `base`, lying in [lo, hi), with strictly increasing starts. */
  ghost predicate ListOk(doc: Document, maxChars: nat, cs: seq<Chunk>, base: nat, lo: nat, hi: nat) {
    && (forall j | 0 <= j < |cs| ::
          ChunkOk(doc, maxChars, cs[j]) && cs[j].index == base + j && lo <= cs[j].start && cs[j].end <= hi)
    && (forall i, j | 0 <= i < j < |cs| :: cs[i].start < cs[j].start)
  }

  /** The text of `c` is a stretch of the document that contains position `i`. */
  ghost predicate Holds(doc: Document, c: Chunk, i: nat) {
    exists at: nat :: TextAt(doc.rawText, c.text, at) && c.start <= at <= i < at + |c.text| <= c.end
  }

  ghost predicate TextAt(text: string, part: string, at: nat) {
    at + |part| <= |text| && part == text[at..at + |part|]
  }

  lemma ListAppend(doc: Document, maxChars: nat, a: seq<Chunk>, b: seq<Chunk>, mid: nat, lo: nat, hi: nat)
    requires ListOk(doc, maxChars, a, 0, 0, mid) && mid <= lo <= hi
    requires ListOk(doc, maxChars, b, |a|, lo, hi)
    ensures ListOk(doc, maxChars, a + b, 0, 0, hi)
  {
    hide ChunkOk;
    var cs := a + b;
    forall j | 0 <= j < |cs|
      ensures ChunkOk(doc, maxChars, cs[j]) && cs[j].index == j && cs[j].end <= hi
    {
      if j < |a| { assert cs[j] == a[j]; } else { assert cs[j] == b[j - |a|]; }
    }
    forall i, j | 0 <= i < j < |cs|
      ensures cs[i].start < cs[j].start
    {
      if j < |a| {
        assert cs[i] == a[i] && cs[j] == a[j];
      } else if |a| <= i {
        assert cs[i] == b[i - |a|] && cs[j] == b[j - |a|];
      } else {
        assert cs[i] == a[i] && cs[j] == b[j - |a|];
        assert ChunkOk(doc, maxChars, a[i]);
        StartBeforeEnd(doc, maxChars, a[i]);
      }
    }
  }

  lemma StartBeforeEnd(doc: Document, maxChars: nat, c: Chunk)
    requires ChunkOk(doc, maxChars, c)
    ensures c.start < c.end
  {
  }

  /** `text` is the stretch of the document that begins at `offset`. */
  ghost predicate LiesAt(doc: Document, text: string, offset: nat) {
    offset + |text| <= |doc.rawText| && text == doc.rawText[offset..offset + |text|]
  }

  lemma WindowChunkOk(doc: Document, text: string, w: Span, maxChars: nat, offset: nat, index: nat)
    requires LiesAt(doc, text, offset) && WindowOk(text, maxChars, 0, w) && |Segment(text, w)| > 0
    ensures ChunkOk(doc, maxChars, Chunk(doc.sourcePath, doc.sourceId, index, Segment(text, w),
                                         offset + w.start, offset + w.end))
  {
    hide IsSpace, StripRange;
    var t := Segment(text, w);
    var at := StripTrims(text, w.start, w.end);
    var raw, lo, hi := doc.rawText, offset + w.start, offset + w.end;
    assert forall i | 0 <= i < |text| :: text[i] == raw[offset + i];
    assert t == raw[offset + at..offset + at + |t|];
    forall i | lo <= i < hi && !(offset + at <= i < offset + at + |t|)
      ensures IsSpace(raw[i])
    {
      assert raw[i] == text[i - offset];
    }
    assert IsTrim(raw, lo, hi, t, offset + at);
  }

  lemma ListSnoc(doc: Document, maxChars: nat, cs: seq<Chunk>, c: Chunk, base: nat, lo: nat, hi: nat)
    requires ListOk(doc, maxChars, cs, base, lo, hi) && ChunkOk(doc, maxChars, c)
    requires c.index == base + |cs| && lo <= c.start && c.end <= hi
    requires |cs| > 0 ==> cs[|cs| - 1].start < c.start
    ensures ListOk(doc, maxChars, cs + [c], base, lo, hi)
  {
    hide ChunkOk;
  }

  lemma {:induction false} EmitOk(doc: Document, text: string, windows: seq<Span>, k: nat,
                                  maxChars: nat, offset: nat, index: nat)
    requires k <= |windows| && LiesAt(doc, text, offset)
    requires forall i | 0 <= i < |windows| :: WindowOk(text, maxChars, 0, windows[i])
    requires forall i, j | 0 <= i < j < |windows| :: windows[i].start < windows[j].start
    ensures var cs := Emit(doc, text, windows, k, offset, index);
            && ListOk(doc, maxChars, cs, index, offset, offset + |text|)
            && (k > 0 && |cs| > 0 ==> cs[|cs| - 1].start <= offset + windows[k - 1].start)
  {
    hide Segment, ChunkOk, ListOk, LiesAt;
    if k == 0 {
      NoChunksOk(doc, maxChars, index, offset, offset + |text|);
    } else {
      EmitOk(doc, text, windows, k - 1, maxChars, offset, index);
      var before, w := Emit(doc, text, windows, k - 1, offset, index), windows[k - 1];
      if |Segment(text, w)| > 0 {
        WindowChunkOk(doc, text, w, maxChars, offset, index + |before|);
        ListSnoc(doc, maxChars, before,
                 Chunk(doc.sourcePath, doc.sourceId, index + |before|, Segment(text, w),
                       offset + w.start, offset + w.end),
                 index, offset, offset + |text|);
      }
    }
  }

  lemma NoChunksOk(doc: Document, maxChars: nat, base: nat, lo: nat, hi: nat)
    ensures ListOk(doc, maxChars, [], base, lo, hi)
  {
  }

  lemma FixedChunksOk(doc: Document, text: string, maxChars: nat, offset: nat, index: nat, overlap: int)
    requires 1 <= maxChars && LiesAt(doc, text, offset)
    ensures var windows := Windows(text, 0, maxChars, overlap);
            ListOk(doc, maxChars, Emit(doc, text, windows, |windows|, offset, index), index, offset, offset + |text|)
  {
    hide *;
    var windows := Windows(text, 0, maxChars, overlap);
    WindowsFit(text, 0, maxChars, overlap);
    forall i, j | 0 <= i < j < |windows|
      ensures windows[i].start < windows[j].start
    {
      WindowsIncrease(text, 0, maxChars, overlap, i, j);
    }
    EmitOk(doc, text, windows, |windows|, maxChars, offset, index);
  }

  lemma WithParagraphOk(doc: Document, maxChars: nat, s: Span, before: seq<Chunk>, mid: nat)
    requires 1 <= maxChars && PieceOk(doc.rawText, s)
    requires ListOk(doc, maxChars, before, 0, 0, mid) && mid <= s.start
    ensures ListOk(doc, maxChars, WithParagraph(doc, maxChars, s, before), 0, 0, s.end)
  {
    hide Windows, Emit, ListOk, IsTrim;
    var para := Slice(doc.rawText, s);
    if Blank(para) {
      ListWider(doc, maxChars, before, mid, s.end);
    } else if |para| <= maxChars {
      var c := Chunk(doc.sourcePath, doc.sourceId, |before|, para, s.start, s.end);
      OneChunk(doc, maxChars, c);
      ListAppend(doc, maxChars, before, [c], mid, s.start, s.end);
    } else {
      var windows := Windows(para, 0, maxChars, DEFAULT_OVERLAP_CHARS);
      FixedChunksOk(doc, para, maxChars, s.start, |before|, DEFAULT_OVERLAP_CHARS);
      ListAppend(doc, maxChars, before, Emit(doc, para, windows, |windows|, s.start, |before|), mid, s.start, s.end);
    }
  }

  lemma OneChunk(doc: Document, maxChars: nat, c: Chunk)
    requires ChunkOk(doc, maxChars, c)
    ensures ListOk(doc, maxChars, [c], c.index, c.start, c.end)
  {
  }

  lemma ListWider(doc: Document, maxChars: nat, cs: seq<Chunk>, hi: nat, hi': nat)
    requires ListOk(doc, maxChars, cs, 0, 0, hi) && hi <= hi'
    ensures ListOk(doc, maxChars, cs, 0, 0, hi')
  {
    hide ChunkOk;
  }

  lemma {:induction false} ParagraphChunksOk(doc: Document, maxChars: nat, spans: seq<Span>, k: nat)
    requires 1 <= maxChars && k <= |spans| && Paragraphing(doc.rawText, 0, spans)
    ensures ListOk(doc, maxChars, ParagraphChunks(doc, maxChars, spans, k), 0, 0,
                   if k == 0 then 0 else spans[k - 1].end)
  {
    hide WithParagraph, ChunkOk;
    if k > 0 {
      ParagraphChunksOk(doc, maxChars, spans, k - 1);
      assert PieceOk(doc.rawText, spans[k - 1]);
      if k > 1 { assert GapAt(doc.rawText, spans, k - 2); }
      var mid := if k == 1 then 0 else spans[k - 2].end;
      WithParagraphOk(doc, maxChars, spans[k - 1], ParagraphChunks(doc, maxChars, spans, k - 1), mid);
    }
  }

  /** Whatever the document: chunks are numbered in order, never empty, in strictly increasing
      position, at most `maxChars` long, and each holds the text at its own offsets. */
  lemma ChunksAreFaithful(doc: Document, maxChars: nat)
    requires 1 <= maxChars
    ensures ListOk(doc, maxChars, DocumentChunks(doc, maxChars), 0, 0, |doc.rawText|)
  {
    hide HasParagraphs, ListOk, Windows, Emit, ParagraphSpans, ParagraphChunks;
    var text := doc.rawText;
    SplitIsParagraphing(text, 0);
    var spans := ParagraphSpans(text, 0);
    ParagraphChunksOk(doc, maxChars, spans, |spans|);
    assert LiesAt(doc, text, 0);
    FixedChunksOk(doc, text, maxChars, 0, 0, DEFAULT_OVERLAP_CHARS);
  }

  /** Chunks whose text is exactly the document's, separated by at least two characters. */
  ghost predicate ExactList(doc: Document, cs: seq<Chunk>, hi: nat) {
    && (forall j | 0 <= j < |cs| ::
          cs[j].start < cs[j].end <= hi && TextAt(doc.rawText, cs[j].text, cs[j].start)
          && cs[j].start + |cs[j].text| == cs[j].end)
    && (forall i, j | 0 <= i < j < |cs| :: cs[i].end + 2 <= cs[j].start)
  }

  lemma ExactParagraph(doc: Document, maxChars: nat, s: Span, before: seq<Chunk>, mid: nat)
    requires 1 <= maxChars && PieceOk(doc.rawText, s) && s.end - s.start <= maxChars
    requires ExactList(doc, before, mid) && mid <= s.end && (before == [] || mid + 2 <= s.start)
    ensures ExactList(doc, WithParagraph(doc, maxChars, s, before), s.end)
  {
    hide Emit, Windows, IsSpace;
    var para := Slice(doc.rawText, s);
    if !Blank(para) {
      var c := Chunk(doc.sourcePath, doc.sourceId, |before|, para, s.start, s.end);
      assert TextAt(doc.rawText, para, s.start);
      assert WithParagraph(doc, maxChars, s, before) == before + [c];
    }
  }

  /** When no paragraph is over the limit, chunks are exact and separated by the blank lines. */
  lemma {:induction false} ShortParagraphsAreExact(doc: Document, maxChars: nat, spans: seq<Span>, k: nat)
    requires 1 <= maxChars && k <= |spans| && Paragraphing(doc.rawText, 0, spans)
    requires forall i | 0 <= i < |spans| :: spans[i].end - spans[i].start <= maxChars
    ensures ExactList(doc, ParagraphChunks(doc, maxChars, spans, k), if k == 0 then 0 else spans[k - 1].end)
  {
    hide ExactList, WithParagraph;
    if k == 0 {
      NoChunksAreExact(doc);
    } else {
      ShortParagraphsAreExact(doc, maxChars, spans, k - 1);
      assert PieceOk(doc.rawText, spans[k - 1]);
      if k > 1 { assert GapAt(doc.rawText, spans, k - 2); }
      ExactParagraph(doc, maxChars, spans[k - 1], ParagraphChunks(doc, maxChars, spans, k - 1),
                     if k == 1 then 0 else spans[k - 2].end);
    }
  }

  lemma NoChunksAreExact(doc: Document)
    ensures ExactList(doc, [], 0)
  {
  }

  lemma {:induction false} SpansApart(text: string, spans: seq<Span>, k: nat, m: nat)
    requires Paragraphing(text, 0, spans) && k < m < |spans|
    ensures spans[k].end + 2 <= spans[m].start
    decreases m
  {
    assert GapAt(text, spans, m - 1) && PieceOk(text, spans[m - 1]);
    if k < m - 1 { SpansApart(text, spans, k, m - 1); }
  }

  lemma {:induction false} EmitStarts(doc: Document, text: string, windows: seq<Span>, k: nat, offset: nat, index: nat)
    requires k <= |windows|
    ensures forall c | c in Emit(doc, text, windows, k, offset, index) :: offset <= c.start
  {
    hide Segment;
    if k > 0 { EmitStarts(doc, text, windows, k - 1, offset, index); }
  }

  lemma ParagraphAdds(doc: Document, maxChars: nat, s: Span, before: seq<Chunk>)
    requires 1 <= maxChars
    ensures var cs := WithParagraph(doc, maxChars, s, before);
            before <= cs && forall i | |before| <= i < |cs| :: s.start <= cs[i].start
  {
    hide Windows, Emit, Blank, Slice;
    var para := Slice(doc.rawText, s);
    if !Blank(para) && |para| > maxChars {
      var windows := Windows(para, 0, maxChars, DEFAULT_OVERLAP_CHARS);
      EmitStarts(doc, para, windows, |windows|, s.start, |before|);
      var added := Emit(doc, para, windows, |windows|, s.start, |before|);
      forall i | |before| <= i < |before| + |added|
        ensures s.start <= (before + added)[i].start
      {
        assert added[i - |before|] in added;
      }
    }
  }

  /** `cs[j]` is the paragraph `s` itself, at least two characters away from every other chunk. */
  ghost predicate StandsAlone(doc: Document, cs: seq<Chunk>, j: nat, s: Span) {
    && j < |cs| && cs[j] == Chunk(doc.sourcePath, doc.sourceId, j, Slice(doc.rawText, s), s.start, s.end)
    && (forall i | 0 <= i < j :: cs[i].end + 2 <= s.start)
    && (forall i | j < i < |cs| :: s.end + 2 <= cs[i].start)
  }

  lemma {:induction false} ShortParagraphStands(doc: Document, maxChars: nat, spans: seq<Span>, k: nat, n: nat)
    requires 1 <= maxChars && k < n <= |spans| && Paragraphing(doc.rawText, 0, spans)
    requires !Blank(Slice(doc.rawText, spans[k])) && spans[k].end - spans[k].start <= maxChars
    ensures StandsAlone(doc, ParagraphChunks(doc, maxChars, spans, n), |ParagraphChunks(doc, maxChars, spans, k)|,
                        spans[k])
    decreases n
  {
    hide Windows, Emit, Blank, ChunkOk;
    var before, cs := ParagraphChunks(doc, maxChars, spans, n - 1), ParagraphChunks(doc, maxChars, spans, n);
    if k == n - 1 {
      ParagraphChunksOk(doc, maxChars, spans, k);
      assert PieceOk(doc.rawText, spans[k]);
      if k > 0 { SpansApart(doc.rawText, spans, k - 1, k); }
    } else {
      ShortParagraphStands(doc, maxChars, spans, k, n - 1);
      SpansApart(doc.rawText, spans, k, n - 1);
      ParagraphAdds(doc, maxChars, spans[n - 1], before);
      StillStands(doc, before, cs, |ParagraphChunks(doc, maxChars, spans, k)|, spans[k]);
    }
  }

  lemma StillStands(doc: Document, before: seq<Chunk>, cs: seq<Chunk>, j: nat, s: Span)
    requires StandsAlone(doc, before, j, s) && before <= cs
    requires forall i | |before| <= i < |cs| :: s.end + 2 <= cs[i].start
    ensures StandsAlone(doc, cs, j, s)
  {
    hide Slice;
    assert forall i | 0 <= i < |before| :: cs[i] == before[i];
  }

  /** In a document split into paragraphs, every paragraph within the limit, whatever the others are,
      is a chunk with its very start, end and text, apart from all other chunks. */
  lemma ShortParagraphIsExact(doc: Document, maxChars: nat, k: nat)
    requires 1 <= maxChars && HasParagraphs(doc.rawText) && k < |ParagraphSpans(doc.rawText, 0)|
    requires var s := ParagraphSpans(doc.rawText, 0)[k];
             !Blank(Slice(doc.rawText, s)) && s.end - s.start <= maxChars
    ensures exists j: nat :: StandsAlone(doc, DocumentChunks(doc, maxChars), j, ParagraphSpans(doc.rawText, 0)[k])
  {
    hide HasParagraphs, Windows, Emit, ParagraphSpans, ParagraphChunks, StandsAlone, Blank, Slice;
    var spans := ParagraphSpans(doc.rawText, 0);
    SplitIsParagraphing(doc.rawText, 0);
    ShortParagraphStands(doc, maxChars, spans, k, |spans|);
    assert StandsAlone(doc, DocumentChunks(doc, maxChars), |ParagraphChunks(doc, maxChars, spans, k)|, spans[k]);
  }

  // ---------------------------------------------------------------------------
  // Neighbouring chunks overlap
  // ---------------------------------------------------------------------------

  /** `d` is the next chunk after `c`: it starts `overlap` characters before the end of `c`, or one after
      its start, and later only past white space. */
  ghost predicate Follows(text: string, c: Chunk, d: Chunk, overlap: int) {
    && Later(c.start + 1, c.end - overlap) <= d.start
    && forall i | Later(c.start + 1, c.end - overlap) <= i < d.start && 0 <= i < |text| :: IsSpace(text[i])
  }

  ghost predicate AllFollow(text: string, cs: seq<Chunk>, overlap: int) {
    forall j | 0 < j < |cs| :: Follows(text, cs[j - 1], cs[j], overlap)
  }

  /** From where the next window after the last chunk was due to `to` there is only white space. */
  ghost predicate BlankSince(text: string, cs: seq<Chunk>, overlap: int, to: int) {
    cs != [] ==>
      var due := Later(cs[|cs| - 1].start + 1, cs[|cs| - 1].end - overlap);
      due <= to && forall i | due <= i < to && 0 <= i < |text| :: IsSpace(text[i])
  }

  lemma BlankSegment(text: string, w: Span)
    requires w.start <= w.end <= |text| && |Segment(text, w)| == 0
    ensures forall i | w.start <= i < w.end :: IsSpace(text[i])
  {
    hide IsSpace, StripRange;
    var at := StripTrims(text, w.start, w.end);
  }

  lemma FollowsSnoc(text: string, cs: seq<Chunk>, d: Chunk, overlap: int)
    requires AllFollow(text, cs, overlap) && BlankSince(text, cs, overlap, d.start)
    ensures AllFollow(text, cs + [d], overlap)
    ensures BlankSince(text, cs + [d], overlap, Later(d.start + 1, d.end - overlap))
  {
    hide IsSpace;
    var all := cs + [d];
    forall j | 0 < j < |all|
      ensures Follows(text, all[j - 1], all[j], overlap)
    {
      if j < |cs| { assert all[j] == cs[j] && all[j - 1] == cs[j - 1]; }
    }
  }

  lemma {:induction false} EmitFollows(doc: Document, text: string, ws: seq<Span>, k: nat, overlap: int, offset: nat,
                                       index: nat)
    requires k <= |ws| && LiesAt(doc, text, offset) && 0 <= overlap && Overlapping(ws, overlap)
    requires forall i | 0 <= i < |ws| :: ws[i].start < ws[i].end <= |text|
    ensures AllFollow(doc.rawText, Emit(doc, text, ws, k, offset, index), overlap)
    ensures k > 0 ==>
              BlankSince(doc.rawText, Emit(doc, text, ws, k, offset, index), overlap,
                         offset + Later(ws[k - 1].start + 1, ws[k - 1].end - overlap))
  {
    hide IsSpace, Segment, AllFollow, BlankSince, LiesAt;
    if k == 0 {
      NothingFollows(doc.rawText, overlap);
    } else {
      EmitFollows(doc, text, ws, k - 1, overlap, offset, index);
      var before, w := Emit(doc, text, ws, k - 1, offset, index), ws[k - 1];
      if k > 1 { assert OverlapAt(ws, overlap, k - 2); } else { NoneSince(doc.rawText, overlap, offset + w.start); }
      if |Segment(text, w)| > 0 {
        var d := Chunk(doc.sourcePath, doc.sourceId, index + |before|, Segment(text, w),
                       offset + w.start, offset + w.end);
        FollowsSnoc(doc.rawText, before, d, overlap);
        assert Later(d.start + 1, d.end - overlap) == offset + Later(w.start + 1, w.end - overlap);
      } else {
        BlankSegment(text, w);
        BlankGrows(doc, text, offset, before, overlap, w);
      }
    }
  }

  lemma NothingFollows(text: string, overlap: int)
    ensures AllFollow(text, [], overlap)
  {
  }

  lemma NoneSince(text: string, overlap: int, to: int)
    ensures BlankSince(text, [], overlap, to)
  {
  }

  lemma BlankGrows(doc: Document, text: string, offset: nat, cs: seq<Chunk>, overlap: int, w: Span)
    requires LiesAt(doc, text, offset) && 0 <= overlap && w.start < w.end <= |text|
    requires forall i | w.start <= i < w.end :: IsSpace(text[i])
    requires BlankSince(doc.rawText, cs, overlap, offset + w.start)
    ensures BlankSince(doc.rawText, cs, overlap, offset + Later(w.start + 1, w.end - overlap))
  {
    hide IsSpace;
    forall i | offset + w.start <= i < offset + w.end
      ensures IsSpace(doc.rawText[i])
    {
      assert doc.rawText[i] == text[i - offset];
    }
  }

  lemma FixedChunksFollow(doc: Document, text: string, maxChars: nat, overlap: int, offset: nat, index: nat)
    requires 1 <= maxChars && 0 <= overlap && LiesAt(doc, text, offset)
    ensures var ws := Windows(text, 0, maxChars, overlap);
            AllFollow(doc.rawText, Emit(doc, text, ws, |ws|, offset, index), overlap)
  {
    hide Windows, Emit, AllFollow, BlankSince, LiesAt, Overlapping;
    var ws := Windows(text, 0, maxChars, overlap);
    WindowsOverlap(text, maxChars, overlap);
    WindowsFit(text, 0, maxChars, overlap);
    assert forall i | 0 <= i < |ws| :: WindowOk(text, maxChars, 0, ws[i]);
    EmitFollows(doc, text, ws, |ws|, overlap, offset, index);
  }

  /** Without blank lines, every chunk starts 100 characters before the end of the one before it, or one
      after its start, and later only past white space. */
  lemma DenseChunksOverlap(doc: Document, maxChars: nat)
    requires 1 <= maxChars && !HasParagraphs(doc.rawText)
    ensures AllFollow(doc.rawText, DocumentChunks(doc, maxChars), 100)
  {
    hide HasParagraphs, Windows, Emit, AllFollow;
    assert LiesAt(doc, doc.rawText, 0);
    FixedChunksFollow(doc, doc.rawText, maxChars, 100, 0, 0);
  }

  /** Neighbouring chunks in one stretch of the document. */
  ghost predicate FollowWithin(text: string, cs: seq<Chunk>, s: Span, overlap: int) {
    forall j | 0 < j < |cs| && s.start <= cs[j - 1].start && cs[j].end <= s.end ::
      Follows(text, cs[j - 1], cs[j], overlap)
  }

  /** The same inside every paragraph of a document that has blank lines. */
  lemma ParagraphChunksOverlap(doc: Document, maxChars: nat, k: nat)
    requires 1 <= maxChars && HasParagraphs(doc.rawText) && k < |ParagraphSpans(doc.rawText, 0)|
    ensures FollowWithin(doc.rawText, DocumentChunks(doc, maxChars), ParagraphSpans(doc.rawText, 0)[k], 100)
  {
    hide HasParagraphs, ParagraphSpans, ParagraphChunks, FollowWithin;
    var spans := ParagraphSpans(doc.rawText, 0);
    SplitIsParagraphing(doc.rawText, 0);
    SpanFollows(doc, maxChars, spans, k, |spans|);
  }

  lemma {:induction false} SpanFollows(doc: Document, maxChars: nat, spans: seq<Span>, k: nat, n: nat)
    requires 1 <= maxChars && k < n <= |spans| && Paragraphing(doc.rawText, 0, spans)
    ensures FollowWithin(doc.rawText, ParagraphChunks(doc, maxChars, spans, n), spans[k], 100)
    decreases n
  {
    hide *;
    var before, cs := ParagraphChunks(doc, maxChars, spans, n - 1), ParagraphChunks(doc, maxChars, spans, n);
    ParagraphChunksOk(doc, maxChars, spans, n - 1);
    ParagraphChunksOk(doc, maxChars, spans, n);
    NextParagraph(doc, maxChars, spans, n - 1);
    ParagraphAdds(doc, maxChars, spans[n - 1], before);
    if k == n - 1 {
      PieceAt(doc.rawText, spans, k);
      if k > 0 { SpansApart(doc.rawText, spans, k - 1, k); }
      ParagraphFollows(doc, maxChars, spans[k], before);
      NewSpanFollows(doc, maxChars, spans[k], before, cs, if k == 0 then 0 else spans[k - 1].end);
    } else {
      SpanFollows(doc, maxChars, spans, k, n - 1);
      SpansApart(doc.rawText, spans, k, n - 1);
      OldSpanFollows(doc, maxChars, spans[k], before, cs, spans[n - 1]);
    }
  }

  lemma PieceAt(text: string, spans: seq<Span>, k: nat)
    requires Paragraphing(text, 0, spans) && k < |spans|
    ensures PieceOk(text, spans[k]) && spans[k].start <= spans[k].end
  {
    assert PieceOk(text, spans[k]);
  }

  lemma NewSpanFollows(doc: Document, maxChars: nat, s: Span, before: seq<Chunk>, cs: seq<Chunk>, mid: nat)
    requires ListOk(doc, maxChars, before, 0, 0, mid) && mid <= s.start && before <= cs
    requires forall j | |before| < j < |cs| :: Follows(doc.rawText, cs[j - 1], cs[j], 100)
    ensures FollowWithin(doc.rawText, cs, s, 100)
  {
    hide Follows, ListOk;
    forall j | 0 < j < |cs| && s.start <= cs[j - 1].start && cs[j].end <= s.end
      ensures Follows(doc.rawText, cs[j - 1], cs[j], 100)
    {
      if j - 1 < |before| {
        assert cs[j - 1] == before[j - 1];
        BeforeEnds(doc, maxChars, before, j - 1, mid);
      }
    }
  }

  lemma OldSpanFollows(doc: Document, maxChars: nat, s: Span, before: seq<Chunk>, cs: seq<Chunk>, last: Span)
    requires FollowWithin(doc.rawText, before, s, 100) && before <= cs && s.end <= last.start
    requires ListOk(doc, maxChars, cs, 0, 0, last.end)
    requires forall i | |before| <= i < |cs| :: last.start <= cs[i].start
    ensures FollowWithin(doc.rawText, cs, s, 100)
  {
    hide Follows, ListOk;
    forall j | 0 < j < |cs| && s.start <= cs[j - 1].start && cs[j].end <= s.end
      ensures Follows(doc.rawText, cs[j - 1], cs[j], 100)
    {
      BeforeEnds(doc, maxChars, cs, j, last.end);
      if j < |before| { assert cs[j - 1] == before[j - 1] && cs[j] == before[j]; }
    }
  }

  lemma BeforeEnds(doc: Document, maxChars: nat, cs: seq<Chunk>, j: nat, hi: nat)
    requires ListOk(doc, maxChars, cs, 0, 0, hi) && j < |cs|
    ensures cs[j].start < cs[j].end <= hi
  {
    assert ChunkOk(doc, maxChars, cs[j]);
  }

  lemma ParagraphFollows(doc: Document, maxChars: nat, s: Span, before: seq<Chunk>)
    requires 1 <= maxChars && PieceOk(doc.rawText, s)
    ensures var cs := WithParagraph(doc, maxChars, s, before);
            forall j | |before| < j < |cs| :: Follows(doc.rawText, cs[j - 1], cs[j], 100)
  {
    hide Windows, Emit, Blank, Follows, IsSpace;
    ParagraphAdds(doc, maxChars, s, before);
    var para := Slice(doc.rawText, s);
    var cs := WithParagraph(doc, maxChars, s, before);
    if !Blank(para) && |para| > maxChars {
      FixedChunksFollow(doc, para, maxChars, 100, s.start, |before|);
      var ws := Windows(para, 0, maxChars, 100);
      assert cs[|before|..] == Emit(doc, para, ws, |ws|, s.start, |before|);
    }
    var added := cs[|before|..];
    forall j | |before| < j < |cs|
      ensures Follows(doc.rawText, cs[j - 1], cs[j], 100)
    {
      assert cs[j - 1] == added[j - 1 - |before|] && cs[j] == added[j - |before|];
    }
  }

  // ---------------------------------------------------------------------------
  // No content is lost
  // ---------------------------------------------------------------------------

  ghost predicate HeldBy(doc: Document, cs: seq<Chunk>, i: nat) {
    exists j :: 0 <= j < |cs| && Holds(doc, cs[j], i)
  }

  lemma {:induction false} EmitKeeps(doc: Document, text: string, windows: seq<Span>, k: nat, n: nat,
                                     offset: nat, index: nat, i: nat)
    requires k < n <= |windows| && LiesAt(doc, text, offset)
    requires forall j | 0 <= j < |windows| :: windows[j].start <= windows[j].end <= |text|
    requires windows[k].start <= i < windows[k].end && !IsSpace(text[i])
    ensures HeldBy(doc, Emit(doc, text, windows, n, offset, index), offset + i)
    decreases n
  {
    hide IsSpace, StripRange, IsTrim;
    var cs, before := Emit(doc, text, windows, n, offset, index), Emit(doc, text, windows, n - 1, offset, index);
    if k == n - 1 {
      WindowHolds(doc, text, windows[k], offset, index + |before|, i);
      assert Holds(doc, cs[|before|], offset + i);
    } else {
      EmitKeeps(doc, text, windows, k, n - 1, offset, index, i);
      var j :| 0 <= j < |before| && Holds(doc, before[j], offset + i);
      assert cs[j] == before[j];
    }
  }

  lemma WindowHolds(doc: Document, text: string, w: Span, offset: nat, index: nat, i: nat)
    requires LiesAt(doc, text, offset) && w.start <= i < w.end <= |text| && !IsSpace(text[i])
    ensures |Segment(text, w)| > 0
    ensures Holds(doc, Chunk(doc.sourcePath, doc.sourceId, index, Segment(text, w),
                             offset + w.start, offset + w.end), offset + i)
  {
    hide IsSpace, StripRange;
    var t := Segment(text, w);
    var at := StripTrims(text, w.start, w.end);
    assert at <= i < at + |t|;
    assert TextAt(doc.rawText, t, offset + at);
  }

  lemma FixedChunksKeep(doc: Document, text: string, maxChars: nat, overlap: int, offset: nat, index: nat, i: nat)
    requires 1 <= maxChars && 0 <= overlap && LiesAt(doc, text, offset) && i < |text| && !IsSpace(text[i])
    ensures var windows := Windows(text, 0, maxChars, overlap);
            HeldBy(doc, Emit(doc, text, windows, |windows|, offset, index), offset + i)
  {
    hide IsSpace, LiesAt, Windows, Emit, HeldBy;
    var windows := Windows(text, 0, maxChars, overlap);
    WindowsFit(text, 0, maxChars, overlap);
    WindowsCover(text, 0, maxChars, overlap, i);
    var k :| 0 <= k < |windows| && windows[k].start <= i < windows[k].end;
    EmitKeeps(doc, text, windows, k, |windows|, offset, index, i);
  }

  lemma ParagraphHolds(doc: Document, maxChars: nat, s: Span, before: seq<Chunk>, i: nat)
    requires 1 <= maxChars && s.start <= i < s.end <= |doc.rawText| && !IsSpace(doc.rawText[i])
    ensures HeldBy(doc, WithParagraph(doc, maxChars, s, before), i)
  {
    hide IsSpace, Windows, Emit;
    var para := Slice(doc.rawText, s);
    var cs := WithParagraph(doc, maxChars, s, before);
    assert para[i - s.start] == doc.rawText[i];
    assert !Blank(para);
    if |para| <= maxChars {
      assert TextAt(doc.rawText, cs[|before|].text, s.start);
      assert Holds(doc, cs[|before|], i);
    } else {
      var windows := Windows(para, 0, maxChars, DEFAULT_OVERLAP_CHARS);
      FixedChunksKeep(doc, para, maxChars, DEFAULT_OVERLAP_CHARS, s.start, |before|, i - s.start);
      var sub := Emit(doc, para, windows, |windows|, s.start, |before|);
      var j :| 0 <= j < |sub| && Holds(doc, sub[j], i);
      assert cs[|before| + j] == sub[j];
    }
  }

  lemma {:induction false} ParagraphChunksKeep(doc: Document, maxChars: nat, spans: seq<Span>, k: nat, n: nat, i: nat)
    requires 1 <= maxChars && k < n <= |spans|
    requires spans[k].start <= i < spans[k].end <= |doc.rawText| && !IsSpace(doc.rawText[i])
    ensures HeldBy(doc, ParagraphChunks(doc, maxChars, spans, n), i)
    decreases n
  {
    hide IsSpace, Windows, Emit, Holds, Blank;
    var before := ParagraphChunks(doc, maxChars, spans, n - 1);
    var cs := ParagraphChunks(doc, maxChars, spans, n);
    if k == n - 1 {
      ParagraphHolds(doc, maxChars, spans[k], before, i);
    } else {
      ParagraphChunksKeep(doc, maxChars, spans, k, n - 1, i);
      var j :| 0 <= j < |before| && Holds(doc, before[j], i);
      assert cs[j] == before[j];
    }
  }

  /** Chunking loses nothing: every character that is not white space is in some chunk's text. */
  lemma NothingIsLost(doc: Document, maxChars: nat, i: nat)
    requires 1 <= maxChars && i < |doc.rawText| && !IsSpace(doc.rawText[i])
    ensures HeldBy(doc, DocumentChunks(doc, maxChars), i)
  {
    hide HeldBy, HasParagraphs, Windows, Emit, ParagraphSpans, ParagraphChunks;
    var text := doc.rawText;
    SplitIsParagraphing(text, 0);
    ParagraphsCover(text, 0, i);
    var spans := ParagraphSpans(text, 0);
    var k :| 0 <= k < |spans| && spans[k].start <= i < spans[k].end;
    assert PieceOk(text, spans[k]);
    ParagraphChunksKeep(doc, maxChars, spans, k, |spans|, i);
    assert LiesAt(doc, text, 0);
    FixedChunksKeep(doc, text, maxChars, DEFAULT_OVERLAP_CHARS, 0, 0, i);
  }
}
