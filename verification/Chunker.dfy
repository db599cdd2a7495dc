/** The overlapping, page-aware splitter of apps/api/app/chunking.py. */
module Chunker {
  import opened Helpers

  datatype Segment = Segment(text: string, onPage: bool)

  /** `segment` is the position of the segment a chunk was cut from; offsets are local to it. */
  datatype Draft = Draft(segment: nat, text: string, start: int, end: int, part: int, count: int)

  datatype Outcome = TooMany | Chunks(drafts: seq<Draft>)

  datatype Span = Span(start: int, end: int)

  datatype Settings = Settings(size: int, overlap: int, maximum: int, isSpace: char -> bool) {
    /** What the constructor insists on. */
    predicate Valid() {
      size > overlap >= 0
    }
  }

  const SEPARATORS := ["\n\n", "\n", ". ", " "]

  // ---------- Windows ----------

  /** `str.rfind` within `text[lo..hi]`. */
  function Rfind(text: string, sep: string, lo: int, hi: int): (p: int)
    requires 0 <= lo <= hi <= |text| && sep != ""
    ensures p == -1 || lo <= p <= hi - |sep|
    decreases hi
  {
    if hi - |sep| < lo then -1
    else if OccursAt(text, sep, hi - |sep|) then hi - |sep|
    else Rfind(text, sep, lo, hi - 1)
  }

  lemma {:induction false} RfindOccurs(text: string, sep: string, lo: int, hi: int)
    requires 0 <= lo <= hi <= |text| && sep != "" && Rfind(text, sep, lo, hi) >= 0
    ensures OccursAt(text, sep, Rfind(text, sep, lo, hi))
    decreases hi
  {
    if !OccursAt(text, sep, hi - |sep|) {
      RfindOccurs(text, sep, lo, hi - 1);
    }
  }

  lemma {:induction false} RfindIsLast(text: string, sep: string, lo: int, hi: int, q: int)
    requires 0 <= lo <= hi <= |text| && sep != "" && lo <= q <= hi - |sep| && OccursAt(text, sep, q)
    ensures Rfind(text, sep, lo, hi) >= q
    decreases hi
  {
    if q < hi - |sep| {
      RfindIsLast(text, sep, lo, hi - 1, q);
    }
  }

  function Boundary(text: string, lo: int, hi: int): (p: int)
    requires 0 <= lo <= hi <= |text|
    ensures p == -1 || lo <= p < hi
  {
    Max(Max(Rfind(text, SEPARATORS[0], lo, hi), Rfind(text, SEPARATORS[1], lo, hi)),
        Max(Rfind(text, SEPARATORS[2], lo, hi), Rfind(text, SEPARATORS[3], lo, hi)))
  }

  /** Where the window that starts at `start` ends: at the last separator past its middle, if any. */
  function WindowEnd(c: Settings, text: string, start: int): (end: int)
    requires c.Valid() && 0 <= start < |text|
    ensures start < end <= |text| && end <= start + c.size
    ensures end == |text| || end == start + c.size || end >= start + c.size / 2 + 2
  {
    var end := Min(start + c.size, |text|);
    if end == |text| then end
    else
      var boundary := Boundary(text, start, end);
      if boundary > start + c.size / 2 then boundary + 1 else end
  }

  /** A line break, a space, or a full stop before a space lies at `p` within the window. */
  predicate BreakAt(text: string, lo: int, hi: int, p: int)
    requires 0 <= lo <= hi <= |text|
  {
    lo <= p < hi && (text[p] == '\n' || text[p] == ' ' || (text[p] == '.' && p + 1 < hi && text[p + 1] == ' '))
  }

  lemma RfindIsBreak(text: string, k: int, lo: int, hi: int)
    requires 0 <= lo <= hi <= |text| && 0 <= k < |SEPARATORS|
    ensures var p := Rfind(text, SEPARATORS[k], lo, hi); p >= 0 ==> BreakAt(text, lo, hi, p)
  {
    var p := Rfind(text, SEPARATORS[k], lo, hi);
    if p >= 0 {
      RfindOccurs(text, SEPARATORS[k], lo, hi);
      OccursAsBreak(text, k, lo, hi, p);
    }
  }

  lemma OccursAsBreak(text: string, k: int, lo: int, hi: int, p: int)
    requires 0 <= k < |SEPARATORS| && 0 <= lo <= p <= hi - |SEPARATORS[k]| && hi <= |text| && OccursAt(text, SEPARATORS[k], p)
    ensures BreakAt(text, lo, hi, p)
  {
    var s := text[p..p + |SEPARATORS[k]|];
    assert s == SEPARATORS[k] && text[p] == s[0];
    if k == 2 {
      assert text[p + 1] == s[1];
    }
  }

  lemma BreakOccurs(text: string, lo: int, hi: int, p: int) returns (k: int)
    requires 0 <= lo <= hi <= |text| && BreakAt(text, lo, hi, p)
    ensures 1 <= k < |SEPARATORS| && lo <= p <= hi - |SEPARATORS[k]| && OccursAt(text, SEPARATORS[k], p)
  {
    k := if text[p] == '\n' then 1 else if text[p] == ' ' then 3 else 2;
    assert text[p..p + 1] == [text[p]];
    if k == 2 {
      assert text[p..p + 2] == ". ";
    }
  }

  /** The last of four separators. */
  lemma LastOfFour(text: string, lo: int, hi: int, a: int, b: int, c: int, d: int, p: int)
    requires 0 <= lo <= hi <= |text| && p == Max(Max(a, b), Max(c, d))
    requires a == Rfind(text, SEPARATORS[0], lo, hi) && b == Rfind(text, SEPARATORS[1], lo, hi)
    requires c == Rfind(text, SEPARATORS[2], lo, hi) && d == Rfind(text, SEPARATORS[3], lo, hi)
    ensures p >= 0 ==> BreakAt(text, lo, hi, p)
    ensures forall q :: BreakAt(text, lo, hi, q) ==> lo <= q <= p
  {
    RfindIsBreak(text, 0, lo, hi);
    RfindIsBreak(text, 1, lo, hi);
    RfindIsBreak(text, 2, lo, hi);
    RfindIsBreak(text, 3, lo, hi);
    forall q | BreakAt(text, lo, hi, q)
      ensures lo <= q <= p
    {
      var k := BreakOccurs(text, lo, hi, q);
      RfindIsLast(text, SEPARATORS[k], lo, hi, q);
      assert k == 1 || k == 2 || k == 3;
    }
  }

  /** `p` is the last separator of the window. */
  ghost predicate LastBreak(text: string, lo: int, hi: int, p: int)
    requires 0 <= lo <= hi <= |text|
  {
    BreakAt(text, lo, hi, p) && forall q :: BreakAt(text, lo, hi, q) ==> q <= p
  }

  lemma BoundaryIs(text: string, lo: int, hi: int, p: int)
    requires 0 <= lo <= hi <= |text| && p == Boundary(text, lo, hi)
    ensures p >= 0 ==> BreakAt(text, lo, hi, p)
    ensures forall q :: BreakAt(text, lo, hi, q) ==> lo <= q <= p
  {
    var a, b := Rfind(text, SEPARATORS[0], lo, hi), Rfind(text, SEPARATORS[1], lo, hi);
    var c, d := Rfind(text, SEPARATORS[2], lo, hi), Rfind(text, SEPARATORS[3], lo, hi);
    LastOfFour(text, lo, hi, a, b, c, d, p);
  }

  lemma WindowEndIs(c: Settings, text: string, start: int, full: int, p: int)
    requires c.Valid() && 0 <= start && full == start + c.size && full < |text| && p == Boundary(text, start, full)
    ensures WindowEnd(c, text, start) == if p > start + c.size / 2 then p + 1 else full
  {
  }

  /** A window that reaches the end of the text ends there.  Any other ends behind the first character of its last
      separator, if that lies past its middle, and at its full size if not. */
  lemma WindowEndsAtBreak(c: Settings, text: string, start: int)
    requires c.Valid() && 0 <= start < |text|
    ensures if start + c.size >= |text| then WindowEnd(c, text, start) == |text|
            else EndsAtBreak(text, start, start + c.size, start + c.size / 2, WindowEnd(c, text, start))
  {
    if start + c.size < |text| {
      var full := start + c.size;
      var p := Boundary(text, start, full);
      WindowEndIs(c, text, start, full, p);
      BoundaryIs(text, start, full, p);
      EndIs(text, start, full, start + c.size / 2, p, WindowEnd(c, text, start));
    }
  }

  ghost predicate EndsAtBreak(text: string, lo: int, full: int, middle: int, end: int)
    requires 0 <= lo <= full <= |text|
  {
    (end - 1 > middle && LastBreak(text, lo, full, end - 1)) || (end == full && NoBreakPast(text, lo, full, middle))
  }

  lemma EndIs(text: string, lo: int, full: int, middle: int, p: int, end: int)
    requires 0 <= lo <= full <= |text| && end == if p > middle then p + 1 else full
    requires middle >= 0 && (p >= 0 ==> BreakAt(text, lo, full, p)) && forall q :: BreakAt(text, lo, full, q) ==> lo <= q <= p
    ensures EndsAtBreak(text, lo, full, middle, end)
  {
  }

  ghost predicate NoBreakPast(text: string, lo: int, hi: int, middle: int)
    requires 0 <= lo <= hi <= |text|
  {
    forall q :: BreakAt(text, lo, hi, q) ==> q <= middle
  }

  /** The ends of the windows from the first `n` possible starts. */
  function FirstEnds(c: Settings, text: string, n: nat): (ends: seq<int>)
    requires c.Valid() && n <= |text|
    ensures |ends| == n
  {
    if n == 0 then [] else FirstEnds(c, text, n - 1) + [WindowEnd(c, text, n - 1)]
  }

  function Ends(c: Settings, text: string): (ends: seq<int>)
    requires c.Valid()
    ensures |ends| == |text| && Sized(c, ends)
  {
    EndsAreSized(c, text);
    FirstEnds(c, text, |text|)
  }

  lemma LastEnd(c: Settings, text: string, n: nat)
    requires c.Valid() && 0 < n <= |text|
    ensures FirstEnds(c, text, n)[n - 1] == WindowEnd(c, text, n - 1)
    ensures FirstEnds(c, text, n)[..n - 1] == FirstEnds(c, text, n - 1)
  {
  }

  lemma {:induction false} EndAt(c: Settings, text: string, n: nat, i: nat)
    requires c.Valid() && i < n <= |text|
    ensures FirstEnds(c, text, n)[i] == WindowEnd(c, text, i)
  {
    LastEnd(c, text, n);
    if i < n - 1 {
      EndAt(c, text, n - 1, i);
      assert FirstEnds(c, text, n)[..n - 1][i] == FirstEnds(c, text, n)[i];
    }
  }

  lemma EndsAreSized(c: Settings, text: string)
    requires c.Valid()
    ensures Sized(c, FirstEnds(c, text, |text|))
  {
    forall i | 0 <= i < |text| {
      EndAt(c, text, |text|, i);
    }
  }

  ghost predicate Sized(c: Settings, ends: seq<int>) {
    forall i {:trigger ends[i]} :: 0 <= i < |ends| ==>
      && i < ends[i] <= |ends| && ends[i] <= i + c.size
      && (ends[i] == |ends| || ends[i] >= i + Min(c.size, c.size / 2 + 2))
  }

  function NextStart(c: Settings, start: int, end: int): int {
    Max(start + 1, end - c.overlap)
  }

  /** Spans of a text of length `n`, none longer than the chunk size. */
  ghost predicate Bounded(c: Settings, n: int, spans: seq<Span>) {
    forall k {:trigger spans[k]} :: 0 <= k < |spans| ==> 0 <= spans[k].start <= spans[k].end <= n && spans[k].end <= spans[k].start + c.size
  }

  function Windows(c: Settings, ends: seq<int>, start: int): (w: seq<Span>)
    requires c.Valid() && Sized(c, ends) && 0 <= start <= |ends|
    ensures Bounded(c, |ends|, w)
    ensures start < |ends| ==> w != [] && w[0] == Span(start, ends[start])
    decreases |ends| - start
  {
    if start == |ends| then []
    else
      var end := ends[start];
      [Span(start, end)] + if end == |ends| then [] else Windows(c, ends, NextStart(c, start, end))
  }

  /** The windows of a segment: one for a page that fits, otherwise as many as it takes. */
  function WindowsOf(c: Settings, s: Segment): (w: seq<Span>)
    requires c.Valid()
    ensures Bounded(c, |s.text|, w)
  {
    if s.onPage && |s.text| <= c.size then [Span(0, |s.text|)] else Windows(c, Ends(c, s.text), 0)
  }

  // ---------- Trimming ----------

  function SkipLeft(c: Settings, text: string, left: int, right: int): (l: int)
    requires 0 <= left <= right <= |text|
    ensures left <= l <= right
    decreases right - left
  {
    if left < right && c.isSpace(text[left]) then SkipLeft(c, text, left + 1, right) else left
  }

  function SkipRight(c: Settings, text: string, left: int, right: int): (r: int)
    requires 0 <= left <= right <= |text|
    ensures left <= r <= right
    decreases right - left
  {
    if left < right && c.isSpace(text[right - 1]) then SkipRight(c, text, left, right - 1) else right
  }

  function Trim(c: Settings, text: string, w: Span): (t: Span)
    requires 0 <= w.start <= w.end <= |text|
    ensures w.start <= t.start <= t.end <= w.end
  {
    var left := SkipLeft(c, text, w.start, w.end);
    Span(left, SkipRight(c, text, left, w.end))
  }

  /** A piece of some window: inside the text, not too long, and trimmed. */
  ghost predicate Trimmed(c: Settings, text: string, p: Span) {
    && 0 <= p.start < p.end <= |text| && p.end <= p.start + c.size
    && !c.isSpace(text[p.start]) && !c.isSpace(text[p.end - 1])
  }

  lemma {:induction false} SkipLeftStops(c: Settings, text: string, left: int, right: int, x: int)
    requires 0 <= left <= right <= |text|
    ensures var l := SkipLeft(c, text, left, right);
            && (l < right ==> !c.isSpace(text[l]))
            && (left <= x < right && !c.isSpace(text[x]) ==> l <= x)
    decreases right - left
  {
    if left < right && c.isSpace(text[left]) {
      SkipLeftStops(c, text, left + 1, right, x);
    }
  }

  lemma {:induction false} SkipRightStops(c: Settings, text: string, left: int, right: int, x: int)
    requires 0 <= left <= right <= |text|
    ensures var r := SkipRight(c, text, left, right);
            && (left < r ==> !c.isSpace(text[r - 1]))
            && (left <= x < right && !c.isSpace(text[x]) ==> x < r)
    decreases right - left
  {
    if left < right && c.isSpace(text[right - 1]) {
      SkipRightStops(c, text, left, right - 1, x);
    }
  }

  /** Trimming keeps every character that is not white space, and ends on such characters. */
  lemma TrimKeeps(c: Settings, text: string, w: Span, x: int)
    requires 0 <= w.start <= w.end <= |text| && w.end <= w.start + c.size
    ensures var t := Trim(c, text, w);
            && (t.start < t.end ==> Trimmed(c, text, t))
            && (w.start <= x < w.end && !c.isSpace(text[x]) ==> t.start <= x < t.end)
  {
    var left := SkipLeft(c, text, w.start, w.end);
    SkipLeftStops(c, text, w.start, w.end, x);
    SkipRightStops(c, text, left, w.end, x);
    SkipRightStops(c, text, left, w.end, left);
  }

  /** The trimmed window, unless it is blank. */
  function Piece(c: Settings, text: string, w: Span): (p: seq<Span>)
    requires 0 <= w.start <= w.end <= |text|
    ensures |p| <= 1
    ensures p == [Trim(c, text, w)] || p == []
    ensures p != [] <==> Trim(c, text, w).start < Trim(c, text, w).end
  {
    if Trim(c, text, w).start < Trim(c, text, w).end then [Trim(c, text, w)] else []
  }

  // ---------- Splitting ----------

  datatype Filled = Full | Filled(kept: seq<Span>)

  function Prepend(piece: seq<Span>, f: Filled): Filled {
    if f.Full? then Full else Filled(piece + f.kept)
  }

  /** The pieces of the windows, when there is room for one more at the start of every window. */
  function Fill(c: Settings, text: string, windows: seq<Span>, room: int): Filled
    requires Bounded(c, |text|, windows)
  {
    if windows == [] then Filled([])
    else if room <= 0 then Full
    else
      var piece := Piece(c, text, windows[0]);
      Prepend(piece, Fill(c, text, windows[1..], room - |piece|))
  }

  function Cut(text: string, segment: nat, kept: seq<Span>, k: int): Draft
    requires 0 <= k < |kept| && 0 <= kept[k].start <= kept[k].end <= |text|
  {
    Draft(segment, text[kept[k].start..kept[k].end], kept[k].start, kept[k].end, k + 1, |kept|)
  }

  function Number(c: Settings, text: string, segment: nat, kept: seq<Span>): (drafts: seq<Draft>)
    requires Bounded(c, |text|, kept)
    ensures |drafts| == |kept|
    ensures forall k {:trigger drafts[k]} :: 0 <= k < |kept| ==> drafts[k] == Cut(text, segment, kept, k)
  {
    seq(|kept|, k requires 0 <= k < |kept| => Cut(text, segment, kept, k))
  }

  /** The chunks after one more segment: `n` is its position, `before` the chunks so far. */
  function AddSegment(c: Settings, s: Segment, n: nat, before: seq<Draft>): Outcome
    requires c.Valid()
  {
    var f := Fill(c, s.text, WindowsOf(c, s), c.maximum - |before|);
    if f.Full? then TooMany
    else
      FillBounded(c, s.text, WindowsOf(c, s), c.maximum - |before|);
      Chunks(before + Number(c, s.text, n, f.kept))
  }

  /** What splitting has to yield. */
  function Split(c: Settings, segments: seq<Segment>): Outcome
    requires c.Valid()
  {
    if segments == [] then Chunks([])
    else
      var n := |segments| - 1;
      var before := Split(c, segments[..n]);
      if before.TooMany? then TooMany else AddSegment(c, segments[n], n, before.drafts)
  }

  lemma {:induction false} FillTrims(c: Settings, text: string, windows: seq<Span>, room: int)
    requires Bounded(c, |text|, windows) && Fill(c, text, windows, room).Filled?
    ensures forall k {:trigger Fill(c, text, windows, room).kept[k]} :: 0 <= k < |Fill(c, text, windows, room).kept| ==>
              Trimmed(c, text, Fill(c, text, windows, room).kept[k])
    decreases |windows|
  {
    if windows != [] {
      var piece := Piece(c, text, windows[0]);
      FillTrims(c, text, windows[1..], room - |piece|);
      TrimKeeps(c, text, windows[0], 0);
    }
  }

  lemma FillBounded(c: Settings, text: string, windows: seq<Span>, room: int)
    requires Bounded(c, |text|, windows) && Fill(c, text, windows, room).Filled?
    ensures Bounded(c, |text|, Fill(c, text, windows, room).kept)
  {
    FillTrims(c, text, windows, room);
  }

  // ---------- The loops ----------

  method TrimLoop(c: Settings, text: string, w: Span) returns (piece: seq<Span>)
    requires 0 <= w.start <= w.end <= |text|
    ensures piece == Piece(c, text, w)
  {
    var left, right := w.start, w.end;
    while left < right && c.isSpace(text[left])
      invariant w.start <= left <= right && SkipLeft(c, text, left, w.end) == SkipLeft(c, text, w.start, w.end)
    {
      left := left + 1;
    }
    while right > left && c.isSpace(text[right - 1])
      invariant left <= right <= w.end && SkipRight(c, text, left, right) == SkipRight(c, text, left, w.end)
    {
      right := right - 1;
    }
    piece := if left < right then [Span(left, right)] else [];
  }

  function Remaining(c: Settings, text: string, start: int, room: int): Filled
    requires c.Valid() && 0 <= start <= |text|
  {
    Fill(c, text, Windows(c, Ends(c, text), start), room)
  }

  /** Where the next window ends, and what comes after it. */
  lemma NextWindow(c: Settings, text: string, start: int)
    requires c.Valid() && 0 <= start < |text|
    ensures var end := WindowEnd(c, text, start);
            Windows(c, Ends(c, text), start)
            == [Span(start, end)] + if end == |text| then [] else Windows(c, Ends(c, text), NextStart(c, start, end))
  {
    EndAt(c, text, |text|, start);
  }

  lemma RemainingFull(c: Settings, text: string, start: int, room: int, pieces: seq<Span>)
    requires c.Valid() && 0 <= start < |text| && |pieces| >= room
    ensures Prepend(pieces, Remaining(c, text, start, room - |pieces|)) == Full
  {
    NextWindow(c, text, start);
  }

  /** What is kept is `longer` once the windows from `start` on have been cut. */
  ghost predicate Completes(c: Settings, text: string, start: int, room: int, pieces: seq<Span>, longer: seq<Span>)
    requires c.Valid() && 0 <= start <= |text|
  {
    Prepend(pieces, Remaining(c, text, start, room - |pieces|)) == Filled(longer)
  }

  /** The windows from `start` on amount to `longer` and the windows from `next` on. */
  ghost predicate GoesOn(c: Settings, text: string, start: int, room: int, pieces: seq<Span>, longer: seq<Span>,
                         next: int)
    requires c.Valid() && 0 <= start <= |text|
  {
    && start < next <= |text|
    && Prepend(pieces, Remaining(c, text, start, room - |pieces|))
       == Prepend(longer, Remaining(c, text, next, room - |longer|))
  }

  lemma FillGoesOn(c: Settings, text: string, first: Span, rest: seq<Span>, room: int, pieces: seq<Span>, piece: seq<Span>)
    requires Bounded(c, |text|, [first] + rest) && Bounded(c, |text|, rest)
    requires 0 <= first.start <= first.end <= |text| && |pieces| < room && piece == Piece(c, text, first)
    ensures Prepend(pieces, Fill(c, text, [first] + rest, room - |pieces|))
         == Prepend(pieces + piece, Fill(c, text, rest, room - |pieces + piece|))
  {
    var windows := [first] + rest;
    assert windows[0] == first && windows[1..] == rest;
    PrependTwice(pieces, piece, Fill(c, text, rest, room - |pieces| - |piece|));
  }

  lemma RemainingEnds(c: Settings, text: string, start: int, room: int, pieces: seq<Span>, piece: seq<Span>)
    requires c.Valid() && 0 <= start < |text| && |pieces| < room && WindowEnd(c, text, start) == |text|
    requires piece == Piece(c, text, Span(start, |text|))
    ensures Completes(c, text, start, room, pieces, pieces + piece)
  {
    NextWindow(c, text, start);
    FillGoesOn(c, text, Span(start, |text|), [], room, pieces, piece);
    assert (pieces + piece) + [] == pieces + piece;
  }

  lemma RemainingGoesOn(c: Settings, text: string, start: int, end: int, room: int, pieces: seq<Span>, piece: seq<Span>)
    requires c.Valid() && 0 <= start < |text| && |pieces| < room && end == WindowEnd(c, text, start) < |text|
    requires piece == Piece(c, text, Span(start, end))
    ensures GoesOn(c, text, start, room, pieces, pieces + piece, NextStart(c, start, end))
  {
    NextWindow(c, text, start);
    EndAt(c, text, |text|, start);
    FillGoesOn(c, text, Span(start, end), Windows(c, Ends(c, text), NextStart(c, start, end)), room, pieces, piece);
  }

  /** One window: its piece, if any, joins the others, and the next window starts at `next`. */
  method TakeWindow(c: Settings, text: string, start: int, ghost room: int, pieces: seq<Span>)
    returns (longer: seq<Span>, last: bool, next: int)
    requires c.Valid() && 0 <= start < |text| && |pieces| < room
    ensures last ==> Completes(c, text, start, room, pieces, longer)
    ensures !last ==> GoesOn(c, text, start, room, pieces, longer, next)
  {
    var end := WindowEnd(c, text, start);
    var piece := TrimLoop(c, text, Span(start, end));
    longer, last, next := pieces + piece, end == |text|, NextStart(c, start, end);
    if last {
      RemainingEnds(c, text, start, room, pieces, piece);
    } else {
      RemainingGoesOn(c, text, start, end, room, pieces, piece);
    }
  }

  /** The window loop of one segment, given the room left for chunks. */
  method SplitSegment(c: Settings, text: string, room: int) returns (f: Filled)
    requires c.Valid()
    ensures f == Remaining(c, text, 0, room)
  {
    ghost var goal := Remaining(c, text, 0, room);
    var pieces, start := [], 0;
    while start < |text|
      invariant 0 <= start <= |text|
      invariant goal == Prepend(pieces, Remaining(c, text, start, room - |pieces|))
      decreases |text| - start
    {
      if |pieces| >= room {
        RemainingFull(c, text, start, room, pieces);
        return Full;
      }
      var last;
      pieces, last, start := TakeWindow(c, text, start, room, pieces);
      if last {
        return Filled(pieces);
      }
    }
    assert pieces + [] == pieces;
    f := Filled(pieces);
  }

  lemma PrependTwice(a: seq<Span>, b: seq<Span>, f: Filled)
    ensures Prepend(a, Prepend(b, f)) == Prepend(a + b, f)
    ensures Prepend(a, Filled([])) == Filled(a) && a + [] == a
  {
    if f.Filled? {
      assert a + (b + f.kept) == (a + b) + f.kept;
    }
    assert a + [] == a;
  }

  method SplitSegments(c: Settings, segments: seq<Segment>) returns (r: Outcome)
    requires c.Valid()
    ensures r == Split(c, segments)
  {
    var drafts := [];
    for n := 0 to |segments|
      invariant Split(c, segments[..n]) == Chunks(drafts)
    {
      var s := segments[n];
      assert segments[..n + 1][..n] == segments[..n];
      var f;
      if s.onPage && |s.text| <= c.size {
        if |drafts| >= c.maximum {
          f := Full;
        } else {
          var piece := TrimLoop(c, s.text, Span(0, |s.text|));
          f := Filled(piece);
          PrependTwice(piece, [], Filled([]));
        }
      } else {
        f := SplitSegment(c, s.text, c.maximum - |drafts|);
      }
      assert f == Fill(c, s.text, WindowsOf(c, s), c.maximum - |drafts|);
      if f.Full? {
        TooManyStays(c, segments, n + 1);
        return TooMany;
      }
      FillBounded(c, s.text, WindowsOf(c, s), c.maximum - |drafts|);
      drafts := drafts + Number(c, s.text, n, f.kept);
    }
    assert segments[..|segments|] == segments;
    r := Chunks(drafts);
  }

  lemma {:induction false} TooManyStays(c: Settings, segments: seq<Segment>, n: nat)
    requires c.Valid() && n <= |segments| && Split(c, segments[..n]).TooMany?
    ensures Split(c, segments).TooMany?
    decreases |segments| - n
  {
    if n < |segments| {
      assert segments[..n + 1][..n] == segments[..n];
      TooManyStays(c, segments, n + 1);
    } else {
      assert segments[..n] == segments;
    }
  }

  // ---------- Tiling ----------

  /** The second window starts behind the first one's start, leaves no gap, and repeats the overlap, or less if it
      would not move on otherwise. */
  predicate Adjoins(c: Settings, first: Span, second: Span) {
    && first.start < second.start <= first.end
    && (first.end - second.start == c.overlap || (first.end - second.start < c.overlap && second.start == first.start + 1))
  }

  ghost predicate Tiles(c: Settings, w: seq<Span>) {
    forall k {:trigger w[k]} :: 0 < k < |w| ==> Adjoins(c, w[k - 1], w[k])
  }

  lemma PrependTiles(c: Settings, first: Span, rest: seq<Span>)
    requires Tiles(c, rest) && (rest != [] ==> Adjoins(c, first, rest[0]))
    ensures Tiles(c, [first] + rest)
  {
    var w := [first] + rest;
    forall k | 0 < k < |w|
      ensures Adjoins(c, w[k - 1], w[k])
    {
      assert w[k] == rest[k - 1];
      if k > 1 {
        assert w[k - 1] == rest[k - 2];
      }
    }
  }

  /** The windows cover the text without a gap, each repeating the overlap of the one before, or as much of it as lets it
      move on. */
  lemma {:induction false} WindowsTile(c: Settings, ends: seq<int>, start: int)
    requires c.Valid() && Sized(c, ends) && 0 <= start < |ends|
    ensures var w := Windows(c, ends, start);
            w[0].start == start && w[|w| - 1].end == |ends| && Tiles(c, w)
    decreases |ends| - start
  {
    var end := ends[start];
    var first := Span(start, end);
    if end < |ends| {
      var next := NextStart(c, start, end);
      WindowsTile(c, ends, next);
      var rest := Windows(c, ends, next);
      assert Windows(c, ends, start) == [first] + rest;
      PrependTiles(c, first, rest);
    } else {
      assert Windows(c, ends, start) == [first];
    }
  }

  lemma {:induction false} SomeWindowHas(c: Settings, ends: seq<int>, start: int, x: int) returns (k: int)
    requires c.Valid() && Sized(c, ends) && 0 <= start <= x < |ends|
    ensures 0 <= k < |Windows(c, ends, start)|
    ensures Windows(c, ends, start)[k].start <= x < Windows(c, ends, start)[k].end
    decreases |ends| - start
  {
    var end := ends[start];
    if x < end {
      k := 0;
    } else {
      var next := NextStart(c, start, end);
      var j := SomeWindowHas(c, ends, next, x);
      k := j + 1;
      assert Windows(c, ends, start)[k] == Windows(c, ends, next)[j];
    }
  }

  lemma {:induction false} FillHas(c: Settings, text: string, windows: seq<Span>, room: int, k: int, x: int) returns (i: int)
    requires Bounded(c, |text|, windows) && Fill(c, text, windows, room).Filled?
    requires 0 <= k < |windows| && windows[k].start <= x < windows[k].end && !c.isSpace(text[x])
    ensures var p := Fill(c, text, windows, room).kept;
            0 <= i < |p| && p[i].start <= x < p[i].end
    decreases |windows|
  {
    var piece := Piece(c, text, windows[0]);
    if k == 0 {
      TrimKeeps(c, text, windows[0], x);
      i := 0;
    } else {
      i := FillHas(c, text, windows[1..], room - |piece|, k - 1, x);
      i := i + |piece|;
    }
  }

  lemma SegmentIsAdded(c: Settings, s: Segment, n: nat, before: seq<Draft>) returns (kept: seq<Span>, added: seq<Draft>)
    requires c.Valid() && AddSegment(c, s, n, before).Chunks?
    ensures AddSegment(c, s, n, before).drafts == before + added
    ensures Filled(kept) == Fill(c, s.text, WindowsOf(c, s), c.maximum - |before|)
    ensures |added| == |kept| && forall j :: 0 <= j < |kept| ==> 0 <= kept[j].start <= kept[j].end <= |s.text|
    ensures forall j :: 0 <= j < |kept| ==> added[j] == Cut(s.text, n, kept, j)
  {
    kept := Fill(c, s.text, WindowsOf(c, s), c.maximum - |before|).kept;
    FillBounded(c, s.text, WindowsOf(c, s), c.maximum - |before|);
    added := Number(c, s.text, n, kept);
  }

  lemma SegmentCovered(c: Settings, s: Segment, n: nat, before: seq<Draft>, x: int) returns (i: int)
    requires c.Valid() && 0 <= x < |s.text| && !c.isSpace(s.text[x]) && AddSegment(c, s, n, before).Chunks?
    ensures Holds(AddSegment(c, s, n, before).drafts, i, n, x)
  {
    var kept, added := SegmentIsAdded(c, s, n, before);
    var k := WindowHas(c, s, x);
    var j := FillHas(c, s.text, WindowsOf(c, s), c.maximum - |before|, k, x);
    i := |before| + j;
    CutHolds(before, added, s.text, n, kept, j, x);
  }

  lemma CutHolds(before: seq<Draft>, added: seq<Draft>, text: string, n: nat, kept: seq<Span>, j: int, x: int)
    requires 0 <= j < |kept| == |added| && 0 <= kept[j].start <= kept[j].end <= |text|
    requires added[j] == Cut(text, n, kept, j) && kept[j].start <= x < kept[j].end
    ensures Holds(before + added, |before| + j, n, x)
  {
    assert (before + added)[|before| + j] == added[j];
  }

  lemma WindowHas(c: Settings, s: Segment, x: int) returns (k: int)
    requires c.Valid() && 0 <= x < |s.text|
    ensures 0 <= k < |WindowsOf(c, s)| && WindowsOf(c, s)[k].start <= x < WindowsOf(c, s)[k].end
  {
    k := 0;
    if !(s.onPage && |s.text| <= c.size) {
      k := SomeWindowHas(c, Ends(c, s.text), 0, x);
    }
  }

  /** The i-th chunk is one of segment `n` and holds the character at `x`. */
  predicate Holds(drafts: seq<Draft>, i: int, n: nat, x: int) {
    0 <= i < |drafts| && drafts[i].segment == n && drafts[i].start <= x < drafts[i].end
  }

  lemma SplitLast(c: Settings, segments: seq<Segment>)
    requires c.Valid() && segments != [] && Split(c, segments).Chunks?
    ensures var m := |segments| - 1;
            && Split(c, segments[..m]).Chunks?
            && Split(c, segments) == AddSegment(c, segments[m], m, Split(c, segments[..m]).drafts)
  {
  }

  lemma StillHolds(c: Settings, s: Segment, m: nat, before: seq<Draft>, i: int, n: nat, x: int)
    requires c.Valid() && AddSegment(c, s, m, before).Chunks? && Holds(before, i, n, x)
    ensures Holds(AddSegment(c, s, m, before).drafts, i, n, x)
  {
    AddedAfter(c, s, m, before, i);
  }

  lemma EarlierHolds(c: Settings, segments: seq<Segment>, i: int, n: nat, x: int)
    requires c.Valid() && segments != [] && Split(c, segments).Chunks? && Split(c, segments[..|segments| - 1]).Chunks?
    requires Holds(Split(c, segments[..|segments| - 1]).drafts, i, n, x)
    ensures Holds(Split(c, segments).drafts, i, n, x)
  {
    var m := |segments| - 1;
    SplitLast(c, segments);
    StillHolds(c, segments[m], m, Split(c, segments[..m]).drafts, i, n, x);
  }

  lemma LastHolds(c: Settings, segments: seq<Segment>, x: int) returns (i: int)
    requires c.Valid() && segments != [] && Split(c, segments).Chunks?
    requires 0 <= x < |segments[|segments| - 1].text| && !c.isSpace(segments[|segments| - 1].text[x])
    ensures Holds(Split(c, segments).drafts, i, |segments| - 1, x)
  {
    var m := |segments| - 1;
    SplitLast(c, segments);
    i := SegmentCovered(c, segments[m], m, Split(c, segments[..m]).drafts, x);
  }

  lemma ShorterSplits(c: Settings, segments: seq<Segment>)
    requires c.Valid() && segments != [] && Split(c, segments).Chunks?
    ensures Split(c, segments[..|segments| - 1]).Chunks?
  {
  }

  /** Every character of every segment that is not white space lies in a chunk of that segment. */
  lemma {:induction false} NothingIsLost(c: Settings, segments: seq<Segment>, n: nat, x: int) returns (i: int)
    requires c.Valid() && Split(c, segments).Chunks? && n < |segments|
    requires 0 <= x < |segments[n].text| && !c.isSpace(segments[n].text[x])
    ensures Holds(Split(c, segments).drafts, i, n, x)
    decreases |segments|
  {
    ShorterSplits(c, segments);
    if n < |segments| - 1 {
      i := NothingIsLost(c, segments[..|segments| - 1], n, x);
      EarlierHolds(c, segments, i, n, x);
    } else {
      i := LastHolds(c, segments, x);
    }
  }

  lemma AddedAfter(c: Settings, s: Segment, n: nat, before: seq<Draft>, i: int)
    requires c.Valid() && AddSegment(c, s, n, before).Chunks? && 0 <= i < |before|
    ensures var d := AddSegment(c, s, n, before).drafts;
            |d| >= |before| && d[i] == before[i]
  {
  }

  /** A chunk is the exact slice at its recorded offsets, trimmed, not blank, and no longer than `size`. */
  ghost predicate Exact(c: Settings, segments: seq<Segment>, d: Draft) {
    && d.segment < |segments|
    && Trimmed(c, segments[d.segment].text, Span(d.start, d.end))
    && d.text == segments[d.segment].text[d.start..d.end]
    && 1 <= d.part <= d.count
  }

  lemma CutIsExact(c: Settings, segments: seq<Segment>, m: nat, before: seq<Draft>, k: int)
    requires c.Valid() && m < |segments| && AddSegment(c, segments[m], m, before).Chunks?
    requires |before| <= k < |AddSegment(c, segments[m], m, before).drafts|
    ensures Exact(c, segments, AddSegment(c, segments[m], m, before).drafts[k])
  {
    var s, room := segments[m], c.maximum - |before|;
    var kept := Fill(c, s.text, WindowsOf(c, s), room).kept;
    FillTrims(c, s.text, WindowsOf(c, s), room);
    assert Trimmed(c, s.text, kept[k - |before|]);
    FillBounded(c, s.text, WindowsOf(c, s), room);
    var added := Number(c, s.text, m, kept);
    assert (before + added)[k] == added[k - |before|] == Cut(s.text, m, kept, k - |before|);
  }

  /** Every chunk of every split is exact. */
  lemma {:induction false} ChunksAreExact(c: Settings, segments: seq<Segment>, k: int)
    requires c.Valid() && Split(c, segments).Chunks? && 0 <= k < |Split(c, segments).drafts|
    ensures Exact(c, segments, Split(c, segments).drafts[k])
    decreases |segments|
  {
    var m := |segments| - 1;
    var before := Split(c, segments[..m]).drafts;
    if k < |before| {
      ChunksAreExact(c, segments[..m], k);
      AddedAfter(c, segments[m], m, before, k);
    } else {
      CutIsExact(c, segments, m, before, k);
    }
  }

  // ---------- Numbering ----------

  /** How many of the chunks were cut from segment `n`. */
  function CountOf(drafts: seq<Draft>, n: int): nat {
    if drafts == [] then 0
    else CountOf(drafts[..|drafts| - 1], n) + if drafts[|drafts| - 1].segment == n then 1 else 0
  }

  lemma {:induction false} CountNone(drafts: seq<Draft>, n: int)
    requires forall d :: d in drafts ==> d.segment != n
    ensures CountOf(drafts, n) == 0
  {
    if drafts != [] {
      assert drafts[|drafts| - 1] in drafts;
      CountNone(drafts[..|drafts| - 1], n);
    }
  }

  lemma {:induction false} CountSplit(before: seq<Draft>, added: seq<Draft>, n: int)
    ensures CountOf(before + added, n) == CountOf(before, n) + CountOf(added, n)
  {
    if added == [] {
      assert before + added == before;
    } else {
      var m := |added| - 1;
      assert (before + added)[..|before + added| - 1] == before + added[..m];
      CountSplit(before, added[..m], n);
    }
  }

  lemma {:induction false} CountAll(drafts: seq<Draft>, n: int)
    requires forall d :: d in drafts ==> d.segment == n
    ensures CountOf(drafts, n) == |drafts|
  {
    if drafts != [] {
      assert drafts[|drafts| - 1] in drafts;
      CountAll(drafts[..|drafts| - 1], n);
    }
  }

  /** The chunk is the `part`-th of its segment's chunks, of which there are `count`. */
  ghost predicate Numbered(drafts: seq<Draft>, k: int)
    requires 0 <= k < |drafts|
  {
    && drafts[k].part == CountOf(drafts[..k], drafts[k].segment) + 1
    && drafts[k].count == CountOf(drafts, drafts[k].segment)
  }

  lemma AddedAreNumbered(before: seq<Draft>, text: string, n: nat, kept: seq<Span>, added: seq<Draft>, k: int)
    requires |added| == |kept| && forall j :: 0 <= j < |kept| ==> 0 <= kept[j].start <= kept[j].end <= |text|
    requires forall j :: 0 <= j < |kept| ==> added[j] == Cut(text, n, kept, j)
    requires (forall d :: d in before ==> d.segment < n) && |before| <= k < |before| + |added|
    ensures Numbered(before + added, k)
  {
    var j := k - |before|;
    CountNone(before, n);
    CountSplit(before, added, n);
    CountAll(added, n);
    assert (before + added)[..k] == before + added[..j];
    CountSplit(before, added[..j], n);
    CountAll(added[..j], n);
  }

  lemma EarlierStayNumbered(before: seq<Draft>, n: nat, added: seq<Draft>, k: int)
    requires (forall d :: d in before ==> d.segment < n) && (forall d :: d in added ==> d.segment == n)
    requires 0 <= k < |before| && Numbered(before, k)
    ensures Numbered(before + added, k)
  {
    assert before[k] in before;
    assert (before + added)[..k] == before[..k];
    CountSplit(before, added, before[k].segment);
    CountNone(added, before[k].segment);
  }

  /** The chunks of a segment carry the parts 1 to count in order, and count is their number. */
  lemma {:induction false} PartsAreNumbered(c: Settings, segments: seq<Segment>)
    requires c.Valid() && Split(c, segments).Chunks?
    ensures var d := Split(c, segments).drafts;
            && (forall x :: x in d ==> x.segment < |segments|)
            && forall k :: 0 <= k < |d| ==> Numbered(d, k)
    decreases |segments|
  {
    if segments != [] {
      var m := |segments| - 1;
      var before := Split(c, segments[..m]).drafts;
      PartsAreNumbered(c, segments[..m]);
      var kept, added := SegmentIsAdded(c, segments[m], m, before);
      var d := Split(c, segments).drafts;
      assert d == before + added;
      forall k | 0 <= k < |d|
        ensures Numbered(d, k)
      {
        if k < |before| {
          EarlierStayNumbered(before, m, added, k);
        } else {
          AddedAreNumbered(before, segments[m].text, m, kept, added, k);
        }
      }
    }
  }

  lemma {:induction false} FillFits(c: Settings, text: string, windows: seq<Span>, room: int)
    requires Bounded(c, |text|, windows) && Fill(c, text, windows, room).Filled? && room >= 0
    ensures |Fill(c, text, windows, room).kept| <= room
    decreases |windows|
  {
    if windows != [] {
      FillFits(c, text, windows[1..], room - |Piece(c, text, windows[0])|);
    }
  }

  lemma SegmentFits(c: Settings, s: Segment, n: nat, before: seq<Draft>)
    requires c.Valid() && |before| <= c.maximum && AddSegment(c, s, n, before).Chunks?
    ensures |AddSegment(c, s, n, before).drafts| <= c.maximum
  {
    FillFits(c, s.text, WindowsOf(c, s), c.maximum - |before|);
  }

  /** Splitting that does not fail stays within the maximum. */
  lemma {:induction false} NeverTooMany(c: Settings, segments: seq<Segment>)
    requires c.Valid() && c.maximum >= 0 && Split(c, segments).Chunks?
    ensures |Split(c, segments).drafts| <= c.maximum
    decreases |segments|
  {
    if segments != [] {
      var m := |segments| - 1;
      NeverTooMany(c, segments[..m]);
      SegmentFits(c, segments[m], m, Split(c, segments[..m]).drafts);
    }
  }

  // ---------- Progress ----------

  /** Windows move on by at least this much. */
  function Stride(c: Settings): int {
    Min(c.size, c.size / 2 + 2) - c.overlap
  }

  /** All windows but the last take up a stride each. */
  lemma {:induction false} FewWindows(c: Settings, ends: seq<int>, start: int)
    requires c.Valid() && Sized(c, ends) && Stride(c) > 0 && 0 <= start < |ends|
    ensures (|Windows(c, ends, start)| - 1) * Stride(c) < |ends| - start
    decreases |ends| - start
  {
    var end := ends[start];
    if end < |ends| {
      var next := NextStart(c, start, end);
      FewWindows(c, ends, next);
      OneMore(|Windows(c, ends, next)|, Stride(c));
    }
  }

  lemma OneMore(m: int, d: int)
    ensures m * d == (m - 1) * d + d
  {
  }

  /** With the default settings a text of `n` characters takes at most 1 + (n - 1) / 402 windows. */
  lemma FewDefaultWindows(c: Settings, text: string)
    requires c.size == 1200 && c.overlap == 200 && text != ""
    ensures |Windows(c, Ends(c, text), 0)| <= 1 + (|text| - 1) / 402
  {
    FewWindows(c, Ends(c, text), 0);
    assert Stride(c) == 402;
  }

  ghost predicate Rising(w: seq<Span>) {
    forall k {:trigger w[k]} :: 0 < k < |w| ==> w[k - 1].end < w[k].end
  }

  ghost predicate EndsIncrease(c: Settings, ends: seq<int>)
    requires c.Valid() && Sized(c, ends)
  {
    Rising(Windows(c, ends, 0))
  }

  lemma {:induction false} NarrowOverlapIncreases(c: Settings, ends: seq<int>, start: int)
    requires c.Valid() && Sized(c, ends) && c.overlap <= c.size / 2 + 1 && 0 <= start < |ends|
    ensures Rising(Windows(c, ends, start))
    decreases |ends| - start
  {
    var end := ends[start];
    if end < |ends| {
      var next := NextStart(c, start, end);
      var w, rest := Windows(c, ends, start), Windows(c, ends, next);
      NarrowOverlapIncreases(c, ends, next);
      assert w[0].end == end < ends[next] == rest[0].end;
      assert w == [w[0]] + rest;
    }
  }

  /** A text with a single space, at index `b`. */
  function OneSpace(b: nat, n: nat): (s: string)
    ensures |s| == n && forall k :: 0 <= k < n ==> s[k] == if k == b then ' ' else 'x'
  {
    seq(n, k => if k == b then ' ' else 'x')
  }

  lemma OccursInOneSpace(b: nat, n: nat, q: int)
    requires 0 <= q < n
    ensures var text := OneSpace(b, n);
            && !OccursAt(text, "\n\n", q) && !OccursAt(text, "\n", q) && !OccursAt(text, ". ", q)
            && (OccursAt(text, " ", q) <==> q == b)
  {
    var text := OneSpace(b, n);
    if q + 2 <= n {
      assert text[q..q + 2][0] == text[q];
    }
    assert text[q..q + 1] == [text[q]];
  }

  lemma RfindInOneSpace(b: nat, n: nat, sep: string, lo: int, hi: int)
    requires 0 <= lo <= b < hi <= n && sep in SEPARATORS
    ensures Rfind(OneSpace(b, n), sep, lo, hi) == if sep == " " then b else -1
  {
    var text := OneSpace(b, n);
    var p := Rfind(text, sep, lo, hi);
    if lo <= p {
      RfindOccurs(text, sep, lo, hi);
      OccursInOneSpace(b, n, p);
    }
    if sep == " " {
      OccursInOneSpace(b, n, b);
      RfindIsLast(text, sep, lo, hi, b);
    }
  }

  lemma BoundaryOfOneSpace(b: nat, n: nat, lo: int, hi: int)
    requires 0 <= lo <= b < hi <= n
    ensures Boundary(OneSpace(b, n), lo, hi) == b
  {
    RfindInOneSpace(b, n, SEPARATORS[0], lo, hi);
    RfindInOneSpace(b, n, SEPARATORS[1], lo, hi);
    RfindInOneSpace(b, n, SEPARATORS[2], lo, hi);
    RfindInOneSpace(b, n, SEPARATORS[3], lo, hi);
  }

  /** With a wider overlap two windows in a row can end at the same separator. */
  lemma WideOverlapStalls(c: Settings) returns (text: string)
    requires c.Valid() && c.overlap > c.size / 2 + 1
    ensures !EndsIncrease(c, Ends(c, text))
  {
    var b, n := c.size / 2 + 2, 2 * c.size + 2;
    text := OneSpace(b, n);
    EndsAtSpace(c, b, n, 0);
    EndsAtSpace(c, b, n, 1);
    FirstTwoEnds(c, text);
    StallAtStart(c, Ends(c, text));
  }

  /** A window whose second half holds the only space ends there. */
  lemma EndsAtSpace(c: Settings, b: int, n: int, start: int)
    requires c.Valid() && 0 <= start && start + c.size / 2 < b < start + c.size < n
    ensures |OneSpace(b, n)| == n && WindowEnd(c, OneSpace(b, n), start) == b + 1
  {
    BoundaryOfOneSpace(b, n, start, start + c.size);
    EndsAtBoundary(c, OneSpace(b, n), start, b);
  }

  lemma EndsAtBoundary(c: Settings, text: string, start: int, b: int)
    requires c.Valid() && 0 <= start && start + c.size < |text|
    requires Boundary(text, start, start + c.size) == b > start + c.size / 2
    ensures WindowEnd(c, text, start) == b + 1
  {
  }

  lemma FirstTwoEnds(c: Settings, text: string)
    requires c.Valid() && |text| > 1
    ensures Ends(c, text)[0] == WindowEnd(c, text, 0) && Ends(c, text)[1] == WindowEnd(c, text, 1)
  {
    EndAt(c, text, |text|, 0);
    EndAt(c, text, |text|, 1);
  }

  lemma StallAtStart(c: Settings, ends: seq<int>)
    requires c.Valid() && Sized(c, ends) && |ends| > 1 && ends[0] == ends[1] < |ends| && ends[0] - c.overlap <= 1
    ensures !EndsIncrease(c, ends)
  {
    var rest := Windows(c, ends, 1);
    assert NextStart(c, 0, ends[0]) == 1;
    var w := Windows(c, ends, 0);
    assert w == [Span(0, ends[0])] + rest && rest[0] == Span(1, ends[1]);
    assert w[1].end == w[0].end;
  }

  /** Window ends increase on every text exactly when the overlap is at most `size / 2 + 1`. */
  lemma EndsIncreaseIffNarrow(c: Settings)
    requires c.Valid()
    ensures (forall text :: EndsIncrease(c, Ends(c, text))) <==> c.overlap <= c.size / 2 + 1
  {
    if c.overlap <= c.size / 2 + 1 {
      forall text
        ensures EndsIncrease(c, Ends(c, text))
      {
        if text == "" {
          assert Windows(c, Ends(c, text), 0) == [];
        } else {
          NarrowOverlapIncreases(c, Ends(c, text), 0);
        }
      }
    } else {
      var text := WideOverlapStalls(c);
      assert !EndsIncrease(c, Ends(c, text));
    }
  }

  // ---------- Exactly the windows, and exactly when there are too many ----------

  /** The trimmed windows that are not blank, in order. */
  function Pieces(c: Settings, text: string, windows: seq<Span>): seq<Span>
    requires Bounded(c, |text|, windows)
  {
    if windows == [] then [] else Piece(c, text, windows[0]) + Pieces(c, text, windows[1..])
  }

  /** Some window starts when there is no room left. */
  ghost predicate Overflows(c: Settings, text: string, windows: seq<Span>, room: int)
    requires Bounded(c, |text|, windows)
  {
    exists k :: OverflowsAt(c, text, windows, room, k)
  }

  ghost predicate OverflowsAt(c: Settings, text: string, windows: seq<Span>, room: int, k: int)
    requires Bounded(c, |text|, windows)
  {
    0 <= k < |windows| && |Pieces(c, text, windows[..k])| >= room
  }

  lemma OverflowsLater(c: Settings, text: string, windows: seq<Span>, room: int)
    requires Bounded(c, |text|, windows) && windows != [] && room > 0
    ensures Overflows(c, text, windows, room) <==> Overflows(c, text, windows[1..], room - |Piece(c, text, windows[0])|)
  {
    var piece, rest := Piece(c, text, windows[0]), windows[1..];
    forall k | 0 < k < |windows|
      ensures Pieces(c, text, windows[..k]) == piece + Pieces(c, text, rest[..k - 1])
    {
      assert windows[..k][1..] == rest[..k - 1];
    }
    if k :| OverflowsAt(c, text, windows, room, k) {
      assert k > 0;
      assert OverflowsAt(c, text, rest, room - |piece|, k - 1);
    }
    var less := room - |piece|;
    if k :| OverflowsAt(c, text, rest, less, k) {
      assert rest[..(k + 1) - 1] == rest[..k];
      assert OverflowsAt(c, text, windows, room, k + 1);
    }
  }

  lemma {:induction false} FillIs(c: Settings, text: string, windows: seq<Span>, room: int)
    requires Bounded(c, |text|, windows)
    ensures Fill(c, text, windows, room) == if Overflows(c, text, windows, room) then Full else Filled(Pieces(c, text, windows))
    decreases |windows|
  {
    if windows != [] {
      if room <= 0 {
        assert windows[..0] == [];
        assert OverflowsAt(c, text, windows, room, 0);
      } else {
        var piece := Piece(c, text, windows[0]);
        FillIs(c, text, windows[1..], room - |piece|);
        OverflowsLater(c, text, windows, room);
      }
    }
  }

  /** The pieces of a segment. */
  function PiecesOf(c: Settings, s: Segment): seq<Span>
    requires c.Valid()
  {
    Pieces(c, s.text, WindowsOf(c, s))
  }

  /** Some window of the segment starts when the maximum is used up, with `used` chunks before the segment. */
  ghost predicate Tight(c: Settings, s: Segment, used: int)
    requires c.Valid()
  {
    Overflows(c, s.text, WindowsOf(c, s), c.maximum - used)
  }

  /** How many chunks the segments come to. */
  function Amount(c: Settings, segments: seq<Segment>): nat
    requires c.Valid()
  {
    if segments == [] then 0
    else
      var n := |segments| - 1;
      Amount(c, segments[..n]) + |PiecesOf(c, segments[n])|
  }

  /** Some window of some segment starts when the maximum is used up. */
  ghost predicate SomeTight(c: Settings, segments: seq<Segment>)
    requires c.Valid()
  {
    segments != [] &&
      var n := |segments| - 1;
      SomeTight(c, segments[..n]) || Tight(c, segments[n], Amount(c, segments[..n]))
  }

  /** What a segment adds, or that it is too much. */
  lemma AddSegmentCounts(c: Settings, s: Segment, n: nat, before: seq<Draft>)
    requires c.Valid()
    ensures AddSegment(c, s, n, before).TooMany? <==> Tight(c, s, |before|)
    ensures AddSegment(c, s, n, before).Chunks? ==> |AddSegment(c, s, n, before).drafts| == |before| + |PiecesOf(c, s)|
  {
    FillIs(c, s.text, WindowsOf(c, s), c.maximum - |before|);
    if AddSegment(c, s, n, before).Chunks? {
      var kept, added := SegmentIsAdded(c, s, n, before);
    }
  }

  lemma AddSegmentIs(c: Settings, s: Segment, n: nat, before: seq<Draft>, j: nat)
    requires c.Valid() && AddSegment(c, s, n, before).Chunks? && j < |PiecesOf(c, s)|
    ensures var d := AddSegment(c, s, n, before).drafts;
            |before| + j < |d| && DraftIs(d[|before| + j], n, j, PiecesOf(c, s)[j])
  {
    FillIs(c, s.text, WindowsOf(c, s), c.maximum - |before|);
    var kept, added := SegmentIsAdded(c, s, n, before);
    assert (before + added)[|before| + j] == added[j];
  }

  /** The chunk is part `j + 1` of segment `n` and lies at the span. */
  predicate DraftIs(d: Draft, n: nat, j: nat, s: Span) {
    d.segment == n && d.part == j + 1 && d.start == s.start && d.end == s.end
  }

  lemma SplitStep(c: Settings, segments: seq<Segment>)
    requires c.Valid() && segments != []
    ensures var m := |segments| - 1;
            var before := Split(c, segments[..m]);
            Split(c, segments) == if before.TooMany? then TooMany else AddSegment(c, segments[m], m, before.drafts)
  {
  }

  lemma LastSegmentCounts(c: Settings, segments: seq<Segment>, m: nat, s: Segment, before: seq<Draft>, used: int)
    requires c.Valid() && m == |segments| - 1 && s == segments[m] && Split(c, segments[..m]) == Chunks(before)
    requires used == |before|
    ensures Split(c, segments).TooMany? <==> Tight(c, s, used)
    ensures Split(c, segments).Chunks? ==> |Split(c, segments).drafts| == |before| + |PiecesOf(c, s)|
  {
    SplitStep(c, segments);
    AddSegmentCounts(c, s, m, before);
  }

  lemma SomeTightStep(c: Settings, segments: seq<Segment>, m: nat, s: Segment, shorter: seq<Segment>, used: int)
    requires c.Valid() && m == |segments| - 1 && s == segments[m] && shorter == segments[..m] && used == Amount(c, shorter)
    ensures SomeTight(c, segments) <==> SomeTight(c, shorter) || Tight(c, s, used)
  {
  }

  lemma AmountStep(c: Settings, segments: seq<Segment>, m: nat, s: Segment, shorter: seq<Segment>)
    requires c.Valid() && m == |segments| - 1 && s == segments[m] && shorter == segments[..m]
    ensures Amount(c, segments) == Amount(c, shorter) + |PiecesOf(c, s)|
  {
  }

  /** A split fails exactly when some window starts after `maximum` chunks, and otherwise has a chunk for every window that
      is not blank. */
  lemma {:induction false} TooManyIff(c: Settings, segments: seq<Segment>)
    requires c.Valid()
    ensures Split(c, segments).TooMany? <==> SomeTight(c, segments)
    ensures Split(c, segments).Chunks? ==> |Split(c, segments).drafts| == Amount(c, segments)
  {
    if segments != [] {
      var m := |segments| - 1;
      TooManyIff(c, segments[..m]);
      TooManyStep(c, segments, m, segments[m], segments[..m], Amount(c, segments[..m]));
    }
  }

  lemma TooManyStep(c: Settings, segments: seq<Segment>, m: nat, s: Segment, shorter: seq<Segment>, used: int)
    requires c.Valid() && m == |segments| - 1 && s == segments[m] && shorter == segments[..m]
    requires used == Amount(c, shorter)
    requires Split(c, shorter).TooMany? <==> SomeTight(c, shorter)
    requires Split(c, shorter).Chunks? ==> |Split(c, shorter).drafts| == Amount(c, shorter)
    ensures Split(c, segments).TooMany? <==> SomeTight(c, segments)
    ensures Split(c, segments).Chunks? ==> |Split(c, segments).drafts| == Amount(c, segments)
  {
    SomeTightStep(c, segments, m, s, shorter, used);
    AmountStep(c, segments, m, s, shorter);
    if Split(c, shorter).Chunks? {
      LastSegmentCounts(c, segments, m, s, Split(c, shorter).drafts, used);
    } else {
      SplitStep(c, segments);
    }
  }

  lemma LastChunkIs(c: Settings, segments: seq<Segment>, m: nat, s: Segment, before: seq<Draft>, j: nat, p: Span, i: nat)
    requires c.Valid() && Split(c, segments).Chunks? && m == |segments| - 1 && s == segments[m]
    requires Split(c, segments[..m]) == Chunks(before) && j < |PiecesOf(c, s)| && p == PiecesOf(c, s)[j] && i == |before| + j
    ensures i < |Split(c, segments).drafts| && DraftIs(Split(c, segments).drafts[i], m, j, p)
  {
    SplitStep(c, segments);
    AddSegmentIs(c, s, m, before, j);
  }

  lemma EarlierChunkIs(c: Settings, segments: seq<Segment>, m: nat, i: nat)
    requires c.Valid() && Split(c, segments).Chunks? && m == |segments| - 1
    ensures Split(c, segments[..m]).Chunks?
    ensures var before := Split(c, segments[..m]).drafts;
            i < |before| ==> i < |Split(c, segments).drafts| && Split(c, segments).drafts[i] == before[i]
  {
    SplitStep(c, segments);
    if i < |Split(c, segments[..m]).drafts| {
      AddedAfter(c, segments[m], m, Split(c, segments[..m]).drafts, i);
    }
  }

  /** The j-th chunk of a segment is its j-th window that is not blank, trimmed. */
  lemma {:induction false} ChunkIsWindow(c: Settings, segments: seq<Segment>, n: nat, earlier: seq<Segment>, s: Segment, j: nat, p: Span, i: nat)
    requires c.Valid() && Split(c, segments).Chunks? && n < |segments| && earlier == segments[..n] && s == segments[n]
    requires j < |PiecesOf(c, s)| && p == PiecesOf(c, s)[j] && i == Amount(c, earlier) + j
    ensures i < |Split(c, segments).drafts| && DraftIs(Split(c, segments).drafts[i], n, j, p)
    decreases |segments|
  {
    var m := |segments| - 1;
    var shorter := segments[..m];
    if n < m {
      EarlierChunkIs(c, segments, m, i);
      assert shorter[..n] == earlier && shorter[n] == s;
      ChunkIsWindow(c, shorter, n, earlier, s, j, p, i);
    } else {
      ShorterSplits(c, segments);
      TooManyIff(c, shorter);
      LastChunkIs(c, segments, m, s, Split(c, shorter).drafts, j, p, i);
    }
  }
}
