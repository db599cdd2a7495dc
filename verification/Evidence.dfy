/** Locating a mention in a chunk, as packages/core/src/open_graph_core/extraction.py does it: exactly if
    possible, and otherwise through a normalisation that remembers where every character came from. */
module Evidence {
  import opened Wrappers
  import opened Helpers

  /** The Unicode tables, as far as the code consults them: NFKC of a single character, and white space. */
  datatype Unicode = Unicode(nfkc: char -> string, isSpace: char -> bool) {
    /** `str.isspace` */
    predicate AllSpace(s: string) {
      s != "" && forall k :: 0 <= k < |s| ==> isSpace(s[k])
    }

    ghost predicate Sane() {
      && (forall c :: nfkc(c) != "")
      && (forall c :: isSpace(c) ==> AllSpace(nfkc(c)))
      && !isSpace(SOFT_HYPHEN) && !isSpace('-')
    }
  }

  const SOFT_HYPHEN := '\U{00AD}'

  predicate Newline(c: char) {
    c == '\r' || c == '\n'
  }

  /** A normalised character and the half-open range of the source it stands for. */
  datatype Cell = Cell(text: char, start: int, end: int)

  datatype Quote = Quote(offset: int, text: string)

  // ---------- Normalisation ----------

  function AfterNewlines(v: string, i: nat): (j: nat)
    requires i <= |v|
    ensures i <= j <= |v|
    decreases |v| - i
  {
    if i < |v| && Newline(v[i]) then AfterNewlines(v, i + 1) else i
  }

  function LastSpace(u: Unicode, v: string, i: nat): (k: nat)
    requires i < |v|
    ensures i <= k < |v| && (k == i || u.isSpace(v[k]))
    decreases |v| - i
  {
    if i + 1 < |v| && u.isSpace(v[i + 1]) then LastSpace(u, v, i + 1) else i
  }

  predicate JoinsLines(v: string, i: nat)
    requires i < |v|
  {
    v[i] == '-' && i + 1 < |v| && Newline(v[i + 1])
  }

  function Expansion(s: string, i: int): (cells: seq<Cell>)
    ensures |cells| == |s| && forall k :: 0 <= k < |s| ==> cells[k] == Cell(s[k], i, i + 1)
  {
    seq(|s|, k requires 0 <= k < |s| => Cell(s[k], i, i + 1))
  }

  /** One step of the scan: where it goes on, and the text it appends.  All of that text stands for the
      last character consumed. */
  datatype Step = Step(next: int, text: string)

  function StepAt(u: Unicode, v: string, i: nat): (s: Step)
    requires i < |v|
    ensures i < s.next <= |v|
  {
    if v[i] == SOFT_HYPHEN then Step(i + 1, "")
    else if JoinsLines(v, i) then Step(AfterNewlines(v, i + 1), "")
    else if u.AllSpace(u.nfkc(v[i])) then Step(LastSpace(u, v, i) + 1, " ")
    else Step(i + 1, u.nfkc(v[i]))
  }

  ghost predicate Proper(t: seq<Step>) {
    forall i :: 0 <= i < |t| ==> i < t[i].next <= |t|
  }

  /** The steps that a scan would take from every index of the text. */
  function Steps(u: Unicode, v: string): (t: seq<Step>)
    ensures |t| == |v| && Proper(t)
  {
    seq(|v|, i requires 0 <= i < |v| => StepAt(u, v, i))
  }

  /** The cells of the scan that starts at index `i`. */
  function Scan(t: seq<Step>, i: int): seq<Cell>
    requires Proper(t) && 0 <= i <= |t|
    decreases |t| - i
  {
    if i == |t| then [] else Expansion(t[i].text, t[i].next - 1) + Scan(t, t[i].next)
  }

  function Cells(u: Unicode, v: string): seq<Cell> {
    Scan(Steps(u, v), 0)
  }

  function Text(cells: seq<Cell>): (s: string)
    ensures |s| == |cells| && forall k :: 0 <= k < |cells| ==> s[k] == cells[k].text
  {
    seq(|cells|, k requires 0 <= k < |cells| => cells[k].text)
  }

  function Normalized(u: Unicode, v: string): string {
    Text(Cells(u, v))
  }

  method NormalizeEvidence(u: Unicode, value: string) returns (normalized: string, starts: seq<int>, ends: seq<int>)
    ensures var cells := Cells(u, value);
            && |cells| == |normalized| == |starts| == |ends|
            && forall k :: 0 <= k < |cells| ==> cells[k] == Cell(normalized[k], starts[k], ends[k])
  {
    normalized, starts, ends := "", [], [];
    ghost var steps := Steps(u, value);
    var index := 0;
    while index < |value|
      invariant 0 <= index <= |value|
      invariant |normalized| == |starts| == |ends|
      invariant Zip(normalized, starts, ends) + Scan(steps, index) == Cells(u, value)
    {
      ghost var step, done := steps[index], Zip(normalized, starts, ends);
      var text, next := TakeStep(u, value, index);
      GoOn(done, Expansion(step.text, step.next - 1), Scan(steps, step.next));
      normalized, starts, ends := AppendAll(text, next - 1, normalized, starts, ends);
      index := next;
    }
  }

  /** One turn of the scan: a soft hyphen and a hyphen before a line break give nothing, and a run of white space
      gives one space. */
  method TakeStep(u: Unicode, value: string, start: nat) returns (text: string, next: nat)
    requires start < |value|
    ensures Step(next, text) == StepAt(u, value, start)
  {
    var index := start;
    var c := value[index];
    if c == SOFT_HYPHEN {
      return "", index + 1;
    }
    if c == '-' && index + 1 < |value| && Newline(value[index + 1]) {
      index := index + 1;
      while index < |value| && Newline(value[index])
        invariant index <= |value| && AfterNewlines(value, index) == AfterNewlines(value, start + 1)
      {
        index := index + 1;
      }
      return "", index;
    }
    text := u.nfkc(c);
    if u.AllSpace(text) {
      while index + 1 < |value| && u.isSpace(value[index + 1])
        invariant index < |value| && LastSpace(u, value, index) == LastSpace(u, value, start)
      {
        index := index + 1;
      }
      text := " ";
    }
    next := index + 1;
  }

  lemma GoOn(done: seq<Cell>, step: seq<Cell>, rest: seq<Cell>)
    ensures done + (step + rest) == (done + step) + rest
  {
  }

  ghost function Zip(text: string, starts: seq<int>, ends: seq<int>): (cells: seq<Cell>)
    requires |text| == |starts| == |ends|
    ensures |cells| == |text| && forall k :: 0 <= k < |text| ==> cells[k] == Cell(text[k], starts[k], ends[k])
  {
    seq(|text|, k requires 0 <= k < |text| => Cell(text[k], starts[k], ends[k]))
  }

  /** The inner loop of the scan: one entry for every character of an expansion. */
  method AppendAll(converted: string, index: int, text0: string, starts0: seq<int>, ends0: seq<int>)
    returns (text: string, starts: seq<int>, ends: seq<int>)
    requires |text0| == |starts0| == |ends0|
    ensures |text| == |starts| == |ends|
    ensures Zip(text, starts, ends) == Zip(text0, starts0, ends0) + Expansion(converted, index)
  {
    text, starts, ends := text0, starts0, ends0;
    for k := 0 to |converted|
      invariant |text| == |starts| == |ends| == |text0| + k
      invariant Zip(text, starts, ends) == Zip(text0, starts0, ends0) + Expansion(converted, index)[..k]
    {
      text, starts, ends := text + [converted[k]], starts + [index], ends + [index + 1];
    }
  }

  // ---------- Searching ----------

  /** `str.find`: the leftmost occurrence, or -1. */
  function Find(s: string, t: string, from: nat := 0): (i: int)
    ensures i >= 0 ==> OccursAt(s, t, i)
    ensures forall j :: from <= j && (i < 0 || j < i) ==> !OccursAt(s, t, j)
    ensures i < 0 || from <= i
    decreases |s| - from
  {
    if from + |t| > |s| then -1
    else if s[from..from + |t|] == t then from
    else Find(s, t, from + 1)
  }

  function FindEvidence(u: Unicode, text: string, mention: string): Option<Quote> {
    var offset := Find(text, mention);
    if offset >= 0 then Some(Quote(offset, mention))
    else
      var cells, wanted := Cells(u, text), Normalized(u, mention);
      if wanted == "" then None
      else
        var at := Find(Text(cells), wanted);
        if at < 0 then None
        else
          CellsInside(Steps(u, text), 0);
          Increasing(Steps(u, text), 0, at, at + |wanted| - 1);
          var start, end := cells[at].start, cells[at + |wanted| - 1].end;
          Some(Quote(start, text[start..end]))
  }

  // ---------- Where the cells lie ----------

  lemma {:induction false} CellsInside(t: seq<Step>, i: int)
    requires Proper(t) && 0 <= i <= |t|
    ensures forall k :: 0 <= k < |Scan(t, i)| ==>
              i <= Scan(t, i)[k].start < |t| && Scan(t, i)[k].end == Scan(t, i)[k].start + 1
    decreases |t| - i
  {
    if i < |t| {
      CellsInside(t, t[i].next);
    }
  }

  lemma {:induction false} Increasing(t: seq<Step>, i: int, j: nat, k: nat)
    requires Proper(t) && 0 <= i <= |t| && j <= k < |Scan(t, i)|
    ensures Scan(t, i)[j].start <= Scan(t, i)[k].start
    decreases |t| - i
  {
    if i < |t| {
      var n := |t[i].text|;
      CellsInside(t, t[i].next);
      if j >= n {
        Increasing(t, t[i].next, j - n, k - n);
      }
    }
  }

  // ---------- Normalising a slice on its own ----------

  function Shift(cells: seq<Cell>, d: int): seq<Cell> {
    if cells == [] then []
    else [Cell(cells[0].text, cells[0].start + d, cells[0].end + d)] + Shift(cells[1..], d)
  }

  lemma {:induction false} ShiftAt(cells: seq<Cell>, d: int)
    ensures |Shift(cells, d)| == |cells|
    ensures forall k :: 0 <= k < |cells| ==>
              Shift(cells, d)[k] == Cell(cells[k].text, cells[k].start + d, cells[k].end + d)
  {
    if cells != [] {
      ShiftAt(cells[1..], d);
    }
  }

  lemma {:induction false} AfterNewlinesShift(v: string, a: nat, i: nat)
    requires a <= |v| && i <= |v| - a
    ensures AfterNewlines(v[a..], i) + a == AfterNewlines(v, a + i)
    decreases |v| - i
  {
    if i < |v| - a && Newline(v[a + i]) {
      AfterNewlinesShift(v, a, i + 1);
    }
  }

  lemma {:induction false} LastSpaceShift(u: Unicode, v: string, a: nat, i: nat)
    requires a <= |v| && i < |v| - a
    ensures LastSpace(u, v[a..], i) + a == LastSpace(u, v, a + i)
    decreases |v| - i
  {
    if i + 1 < |v| - a && u.isSpace(v[a + i + 1]) {
      LastSpaceShift(u, v, a, i + 1);
    }
  }

  lemma StepShift(u: Unicode, v: string, a: nat, i: nat)
    requires a <= |v| && i < |v| - a
    ensures var s := StepAt(u, v[a..], i); StepAt(u, v, a + i) == Step(s.next + a, s.text)
  {
    assert v[a..][i] == v[a + i];
    if v[a + i] != SOFT_HYPHEN && JoinsLines(v, a + i) {
      AfterNewlinesShift(v, a, i + 1);
    } else {
      LastSpaceShift(u, v, a, i);
    }
  }

  /** The step from `k` is the step of `t` from `a + k`, with shifted offsets. */
  ghost predicate Moved(t: seq<Step>, t': seq<Step>, a: nat, k: int) {
    0 <= k < |t'| && a + k < |t| && t[a + k].next == t'[k].next + a && t[a + k].text == t'[k].text
  }

  /** The scan looks ahead only: dropping what lies before it just shifts the offsets. */
  lemma {:induction false} ScanShift(t: seq<Step>, t': seq<Step>, a: nat, i: int)
    requires Proper(t) && Proper(t') && |t| == |t'| + a && 0 <= i <= |t'|
    requires forall k {:trigger Moved(t, t', a, k)} :: 0 <= k < |t'| ==> Moved(t, t', a, k)
    ensures Shift(Scan(t', i), a) == Scan(t, a + i)
    decreases |t'| - i
  {
    if i < |t'| {
      assert Moved(t, t', a, i);
      ScanShift(t, t', a, t'[i].next);
      ScanShiftStep(t, t', a, i);
    }
  }

  lemma ScanShiftStep(t: seq<Step>, t': seq<Step>, a: nat, i: int)
    requires Proper(t) && Proper(t') && Moved(t, t', a, i) && 0 <= a + t'[i].next <= |t|
    requires Shift(Scan(t', t'[i].next), a) == Scan(t, a + t'[i].next)
    ensures Shift(Scan(t', i), a) == Scan(t, a + i)
  {
    var text, next := t'[i].text, t'[i].next;
    ScanUnfolds(t', i, text, next);
    ScanUnfolds(t, a + i, text, a + next);
    ShiftedStep(text, next, a, Scan(t', next), Scan(t, a + next));
  }

  lemma ScanUnfolds(t: seq<Step>, i: int, text: string, next: int)
    requires Proper(t) && 0 <= i < |t| && t[i] == Step(next, text)
    ensures Scan(t, i) == Expansion(text, next - 1) + Scan(t, next)
  {
  }

  lemma ShiftedStep(text: string, next: int, a: int, rest': seq<Cell>, rest: seq<Cell>)
    requires Shift(rest', a) == rest
    ensures Shift(Expansion(text, next - 1) + rest', a) == Expansion(text, a + next - 1) + rest
  {
    ShiftExpansion(text, next - 1, a);
    ShiftAppend(Expansion(text, next - 1), rest', a);
  }

  lemma ShiftExpansion(text: string, index: int, a: int)
    ensures Shift(Expansion(text, index), a) == Expansion(text, index + a)
  {
    ShiftAt(Expansion(text, index), a);
  }

  lemma {:induction false} ShiftAppend(x: seq<Cell>, y: seq<Cell>, a: int)
    ensures Shift(x + y, a) == Shift(x, a) + Shift(y, a)
  {
    if x == [] {
      assert x + y == y;
    } else {
      assert (x + y)[1..] == x[1..] + y;
      ShiftAppend(x[1..], y, a);
    }
  }

  lemma {:induction false} AfterNewlinesCut(v: string, b: nat, i: nat)
    requires i <= |v| && AfterNewlines(v, i) < b <= |v|
    ensures AfterNewlines(v[..b], i) == AfterNewlines(v, i)
    decreases |v| - i
  {
    if Newline(v[i]) {
      AfterNewlinesCut(v, b, i + 1);
    }
  }

  lemma {:induction false} LastSpaceCut(u: Unicode, v: string, b: nat, i: nat)
    requires i < |v| && LastSpace(u, v, i) < b <= |v|
    ensures LastSpace(u, v[..b], i) == LastSpace(u, v, i)
    decreases |v| - i
  {
    if i + 1 < |v| && u.isSpace(v[i + 1]) {
      LastSpaceCut(u, v, b, i + 1);
    }
  }

  /** A step that ends within the first `b` characters is the same when only these are there. */
  ghost predicate Fits(s: Step, b: int) {
    s.next <= b && (s.text == "" ==> s.next < b)
  }

  lemma StepCut(u: Unicode, v: string, b: nat, i: nat)
    requires u.Sane() && i < b <= |v| && Fits(StepAt(u, v, i), b)
    ensures StepAt(u, v[..b], i) == StepAt(u, v, i)
  {
    var w := v[..b];
    if v[i] != SOFT_HYPHEN {
      if JoinsLines(v, i) {
        AfterNewlinesCut(v, b, i + 1);
      } else {
        assert !JoinsLines(w, i);
        if u.AllSpace(u.nfkc(v[i])) {
          LastSpaceCut(u, v, b, i);
        }
      }
    }
  }

  /** The end of the step that a cell comes from, counted in cells. */
  lemma {:induction false} StepEnd(t: seq<Step>, i: int, e: nat) returns (hi: nat)
    requires Proper(t) && 0 <= i <= |t| && e < |Scan(t, i)|
    ensures e < hi <= |Scan(t, i)| && i < Scan(t, i)[e].end <= |t|
    ensures forall w :: Cut(t, w, Scan(t, i)[e].end) ==> Scan(w, i) == Scan(t, i)[..hi]
    ensures hi > e + 1 ==> exists j :: StepTo(t, j, Scan(t, i)[e].end)
    decreases |t| - i
  {
    CellsInside(t, i);
    var x, j := Expansion(t[i].text, t[i].next - 1), t[i].next;
    var rest := Scan(t, j);
    var b := Scan(t, i)[e].end;
    if e < |x| {
      hi := |x|;
      assert Scan(t, i)[..hi] == x;
      assert hi > e + 1 ==> StepTo(t, i, b);
    } else {
      CellsInside(t, j);
      assert Scan(t, i)[e] == rest[e - |x|];
      var h := StepEnd(t, j, e - |x|);
      hi := h + |x|;
      assert Scan(t, i)[..hi] == x + rest[..h];
    }
  }

  /** `w` holds the steps of a text cut to its first `b` characters. */
  ghost predicate Cut(t: seq<Step>, w: seq<Step>, b: int) {
    |w| == b <= |t| && Proper(w) && forall i :: 0 <= i < b && Fits(t[i], b) ==> w[i] == t[i]
  }

  /** Some step ends at `b` and appends more than one character. */
  ghost predicate StepTo(t: seq<Step>, j: int, b: int) {
    0 <= j < |t| && t[j].next == b && |t[j].text| > 1
  }

  /** A step is the same when it is entered at the last character it consumes. */
  ghost predicate Reenters(t: seq<Step>) {
    Proper(t) && forall i :: 0 <= i < |t| && t[i].text != "" ==> t[t[i].next - 1] == t[i]
  }

  lemma StepReenters(u: Unicode, v: string, i: nat)
    requires i < |v| && u.Sane() && StepAt(u, v, i).text != ""
    ensures StepAt(u, v, StepAt(u, v, i).next - 1) == StepAt(u, v, i)
  {
    var k := StepAt(u, v, i).next - 1;
    if u.AllSpace(u.nfkc(v[i])) {
      RunEnds(u, v, i);
      if k > i {
        assert u.isSpace(v[k]);
      }
    }
  }

  lemma {:induction false} RunEnds(u: Unicode, v: string, i: nat)
    requires i < |v|
    ensures LastSpace(u, v, LastSpace(u, v, i)) == LastSpace(u, v, i)
    decreases |v| - i
  {
    if i + 1 < |v| && u.isSpace(v[i + 1]) {
      RunEnds(u, v, i + 1);
    }
  }

  /** Starting the scan at the source of a cell yields the cells from the start of its step on. */
  lemma {:induction false} ScanFrom(t: seq<Step>, i: int, o: nat) returns (lo: nat)
    requires Reenters(t) && 0 <= i <= |t| && o < |Scan(t, i)|
    ensures lo <= o && i <= Scan(t, i)[o].start < |t|
    ensures Scan(t, Scan(t, i)[o].start) == Scan(t, i)[lo..]
    ensures lo < o ==> |t[Scan(t, i)[o].start].text| > 1
    decreases |t| - i
  {
    CellsInside(t, i);
    var x, j := Expansion(t[i].text, t[i].next - 1), t[i].next;
    if o < |x| {
      lo := 0;
    } else {
      var l := ScanFrom(t, j, o - |x|);
      lo := l + |x|;
      assert Scan(t, i)[lo..] == Scan(t, j)[l..];
    }
  }

  /** A step that appends several characters has consumed one that expands to them. */
  lemma LongStep(u: Unicode, v: string, j: nat)
    requires j < |v| && |StepAt(u, v, j).text| > 1
    ensures StepAt(u, v, j).next == j + 1 && |u.nfkc(v[j])| > 1
  {
  }

  lemma LongEnd(u: Unicode, v: string, b: int)
    requires exists j :: StepTo(Steps(u, v), j, b)
    ensures 0 < b <= |v| && |u.nfkc(v[b - 1])| > 1
  {
    var j :| StepTo(Steps(u, v), j, b);
    LongStep(u, v, j);
  }

  /** What a table of steps that was cut behind cell `e` gives from the source of cell `o` on. */
  lemma TableSlice(t: seq<Step>, w: seq<Step>, o: nat, e: nat) returns (lo: nat, hi: nat)
    requires Proper(t) && o <= e < |Scan(t, 0)|
    requires Cut(t, w, Scan(t, 0)[e].end) && Reenters(w)
    ensures var cells := Scan(t, 0);
            var a, b := cells[o].start, cells[e].end;
            && lo <= o && e < hi <= |cells| && 0 <= a < b <= |t|
            && Scan(w, a) == cells[..hi][lo..]
            && (lo < o ==> |w[a].text| > 1) && (hi > e + 1 ==> exists j :: StepTo(t, j, b))
  {
    CellsInside(t, 0);
    Increasing(t, 0, o, e);
    hi := StepEnd(t, 0, e);
    assert Scan(w, 0) == Scan(t, 0)[..hi];
    lo := ScanFrom(w, 0, o);
  }

  /** The source slice behind cells `o` to `e` normalises, on its own, to exactly these cells and the
      rest of the expansions that the first and the last of them belong to. */
  lemma SliceNormalizes(u: Unicode, v: string, o: nat, e: nat) returns (lo: nat, hi: nat)
    requires u.Sane() && o <= e < |Cells(u, v)|
    ensures var cells := Cells(u, v);
            var a, b := cells[o].start, cells[e].end;
            && lo <= o && e < hi <= |cells| && 0 <= a < b <= |v|
            && Normalized(u, v[a..b]) == Text(cells)[lo..hi]
            && (lo < o ==> |u.nfkc(v[a])| > 1) && (hi > e + 1 ==> |u.nfkc(v[b - 1])| > 1)
  {
    var cells := Cells(u, v);
    CellsInside(Steps(u, v), 0);
    var a, b := cells[o].start, cells[e].end;
    CutSteps(u, v, b);
    ReenterSteps(u, v[..b]);
    lo, hi := TableSlice(Steps(u, v), Steps(u, v[..b]), o, e);
    SliceText(u, v, a, b, cells, lo, hi);
    if lo < o {
      LongStart(u, v, a, b);
    }
    if hi > e + 1 {
      LongEnd(u, v, b);
    }
  }

  lemma LongStart(u: Unicode, v: string, a: int, b: int)
    requires 0 <= a < b <= |v| && |Steps(u, v[..b])[a].text| > 1
    ensures |u.nfkc(v[a])| > 1
  {
    LongStep(u, v[..b], a);
  }

  lemma TextShift(cells: seq<Cell>, a: int)
    ensures Text(Shift(cells, a)) == Text(cells)
  {
    ShiftAt(cells, a);
  }

  lemma TextSlice(cells: seq<Cell>, lo: nat, hi: nat)
    requires lo <= hi <= |cells|
    ensures Text(cells[..hi][lo..]) == Text(cells)[lo..hi]
  {
  }

  lemma StepsMove(u: Unicode, v: string, a: nat, b: nat, k: int)
    requires a <= b <= |v| && 0 <= k < b - a
    ensures Moved(Steps(u, v[..b]), Steps(u, v[a..b]), a, k)
  {
    assert v[..b][a..] == v[a..b];
    StepShift(u, v[..b], a, k);
  }

  lemma SliceText(u: Unicode, v: string, a: nat, b: nat, cells: seq<Cell>, lo: nat, hi: nat)
    requires a < b <= |v| && lo <= hi <= |cells|
    requires Scan(Steps(u, v[..b]), a) == cells[..hi][lo..]
    ensures Normalized(u, v[a..b]) == Text(cells)[lo..hi]
  {
    var w, own := Steps(u, v[..b]), Steps(u, v[a..b]);
    forall k | 0 <= k < |own|
      ensures Moved(w, own, a, k)
    {
      StepsMove(u, v, a, b, k);
    }
    ScanShift(w, own, a, 0);
    TextShift(Scan(own, 0), a);
    TextSlice(cells, lo, hi);
  }

  lemma CutSteps(u: Unicode, v: string, b: nat)
    requires u.Sane() && b <= |v|
    ensures Cut(Steps(u, v), Steps(u, v[..b]), b)
  {
    var t, w := Steps(u, v), Steps(u, v[..b]);
    forall i | 0 <= i < b && Fits(t[i], b)
      ensures w[i] == t[i]
    {
      StepCut(u, v, b, i);
    }
  }

  lemma ReenterSteps(u: Unicode, v: string)
    requires u.Sane()
    ensures Reenters(Steps(u, v))
  {
    var t := Steps(u, v);
    forall i | 0 <= i < |t| && t[i].text != ""
      ensures t[t[i].next - 1] == t[i]
    {
      StepReenters(u, v, i);
    }
  }

  // ---------- The evidence found ----------

  lemma Around(norm: string, wanted: string, lo: nat, o: nat, hi: nat)
    requires lo <= o && OccursAt(norm, wanted, o) && o + |wanted| <= hi <= |norm|
    ensures norm[lo..hi] == norm[lo..o] + wanted + norm[o + |wanted|..hi]
    ensures |norm[lo..o]| == o - lo && |norm[o + |wanted|..hi]| == hi - o - |wanted|
  {
    assert norm[lo..hi] == norm[lo..o] + norm[o..o + |wanted|] + norm[o + |wanted|..hi];
  }

  lemma SliceReads(u: Unicode, text: string, wanted: string, o: nat, a: int, b: int) returns (before: string, after: string)
    requires u.Sane() && wanted != "" && OccursAt(Normalized(u, text), wanted, o)
    requires a == Cells(u, text)[o].start && b == Cells(u, text)[o + |wanted| - 1].end
    ensures 0 <= a < b <= |text| && Normalized(u, text[a..b]) == before + wanted + after
    ensures (before != "" ==> |u.nfkc(text[a])| > 1) && (after != "" ==> |u.nfkc(text[b - 1])| > 1)
  {
    var norm := Normalized(u, text);
    var lo, hi := SliceNormalizes(u, text, o, o + |wanted| - 1);
    before, after := norm[lo..o], norm[o + |wanted|..hi];
    Around(norm, wanted, lo, o, hi);
  }

  lemma SliceEnds(text: string, a: int, b: int)
    requires 0 <= a < b <= |text|
    ensures |text[a..b]| == b - a && text[a..b][0] == text[a] && text[a..b][b - a - 1] == text[b - 1]
  {
  }

  /** A quote is the source text at its offset.  Normalised by itself it reads as the normalised mention,
      with something before or after only where the character at that end expands to several. */
  lemma EvidenceIsLocal(u: Unicode, text: string, mention: string) returns (before: string, after: string)
    requires u.Sane() && FindEvidence(u, text, mention).Some?
    ensures var q := FindEvidence(u, text, mention).value;
            && OccursAt(text, q.text, q.offset)
            && Normalized(u, q.text) == before + Normalized(u, mention) + after
            && (before != "" ==> q.text != "" && |u.nfkc(q.text[0])| > 1)
            && (after != "" ==> q.text != "" && |u.nfkc(q.text[|q.text| - 1])| > 1)
  {
    if Find(text, mention) >= 0 {
      before, after := "", "";
      assert Normalized(u, mention) == "" + Normalized(u, mention) + "";
    } else {
      var wanted := Normalized(u, mention);
      var o := Find(Normalized(u, text), wanted);
      var a, b := Cells(u, text)[o].start, Cells(u, text)[o + |wanted| - 1].end;
      before, after := SliceReads(u, text, wanted, o, a, b);
      var q := text[a..b];
      assert FindEvidence(u, text, mention) == Some(Quote(a, q));
      SliceEnds(text, a, b);
    }
  }

  /** A mention that the text holds is quoted at its first occurrence.  Otherwise the quote is what stands for the first
      occurrence of its normal form in that of the text. */
  lemma EvidenceIsFirst(u: Unicode, text: string, mention: string)
    requires FindEvidence(u, text, mention).Some?
    ensures var q := FindEvidence(u, text, mention).value;
            || (q.text == mention && FirstAt(text, mention, q.offset))
            || ((forall j :: !OccursAt(text, mention, j))
                && exists at :: FirstAt(Normalized(u, text), Normalized(u, mention), at) && StandsFor(u, text, q, at, Normalized(u, mention)))
  {
    if Find(text, mention) >= 0 {
      FirstIs(text, mention);
    } else {
      FirstIs(text, mention);
      NormalFormIsFirst(u, text, mention, Normalized(u, text), Normalized(u, mention), Find(Normalized(u, text), Normalized(u, mention)));
    }
  }

  /** `t` occurs at `i` and nowhere before. */
  ghost predicate FirstAt(s: string, t: string, i: int) {
    OccursAt(s, t, i) && forall j :: 0 <= j < i ==> !OccursAt(s, t, j)
  }

  lemma FirstIs(s: string, t: string)
    ensures if Find(s, t) >= 0 then FirstAt(s, t, Find(s, t)) else forall j :: !OccursAt(s, t, j)
  {
    forall j | j < 0
      ensures !OccursAt(s, t, j)
    {
    }
  }

  lemma NormalFormIsFirst(u: Unicode, text: string, mention: string, norm: string, wanted: string, at: int)
    requires FindEvidence(u, text, mention).Some? && Find(text, mention) < 0
    requires norm == Normalized(u, text) && wanted == Normalized(u, mention) && at == Find(norm, wanted)
    ensures FirstAt(norm, wanted, at) && StandsFor(u, text, FindEvidence(u, text, mention).value, at, wanted)
  {
    FirstIs(norm, wanted);
    CellsInside(Steps(u, text), 0);
    Increasing(Steps(u, text), 0, at, at + |wanted| - 1);
  }

  /** The quote is the source of the occurrence of `wanted` at index `at` of the normal form. */
  ghost predicate StandsFor(u: Unicode, text: string, q: Quote, at: int, wanted: string) {
    var cells := Cells(u, text);
    && wanted != "" && OccursAt(Text(cells), wanted, at)
    && q.offset == cells[at].start && q.offset + |q.text| == cells[at + |wanted| - 1].end
    && OccursAt(text, q.text, q.offset)
  }

  /** Evidence is missing exactly when neither the mention nor its normal form can be read in the text. */
  lemma EvidenceIsComplete(u: Unicode, text: string, mention: string)
    ensures FindEvidence(u, text, mention).None? <==>
              && (forall i :: !OccursAt(text, mention, i))
              && (Normalized(u, mention) == "" || forall i :: !OccursAt(Normalized(u, text), Normalized(u, mention), i))
  {
    var offset := Find(text, mention);
    assert offset >= 0 ==> OccursAt(text, mention, offset);
    forall i | offset < 0
      ensures !OccursAt(text, mention, i)
    {
    }
    var at := Find(Normalized(u, text), Normalized(u, mention));
    assert at >= 0 ==> OccursAt(Normalized(u, text), Normalized(u, mention), at);
  }

  /** Looking a found quote up again yields the same quote, at its first occurrence. */
  lemma EvidenceIsStable(u: Unicode, text: string, mention: string)
    requires u.Sane() && FindEvidence(u, text, mention).Some?
    ensures var q := FindEvidence(u, text, mention).value;
            var again := FindEvidence(u, text, q.text);
            again.Some? && again.value.text == q.text && again.value.offset <= q.offset
  {
    var before, after := EvidenceIsLocal(u, text, mention);
    var q := FindEvidence(u, text, mention).value;
    assert OccursAt(text, q.text, q.offset);
  }
}
