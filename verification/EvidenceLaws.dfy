/** What the normalisation of evidence does to a text, said of its result alone
    (packages/core/src/open_graph_core/extraction.py). */
module EvidenceLaws {
  import opened Evidence

  /** What the laws need of the Unicode tables: line breaks are white space, and a hyphen is none. */
  ghost predicate Standard(u: Unicode) {
    u.Sane() && (forall c :: Newline(c) ==> u.isSpace(c)) && !u.AllSpace(u.nfkc('-'))
  }

  // ---------- One step ----------

  lemma TextAppends(x: seq<Cell>, y: seq<Cell>)
    ensures Text(x + y) == Text(x) + Text(y)
  {
  }

  lemma TextExpansion(s: string, i: int)
    ensures Text(Expansion(s, i)) == s
  {
  }

  lemma RestNormalizes(u: Unicode, v: string, a: nat)
    requires a <= |v|
    ensures Text(Scan(Steps(u, v), a)) == Normalized(u, v[a..])
  {
    var t, rest := Steps(u, v), Steps(u, v[a..]);
    forall k | 0 <= k < |rest|
      ensures Moved(t, rest, a, k)
    {
      StepShift(u, v, a, k);
    }
    ScanShift(t, rest, a, 0);
    TextShift(Scan(rest, 0), a);
  }

  /** The text of the first step, and then the rest on its own. */
  lemma Unfolds(u: Unicode, v: string)
    requires v != ""
    ensures var s := StepAt(u, v, 0); Normalized(u, v) == s.text + Normalized(u, v[s.next..])
  {
    var t, s := Steps(u, v), StepAt(u, v, 0);
    ScanUnfolds(t, 0, s.text, s.next);
    TextAppends(Expansion(s.text, s.next - 1), Scan(t, s.next));
    TextExpansion(s.text, s.next - 1);
    RestNormalizes(u, v, s.next);
  }

  /** The same, step by step from the front. */
  ghost function Reads(u: Unicode, v: string): string
    decreases |v|
  {
    if v == "" then ""
    else
      var s := StepAt(u, v, 0);
      s.text + Reads(u, v[s.next..])
  }

  lemma {:induction false} NormalizedReads(u: Unicode, v: string)
    ensures Normalized(u, v) == Reads(u, v)
    decreases |v|
  {
    if v != "" {
      Unfolds(u, v);
      NormalizedReads(u, v[StepAt(u, v, 0).next..]);
    }
  }

  lemma ReadsOn(u: Unicode, v: string, text: string, next: nat, rest: string)
    requires v != "" && StepAt(u, v, 0) == Step(next, text) && next <= |v| && v[next..] == rest
    ensures Reads(u, v) == text + Reads(u, rest)
  {
  }

  // ---------- Where two texts meet ----------

  ghost predicate AllNewlines(s: string) {
    forall k :: 0 <= k < |s| ==> Newline(s[k])
  }

  /** The text ends in a hyphen and the line breaks that follow it. */
  ghost predicate EndsJoined(a: string) {
    exists i :: JoinedFrom(a, i)
  }

  ghost predicate JoinedFrom(a: string, i: int) {
    0 <= i < |a| - 1 && a[i] == '-' && AllNewlines(a[i + 1..])
  }

  /** What follows the line breaks at the start begins with white space. */
  ghost predicate GoesOnBlank(u: Unicode, b: string) {
    var k := AfterNewlines(b, 0);
    k < |b| && u.isSpace(b[k])
  }

  /** Two texts that do not normalise apart: a hyphen meets a line break, line breaks after a hyphen go on,
      or white space goes on. */
  ghost predicate Merge(u: Unicode, a: string, b: string) {
    a != "" && b != "" &&
    var c := a[|a| - 1];
    if c == '-' then Newline(b[0])
    else if EndsJoined(a) then Newline(b[0]) && !GoesOnBlank(u, b)
    else c != SOFT_HYPHEN && u.AllSpace(u.nfkc(c)) && u.isSpace(b[0])
  }

  // ---------- Runs across the seam ----------

  lemma {:induction false} AfterNewlinesOn(a: string, b: string, i: nat)
    requires i <= |a|
    ensures AfterNewlines(a + b, i) == if AfterNewlines(a, i) < |a| then AfterNewlines(a, i) else |a| + AfterNewlines(b, 0)
    decreases |a| - i
  {
    if i == |a| {
      assert (a + b)[|a|..] == b;
      AfterNewlinesShift(a + b, |a|, 0);
    } else if Newline(a[i]) {
      AfterNewlinesOn(a, b, i + 1);
    }
  }

  lemma {:induction false} LastSpaceOn(u: Unicode, a: string, b: string, i: nat)
    requires i < |a|
    ensures LastSpace(u, a + b, i)
         == if LastSpace(u, a, i) < |a| - 1 || b == "" || !u.isSpace(b[0]) then LastSpace(u, a, i) else |a| + LastSpace(u, b, 0)
    decreases |a| - i
  {
    var v := a + b;
    if i + 1 < |a| {
      assert v[i + 1] == a[i + 1];
      if u.isSpace(a[i + 1]) {
        LastSpaceOn(u, a, b, i + 1);
      }
    } else if b != "" {
      assert v[i + 1] == b[0] && v[|a|..] == b;
      LastSpaceShift(u, v, |a|, 0);
    }
  }

  lemma {:induction false} NewlinesBetween(v: string, i: nat)
    requires i <= |v|
    ensures forall k :: i <= k < AfterNewlines(v, i) ==> Newline(v[k])
    ensures AfterNewlines(v, i) < |v| ==> !Newline(v[AfterNewlines(v, i)])
    decreases |v| - i
  {
    if i < |v| && Newline(v[i]) {
      NewlinesBetween(v, i + 1);
    }
  }

  lemma {:induction false} SpacesBetween(u: Unicode, v: string, i: nat)
    requires i < |v|
    ensures forall k :: i < k <= LastSpace(u, v, i) ==> u.isSpace(v[k])
    decreases |v| - i
  {
    if i + 1 < |v| && u.isSpace(v[i + 1]) {
      SpacesBetween(u, v, i + 1);
    }
  }

  lemma {:induction false} AllAfterNewlines(v: string, i: nat)
    requires i <= |v| && AllNewlines(v[i..])
    ensures AfterNewlines(v, i) == |v|
    decreases |v| - i
  {
    if i < |v| {
      assert v[i..][0] == v[i];
      assert v[i + 1..] == v[i..][1..];
      AllAfterNewlines(v, i + 1);
    }
  }

  lemma {:induction false} AllSpaces(u: Unicode, v: string, i: nat)
    requires i < |v| && forall k :: i < k < |v| ==> u.isSpace(v[k])
    ensures LastSpace(u, v, i) == |v| - 1
    decreases |v| - i
  {
    if i + 1 < |v| {
      AllSpaces(u, v, i + 1);
    }
  }

  /** Beyond its first character a step consumes line breaks and white space only. */
  lemma StepConsumes(u: Unicode, v: string, k: int)
    requires v != "" && 0 < k < StepAt(u, v, 0).next
    ensures Newline(v[k]) || u.isSpace(v[k])
  {
    NewlinesBetween(v, 1);
    SpacesBetween(u, v, 0);
  }

  lemma {:induction false} SpacesThroughNewlines(u: Unicode, v: string, i: nat)
    requires Standard(u) && i < |v| && AfterNewlines(v, i) > i
    ensures var k := AfterNewlines(v, i);
            LastSpace(u, v, i) == if k < |v| && u.isSpace(v[k]) then LastSpace(u, v, k) else k - 1
    decreases |v| - i
  {
    if i + 1 < |v| && Newline(v[i + 1]) {
      SpacesThroughNewlines(u, v, i + 1);
    }
  }

  // ---------- White space, line breaks ----------

  lemma SpaceIsBlank(u: Unicode, c: char)
    requires Standard(u) && u.isSpace(c)
    ensures u.AllSpace(u.nfkc(c)) && c != SOFT_HYPHEN && c != '-'
  {
  }

  /** A text that begins with white space gives one space for the run. */
  lemma BlankStart(u: Unicode, v: string, rest: string)
    requires Standard(u) && v != "" && u.isSpace(v[0]) && rest == v[LastSpace(u, v, 0) + 1..]
    ensures Reads(u, v) == " " + Reads(u, rest)
  {
    SpaceIsBlank(u, v[0]);
    ReadsOn(u, v, " ", LastSpace(u, v, 0) + 1, rest);
  }

  /** Line breaks at the start count as one space, unless white space follows them. */
  lemma NewlineStart(u: Unicode, v: string, rest: string)
    requires Standard(u) && v != "" && Newline(v[0]) && rest == v[AfterNewlines(v, 0)..]
    ensures Reads(u, v) == if GoesOnBlank(u, v) then Reads(u, rest) else " " + Reads(u, rest)
  {
    var k := AfterNewlines(v, 0);
    SpacesThroughNewlines(u, v, 0);
    if GoesOnBlank(u, v) {
      LastSpaceShift(u, v, k, 0);
      SliceOfSlice(v, k, LastSpace(u, rest, 0) + 1);
      SpacesRunOn(u, v, rest, v[LastSpace(u, v, 0) + 1..]);
    } else {
      BlankStart(u, v, rest);
    }
  }

  lemma SpacesRunOn(u: Unicode, v: string, rest: string, tail: string)
    requires Standard(u) && v != "" && u.isSpace(v[0]) && rest != "" && u.isSpace(rest[0])
    requires tail == v[LastSpace(u, v, 0) + 1..] && tail == rest[LastSpace(u, rest, 0) + 1..]
    ensures Reads(u, v) == Reads(u, rest)
  {
    BlankStart(u, v, tail);
    BlankStart(u, rest, tail);
  }

  lemma SliceOfSlice(v: string, a: nat, b: nat)
    requires a + b <= |v|
    ensures v[a..][b..] == v[a + b..]
  {
  }

  // ---------- The seam ----------

  lemma StepGrows(u: Unicode, a: string, b: string)
    requires a != "" && StepAt(u, a, 0).next < |a|
    ensures StepAt(u, a + b, 0) == StepAt(u, a, 0)
  {
    assert (a + b)[0] == a[0];
    if |a| > 1 {
      assert (a + b)[1] == a[1];
    }
    AfterNewlinesOn(a, b, 1);
    LastSpaceOn(u, a, b, 0);
  }

  lemma JoinedRest(u: Unicode, a: string, n: nat)
    requires Standard(u) && a != "" && n == StepAt(u, a, 0).next < |a|
    ensures EndsJoined(a) <==> EndsJoined(a[n..])
  {
    if i :| JoinedFrom(a[n..], i) {
      assert a[i + n + 1..] == a[n..][i + 1..];
      assert JoinedFrom(a, i + n);
    }
    if i :| JoinedFrom(a, i) {
      if i >= n {
        assert a[i + 1..] == a[n..][i - n + 1..];
        assert JoinedFrom(a[n..], i - n);
      } else {
        NotConsumed(u, a, n, i);
        assert false;
      }
    }
  }

  lemma NotConsumed(u: Unicode, a: string, n: nat, i: int)
    requires Standard(u) && a != "" && n == StepAt(u, a, 0).next < |a| && JoinedFrom(a, i)
    ensures i >= n
  {
    if 0 < i < n {
      StepConsumes(u, a, i);
    } else if i == 0 {
      assert a[1..][0] == a[1];
      AllAfterNewlines(a, 1);
    }
  }

  /** The last step of a soft hyphen. */
  lemma SoftSeam(u: Unicode, a: string, b: string)
    requires Standard(u) && b != "" && a == [SOFT_HYPHEN]
    ensures Reads(u, a + b) == Reads(u, a) + Reads(u, b) && !Merge(u, a, b)
  {
    assert (a + b)[1..] == b;
    ReadsOn(u, a, "", 1, "");
    ReadsOn(u, a + b, "", 1, b);
  }

  lemma JoinSeam(u: Unicode, a: string, b: string)
    requires Standard(u) && b != "" && a != "" && a[0] != SOFT_HYPHEN && JoinsLines(a, 0) && StepAt(u, a, 0).next == |a|
    ensures Reads(u, a + b) == Reads(u, a) + Reads(u, b) <==> !Merge(u, a, b)
  {
    JoinTakes(u, a, b);
    JoinMerges(u, a, b);
    if Newline(b[0]) {
      NewlineStart(u, b, b[AfterNewlines(b, 0)..]);
    } else {
      assert b[0..] == b;
    }
  }

  lemma JoinTakes(u: Unicode, a: string, b: string)
    requires a != "" && a[0] != SOFT_HYPHEN && JoinsLines(a, 0) && StepAt(u, a, 0).next == |a|
    ensures Reads(u, a) == "" && Reads(u, a + b) == Reads(u, b[AfterNewlines(b, 0)..])
  {
    var k := AfterNewlines(b, 0);
    ReadsOn(u, a, "", |a|, "");
    JoinStep(u, a, b);
    assert (a + b)[|a| + k..] == b[k..];
    ReadsOn(u, a + b, "", |a| + k, b[k..]);
  }

  lemma JoinStep(u: Unicode, a: string, b: string)
    requires a != "" && a[0] != SOFT_HYPHEN && JoinsLines(a, 0) && StepAt(u, a, 0).next == |a|
    ensures StepAt(u, a + b, 0) == Step(|a| + AfterNewlines(b, 0), "")
  {
    assert (a + b)[0] == a[0] && (a + b)[1] == a[1];
    AfterNewlinesOn(a, b, 1);
  }

  lemma JoinMerges(u: Unicode, a: string, b: string)
    requires Standard(u) && b != "" && a != "" && a[0] != SOFT_HYPHEN && JoinsLines(a, 0) && StepAt(u, a, 0).next == |a|
    ensures Merge(u, a, b) <==> Newline(b[0]) && !GoesOnBlank(u, b)
  {
    NewlinesBetween(a, 1);
    forall k | 0 <= k < |a[1..]|
      ensures Newline(a[1..][k])
    {
      assert a[1..][k] == a[k + 1];
    }
    assert JoinedFrom(a, 0);
  }

  lemma BlankSeam(u: Unicode, a: string, b: string)
    requires Standard(u) && b != "" && a != "" && a[0] != SOFT_HYPHEN && u.AllSpace(u.nfkc(a[0])) && StepAt(u, a, 0).next == |a|
    ensures Reads(u, a + b) == Reads(u, a) + Reads(u, b) <==> !Merge(u, a, b)
  {
    BlankMerges(u, a, b);
    BlankReads(u, a);
    if u.isSpace(b[0]) {
      BlankAbsorbs(u, a, b, b[LastSpace(u, b, 0) + 1..]);
    } else {
      BlankGoesOn(u, a, b);
    }
  }

  lemma BlankReads(u: Unicode, a: string)
    requires a != "" && a[0] != SOFT_HYPHEN && !JoinsLines(a, 0) && u.AllSpace(u.nfkc(a[0])) && StepAt(u, a, 0).next == |a|
    ensures Reads(u, a) == " "
  {
    ReadsOn(u, a, " ", |a|, "");
  }

  lemma BlankAbsorbs(u: Unicode, a: string, b: string, rest: string)
    requires Standard(u) && b != "" && a != "" && a[0] != SOFT_HYPHEN && u.AllSpace(u.nfkc(a[0])) && StepAt(u, a, 0).next == |a|
    requires u.isSpace(b[0]) && rest == b[LastSpace(u, b, 0) + 1..]
    ensures Reads(u, a + b) != " " + Reads(u, b)
  {
    BlankStep(u, a, b);
    BlankStart(u, b, rest);
    TailOfSum(a, b, LastSpace(u, b, 0) + 1);
    ReadsOn(u, a + b, " ", |a| + LastSpace(u, b, 0) + 1, rest);
    Longer(Reads(u, a + b), " ", Reads(u, b));
  }

  lemma BlankGoesOn(u: Unicode, a: string, b: string)
    requires Standard(u) && b != "" && a != "" && a[0] != SOFT_HYPHEN && u.AllSpace(u.nfkc(a[0])) && StepAt(u, a, 0).next == |a|
    requires !u.isSpace(b[0])
    ensures Reads(u, a + b) == " " + Reads(u, b)
  {
    BlankStep(u, a, b);
    TailOfSum(a, b, 0);
    ReadsOn(u, a + b, " ", |a|, b);
  }

  lemma TailOfSum(a: string, b: string, k: nat)
    requires k <= |b|
    ensures (a + b)[|a| + k..] == b[k..]
  {
  }

  lemma BlankStep(u: Unicode, a: string, b: string)
    requires Standard(u) && b != "" && a != "" && a[0] != SOFT_HYPHEN && u.AllSpace(u.nfkc(a[0])) && StepAt(u, a, 0).next == |a|
    ensures StepAt(u, a + b, 0) == Step(|a| + if u.isSpace(b[0]) then LastSpace(u, b, 0) + 1 else 0, " ")
  {
    assert (a + b)[0] == a[0];
    LastSpaceOn(u, a, b, 0);
  }

  lemma BlankMerges(u: Unicode, a: string, b: string)
    requires Standard(u) && b != "" && a != "" && a[0] != SOFT_HYPHEN && u.AllSpace(u.nfkc(a[0])) && StepAt(u, a, 0).next == |a|
    ensures Merge(u, a, b) <==> u.isSpace(b[0])
  {
    SpacesBetween(u, a, 0);
    if |a| > 1 {
      SpaceIsBlank(u, a[|a| - 1]);
    }
    forall i | 0 <= i < |a|
      ensures !JoinedFrom(a, i)
    {
      if i > 0 {
        SpaceIsBlank(u, a[i]);
      }
    }
  }

  lemma PlainSeam(u: Unicode, a: string, b: string)
    requires Standard(u) && b != "" && |a| == 1 && a[0] != SOFT_HYPHEN && !u.AllSpace(u.nfkc(a[0]))
    ensures Reads(u, a + b) == Reads(u, a) + Reads(u, b) <==> !Merge(u, a, b)
  {
    ReadsOn(u, a, u.nfkc(a[0]), 1, "");
    PlainMerges(u, a, b);
    if a[0] == '-' && Newline(b[0]) {
      HyphenLost(u, a, b);
    } else {
      PlainGoesOn(u, a, b);
    }
  }

  lemma PlainGoesOn(u: Unicode, a: string, b: string)
    requires b != "" && |a| == 1 && a[0] != SOFT_HYPHEN && !u.AllSpace(u.nfkc(a[0])) && !(a[0] == '-' && Newline(b[0]))
    ensures Reads(u, a + b) == u.nfkc(a[0]) + Reads(u, b)
  {
    PlainStep(u, a, b);
    assert (a + b)[1..] == b;
    ReadsOn(u, a + b, u.nfkc(a[0]), 1, b);
  }

  lemma HyphenLost(u: Unicode, a: string, b: string)
    requires Standard(u) && b != "" && a == "-" && Newline(b[0])
    ensures Reads(u, a + b) != u.nfkc('-') + Reads(u, b)
  {
    var k := AfterNewlines(b, 0);
    PlainStep(u, a, b);
    assert (a + b)[1 + k..] == b[k..];
    ReadsOn(u, a + b, "", 1 + k, b[k..]);
    NewlineStart(u, b, b[AfterNewlines(b, 0)..]);
    Longer(Reads(u, b[k..]), u.nfkc('-'), Reads(u, b));
  }

  lemma Longer(x: string, s: string, y: string)
    requires s != "" && |y| >= |x|
    ensures x != s + y
  {
  }

  lemma PlainStep(u: Unicode, a: string, b: string)
    requires b != "" && |a| == 1 && a[0] != SOFT_HYPHEN && !u.AllSpace(u.nfkc(a[0]))
    ensures StepAt(u, a + b, 0) == if a[0] == '-' && Newline(b[0]) then Step(1 + AfterNewlines(b, 0), "") else Step(1, u.nfkc(a[0]))
  {
    assert (a + b)[0] == a[0] && (a + b)[1] == b[0];
    AfterNewlinesOn(a, b, 1);
  }

  lemma PlainMerges(u: Unicode, a: string, b: string)
    requires b != "" && |a| == 1 && !u.AllSpace(u.nfkc(a[0]))
    ensures Merge(u, a, b) <==> a[0] == '-' && Newline(b[0])
  {
  }

  lemma LastSeam(u: Unicode, a: string, b: string)
    requires Standard(u) && b != "" && a != "" && StepAt(u, a, 0).next == |a|
    ensures Reads(u, a + b) == Reads(u, a) + Reads(u, b) <==> !Merge(u, a, b)
  {
    if a[0] == SOFT_HYPHEN {
      assert a == [SOFT_HYPHEN];
      SoftSeam(u, a, b);
    } else if JoinsLines(a, 0) {
      JoinSeam(u, a, b);
    } else if u.AllSpace(u.nfkc(a[0])) {
      BlankSeam(u, a, b);
    } else {
      PlainSeam(u, a, b);
    }
  }

  /** Two texts put together read as their readings put together, exactly when they do not merge. */
  lemma {:induction false} ReadsApart(u: Unicode, a: string, b: string)
    requires Standard(u)
    ensures Reads(u, a + b) == Reads(u, a) + Reads(u, b) <==> !Merge(u, a, b)
    decreases |a|
  {
    if a == "" {
      assert a + b == b;
    } else if b == "" {
      assert a + b == a;
    } else if StepAt(u, a, 0).next == |a| {
      LastSeam(u, a, b);
    } else {
      var s := StepAt(u, a, 0);
      var rest := a[s.next..];
      StepGrows(u, a, b);
      ReadsOn(u, a, s.text, s.next, rest);
      assert (a + b)[s.next..] == rest + b;
      ReadsOn(u, a + b, s.text, s.next, rest + b);
      ReadsApart(u, rest, b);
      MergeRest(u, a, b, s.next);
      SameTail(s.text, Reads(u, rest + b), Reads(u, rest), Reads(u, b));
    }
  }

  lemma MergeRest(u: Unicode, a: string, b: string, n: nat)
    requires Standard(u) && a != "" && n == StepAt(u, a, 0).next < |a|
    ensures Merge(u, a, b) <==> Merge(u, a[n..], b)
  {
    JoinedRest(u, a, n);
  }

  lemma SameTail(s: string, x: string, y: string, z: string)
    ensures s + x == (s + y) + z <==> x == y + z
  {
    assert (s + y) + z == s + (y + z);
    assert (s + x)[|s|..] == x;
    assert (s + (y + z))[|s|..] == y + z;
  }

  // ---------- The laws ----------

  /** Two texts put together normalise to their normal forms put together, exactly when they do not merge. */
  lemma NormalizesApart(u: Unicode, a: string, b: string)
    requires Standard(u)
    ensures Normalized(u, a + b) == Normalized(u, a) + Normalized(u, b) <==> !Merge(u, a, b)
  {
    ReadsApart(u, a, b);
    NormalizedReads(u, a);
    NormalizedReads(u, b);
    NormalizedReads(u, a + b);
  }

  /** Hyphens of either kind merge with nothing before them. */
  lemma HyphensPart(u: Unicode, a: string, y: string)
    requires Standard(u) && y != "" && (y[0] == '-' || y[0] == SOFT_HYPHEN)
    ensures Reads(u, a + y) == Reads(u, a) + Reads(u, y)
  {
    ReadsApart(u, a, y);
  }

  lemma SoftHyphenReads(u: Unicode, b: string, y: string)
    requires y == [SOFT_HYPHEN] + b
    ensures Reads(u, y) == Reads(u, b)
  {
    ReadsOn(u, y, "", 1, b);
  }

  /** A soft hyphen leaves nothing behind but keeps its sides apart. */
  lemma SoftHyphenParts(u: Unicode, a: string, b: string)
    requires Standard(u)
    ensures Normalized(u, a + [SOFT_HYPHEN] + b) == Normalized(u, a) + Normalized(u, b)
  {
    var y := [SOFT_HYPHEN] + b;
    assert a + [SOFT_HYPHEN] + b == a + y;
    HyphensPart(u, a, y);
    SoftHyphenReads(u, b, y);
    NormalizedReads(u, a);
    NormalizedReads(u, b);
    NormalizedReads(u, a + y);
  }

  /** Taking a soft hyphen out changes nothing exactly when its sides do not merge. */
  lemma SoftHyphenVanishes(u: Unicode, a: string, b: string)
    requires Standard(u)
    ensures Normalized(u, a + [SOFT_HYPHEN] + b) == Normalized(u, a + b) <==> !Merge(u, a, b)
  {
    SoftHyphenParts(u, a, b);
    NormalizesApart(u, a, b);
  }

  lemma BrokenLineReads(u: Unicode, nl: string, b: string, y: string)
    requires nl != "" && AllNewlines(nl) && (b == "" || !Newline(b[0])) && y == "-" + nl + b
    ensures Reads(u, y) == Reads(u, b)
  {
    HyphenRun(nl, b, y);
    assert y[1 + |nl|..] == b;
    ReadsOn(u, y, "", 1 + |nl|, b);
  }

  lemma HyphenRun(nl: string, b: string, y: string)
    requires nl != "" && AllNewlines(nl) && (b == "" || !Newline(b[0])) && y == "-" + nl + b
    ensures JoinsLines(y, 0) && AfterNewlines(y, 1) == 1 + |nl|
  {
    var x := "-" + nl;
    assert x[1..] == nl;
    AllAfterNewlines(x, 1);
    AfterNewlinesOn(x, b, 1);
    assert y[1] == nl[0];
  }

  /** A hyphen and the line breaks behind it leave nothing behind either. */
  lemma BrokenLineParts(u: Unicode, a: string, nl: string, b: string)
    requires Standard(u) && nl != "" && AllNewlines(nl) && (b == "" || !Newline(b[0]))
    ensures Normalized(u, a + "-" + nl + b) == Normalized(u, a) + Normalized(u, b)
  {
    var y := "-" + nl + b;
    assert a + "-" + nl + b == a + y;
    HyphensPart(u, a, y);
    BrokenLineReads(u, nl, b, y);
    NormalizedReads(u, a);
    NormalizedReads(u, b);
    NormalizedReads(u, a + y);
  }

  /** A word broken by a hyphen and line breaks reads as if it were in one piece, unless white space on its two sides
      merges. */
  lemma BrokenLineJoins(u: Unicode, a: string, nl: string, b: string)
    requires Standard(u) && nl != "" && AllNewlines(nl) && (b == "" || !Newline(b[0]))
    ensures Normalized(u, a + "-" + nl + b) == Normalized(u, a + b)
       <==> !(a != "" && b != "" && a[|a| - 1] != SOFT_HYPHEN && !EndsJoined(a) && u.AllSpace(u.nfkc(a[|a| - 1])) && u.isSpace(b[0]))
  {
    BrokenLineParts(u, a, nl, b);
    NormalizesApart(u, a, b);
  }

  /** A run of white space gives one space. */
  lemma BlankRun(u: Unicode, w: string)
    requires Standard(u) && w != "" && forall k :: 0 <= k < |w| ==> u.isSpace(w[k])
    ensures Normalized(u, w) == " "
  {
    AllSpaces(u, w, 0);
    BlankStart(u, w, "");
    NormalizedReads(u, w);
  }

  /** Every character in its compatibility form. */
  function Expanded(u: Unicode, v: string): string {
    if v == "" then "" else u.nfkc(v[0]) + Expanded(u, v[1..])
  }

  lemma {:induction false} PlainReads(u: Unicode, v: string)
    requires Standard(u) && forall k :: 0 <= k < |v| ==> v[k] != SOFT_HYPHEN && !u.AllSpace(u.nfkc(v[k]))
    ensures Reads(u, v) == Expanded(u, v)
  {
    if v != "" {
      if |v| > 1 {
        assert !u.AllSpace(u.nfkc(v[1]));
      }
      ReadsOn(u, v, u.nfkc(v[0]), 1, v[1..]);
      PlainReads(u, v[1..]);
    }
  }

  /** Without soft hyphens and white space a text gives the expansions of its characters. */
  lemma PlainText(u: Unicode, v: string)
    requires Standard(u) && forall k :: 0 <= k < |v| ==> v[k] != SOFT_HYPHEN && !u.AllSpace(u.nfkc(v[k]))
    ensures Normalized(u, v) == Expanded(u, v)
  {
    PlainReads(u, v);
    NormalizedReads(u, v);
  }
}
