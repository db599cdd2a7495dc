/** Learned patterns: their supersession links (apps/api/app/memory/api.py) and their promotion
    (apps/api/app/memory/service.py). */
module Patterns {
  import opened Wrappers
  import opened Supersession

  datatype Pattern = Pattern(verified: nat, successes: real, total: real, promoted: bool, next: Option<Id>)

  datatype VerifierKind = Ci | Runtime | Test | Build | SelfReport | Custom

  datatype Verifier = Verifier(kind: VerifierKind, passed: bool)

  datatype Result = Success | Partial | Failed | Cancelled

  datatype Event =
    | Outcome(key: Id, verifiers: seq<Verifier>, result: Result)
    | Feedback(key: Id, score: int)
    | Replace(key: Id, other: Id)

  // ---------- Promotion ----------

  function Min(a: real, b: real): real {
    if a <= b then a else b
  }

  function Max(a: real, b: real): real {
    if a >= b then a else b
  }

  function Weight(kind: VerifierKind): real {
    match kind
    case Ci => 1.0
    case Runtime => 1.0
    case Test => 0.6
    case Build => 0.6
    case SelfReport => 0.2
    case Custom => 0.2
  }

  /** The weight of the best verifier that passed. */
  function VerifierWeight(verifiers: seq<Verifier>): real {
    if verifiers == [] then 0.0
    else
      var rest := VerifierWeight(verifiers[1..]);
      if verifiers[0].passed then Max(Weight(verifiers[0].kind), rest) else rest
  }

  /** What an outcome adds to the successes: all, half or nothing of its weight. */
  function Credit(quality: real, result: Result): real {
    match result
    case Success => quality
    case Partial => quality * 0.5
    case Failed => 0.0
    case Cancelled => 0.0
  }

  function Confidence(successes: real, total: real): real {
    var boundedTotal := Max(0.0, total);
    (Min(boundedTotal, Max(0.0, successes)) + 1.0) / (boundedTotal + 2.0)
  }

  predicate IsPromoted(verified: nat, confidence: real) {
    verified >= 3 && confidence >= 0.7
  }

  function Judged(p: Pattern): Pattern {
    p.(promoted := IsPromoted(p.verified, Confidence(p.successes, p.total)))
  }

  function Credited(p: Pattern, quality: real, credit: real): Pattern {
    p.(verified := if quality > 0.0 then p.verified + 1 else p.verified, successes := p.successes + credit,
       total := p.total + quality)
  }

  const FRESH := Pattern(0, 0.0, 0.0, false, None)

  // ---------- The operations ----------

  function Answered(t: map<Id, Pattern>, e: Event): Answer {
    match e
    case Outcome(_, _, _) => Done
    case Feedback(key, _) => if key in t then Done else NotFound
    case Replace(key, other) =>
      if key == other then Itself
      else if key !in t || other !in t then NotFound
      else if t[key].next.Some? || t[other].next.Some? then AlreadySuperseded
      else Done
  }

  /** An outcome creates its pattern if need be; feedback and supersession ask for it to be there. */
  function After(t: map<Id, Pattern>, e: Event): map<Id, Pattern> {
    if !Answered(t, e).Done? then t
    else
      match e
      case Outcome(key, verifiers, result) =>
        var p := if key in t then t[key] else FRESH;
        var quality := VerifierWeight(verifiers);
        t[key := Judged(Credited(p, quality, Credit(quality, result)))]
      case Feedback(key, score) =>
        t[key := Judged(t[key].(successes := Max(0.0, t[key].successes + score as real * 0.1)))]
      case Replace(key, other) => t[key := t[key].(promoted := false, next := Some(other))]
  }

  function History(es: seq<Event>): map<Id, Pattern> {
    if es == [] then map[] else After(History(es[..|es| - 1]), es[|es| - 1])
  }

  // ---------- Links ----------

  ghost function PatternLinks(t: map<Id, Pattern>): map<Id, Id> {
    map x | x in t && t[x].next.Some? :: t[x].next.value
  }

  lemma StepStaysAcyclic(t: map<Id, Pattern>, e: Event)
    requires Acyclic(PatternLinks(t))
    ensures Acyclic(PatternLinks(After(t, e)))
    ensures SubLinks(PatternLinks(t), PatternLinks(After(t, e)))
  {
    if e.Replace? && Answered(t, e).Done? {
      UnlinkedReachesItself(PatternLinks(t), e.other, e.key);
      LinkClosesCycle(PatternLinks(t), e.key, e.other);
      assert PatternLinks(After(t, e)) == PatternLinks(t)[e.key := e.other];
    } else {
      FewerStayAcyclic(PatternLinks(After(t, e)), PatternLinks(t));
    }
  }

  /** In every history pattern links are acyclic, and a link once written never changes. */
  lemma {:induction false} LinksAreFinal(es: seq<Event>, n: nat)
    requires n <= |es|
    ensures Acyclic(PatternLinks(History(es)))
    ensures SubLinks(PatternLinks(History(es[..n])), PatternLinks(History(es)))
  {
    if es == [] {
      NoLinks();
    } else {
      var m := |es| - 1;
      LinksAreFinal(es[..m], if n <= m then n else m);
      StepStaysAcyclic(History(es[..m]), es[m]);
      if n <= m {
        assert es[..m][..n] == es[..n];
      } else {
        assert es[..n] == es;
      }
    }
  }

  lemma NoLinks()
    ensures Acyclic(PatternLinks(map[]))
  {
    forall x
      ensures !OnCycle(PatternLinks(map[]), x)
    {
      assert At(PatternLinks(map[]), x, 1) == None;
      forall n: nat | n > 0
        ensures At(PatternLinks(map[]), x, n) == None
      {
        StaysEnded(PatternLinks(map[]), x, 1, n);
      }
    }
  }

  // ---------- Promotion of superseded patterns ----------

  /** Counters never fall below zero. */
  ghost predicate Counted(t: map<Id, Pattern>) {
    forall x :: x in t ==> t[x].successes >= 0.0 && t[x].total >= 0.0
  }

  lemma {:induction false} WeightInRange(verifiers: seq<Verifier>)
    ensures 0.0 <= VerifierWeight(verifiers) <= 1.0
  {
    if verifiers != [] {
      WeightInRange(verifiers[1..]);
    }
  }

  lemma {:induction false} HistoriesCount(es: seq<Event>)
    ensures Counted(History(es))
  {
    if es != [] {
      HistoriesCount(es[..|es| - 1]);
      if es[|es| - 1].Outcome? {
        WeightInRange(es[|es| - 1].verifiers);
      }
    }
  }

  /** What the counters have to be for a promotion: three verified outcomes, and enough successes. */
  predicate Deserves(verified: nat, successes: real, total: real) {
    verified >= 3 && 10.0 * Min(total, successes) >= 7.0 * total + 4.0
  }

  /** The weight of an outcome is that of the best verifier that passed, and nothing without one. */
  lemma {:induction false} VerifierWeightIsBest(verifiers: seq<Verifier>)
    ensures forall i :: 0 <= i < |verifiers| && verifiers[i].passed ==> Weight(verifiers[i].kind) <= VerifierWeight(verifiers)
    ensures VerifierWeight(verifiers) == 0.0 || exists i :: 0 <= i < |verifiers| && verifiers[i].passed && Weight(verifiers[i].kind) == VerifierWeight(verifiers)
  {
    if verifiers != [] {
      var rest := verifiers[1..];
      VerifierWeightIsBest(rest);
      forall i | 0 <= i < |verifiers| && verifiers[i].passed
        ensures Weight(verifiers[i].kind) <= VerifierWeight(verifiers)
      {
        assert i > 0 ==> rest[i - 1] == verifiers[i];
      }
      if VerifierWeight(verifiers) != 0.0 && VerifierWeight(verifiers) == VerifierWeight(rest) {
        var i :| 0 <= i < |rest| && rest[i].passed && Weight(rest[i].kind) == VerifierWeight(rest);
        assert verifiers[i + 1] == rest[i];
      }
    }
  }

  /** Five reports by the agent itself weigh as much as one run of CI, and three as much as one test or build. */
  lemma ReportsAddUp(kind: VerifierKind)
    ensures Weight(kind) in {Weight(Ci), Weight(Test), Weight(SelfReport)}
    ensures 5.0 * Weight(SelfReport) == Weight(Ci) == Weight(Runtime) && 3.0 * Weight(SelfReport) == Weight(Test) == Weight(Build)
    ensures Weight(Custom) == Weight(SelfReport) > 0.0
  {
  }

  lemma OneOutcome(es: seq<Event>, more: seq<Event>, key: Id, verifiers: seq<Verifier>, result: Result, q: real)
    requires more == es + [Outcome(key, verifiers, result)] && q == VerifierWeight(verifiers)
    ensures var p := if key in History(es) then History(es)[key] else FRESH;
            History(more) == History(es)[key := Judged(Credited(p, q, Credit(q, result)))]
  {
    assert more[..|es|] == es;
  }

  lemma CreditsAddUp(p: Pattern, q: real, a: real, b: real, c: real, d: real)
    requires a + b == c + d
    ensures Judged(Credited(Judged(Credited(p, q, a)), q, b)) == Judged(Credited(Judged(Credited(p, q, c)), q, d))
  {
    var (x, y) := (Credited(Judged(Credited(p, q, a)), q, b), Credited(Judged(Credited(p, q, c)), q, d));
    assert x.successes == y.successes && x.verified == y.verified && x.total == y.total && x.next == y.next;
  }

  lemma TwoOutcomes(es: seq<Event>, one: seq<Event>, two: seq<Event>, key: Id, verifiers: seq<Verifier>, a: Result, b: Result, q: real)
    requires one == es + [Outcome(key, verifiers, a)] && two == one + [Outcome(key, verifiers, b)] && q == VerifierWeight(verifiers)
    ensures var p := if key in History(es) then History(es)[key] else FRESH;
            History(two) == History(es)[key := Judged(Credited(Judged(Credited(p, q, Credit(q, a))), q, Credit(q, b)))]
  {
    OneOutcome(es, one, key, verifiers, a, q);
    OneOutcome(one, two, key, verifiers, b, q);
  }

  lemma Together(es: seq<Event>, a: Event, b: Event)
    ensures es + [a, b] == (es + [a]) + [b]
  {
  }

  /** In every history two partial successes leave what a success and a failure leave. */
  lemma PartialsAreHalves(es: seq<Event>, key: Id, verifiers: seq<Verifier>)
    ensures History(es + [Outcome(key, verifiers, Partial), Outcome(key, verifiers, Partial)])
         == History(es + [Outcome(key, verifiers, Success), Outcome(key, verifiers, Result.Failed)])
  {
    var q := VerifierWeight(verifiers);
    var p := if key in History(es) then History(es)[key] else FRESH;
    var half, full, none := Outcome(key, verifiers, Partial), Outcome(key, verifiers, Success), Outcome(key, verifiers, Result.Failed);
    Together(es, half, half);
    Together(es, full, none);
    TwoOutcomes(es, es + [half], es + [half] + [half], key, verifiers, Partial, Partial, q);
    TwoOutcomes(es, es + [full], es + [full] + [none], key, verifiers, Success, Result.Failed, q);
    CreditsAddUp(p, q, Credit(q, Partial), Credit(q, Partial), Credit(q, Success), Credit(q, Result.Failed));
  }

  lemma QuotientReaches(a: real, d: real, c: real)
    requires d > 0.0
    ensures a / d >= c <==> a >= c * d
  {
    var q := a / d;
    assert q * d == a;
    assert (q - c) * d == a - c * d;
    if q >= c {
      assert (q - c) * d >= 0.0;
    } else {
      assert (q - c) * d < 0.0;
    }
  }

  lemma PromotedIffDeserved(verified: nat, successes: real, total: real)
    requires successes >= 0.0 && total >= 0.0
    ensures IsPromoted(verified, Confidence(successes, total)) <==> Deserves(verified, successes, total)
  {
    assert Confidence(successes, total) == (Min(total, successes) + 1.0) / (total + 2.0);
    QuotientReaches(Min(total, successes) + 1.0, total + 2.0, 0.7);
  }

  /** Feedback promotes a pattern, superseded or not, exactly when its counters deserve it after the score. */
  lemma FeedbackPromotesIff(es: seq<Event>, key: Id, score: int)
    requires key in History(es)
    ensures var p, after := History(es)[key], History(es + [Feedback(key, score)])[key];
            && after.next == p.next
            && (after.promoted <==> Deserves(p.verified, Max(0.0, p.successes + score as real * 0.1), p.total))
  {
    var p := History(es)[key];
    HistoriesCount(es);
    assert (es + [Feedback(key, score)])[..|es|] == es;
    PromotedIffDeserved(p.verified, Max(0.0, p.successes + score as real * 0.1), p.total);
  }

  predicate Scores(t: map<Id, Pattern>, e: Event, key: Id) {
    e.key == key && (e.Outcome? || (e.Feedback? && key in t))
  }

  /** The last score of the pattern found it superseded. */
  predicate ScoredSince(es: seq<Event>, key: Id) {
    es != [] &&
    var before := History(es[..|es| - 1]);
    if Scores(before, es[|es| - 1], key) then key in before && before[key].next.Some?
    else ScoredSince(es[..|es| - 1], key)
  }

  lemma {:induction false} ScoredSinceIsLinked(es: seq<Event>, key: Id)
    requires ScoredSince(es, key)
    ensures key in History(es) && History(es)[key].next.Some?
  {
    if !Scores(History(es[..|es| - 1]), es[|es| - 1], key) {
      ScoredSinceIsLinked(es[..|es| - 1], key);
    }
  }

  /** In every history a superseded pattern is promoted exactly when it was scored after its supersession and
      the counters that its last score left deserve it. */
  lemma {:induction false} SupersededPromotedIff(es: seq<Event>, key: Id)
    requires key in History(es) && History(es)[key].next.Some?
    ensures var p := History(es)[key];
            p.promoted <==> ScoredSince(es, key) && Deserves(p.verified, p.successes, p.total)
  {
    var n := |es| - 1;
    var before, e := History(es[..n]), es[n];
    if Scores(before, e, key) {
      HistoriesCount(es);
      var p := History(es)[key];
      PromotedIffDeserved(p.verified, p.successes, p.total);
    } else if key in before && before[key].next.Some? {
      SupersededPromotedIff(es[..n], key);
    } else if ScoredSince(es[..n], key) {
      ScoredSinceIsLinked(es[..n], key);
    }
  }

  const WON := Outcome(1, [Verifier(Ci, true)], Success)

  function Winner(n: nat, next: Option<Id>, promoted: bool): Pattern {
    Pattern(n, n as real, n as real, promoted, next)
  }

  /** Key 1 has won `n` times. */
  ghost predicate Won(es: seq<Event>, n: nat) {
    if n == 0 then 1 !in History(es) else 1 in History(es) && History(es)[1] == Winner(n, None, n >= 3)
  }

  lemma WinOnce(es: seq<Event>, n: nat)
    requires n < 3 && Won(es, n)
    ensures Won(es + [WON], n + 1)
  {
    Extend(es, WON);
    assert [Verifier(Ci, true)][1..] == [];
    assert VerifierWeight([Verifier(Ci, true)]) == 1.0;
    PromotedIffDeserved(n + 1, (n + 1) as real, (n + 1) as real);
  }

  lemma Appear(es: seq<Event>)
    requires Won(es, 3) && 2 !in History(es)
    ensures Won(es + [Outcome(2, [], Success)], 3)
    ensures var t := History(es + [Outcome(2, [], Success)]); 2 in t && t[2].next == None
  {
    Extend(es, Outcome(2, [], Success));
  }

  lemma GiveWay(es: seq<Event>)
    requires Won(es, 3) && 2 in History(es) && History(es)[2].next == None
    ensures var t := History(es + [Replace(1, 2)]); 1 in t && t[1] == Winner(3, Some(2), false)
  {
    Extend(es, Replace(1, 2));
  }

  /** One more win of a pattern that has the table for itself. */
  lemma WinsAlone(es: seq<Event>, n: nat)
    requires n < 3 && Won(es, n) && 2 !in History(es)
    ensures Won(es + [WON], n + 1) && 2 !in History(es + [WON])
  {
    WinOnce(es, n);
    Extend(es, WON);
  }

  lemma ThreeWins(none: seq<Event>) returns (es: seq<Event>)
    requires none == []
    ensures |es| == 3 && Won(es, 3) && 2 !in History(es)
  {
    var one := none + [WON];
    var two := one + [WON];
    es := two + [WON];
    WinsAlone(none, 0);
    WinsAlone(one, 1);
    WinsAlone(two, 2);
  }

  /** Three successes under CI, a replacement with an outcome of its own, the supersession, neutral feedback: the
      pattern ends superseded and promoted, at confidence 4/5. */
  lemma SupersededCanBePromoted() returns (es: seq<Event>)
    ensures |es| == 6 && es[4] == Replace(1, 2) && es[5] == Feedback(1, 0)
    ensures 1 in History(es) && History(es)[1].next == Some(2) && History(es)[1].promoted
    ensures var p := History(es)[1]; Confidence(p.successes, p.total) == 0.8
  {
    var won := ThreeWins([]);
    Appear(won);
    var rivals := won + [Outcome(2, [], Success)];
    GiveWay(rivals);
    var replaced := rivals + [Replace(1, 2)];
    Praise(replaced);
    es := replaced + [Feedback(1, 0)];
  }

  lemma Praise(es: seq<Event>)
    requires 1 in History(es) && History(es)[1] == Winner(3, Some(2), false)
    ensures var t := History(es + [Feedback(1, 0)]);
            1 in t && t[1] == Winner(3, Some(2), true) && Confidence(t[1].successes, t[1].total) == 0.8
  {
    Extend(es, Feedback(1, 0));
    PromotedIffDeserved(3, 3.0, 3.0);
  }

  lemma Extend(es: seq<Event>, e: Event)
    ensures History(es + [e]) == After(History(es), e)
  {
    assert (es + [e])[..|es|] == es;
  }

  /** Promoted exactly when deserved. */
  predicate Earned(p: Pattern) {
    p.promoted <==> Deserves(p.verified, p.successes, p.total)
  }

  lemma JudgedIsEarned(p: Pattern)
    requires p.successes >= 0.0 && p.total >= 0.0
    ensures Earned(Judged(p))
  {
    PromotedIffDeserved(p.verified, p.successes, p.total);
  }

  // ---------- The endpoints ----------

  class PatternTable {
    var patterns: map<Id, Pattern>

    constructor ()
      ensures patterns == History([])
    {
      patterns := map[];
    }

    /** The outcome is credited to its pattern, which is promoted exactly when its counters then deserve it. */
    method RecordOutcome(key: Id, verifiers: seq<Verifier>, result: Result)
      modifies this
      ensures patterns == After(old(patterns), Outcome(key, verifiers, result))
      ensures Counted(old(patterns)) ==> Counted(patterns)
      ensures key in patterns && (Counted(old(patterns)) ==> Earned(patterns[key]))
      ensures patterns[key].next == if key in old(patterns) then old(patterns)[key].next else None
    {
      var p := if key in patterns then patterns[key] else FRESH;
      var quality := VerifierWeight(verifiers);
      WeightInRange(verifiers);
      p := Credited(p, quality, Credit(quality, result));
      if Counted(patterns) {
        JudgedIsEarned(p);
      }
      patterns := patterns[key := Judged(p)];
    }

    /** Feedback moves a pattern's successes and nothing else, and promotes it exactly when they then deserve it. */
    method FeedbackPattern(key: Id, score: int) returns (r: Answer)
      modifies this
      ensures r == Answered(old(patterns), Feedback(key, score))
      ensures patterns == After(old(patterns), Feedback(key, score))
      ensures Counted(old(patterns)) ==> Counted(patterns)
      ensures r.Done? ==>
                && key in old(patterns) && key in patterns && (Counted(old(patterns)) ==> Earned(patterns[key]))
                && patterns[key].next == old(patterns)[key].next && patterns[key].total == old(patterns)[key].total
                && patterns[key].verified == old(patterns)[key].verified
    {
      if key !in patterns {
        return NotFound;
      }
      var p := patterns[key].(successes := Max(0.0, patterns[key].successes + score as real * 0.1));
      if Counted(patterns) {
        JudgedIsEarned(p);
      }
      patterns := patterns[key := Judged(p)];
      r := Done;
    }

    method WalkPatterns(key: Id, start: Id) returns (r: Answer)
      requires start in patterns
      ensures r.Done? || r.WouldCycle? || r.BrokenChain?
      ensures r.Done? ==> Accepts(PatternLinks(patterns), key, start)
      ensures r.WouldCycle? ==> !Accepts(PatternLinks(patterns), key, start)
      ensures r.BrokenChain? ==> start in PatternLinks(patterns)
    {
      var cursor := start;
      var visited := {key};
      ghost var n: nat := 0;
      ghost var links := PatternLinks(patterns);
      while true
        invariant cursor in patterns
        invariant Seen(links, start, key, visited, n) && At(links, start, n) == Some(cursor)
        decreases |patterns.Keys - visited|
      {
        ghost var before := visited;
        if cursor in visited {
          WalkRejects(links, start, key, visited, n, cursor);
          return WouldCycle;
        }
        SeenGrows(links, start, key, visited, n, cursor);
        Shrinks(patterns.Keys, visited, cursor);
        visited := visited + {cursor};
        if patterns[cursor].next.None? {
          WalkAccepts(links, start, key, before, n, cursor);
          return Done;
        }
        var next := patterns[cursor].next.value;
        if next !in patterns {
          StartsLinked(links, start, n, cursor);
          return BrokenChain;
        }
        cursor, n := next, n + 1;
      }
    }

    /** The chain walk here stops at once: the replacement was just found to have no link. */
    method SupersedePattern(key: Id, other: Id) returns (r: Answer)
      modifies this
      ensures r == Answered(old(patterns), Replace(key, other))
      ensures patterns == After(old(patterns), Replace(key, other))
    {
      if key == other {
        return Itself;
      }
      if key !in patterns || other !in patterns {
        return NotFound;
      }
      if patterns[key].next.Some? || patterns[other].next.Some? {
        return AlreadySuperseded;
      }
      UnlinkedReachesItself(PatternLinks(patterns), other, key);
      r := WalkPatterns(key, other);
      if !r.Done? {
        return;
      }
      patterns := patterns[key := patterns[key].(promoted := false, next := Some(other))];
    }
  }
}
