/** Whole histories of the graph: what holds after any sequence of extractions, consolidations and
    collections, and after any sequence of crashes, failures and retries of an extraction. */
module GraphRuns {
  import opened Wrappers
  import opened GraphTables
  import opened Pipeline
  import Collector
  import E = Evidence

  datatype Event =
    | Arrive(chunk: int, content: Chunk)
    | Start(chunk: int) | Store(chunk: int, raw: Raw) | Fail(chunk: int)
    | Consolidated(document: int, run: int, relations: seq<FoundRelation>, aliases: seq<FoundAlias>)
    | Removed(document: int) | Collected(document: int)

  ghost function Step(x: Reading, t: Tables, e: Event): Tables {
    match e
    case Arrive(c, content) => if c in t.chunks then t else t.(chunks := t.chunks[c := content])
    case Start(c) => Begin(t, c)
    case Store(c, raw) => if c in t.chunks then Persist(x, t, c, raw) else t
    case Fail(c) => MarkFailed(t, c)
    case Consolidated(document, run, relations, aliases) => Consolidate(x, t, document, run, relations, aliases).t
    case Removed(document) => Collector.Removed(t, document)
    case Collected(document) => Collector.Cleanup(t, document)
  }

  ghost function RunAll(x: Reading, t: Tables, events: seq<Event>): Tables {
    if events == [] then t
    else
      var n := |events| - 1;
      Step(x, RunAll(x, t, events[..n]), events[n])
  }

  // ---------- Provenance ----------

  lemma ArriveKeepsProvenance(t: Tables, c: int, content: Chunk)
    requires Provenance(t) && c !in t.chunks
    ensures Provenance(t.(chunks := t.chunks[c := content]))
  {
    var t' := t.(chunks := t.chunks[c := content]);
    forall k | k in t'.evidence
      ensures Sound(t', k)
    {
      assert Sound(t, k);
      if k.relation.Some? {
        var d := t.chunks[k.chunk].document;
        var a :| a in t.evidence && From(t, a, d) && a.entity == Some(k.relation.value.source);
        var b :| b in t.evidence && From(t, b, d) && b.entity == Some(k.relation.value.target);
        assert From(t', a, d) && From(t', b, d);
      }
    }
    forall r | r in t'.relations
      ensures Joined(t', r)
    {
      assert Joined(t, r);
    }
    forall l | l in t'.aliasEvidence
      ensures Linked(t', l)
    {
      assert Linked(t, l);
    }
    assert forall a :: a in t'.aliases ==> t.aliases[a] in t'.entities;
  }

  lemma StepKeepsProvenance(x: Reading, t: Tables, e: Event)
    requires x.unicode.Sane() && Provenance(t)
    ensures Provenance(Step(x, t, e))
  {
    match e {
      case Arrive(c, content) =>
        if c !in t.chunks {
          ArriveKeepsProvenance(t, c, content);
        }
      case Start(c) => RunsDoNotMatter(t, Begin(t, c).runs);
      case Store(c, raw) =>
        if c in t.chunks {
          PersistKeepsProvenance(x, t, c, raw);
        }
      case Fail(c) => RunsDoNotMatter(t, MarkFailed(t, c).runs);
      case Consolidated(document, run, relations, aliases) =>
        ConsolidateKeepsProvenance(x, t, document, run, relations, aliases);
      case Removed(document) => Collector.RemovalKeepsProvenance(t, document);
      case Collected(document) => Collector.CleanupKeepsProvenance(t, document);
    }
  }

  /** After every history: evidence has one stored subject and quotes its chunk, relations join distinct
      stored entities, and a document's relations come with its evidence for both endpoints. */
  lemma {:induction false} HistoriesKeepProvenance(x: Reading, t: Tables, events: seq<Event>)
    requires x.unicode.Sane() && Provenance(t)
    ensures Provenance(RunAll(x, t, events))
  {
    if events != [] {
      var n := |events| - 1;
      HistoriesKeepProvenance(x, t, events[..n]);
      StepKeepsProvenance(x, RunAll(x, t, events[..n]), events[n]);
    }
  }

  const NOTHING := Tables(map[], map[], {}, {}, map[], map[], {}, {})

  /** In every state that writers can bring about, the collector leaves no orphan of the document. */
  lemma CollectorIsCompleteInHistory(x: Reading, events: seq<Event>, document: int, e: EntityId)
    requires x.unicode.Sane()
    requires var t := RunAll(x, NOTHING, events); e in t.entities && Collector.Contributed(t, document, e)
    ensures var t := RunAll(x, NOTHING, events);
            var t' := Collector.Cleanup(t, document);
            e in t'.entities <==> Collector.Supported(t', e) || Collector.Related(t', e) || Collector.Tied(t, document, e)
  {
    HistoriesKeepProvenance(x, NOTHING, events);
    Collector.CollectorIsComplete(RunAll(x, NOTHING, events), document, e);
  }

  // ---------- Crashes and retries ----------

  /** The chunk's recorded extraction counts. */
  ghost predicate Counts(t: Tables, c: int) {
    c in t.chunks && Done(t, c) && t.runs[c].raw.Some?
  }

  ghost function LocatedIn(x: Reading, t: Tables, c: int): seq<Located>
    requires Counts(t, c)
  {
    Locate(x, t.chunks[c].text, t.runs[c].raw.value.entities)
  }

  ghost function FactsIn(x: Reading, t: Tables, c: int): seq<Fact>
    requires Counts(t, c)
  {
    Facts(x, t.chunks[c].text, LocatedIn(x, t, c), t.runs[c].raw.value.relations)
  }

  ghost predicate GivesEntity(x: Reading, t: Tables, c: int, e: EntityId) {
    Counts(t, c) && exists l :: l in LocatedIn(x, t, c) && l.id == e
  }

  ghost predicate GivesRelation(x: Reading, t: Tables, c: int, r: RelationId) {
    Counts(t, c) && exists f :: f in FactsIn(x, t, c) && f.relation == r
  }

  ghost predicate SomeGivesEntity(x: Reading, t: Tables, e: EntityId) {
    exists c :: GivesEntity(x, t, c, e)
  }

  ghost predicate SomeGivesRelation(x: Reading, t: Tables, r: RelationId) {
    exists c :: GivesRelation(x, t, c, r)
  }

  ghost predicate GivesEvidence(x: Reading, t: Tables, k: EvidenceId) {
    || (k.entity.Some? && k == EntityEvidence(k.chunk, k.entity.value) && GivesEntity(x, t, k.chunk, k.entity.value))
    || (k.relation.Some? && k == RelationEvidence(k.chunk, k.relation.value) && GivesRelation(x, t, k.chunk, k.relation.value))
  }

  /** The stored keys are exactly what the recorded extractions of the succeeded runs give. */
  ghost predicate Folded(x: Reading, t: Tables) {
    && (forall e :: e in t.entities <==> SomeGivesEntity(x, t, e))
    && (forall r :: r in t.relations <==> SomeGivesRelation(x, t, r))
    && (forall k :: k in t.evidence <==> GivesEvidence(x, t, k))
  }

  lemma {:induction false} AddEntitiesKeys(t: Tables, c: int, located: seq<Located>)
    ensures var t' := AddEntities(t, c, located);
            && (forall e :: e in t'.entities <==> e in t.entities || exists l :: l in located && l.id == e)
            && (forall k :: k in t'.evidence <==> k in t.evidence || exists l :: l in located && k == EntityEvidence(c, l.id))
            && t'.relations == t.relations && t'.runs == t.runs && t'.chunks == t.chunks
  {
    if located != [] {
      var n := |located| - 1;
      AddEntitiesKeys(t, c, located[..n]);
      assert located == located[..n] + [located[n]];
    }
  }

  lemma {:induction false} AddFactsKeys(t: Tables, c: int, facts: seq<Fact>)
    ensures var t' := AddFacts(t, c, facts);
            && (forall r :: r in t'.relations <==> r in t.relations || exists f :: f in facts && f.relation == r)
            && (forall k :: k in t'.evidence <==> k in t.evidence || exists f :: f in facts && k == RelationEvidence(c, f.relation))
            && t'.entities == t.entities && t'.runs == t.runs && t'.chunks == t.chunks
  {
    if facts != [] {
      var n := |facts| - 1;
      AddFactsKeys(t, c, facts[..n]);
      assert facts == facts[..n] + [facts[n]];
    }
  }

  /** A chunk gives the same wherever it counts with the same text and the same recording. */
  lemma SameGift(x: Reading, t: Tables, t': Tables, c: int)
    requires Counts(t, c) <==> Counts(t', c)
    requires Counts(t, c) ==> t'.chunks[c] == t.chunks[c] && t'.runs[c] == t.runs[c]
    ensures forall e :: GivesEntity(x, t', c, e) <==> GivesEntity(x, t, c, e)
    ensures forall r :: GivesRelation(x, t', c, r) <==> GivesRelation(x, t, c, r)
  {
    if Counts(t, c) {
      assert LocatedIn(x, t', c) == LocatedIn(x, t, c);
      assert FactsIn(x, t', c) == FactsIn(x, t, c);
    }
  }

  /** The chunks of `t` and `t'` that count are the same, with the same texts and recordings. */
  ghost predicate SameCounts(t: Tables, t': Tables) {
    && (forall c :: Counts(t, c) <==> Counts(t', c))
    && (forall c {:trigger Counts(t, c)} :: Counts(t, c) ==> t'.chunks[c] == t.chunks[c] && t'.runs[c] == t.runs[c])
  }

  lemma SomeSame(x: Reading, t: Tables, t': Tables)
    requires SameCounts(t, t')
    ensures forall e :: SomeGivesEntity(x, t', e) <==> SomeGivesEntity(x, t, e)
    ensures forall r :: SomeGivesRelation(x, t', r) <==> SomeGivesRelation(x, t, r)
  {
    forall e
      ensures SomeGivesEntity(x, t', e) <==> SomeGivesEntity(x, t, e)
    {
      if c :| GivesEntity(x, t', c, e) {
        SameGift(x, t, t', c);
        assert GivesEntity(x, t, c, e);
      }
      if c :| GivesEntity(x, t, c, e) {
        SameGift(x, t, t', c);
        assert GivesEntity(x, t', c, e);
      }
    }
    forall r
      ensures SomeGivesRelation(x, t', r) <==> SomeGivesRelation(x, t, r)
    {
      if c :| GivesRelation(x, t', c, r) {
        SameGift(x, t, t', c);
        assert GivesRelation(x, t, c, r);
      }
      if c :| GivesRelation(x, t, c, r) {
        SameGift(x, t, t', c);
        assert GivesRelation(x, t', c, r);
      }
    }
  }

  /** The same keys and the same chunks that count fold the same. */
  lemma SameFold(x: Reading, t: Tables, t': Tables)
    requires Folded(x, t) && SameCounts(t, t')
    requires t'.entities == t.entities && t'.relations == t.relations && t'.evidence == t.evidence
    ensures Folded(x, t')
  {
    SomeSame(x, t, t');
    forall k
      ensures GivesEvidence(x, t', k) <==> GivesEvidence(x, t, k)
    {
      SameGift(x, t, t', k.chunk);
    }
  }

  /** The keys after persisting a chunk that had not succeeded. */
  lemma PersistKeys(x: Reading, t: Tables, c: int, raw: Raw)
    requires c in t.chunks && !Done(t, c)
    ensures var t' := Persist(x, t, c, raw);
            && t'.chunks == t.chunks && t'.runs == t.runs[c := Run(Succeeded, Some(raw))]
            && (forall e :: e in t'.entities <==> e in t.entities || GivesEntity(x, t', c, e))
            && (forall r :: r in t'.relations <==> r in t.relations || GivesRelation(x, t', c, r))
            && (forall k :: k in t'.evidence <==> k in t.evidence || (k.chunk == c && GivesEvidence(x, t', k)))
  {
    var t', text := Persist(x, t, c, raw), t.chunks[c].text;
    var located := Locate(x, text, raw.entities);
    var facts := Facts(x, text, located, raw.relations);
    AddEntitiesKeys(t, c, located);
    AddFactsKeys(AddEntities(t, c, located), c, facts);
    assert LocatedIn(x, t', c) == located && FactsIn(x, t', c) == facts;
  }

  lemma OthersGiveTheSame(x: Reading, t: Tables, t': Tables, c: int)
    requires t'.chunks == t.chunks && !Done(t, c)
    requires forall d :: d != c ==> (d in t.runs <==> d in t'.runs) && (d in t.runs ==> t'.runs[d] == t.runs[d])
    ensures forall d, e :: d != c ==> (GivesEntity(x, t', d, e) <==> GivesEntity(x, t, d, e))
    ensures forall d, r :: d != c ==> (GivesRelation(x, t', d, r) <==> GivesRelation(x, t, d, r))
    ensures forall e :: !GivesEntity(x, t, c, e)
    ensures forall r :: !GivesRelation(x, t, c, r)
  {
  }

  lemma SomeMore(x: Reading, t: Tables, t': Tables, c: int)
    requires t'.chunks == t.chunks && !Done(t, c)
    requires forall d :: d != c ==> (d in t.runs <==> d in t'.runs) && (d in t.runs ==> t'.runs[d] == t.runs[d])
    ensures forall e :: SomeGivesEntity(x, t', e) <==> SomeGivesEntity(x, t, e) || GivesEntity(x, t', c, e)
    ensures forall r :: SomeGivesRelation(x, t', r) <==> SomeGivesRelation(x, t, r) || GivesRelation(x, t', c, r)
  {
    OthersGiveTheSame(x, t, t', c);
    forall e
      ensures SomeGivesEntity(x, t', e) <==> SomeGivesEntity(x, t, e) || GivesEntity(x, t', c, e)
    {
      if d :| GivesEntity(x, t, d, e) {
        assert GivesEntity(x, t', d, e);
      }
      if d :| GivesEntity(x, t', d, e) {
        assert d == c || GivesEntity(x, t, d, e);
      }
    }
    forall r
      ensures SomeGivesRelation(x, t', r) <==> SomeGivesRelation(x, t, r) || GivesRelation(x, t', c, r)
    {
      if d :| GivesRelation(x, t, d, r) {
        assert GivesRelation(x, t', d, r);
      }
      if d :| GivesRelation(x, t', d, r) {
        assert d == c || GivesRelation(x, t, d, r);
      }
    }
  }

  lemma MoreEvidence(x: Reading, t: Tables, t': Tables, c: int, k: EvidenceId)
    requires t'.chunks == t.chunks && !Done(t, c)
    requires forall d :: d != c ==> (d in t.runs <==> d in t'.runs) && (d in t.runs ==> t'.runs[d] == t.runs[d])
    ensures GivesEvidence(x, t', k) <==> GivesEvidence(x, t, k) || (k.chunk == c && GivesEvidence(x, t', k))
  {
    OthersGiveTheSame(x, t, t', c);
  }

  lemma PersistFolds(x: Reading, t: Tables, c: int, raw: Raw)
    requires Folded(x, t) && c in t.chunks
    ensures Folded(x, Persist(x, t, c, raw))
  {
    if !Done(t, c) {
      var t' := Persist(x, t, c, raw);
      PersistKeys(x, t, c, raw);
      SomeMore(x, t, t', c);
      forall k
        ensures k in t'.evidence <==> GivesEvidence(x, t', k)
      {
        MoreEvidence(x, t, t', c, k);
      }
    }
  }

  /** What a lone worker does: it starts only chunks that have not succeeded.  Chunks may arrive meanwhile. */
  ghost predicate Proper(t: Tables, e: Event) {
    match e
    case Arrive(c, _) => c in t.chunks || c !in t.runs
    case Start(c) => c in t.chunks && !Done(t, c)
    case Store(c, raw) => c in t.chunks
    case Fail(c) => true
    case _ => false
  }

  ghost predicate Orderly(x: Reading, t: Tables, events: seq<Event>) {
    events != [] ==>
      var n := |events| - 1;
      Orderly(x, t, events[..n]) && Proper(RunAll(x, t, events[..n]), events[n])
  }

  lemma StartFolds(x: Reading, t: Tables, c: int)
    requires Folded(x, t) && c in t.chunks && !Done(t, c)
    ensures Folded(x, Begin(t, c))
  {
    SameFold(x, t, Begin(t, c));
  }

  lemma FailFolds(x: Reading, t: Tables, c: int)
    requires Folded(x, t)
    ensures Folded(x, MarkFailed(t, c))
  {
    SameFold(x, t, MarkFailed(t, c));
  }

  lemma ArrivalFolds(x: Reading, t: Tables, c: int, content: Chunk)
    requires Folded(x, t) && (c in t.chunks || c !in t.runs)
    ensures Folded(x, Step(x, t, Arrive(c, content)))
  {
    SameFold(x, t, Step(x, t, Arrive(c, content)));
  }

  lemma StepFolds(x: Reading, t: Tables, e: Event)
    requires Folded(x, t) && Proper(t, e)
    ensures Folded(x, Step(x, t, e))
  {
    match e {
      case Arrive(c, content) => ArrivalFolds(x, t, c, content);
      case Start(c) => StartFolds(x, t, c);
      case Store(c, raw) => PersistFolds(x, t, c, raw);
      case Fail(c) => FailFolds(x, t, c);
    }
  }

  /** However often extraction crashes, fails in part and is tried again, the stored entity, relation and
      evidence keys are exactly those of the recorded extractions of the succeeded chunks. */
  lemma {:induction false} RetriesFold(x: Reading, t: Tables, events: seq<Event>)
    requires Folded(x, t) && Orderly(x, t, events)
    ensures Folded(x, RunAll(x, t, events))
  {
    if events != [] {
      var n := |events| - 1;
      RetriesFold(x, t, events[..n]);
      StepFolds(x, RunAll(x, t, events[..n]), events[n]);
    }
  }

  /** How often results were written for a chunk. */
  ghost function Writes(x: Reading, t: Tables, events: seq<Event>, c: int): nat {
    if events == [] then 0
    else
      var n := |events| - 1;
      var e := events[n];
      Writes(x, t, events[..n], c) + if e.Store? && e.chunk == c && !Done(RunAll(x, t, events[..n]), c) then 1 else 0
  }

  lemma DoneNext(x: Reading, t: Tables, e: Event, c: int)
    requires Proper(t, e)
    ensures Done(Step(x, t, e), c) <==> Done(t, c) || (e.Store? && e.chunk == c)
  {
    if e.Store? && !Done(t, e.chunk) {
      PersistKeys(x, t, e.chunk, e.raw);
    }
  }

  /** No chunk is ever written twice, nor one that had succeeded before. */
  lemma {:induction false} WrittenOnce(x: Reading, t: Tables, events: seq<Event>, c: int)
    requires Orderly(x, t, events)
    ensures Writes(x, t, events, c) == if Done(RunAll(x, t, events), c) && !Done(t, c) then 1 else 0
    ensures Done(t, c) ==> Done(RunAll(x, t, events), c)
  {
    if events != [] {
      var n := |events| - 1;
      WrittenOnce(x, t, events[..n], c);
      DoneNext(x, RunAll(x, t, events[..n]), events[n], c);
    }
  }

  // ---------- Starting a succeeded chunk over ----------

  /** The new extraction of a succeeded chunk finds again every entity and every relation of the old one. */
  ghost predicate FindsAgain(x: Reading, t: Tables, c: int, raw: Raw)
    requires Counts(t, c)
  {
    var text := t.chunks[c].text;
    var located := Locate(x, text, raw.entities);
    && (forall l :: l in LocatedIn(x, t, c) ==> exists l' :: l' in located && l'.id == l.id)
    && (forall f :: f in FactsIn(x, t, c) ==>
          exists f' :: f' in Facts(x, text, located, raw.relations) && f'.relation == f.relation)
  }

  /** Over `t`, chunk `c` has been recorded anew in `t'`, which keeps every key of `t`. */
  ghost predicate Rewritten(x: Reading, t: Tables, t': Tables, c: int) {
    && t'.chunks == t.chunks && Counts(t, c) && Counts(t', c)
    && (forall d :: d != c ==> (d in t.runs <==> d in t'.runs) && (d in t.runs ==> t'.runs[d] == t.runs[d]))
    && (forall e :: e in t'.entities <==> e in t.entities || GivesEntity(x, t', c, e))
    && (forall r :: r in t'.relations <==> r in t.relations || GivesRelation(x, t', c, r))
    && (forall k :: k in t'.evidence <==> k in t.evidence || (k.chunk == c && GivesEvidence(x, t', k)))
  }

  lemma RestartRewrites(x: Reading, t: Tables, c: int, raw: Raw)
    requires Counts(t, c)
    ensures var t' := RunAll(x, t, [Start(c), Store(c, raw)]);
            Rewritten(x, t, t', c) && t'.runs[c].raw == Some(raw)
  {
    var events := [Start(c), Store(c, raw)];
    assert events[..1] == [Start(c)] && events[..1][..0] == [];
    var t1 := Begin(t, c);
    assert RunAll(x, t, events[..1]) == Step(x, RunAll(x, t, []), Start(c)) == t1;
    PersistKeys(x, t1, c, raw);
  }

  lemma OthersStay(x: Reading, t: Tables, t': Tables, c: int, d: int)
    requires Rewritten(x, t, t', c) && d != c
    ensures forall e :: GivesEntity(x, t', d, e) <==> GivesEntity(x, t, d, e)
    ensures forall r :: GivesRelation(x, t', d, r) <==> GivesRelation(x, t, d, r)
  {
  }

  /** What the old recording gave, the new one gives. */
  ghost predicate GivesAgain(x: Reading, t: Tables, t': Tables, c: int) {
    && (forall e :: GivesEntity(x, t, c, e) ==> GivesEntity(x, t', c, e))
    && (forall r :: GivesRelation(x, t, c, r) ==> GivesRelation(x, t', c, r))
  }

  lemma AgainIsFound(x: Reading, t: Tables, t': Tables, c: int, raw: Raw)
    requires Rewritten(x, t, t', c) && t'.runs[c].raw == Some(raw)
    ensures GivesAgain(x, t, t', c) <==> FindsAgain(x, t, c, raw)
  {
    if GivesAgain(x, t, t', c) {
      forall l | l in LocatedIn(x, t, c)
        ensures exists l' :: l' in LocatedIn(x, t', c) && l'.id == l.id
      {
        assert GivesEntity(x, t, c, l.id);
      }
      forall f | f in FactsIn(x, t, c)
        ensures exists f' :: f' in FactsIn(x, t', c) && f'.relation == f.relation
      {
        assert GivesRelation(x, t, c, f.relation);
      }
    }
  }

  /** Evidence of the chunk itself outlives what it spoke for: that is what breaks the fold. */
  lemma LostKeysBreak(x: Reading, t: Tables, t': Tables, c: int)
    requires Folded(x, t) && Rewritten(x, t, t', c) && Folded(x, t')
    ensures GivesAgain(x, t, t', c)
  {
    forall e | GivesEntity(x, t, c, e)
      ensures GivesEntity(x, t', c, e)
    {
      assert GivesEvidence(x, t, EntityEvidence(c, e));
      assert GivesEvidence(x, t', EntityEvidence(c, e));
    }
    forall r | GivesRelation(x, t, c, r)
      ensures GivesRelation(x, t', c, r)
    {
      assert GivesEvidence(x, t, RelationEvidence(c, r));
      assert GivesEvidence(x, t', RelationEvidence(c, r));
    }
  }

  lemma SameGifts(x: Reading, t: Tables, t': Tables, c: int)
    requires Rewritten(x, t, t', c) && GivesAgain(x, t, t', c)
    ensures forall e :: SomeGivesEntity(x, t', e) <==> SomeGivesEntity(x, t, e) || GivesEntity(x, t', c, e)
    ensures forall r :: SomeGivesRelation(x, t', r) <==> SomeGivesRelation(x, t, r) || GivesRelation(x, t', c, r)
  {
    forall e
      ensures SomeGivesEntity(x, t', e) <==> SomeGivesEntity(x, t, e) || GivesEntity(x, t', c, e)
    {
      if d :| GivesEntity(x, t', d, e) {
        if d != c {
          OthersStay(x, t, t', c, d);
        }
      }
      if d :| GivesEntity(x, t, d, e) {
        if d != c {
          OthersStay(x, t, t', c, d);
        }
      }
    }
    forall r
      ensures SomeGivesRelation(x, t', r) <==> SomeGivesRelation(x, t, r) || GivesRelation(x, t', c, r)
    {
      if d :| GivesRelation(x, t', d, r) {
        if d != c {
          OthersStay(x, t, t', c, d);
        }
      }
      if d :| GivesRelation(x, t, d, r) {
        if d != c {
          OthersStay(x, t, t', c, d);
        }
      }
    }
  }

  lemma SameProofs(x: Reading, t: Tables, t': Tables, c: int, k: EvidenceId)
    requires Rewritten(x, t, t', c) && GivesAgain(x, t, t', c)
    ensures GivesEvidence(x, t', k) <==> GivesEvidence(x, t, k) || (k.chunk == c && GivesEvidence(x, t', k))
  {
    if k.chunk != c {
      OthersStay(x, t, t', c, k.chunk);
    }
  }

  lemma AgainFolds(x: Reading, t: Tables, t': Tables, c: int)
    requires Folded(x, t) && Rewritten(x, t, t', c) && GivesAgain(x, t, t', c)
    ensures Folded(x, t')
  {
    SameGifts(x, t, t', c);
    forall k
      ensures k in t'.evidence <==> GivesEvidence(x, t', k)
    {
      SameProofs(x, t, t', c, k);
    }
  }

  /** A second worker can start a succeeded chunk over.  The keys still fold afterwards exactly when its extraction
      finds again every entity and relation that the old one found. */
  lemma RestartFoldsIff(x: Reading, t: Tables, c: int, raw: Raw)
    requires Folded(x, t) && Counts(t, c)
    ensures Folded(x, RunAll(x, t, [Start(c), Store(c, raw)])) <==> FindsAgain(x, t, c, raw)
  {
    var t' := RunAll(x, t, [Start(c), Store(c, raw)]);
    RestartRewrites(x, t, c, raw);
    AgainIsFound(x, t, t', c, raw);
    if Folded(x, t') {
      LostKeysBreak(x, t, t', c);
    } else if GivesAgain(x, t, t', c) {
      AgainFolds(x, t, t', c);
    }
  }

  // ---------- Deletion ----------

  /** Some chunk of another document gives it too. */
  ghost predicate ElsewhereEntity(x: Reading, t: Tables, document: int, e: EntityId) {
    exists c :: GivesEntity(x, t, c, e) && t.chunks[c].document != document
  }

  ghost predicate ElsewhereRelation(x: Reading, t: Tables, document: int, r: RelationId) {
    exists c :: GivesRelation(x, t, c, r) && t.chunks[c].document != document
  }

  lemma GivesLess(x: Reading, t: Tables, document: int, c: int)
    ensures var t' := Collector.Removed(t, document);
            && (forall e :: GivesEntity(x, t', c, e) <==> GivesEntity(x, t, c, e) && t.chunks[c].document != document)
            && (forall r :: GivesRelation(x, t', c, r) <==> GivesRelation(x, t, c, r) && t.chunks[c].document != document)
  {
    var t' := Collector.Removed(t, document);
    assert Counts(t', c) <==> Counts(t, c) && t.chunks[c].document != document;
  }

  lemma SomeGiveLess(x: Reading, t: Tables, document: int)
    ensures var t' := Collector.Removed(t, document);
            && (forall e :: SomeGivesEntity(x, t', e) <==> ElsewhereEntity(x, t, document, e))
            && (forall r :: SomeGivesRelation(x, t', r) <==> ElsewhereRelation(x, t, document, r))
  {
    var t' := Collector.Removed(t, document);
    forall e
      ensures SomeGivesEntity(x, t', e) <==> ElsewhereEntity(x, t, document, e)
    {
      if c :| GivesEntity(x, t', c, e) {
        GivesLess(x, t, document, c);
      }
      if c :| GivesEntity(x, t, c, e) && t.chunks[c].document != document {
        GivesLess(x, t, document, c);
      }
    }
    forall r
      ensures SomeGivesRelation(x, t', r) <==> ElsewhereRelation(x, t, document, r)
    {
      if c :| GivesRelation(x, t', c, r) {
        GivesLess(x, t, document, c);
      }
      if c :| GivesRelation(x, t, c, r) && t.chunks[c].document != document {
        GivesLess(x, t, document, c);
      }
    }
  }

  lemma RemovedEvidenceFolds(x: Reading, t: Tables, document: int, k: EvidenceId)
    requires Folded(x, t)
    ensures var t' := Collector.Removed(t, document); k in t'.evidence <==> GivesEvidence(x, t', k)
  {
    GivesLess(x, t, document, k.chunk);
    assert k in t.evidence <==> GivesEvidence(x, t, k);
  }

  /** The deletion as the callers perform it, the collector included, leaves exactly the keys of the remaining
      recordings if and only if another document gives everything that the deleted one gave. */
  lemma DeletionFoldsIff(x: Reading, t: Tables, document: int)
    requires Folded(x, t) && Provenance(t)
    ensures Folded(x, RunAll(x, t, [Removed(document), Collected(document)]))
       <==> (forall c, e :: GivesEntity(x, t, c, e) ==> ElsewhereEntity(x, t, document, e))
            && (forall c, r :: GivesRelation(x, t, c, r) ==> ElsewhereRelation(x, t, document, r))
  {
    DeletionLeaves(x, t, document);
    RemovalFoldsIff(x, t, document);
  }

  lemma RemovalFoldsIff(x: Reading, t: Tables, document: int)
    requires Folded(x, t)
    ensures Folded(x, Collector.Removed(t, document))
       <==> (forall c, e :: GivesEntity(x, t, c, e) ==> ElsewhereEntity(x, t, document, e))
            && (forall c, r :: GivesRelation(x, t, c, r) ==> ElsewhereRelation(x, t, document, r))
  {
    var t' := Collector.Removed(t, document);
    SomeGiveLess(x, t, document);
    forall k
      ensures k in t'.evidence <==> GivesEvidence(x, t', k)
    {
      RemovedEvidenceFolds(x, t, document, k);
    }
    if Folded(x, t') {
      forall c, e | GivesEntity(x, t, c, e)
        ensures ElsewhereEntity(x, t, document, e)
      {
        assert SomeGivesEntity(x, t, e);
      }
      forall c, r | GivesRelation(x, t, c, r)
        ensures ElsewhereRelation(x, t, document, r)
      {
        assert SomeGivesRelation(x, t, r);
      }
    }
  }

  // ---------- Both failures occur ----------

  /** A chunk arrives and is extracted: one entity, which its text names. */
  function OneEntity(content: Chunk, item: RawEntity): seq<Event> {
    [Arrive(0, content), Start(0), Store(0, Raw([item], []))]
  }

  lemma Appended(x: Reading, t: Tables, events: seq<Event>, e: Event)
    requires Orderly(x, t, events) && Proper(RunAll(x, t, events), e)
    ensures RunAll(x, t, events + [e]) == Step(x, RunAll(x, t, events), e) && Orderly(x, t, events + [e])
  {
    assert (events + [e])[..|events|] == events;
  }

  lemma NothingFolds(x: Reading)
    ensures Folded(x, NOTHING)
  {
    forall c
      ensures !Counts(NOTHING, c)
    {
    }
  }

  /** The chunk has arrived and its run is marked. */
  function Begun(content: Chunk): Tables {
    NOTHING.(chunks := map[0 := content], runs := map[0 := Run(Running, None)])
  }

  function Arrived(content: Chunk): Tables {
    NOTHING.(chunks := map[0 := content])
  }

  lemma ArrivalRuns(x: Reading, content: Chunk, events: seq<Event>)
    requires RunAll(x, NOTHING, events) == NOTHING && Orderly(x, NOTHING, events)
    ensures RunAll(x, NOTHING, events + [Arrive(0, content)]) == Arrived(content)
    ensures Orderly(x, NOTHING, events + [Arrive(0, content)])
  {
    Appended(x, NOTHING, events, Arrive(0, content));
  }

  lemma StartRuns(x: Reading, content: Chunk, events: seq<Event>)
    requires RunAll(x, NOTHING, events) == Arrived(content) && Orderly(x, NOTHING, events)
    ensures RunAll(x, NOTHING, events + [Start(0)]) == Begun(content) && Orderly(x, NOTHING, events + [Start(0)])
  {
    Appended(x, NOTHING, events, Start(0));
  }

  lemma StoreRuns(x: Reading, content: Chunk, events: seq<Event>, raw: Raw)
    requires RunAll(x, NOTHING, events) == Begun(content) && Orderly(x, NOTHING, events)
    ensures RunAll(x, NOTHING, events + [Store(0, raw)]) == Persist(x, Begun(content), 0, raw)
    ensures Orderly(x, NOTHING, events + [Store(0, raw)])
  {
    Appended(x, NOTHING, events, Store(0, raw));
  }

  lemma OneEntityRuns(x: Reading, content: Chunk, item: RawEntity, none: seq<Event>)
    requires none == []
    ensures RunAll(x, NOTHING, OneEntity(content, item)) == Persist(x, Begun(content), 0, Raw([item], []))
    ensures Orderly(x, NOTHING, OneEntity(content, item))
  {
    var one := none + [Arrive(0, content)];
    var two := one + [Start(0)];
    ArrivalRuns(x, content, none);
    StartRuns(x, content, one);
    StoreRuns(x, content, two, Raw([item], []));
    assert two + [Store(0, Raw([item], []))] == OneEntity(content, item);
  }

  lemma OneEntityPersists(x: Reading, content: Chunk, item: RawEntity) returns (l: Located)
    requires E.FindEvidence(x.unicode, content.text, item.name).Some?
    ensures var t := Persist(x, Begun(content), 0, Raw([item], []));
            && t.chunks == map[0 := content] && Counts(t, 0) && t.runs[0].raw == Some(Raw([item], []))
            && LocatedIn(x, t, 0) == [l]
  {
    PersistKeys(x, Begun(content), 0, Raw([item], []));
    l := FoundOne(x, content.text, item);
  }

  /** Extraction records the entity, and nothing else. */
  lemma OneEntityStored(x: Reading, content: Chunk, item: RawEntity) returns (l: Located)
    requires E.FindEvidence(x.unicode, content.text, item.name).Some?
    ensures var t := RunAll(x, NOTHING, OneEntity(content, item));
            && Folded(x, t) && Orderly(x, NOTHING, OneEntity(content, item))
            && t.chunks == map[0 := content] && Counts(t, 0) && t.runs[0].raw == Some(Raw([item], []))
            && LocatedIn(x, t, 0) == [l]
  {
    OneEntityRuns(x, content, item, []);
    l := OneEntityPersists(x, content, item);
    NothingFolds(x);
    RetriesFold(x, NOTHING, OneEntity(content, item));
  }

  lemma FoundOne(x: Reading, text: string, item: RawEntity) returns (l: Located)
    requires E.FindEvidence(x.unicode, text, item.name).Some?
    ensures Locate(x, text, [item]) == [l]
  {
    assert [item][..0] == [];
    l := Locate(x, text, [item])[0];
  }

  /** Whatever the entity and the text that names it: when a second worker starts the chunk over and finds nothing,
      the stored keys no longer fold. */
  lemma RestartBreaksFold(x: Reading, content: Chunk, item: RawEntity)
    requires E.FindEvidence(x.unicode, content.text, item.name).Some?
    ensures var t := RunAll(x, NOTHING, OneEntity(content, item));
            Folded(x, t) && !Folded(x, RunAll(x, t, [Start(0), Store(0, Raw([], []))]))
  {
    var t := RunAll(x, NOTHING, OneEntity(content, item));
    var l := OneEntityStored(x, content, item);
    RestartFoldsIff(x, t, 0, Raw([], []));
    assert l in LocatedIn(x, t, 0);
    assert Locate(x, content.text, []) == [];
  }

  /** And when its document is deleted, the entity stays without anything that gives it. */
  lemma DeletionBreaksFold(x: Reading, content: Chunk, item: RawEntity) returns (l: Located)
    requires x.unicode.Sane() && E.FindEvidence(x.unicode, content.text, item.name).Some?
    ensures var t := RunAll(x, NOTHING, OneEntity(content, item));
            var t' := RunAll(x, t, [Removed(content.document), Collected(content.document)]);
            Folded(x, t) && l.id in t'.entities && t'.evidence == map[] && !Folded(x, t')
  {
    var t, d := RunAll(x, NOTHING, OneEntity(content, item)), content.document;
    l := OneEntityStored(x, content, item);
    HistoriesKeepProvenance(x, NOTHING, OneEntity(content, item));
    DeletionLeaves(x, t, d);
    NoEvidenceLeft(t, d);
    assert l in LocatedIn(x, t, 0);
    OnlyGiftGoes(x, t, d, 0, l.id);
  }

  /** Deleting the one document there is, when it gives something. */
  lemma OnlyGiftGoes(x: Reading, t: Tables, document: int, c: int, e: EntityId)
    requires Folded(x, t) && GivesEntity(x, t, c, e)
    requires forall d :: d in t.chunks ==> t.chunks[d].document == document
    ensures !Folded(x, Collector.Removed(t, document)) && e in Collector.Removed(t, document).entities
  {
    RemovalFoldsIff(x, t, document);
    OnlyHere(x, t, document, e);
    assert SomeGivesEntity(x, t, e);
  }

  lemma OnlyHere(x: Reading, t: Tables, document: int, e: EntityId)
    requires forall c :: c in t.chunks ==> t.chunks[c].document == document
    ensures !ElsewhereEntity(x, t, document, e)
  {
    forall c
      ensures !(GivesEntity(x, t, c, e) && t.chunks[c].document != document)
    {
    }
  }

  lemma NoEvidenceLeft(t: Tables, document: int)
    requires Provenance(t) && forall c :: c in t.chunks ==> t.chunks[c].document == document
    ensures Collector.Removed(t, document).evidence == map[]
  {
    forall k | k in t.evidence
      ensures From(t, k, document)
    {
      assert Sound(t, k);
    }
  }

  /** Deletion as the callers perform it is the removal alone. */
  lemma DeletionLeaves(x: Reading, t: Tables, document: int)
    requires Provenance(t)
    ensures RunAll(x, t, [Removed(document), Collected(document)]) == Collector.Removed(t, document)
  {
    var events := [Removed(document), Collected(document)];
    assert events[..1] == [Removed(document)] && events[..1][..0] == [];
    assert RunAll(x, t, events[..1]) == Step(x, RunAll(x, t, []), Removed(document));
    Collector.CascadeDisarmsCollector(t, document);
  }
}
