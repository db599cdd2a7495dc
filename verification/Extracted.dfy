/** What persisting a chunk's extraction stores, said of the extraction itself (apps/api/app/graph/pipeline.py):
    an item counts if its words can be read in the chunk, and a relation joins the entities that it names without
    ambiguity. */
module Extracted {
  import opened Wrappers
  import opened GraphTables
  import opened Pipeline
  import E = Evidence

  ghost predicate Legible(x: Reading, text: string, words: string) {
    E.FindEvidence(x.unicode, text, words).Some?
  }

  /** An entity of the extraction that the chunk names gives the id. */
  ghost predicate GivesEntity(x: Reading, text: string, item: RawEntity, e: EntityId) {
    Legible(x, text, item.name) && e == EntityId(x.norm(item.name), x.norm(item.kind))
  }

  /** The chunk names the entity, and it goes by that name and, if one is given, that type. */
  ghost predicate GoesBy(x: Reading, text: string, item: RawEntity, name: string, kind: Option<string>) {
    && Legible(x, text, item.name) && x.norm(item.name) == x.norm(name)
    && (kind.Some? ==> x.norm(item.kind) == x.norm(kind.value))
  }

  /** One entity of the extraction and no other goes by the name and type, and it gives the id. */
  ghost predicate Singles(x: Reading, text: string, items: seq<RawEntity>, name: string, kind: Option<string>, e: EntityId) {
    exists i :: SinglesAt(x, text, items, name, kind, e, i)
  }

  ghost predicate SinglesAt(x: Reading, text: string, items: seq<RawEntity>, name: string, kind: Option<string>, e: EntityId, i: int) {
    && 0 <= i < |items| && GoesBy(x, text, items[i], name, kind) && GivesEntity(x, text, items[i], e)
    && forall j :: 0 <= j < |items| && GoesBy(x, text, items[j], name, kind) ==> j == i
  }

  /** What is quoted for a relation: its quote, or the whole text. */
  function Words(text: string, item: RawRelation): string {
    if item.quote == None || item.quote == Some("") then text else item.quote.value
  }

  ghost predicate GivesRelation(x: Reading, text: string, entities: seq<RawEntity>, item: RawRelation, r: RelationId) {
    && item.kind == r.kind && r.source != r.target
    && Singles(x, text, entities, item.source, item.sourceKind, r.source)
    && Singles(x, text, entities, item.target, item.targetKind, r.target)
    && Legible(x, text, Words(text, item))
  }

  /** Item `k` is the first entity to give the id. */
  ghost predicate FirstEntity(x: Reading, text: string, items: seq<RawEntity>, e: EntityId, k: int) {
    && 0 <= k < |items| && GivesEntity(x, text, items[k], e)
    && forall j :: 0 <= j < k ==> !GivesEntity(x, text, items[j], e)
  }

  ghost predicate SomeEntity(x: Reading, text: string, items: seq<RawEntity>, e: EntityId) {
    exists k :: 0 <= k < |items| && GivesEntity(x, text, items[k], e)
  }

  /** Item `k` is the first relation to give the id. */
  ghost predicate FirstRelation(x: Reading, text: string, entities: seq<RawEntity>, items: seq<RawRelation>, r: RelationId, k: int) {
    && 0 <= k < |items| && GivesRelation(x, text, entities, items[k], r)
    && forall j :: 0 <= j < k ==> !GivesRelation(x, text, entities, items[j], r)
  }

  ghost predicate SomeRelation(x: Reading, text: string, entities: seq<RawEntity>, items: seq<RawRelation>, r: RelationId) {
    exists k :: 0 <= k < |items| && GivesRelation(x, text, entities, items[k], r)
  }

  // ---------- One chunk ----------

  /** From `t` to `t'` the entity and its evidence from the chunk come in, if `more`, and old evidence stays. */
  ghost predicate EntityComesIn(t: Tables, t': Tables, c: int, e: EntityId, more: bool) {
    var k := EntityEvidence(c, e);
    && (e in t'.entities <==> e in t.entities || more)
    && (k in t'.evidence <==> k in t.evidence || more)
    && (k in t.evidence ==> t'.evidence[k] == t.evidence[k])
  }

  ghost predicate RelationComesIn(t: Tables, t': Tables, c: int, r: RelationId, more: bool) {
    var k := RelationEvidence(c, r);
    && (r in t'.relations <==> r in t.relations || more)
    && (k in t'.evidence <==> k in t.evidence || more)
    && (k in t.evidence ==> t'.evidence[k] == t.evidence[k])
  }

  ghost predicate Shows(t: Tables, k: EvidenceId, s: Span) {
    k in t.evidence && t.evidence[k] == s
  }

  /** Persisting a chunk that had not succeeded adds an entity, with evidence from this chunk, exactly when some entity
      of the extraction that the text names gives it; what was there before stays. */
  lemma EntitiesAreExact(x: Reading, t: Tables, c: int, raw: Raw, e: EntityId)
    requires c in t.chunks && !Done(t, c)
    ensures EntityComesIn(t, Persist(x, t, c, raw), c, e, SomeEntity(x, t.chunks[c].text, raw.entities, e))
  {
    var text := t.chunks[c].text;
    var located, rows := Locate(x, text, raw.entities), Rows(x, text, raw.entities);
    LocateKeeps(x, text, raw.entities);
    EntitiesAdded(t, c, rows, e);
    SomeEntityIff(x, text, raw.entities, e);
    FactsLeave(AddEntities(t, c, located), c, Facts(x, text, located, raw.relations), EntityEvidence(c, e));
  }

  /** New evidence shows where the first entity to give the id is named. */
  lemma EntityEvidenceIsFirst(x: Reading, t: Tables, c: int, raw: Raw, e: EntityId, i: int)
    requires c in t.chunks && !Done(t, c) && EntityEvidence(c, e) !in t.evidence
    requires FirstEntity(x, t.chunks[c].text, raw.entities, e, i)
    ensures Shows(Persist(x, t, c, raw), EntityEvidence(c, e), SpanOf(E.FindEvidence(x.unicode, t.chunks[c].text, raw.entities[i].name).value))
  {
    var text := t.chunks[c].text;
    var located, rows := Locate(x, text, raw.entities), Rows(x, text, raw.entities);
    LocateKeeps(x, text, raw.entities);
    FirstEntityIff(x, text, raw.entities, e, i);
    EntityRow(x, text, raw.entities[i], e);
    EntitySpan(t, c, rows, e, i);
    FactsLeave(AddEntities(t, c, located), c, Facts(x, text, located, raw.relations), EntityEvidence(c, e));
  }

  /** Likewise for relations: some relation of the extraction has that kind, its source and target words each single
      out one entity that the text names, these are the relation's two different ends in this order, and its
      quote can be read. */
  lemma RelationsAreExact(x: Reading, t: Tables, c: int, raw: Raw, r: RelationId)
    requires c in t.chunks && !Done(t, c)
    ensures RelationComesIn(t, Persist(x, t, c, raw), c, r, SomeRelation(x, t.chunks[c].text, raw.entities, raw.relations, r))
  {
    var text := t.chunks[c].text;
    var located := Locate(x, text, raw.entities);
    var facts := FactRows(x, text, raw.entities, raw.relations);
    FactsKeep(x, text, raw.entities, raw.relations);
    EntitiesLeave(t, c, located, RelationEvidence(c, r));
    RelationsAdded(AddEntities(t, c, located), c, facts, r);
    SomeRelationIff(x, text, raw.entities, raw.relations, r);
  }

  /** New evidence quotes the words of the first relation to give the id. */
  lemma RelationEvidenceIsFirst(x: Reading, t: Tables, c: int, raw: Raw, r: RelationId, i: int)
    requires c in t.chunks && !Done(t, c) && RelationEvidence(c, r) !in t.evidence
    requires FirstRelation(x, t.chunks[c].text, raw.entities, raw.relations, r, i)
    ensures var text := t.chunks[c].text;
            Shows(Persist(x, t, c, raw), RelationEvidence(c, r), SpanOf(E.FindEvidence(x.unicode, text, Words(text, raw.relations[i])).value))
  {
    var text := t.chunks[c].text;
    var located := Locate(x, text, raw.entities);
    FactsKeep(x, text, raw.entities, raw.relations);
    EntitiesLeave(t, c, located, RelationEvidence(c, r));
    FirstRelationIff(x, text, raw.entities, raw.relations, r, i);
    RelationRow(x, text, raw.entities, raw.relations[i], r);
    RelationSpan(AddEntities(t, c, located), c, FactRows(x, text, raw.entities, raw.relations), r, i);
  }

  lemma {:induction false} FactsLeave(t: Tables, c: int, facts: seq<Fact>, k: EvidenceId)
    requires k.relation == None
    ensures var t' := AddFacts(t, c, facts);
            && t'.entities == t.entities && (k in t'.evidence <==> k in t.evidence)
            && (k in t.evidence ==> t'.evidence[k] == t.evidence[k])
  {
    if facts != [] {
      FactsLeave(t, c, facts[..|facts| - 1], k);
    }
  }

  lemma {:induction false} EntitiesLeave(t: Tables, c: int, located: seq<Located>, k: EvidenceId)
    requires k.entity == None
    ensures var t' := AddEntities(t, c, located);
            && t'.relations == t.relations && (k in t'.evidence <==> k in t.evidence)
            && (k in t.evidence ==> t'.evidence[k] == t.evidence[k])
  {
    if located != [] {
      EntitiesLeave(t, c, located[..|located| - 1], k);
    }
  }

  // ---------- Rows that may be missing ----------

  /** The rows that are there, in order. */
  function Kept<T>(rows: seq<Option<T>>): seq<T> {
    if rows == [] then []
    else
      var n := |rows| - 1;
      Kept(rows[..n]) + if rows[n].Some? then [rows[n].value] else []
  }

  predicate EntityAt(rows: seq<Option<Located>>, e: EntityId, k: int) {
    0 <= k < |rows| && rows[k].Some? && rows[k].value.id == e
  }

  predicate RelationAt(rows: seq<Option<Fact>>, r: RelationId, k: int) {
    0 <= k < |rows| && rows[k].Some? && rows[k].value.relation == r
  }

  ghost predicate HasEntity(rows: seq<Option<Located>>, e: EntityId) {
    exists k :: EntityAt(rows, e, k)
  }

  ghost predicate HasRelation(rows: seq<Option<Fact>>, r: RelationId) {
    exists k :: RelationAt(rows, r, k)
  }

  lemma HasEntityNext(rows: seq<Option<Located>>, e: EntityId, n: nat)
    requires n == |rows| - 1
    ensures HasEntity(rows, e) <==> HasEntity(rows[..n], e) || EntityAt(rows, e, n)
  {
    if k :| EntityAt(rows, e, k) {
      assert k == n || EntityAt(rows[..n], e, k);
    }
    if k :| EntityAt(rows[..n], e, k) {
      assert EntityAt(rows, e, k);
    }
  }

  lemma HasRelationNext(rows: seq<Option<Fact>>, r: RelationId, n: nat)
    requires n == |rows| - 1
    ensures HasRelation(rows, r) <==> HasRelation(rows[..n], r) || RelationAt(rows, r, n)
  {
    if k :| RelationAt(rows, r, k) {
      assert k == n || RelationAt(rows[..n], r, k);
    }
    if k :| RelationAt(rows[..n], r, k) {
      assert RelationAt(rows, r, k);
    }
  }

  lemma KeptNext<T>(rows: seq<Option<T>>, n: nat)
    requires n == |rows| - 1
    ensures rows[n].None? ==> Kept(rows) == Kept(rows[..n])
    ensures rows[n].Some? ==> Kept(rows) != [] && Kept(rows)[..|Kept(rows)| - 1] == Kept(rows[..n]) && Kept(rows)[|Kept(rows)| - 1] == rows[n].value
  {
  }

  lemma AddEntityComesIn(t: Tables, c: int, l: Located, e: EntityId)
    ensures EntityComesIn(t, AddEntity(t, c, l), c, e, l.id == e)
  {
  }

  lemma AddFactComesIn(t: Tables, c: int, f: Fact, r: RelationId)
    ensures RelationComesIn(t, AddFact(t, c, f), c, r, f.relation == r)
  {
  }

  lemma EntityComesInNext(t0: Tables, t1: Tables, t: Tables, c: int, e: EntityId, a: bool, b: bool, more: bool)
    requires EntityComesIn(t0, t1, c, e, a) && EntityComesIn(t1, t, c, e, b) && (more <==> a || b)
    ensures EntityComesIn(t0, t, c, e, more)
  {
  }

  lemma RelationComesInNext(t0: Tables, t1: Tables, t: Tables, c: int, r: RelationId, a: bool, b: bool, more: bool)
    requires RelationComesIn(t0, t1, c, r, a) && RelationComesIn(t1, t, c, r, b) && (more <==> a || b)
    ensures RelationComesIn(t0, t, c, r, more)
  {
  }

  lemma {:induction false} EntitiesAdded(t: Tables, c: int, rows: seq<Option<Located>>, e: EntityId)
    ensures EntityComesIn(t, AddEntities(t, c, Kept(rows)), c, e, HasEntity(rows, e))
  {
    if rows != [] {
      var n := |rows| - 1;
      var t1, t' := AddEntities(t, c, Kept(rows[..n])), AddEntities(t, c, Kept(rows));
      EntitiesAdded(t, c, rows[..n], e);
      KeptNext(rows, n);
      if rows[n].Some? {
        AddEntityComesIn(t1, c, rows[n].value, e);
      }
      HasEntityNext(rows, e, n);
      EntityComesInNext(t, t1, t', c, e, HasEntity(rows[..n], e), EntityAt(rows, e, n), HasEntity(rows, e));
    }
  }

  lemma {:induction false} RelationsAdded(t: Tables, c: int, rows: seq<Option<Fact>>, r: RelationId)
    ensures RelationComesIn(t, AddFacts(t, c, Kept(rows)), c, r, HasRelation(rows, r))
  {
    if rows != [] {
      var n := |rows| - 1;
      var t1, t' := AddFacts(t, c, Kept(rows[..n])), AddFacts(t, c, Kept(rows));
      RelationsAdded(t, c, rows[..n], r);
      KeptNext(rows, n);
      if rows[n].Some? {
        AddFactComesIn(t1, c, rows[n].value, r);
      }
      HasRelationNext(rows, r, n);
      RelationComesInNext(t, t1, t', c, r, HasRelation(rows[..n], r), RelationAt(rows, r, n), HasRelation(rows, r));
    }
  }

  lemma EntityShows(t: Tables, c: int, l: Located)
    requires EntityEvidence(c, l.id) !in t.evidence
    ensures Shows(AddEntity(t, c, l), EntityEvidence(c, l.id), l.span)
  {
  }

  lemma FactShows(t: Tables, c: int, f: Fact)
    requires RelationEvidence(c, f.relation) !in t.evidence
    ensures Shows(AddFact(t, c, f), RelationEvidence(c, f.relation), f.span)
  {
  }

  /** The evidence is that of the first row with the id. */
  lemma {:induction false} EntitySpan(t: Tables, c: int, rows: seq<Option<Located>>, e: EntityId, k: int)
    requires EntityAt(rows, e, k) && !HasEntity(rows[..k], e) && EntityEvidence(c, e) !in t.evidence
    ensures Shows(AddEntities(t, c, Kept(rows)), EntityEvidence(c, e), rows[k].value.span)
    decreases |rows|
  {
    var n := |rows| - 1;
    var t1 := AddEntities(t, c, Kept(rows[..n]));
    KeptNext(rows, n);
    if k < n {
      assert rows[..n][..k] == rows[..k];
      EntitySpan(t, c, rows[..n], e, k);
      if rows[n].Some? {
        AddEntityComesIn(t1, c, rows[n].value, e);
      }
    } else {
      EntitiesAdded(t, c, rows[..n], e);
      EntityShows(t1, c, rows[n].value);
    }
  }

  lemma {:induction false} RelationSpan(t: Tables, c: int, rows: seq<Option<Fact>>, r: RelationId, k: int)
    requires RelationAt(rows, r, k) && !HasRelation(rows[..k], r) && RelationEvidence(c, r) !in t.evidence
    ensures Shows(AddFacts(t, c, Kept(rows)), RelationEvidence(c, r), rows[k].value.span)
    decreases |rows|
  {
    var n := |rows| - 1;
    var t1 := AddFacts(t, c, Kept(rows[..n]));
    KeptNext(rows, n);
    if k < n {
      assert rows[..n][..k] == rows[..k];
      RelationSpan(t, c, rows[..n], r, k);
      if rows[n].Some? {
        AddFactComesIn(t1, c, rows[n].value, r);
      }
    } else {
      RelationsAdded(t, c, rows[..n], r);
      FactShows(t1, c, rows[n].value);
    }
  }

  // ---------- Endpoints ----------

  predicate NamedAt(x: Reading, rows: seq<Option<Located>>, name: string, kind: Option<string>, i: int) {
    0 <= i < |rows| && rows[i].Some? && Named(x, rows[i].value.id, name, kind)
  }

  ghost predicate NoneNamed(x: Reading, rows: seq<Option<Located>>, name: string, kind: Option<string>) {
    forall i :: !NamedAt(x, rows, name, kind, i)
  }

  ghost predicate OneNamed(x: Reading, rows: seq<Option<Located>>, name: string, kind: Option<string>, e: EntityId) {
    exists i :: OneNamedAt(x, rows, name, kind, e, i)
  }

  ghost predicate OneNamedAt(x: Reading, rows: seq<Option<Located>>, name: string, kind: Option<string>, e: EntityId, i: int) {
    NamedAt(x, rows, name, kind, i) && rows[i].value.id == e && forall j :: NamedAt(x, rows, name, kind, j) ==> j == i
  }

  lemma {:induction false} MatchingAppends(x: Reading, a: seq<Located>, b: seq<Located>, name: string, kind: Option<string>)
    ensures Matching(x, a + b, name, kind) == Matching(x, a, name, kind) + Matching(x, b, name, kind)
  {
    if a == [] {
      assert a + b == b;
    } else {
      assert (a + b)[0] == a[0] && (a + b)[1..] == a[1..] + b;
      MatchingAppends(x, a[1..], b, name, kind);
    }
  }

  lemma MatchingNext(x: Reading, rows: seq<Option<Located>>, name: string, kind: Option<string>, n: nat)
    requires n == |rows| - 1
    ensures var before := Matching(x, Kept(rows[..n]), name, kind);
            Matching(x, Kept(rows), name, kind) == if NamedAt(x, rows, name, kind, n) then before + [rows[n].value.id] else before
  {
    var one := if rows[n].Some? then [rows[n].value] else [];
    MatchingAppends(x, Kept(rows[..n]), one, name, kind);
    if one != [] {
      assert one[1..] == [];
    }
  }

  lemma NoneNamedNext(x: Reading, rows: seq<Option<Located>>, name: string, kind: Option<string>, n: nat)
    requires n == |rows| - 1
    ensures NoneNamed(x, rows, name, kind) <==> NoneNamed(x, rows[..n], name, kind) && !NamedAt(x, rows, name, kind, n)
  {
    forall i
      ensures NamedAt(x, rows, name, kind, i) <==> NamedAt(x, rows[..n], name, kind, i) || (i == n && NamedAt(x, rows, name, kind, n))
    {
    }
  }

  lemma OneNamedNext(x: Reading, rows: seq<Option<Located>>, name: string, kind: Option<string>, e: EntityId, n: nat)
    requires n == |rows| - 1
    ensures OneNamed(x, rows, name, kind, e)
       <==> if NamedAt(x, rows, name, kind, n) then rows[n].value.id == e && NoneNamed(x, rows[..n], name, kind)
            else OneNamed(x, rows[..n], name, kind, e)
  {
    forall i
      ensures NamedAt(x, rows, name, kind, i) <==> NamedAt(x, rows[..n], name, kind, i) || (i == n && NamedAt(x, rows, name, kind, n))
    {
    }
    if i :| OneNamedAt(x, rows, name, kind, e, i) {
      if !NamedAt(x, rows, name, kind, n) {
        assert OneNamedAt(x, rows[..n], name, kind, e, i);
      }
    }
    if i :| OneNamedAt(x, rows[..n], name, kind, e, i) {
      if !NamedAt(x, rows, name, kind, n) {
        assert OneNamedAt(x, rows, name, kind, e, i);
      }
    }
    if NamedAt(x, rows, name, kind, n) && rows[n].value.id == e && NoneNamed(x, rows[..n], name, kind) {
      assert OneNamedAt(x, rows, name, kind, e, n);
    }
  }

  lemma {:induction false} NoMatchIff(x: Reading, rows: seq<Option<Located>>, name: string, kind: Option<string>)
    ensures Matching(x, Kept(rows), name, kind) == [] <==> NoneNamed(x, rows, name, kind)
  {
    if rows != [] {
      var n := |rows| - 1;
      MatchingNext(x, rows, name, kind, n);
      NoMatchIff(x, rows[..n], name, kind);
      NoneNamedNext(x, rows, name, kind, n);
    }
  }

  lemma AppendIsOne(s: seq<EntityId>, last: EntityId, e: EntityId)
    ensures s + [last] == [e] <==> s == [] && last == e
  {
    assert (s + [last])[|s|] == last;
  }

  /** There is one match, and it is `e`, exactly when the one row that goes by the name and type is `e`. */
  lemma {:induction false} OneMatchIff(x: Reading, rows: seq<Option<Located>>, name: string, kind: Option<string>, e: EntityId)
    ensures Matching(x, Kept(rows), name, kind) == [e] <==> OneNamed(x, rows, name, kind, e)
  {
    if rows != [] {
      var n := |rows| - 1;
      MatchingNext(x, rows, name, kind, n);
      NoMatchIff(x, rows[..n], name, kind);
      OneMatchIff(x, rows[..n], name, kind, e);
      OneNamedNext(x, rows, name, kind, e, n);
      if NamedAt(x, rows, name, kind, n) {
        AppendIsOne(Matching(x, Kept(rows[..n]), name, kind), rows[n].value.id, e);
      }
    }
  }

  // ---------- What the items of an extraction give ----------

  function Row(x: Reading, text: string, item: RawEntity): Option<Located> {
    match E.FindEvidence(x.unicode, text, item.name)
    case None => None
    case Some(q) => Some(Located(EntityId(x.norm(item.name), x.norm(item.kind)), SpanOf(q)))
  }

  function Rows(x: Reading, text: string, items: seq<RawEntity>): (rows: seq<Option<Located>>)
    ensures |rows| == |items| && forall i :: 0 <= i < |items| ==> rows[i] == Row(x, text, items[i])
  {
    seq(|items|, i requires 0 <= i < |items| => Row(x, text, items[i]))
  }

  lemma {:induction false} LocateKeeps(x: Reading, text: string, items: seq<RawEntity>)
    ensures Locate(x, text, items) == Kept(Rows(x, text, items))
  {
    if items != [] {
      var n := |items| - 1;
      LocateKeeps(x, text, items[..n]);
      assert Rows(x, text, items)[..n] == Rows(x, text, items[..n]);
    }
  }

  /** What an entity gives is what its row says. */
  lemma EntityRow(x: Reading, text: string, item: RawEntity, e: EntityId)
    ensures GivesEntity(x, text, item, e) <==> Row(x, text, item).Some? && Row(x, text, item).value.id == e
    ensures GivesEntity(x, text, item, e) ==> Row(x, text, item).value.span == SpanOf(E.FindEvidence(x.unicode, text, item.name).value)
  {
  }

  lemma SomeEntityIff(x: Reading, text: string, items: seq<RawEntity>, e: EntityId)
    ensures SomeEntity(x, text, items, e) <==> HasEntity(Rows(x, text, items), e)
  {
    var rows := Rows(x, text, items);
    forall k | 0 <= k < |items|
      ensures GivesEntity(x, text, items[k], e) <==> EntityAt(rows, e, k)
    {
      EntityRow(x, text, items[k], e);
    }
    if k :| EntityAt(rows, e, k) {
      assert GivesEntity(x, text, items[k], e);
    }
  }

  lemma FirstEntityIff(x: Reading, text: string, items: seq<RawEntity>, e: EntityId, k: int)
    requires FirstEntity(x, text, items, e, k)
    ensures EntityAt(Rows(x, text, items), e, k) && !HasEntity(Rows(x, text, items)[..k], e)
  {
    var rows := Rows(x, text, items);
    EntityRow(x, text, items[k], e);
    if j :| EntityAt(rows[..k], e, j) {
      EntityRow(x, text, items[j], e);
      assert false;
    }
  }

  lemma GoesByRow(x: Reading, text: string, items: seq<RawEntity>, name: string, kind: Option<string>, i: int)
    requires 0 <= i < |items|
    ensures GoesBy(x, text, items[i], name, kind) <==> NamedAt(x, Rows(x, text, items), name, kind, i)
  {
  }

  lemma SinglesAtIff(x: Reading, text: string, items: seq<RawEntity>, name: string, kind: Option<string>, e: EntityId, i: int)
    ensures SinglesAt(x, text, items, name, kind, e, i) <==> OneNamedAt(x, Rows(x, text, items), name, kind, e, i)
  {
    var rows := Rows(x, text, items);
    forall j | 0 <= j < |items|
      ensures GoesBy(x, text, items[j], name, kind) <==> NamedAt(x, rows, name, kind, j)
    {
      GoesByRow(x, text, items, name, kind, j);
    }
    if 0 <= i < |items| {
      EntityRow(x, text, items[i], e);
    }
  }

  lemma SinglesIff(x: Reading, text: string, items: seq<RawEntity>, name: string, kind: Option<string>, e: EntityId)
    ensures Singles(x, text, items, name, kind, e) <==> OneNamed(x, Rows(x, text, items), name, kind, e)
  {
    if i :| SinglesAt(x, text, items, name, kind, e, i) {
      SinglesAtIff(x, text, items, name, kind, e, i);
    }
    if i :| OneNamedAt(x, Rows(x, text, items), name, kind, e, i) {
      SinglesAtIff(x, text, items, name, kind, e, i);
    }
  }

  lemma EndpointIs(x: Reading, text: string, items: seq<RawEntity>, name: string, kind: Option<string>, e: EntityId)
    ensures Endpoint(x, Locate(x, text, items), name, kind) == Some(e) <==> Singles(x, text, items, name, kind, e)
  {
    LocateKeeps(x, text, items);
    OneMatchIff(x, Rows(x, text, items), name, kind, e);
    SinglesIff(x, text, items, name, kind, e);
    var ids := Matching(x, Locate(x, text, items), name, kind);
    if |ids| == 1 {
      assert ids == [ids[0]];
    }
  }

  function FactRow(x: Reading, text: string, located: seq<Located>, item: RawRelation): Option<Fact> {
    var fact := Relate(x, text, located, item);
    if fact == [] then None else Some(fact[0])
  }

  function FactRows(x: Reading, text: string, entities: seq<RawEntity>, items: seq<RawRelation>): (rows: seq<Option<Fact>>)
    ensures |rows| == |items| && forall i :: 0 <= i < |items| ==> rows[i] == FactRow(x, text, Locate(x, text, entities), items[i])
  {
    seq(|items|, i requires 0 <= i < |items| => FactRow(x, text, Locate(x, text, entities), items[i]))
  }

  lemma RelateIsRow(x: Reading, text: string, located: seq<Located>, item: RawRelation)
    ensures var row := FactRow(x, text, located, item);
            Relate(x, text, located, item) == if row.Some? then [row.value] else []
  {
  }

  lemma {:induction false} FactsKeep(x: Reading, text: string, entities: seq<RawEntity>, items: seq<RawRelation>)
    ensures Facts(x, text, Locate(x, text, entities), items) == Kept(FactRows(x, text, entities, items))
  {
    if items != [] {
      var n := |items| - 1;
      FactsKeep(x, text, entities, items[..n]);
      RelateIsRow(x, text, Locate(x, text, entities), items[n]);
      assert FactRows(x, text, entities, items)[..n] == FactRows(x, text, entities, items[..n]);
    }
  }

  /** What a relation gives is what its row says. */
  lemma RelationRow(x: Reading, text: string, entities: seq<RawEntity>, item: RawRelation, r: RelationId)
    ensures var row := FactRow(x, text, Locate(x, text, entities), item);
            && (GivesRelation(x, text, entities, item, r) <==> row.Some? && row.value.relation == r)
            && (row.Some? ==> row.value.span == SpanOf(E.FindEvidence(x.unicode, text, Words(text, item)).value))
  {
    EndpointIs(x, text, entities, item.source, item.sourceKind, r.source);
    EndpointIs(x, text, entities, item.target, item.targetKind, r.target);
  }

  lemma SomeRelationIff(x: Reading, text: string, entities: seq<RawEntity>, items: seq<RawRelation>, r: RelationId)
    ensures SomeRelation(x, text, entities, items, r) <==> HasRelation(FactRows(x, text, entities, items), r)
  {
    var rows := FactRows(x, text, entities, items);
    forall k | 0 <= k < |items|
      ensures GivesRelation(x, text, entities, items[k], r) <==> RelationAt(rows, r, k)
    {
      RelationRow(x, text, entities, items[k], r);
    }
    if k :| RelationAt(rows, r, k) {
      assert GivesRelation(x, text, entities, items[k], r);
    }
  }

  lemma FirstRelationIff(x: Reading, text: string, entities: seq<RawEntity>, items: seq<RawRelation>, r: RelationId, k: int)
    requires FirstRelation(x, text, entities, items, r, k)
    ensures RelationAt(FactRows(x, text, entities, items), r, k) && !HasRelation(FactRows(x, text, entities, items)[..k], r)
  {
    var rows := FactRows(x, text, entities, items);
    RelationRow(x, text, entities, items[k], r);
    if j :| RelationAt(rows[..k], r, j) {
      RelationRow(x, text, entities, items[j], r);
      assert false;
    }
  }
}
