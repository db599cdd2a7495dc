/** The garbage collector of apps/api/app/graph/gc.py: what it deletes, what it must leave, and what it
    relies on the writers for. */
module Collector {
  import opened Wrappers
  import opened GraphTables

  // ---------- The stages ----------

  function CitedEntities(t: Tables, document: int): set<EntityId> {
    set k | k in t.evidence && From(t, k, document) && k.entity.Some? :: k.entity.value
  }

  function CitedRelations(t: Tables, document: int): set<RelationId> {
    set k | k in t.evidence && From(t, k, document) && k.relation.Some? :: k.relation.value
  }

  /** Evidence goes, and with it the alias links that rest on it. */
  function DropEvidence(t: Tables, document: int): Tables {
    t.(evidence := (map k | k in t.evidence && !From(t, k, document) :: t.evidence[k]),
       aliasEvidence := set l | l in t.aliasEvidence && l.evidence in t.evidence && !From(t, l.evidence, document))
  }

  predicate HasLink(t: Tables, a: AliasId) {
    exists l :: l in t.aliasEvidence && l.alias == a
  }

  function DropAliases(t: Tables, affected: set<EntityId>): Tables {
    t.(aliases := map a | a in t.aliases && (t.aliases[a] !in affected || HasLink(t, a)) :: t.aliases[a])
  }

  predicate HasEvidence(t: Tables, r: RelationId) {
    exists k :: k in t.evidence && k.relation == Some(r)
  }

  function DropRelations(t: Tables, affected: set<RelationId>): Tables {
    t.(relations := set r | r in t.relations && (r !in affected || HasEvidence(t, r)))
  }

  /** The stored entities that the last stage looks at: those the document was evidence for, and the
      endpoints of the affected relations that are still there. */
  function Candidates(t: Tables, entities: set<EntityId>, relations: set<RelationId>): set<EntityId> {
    set e | e in t.entities && (e in entities || exists r :: r in relations && r in t.relations && e in {r.source, r.target})
  }

  predicate Supported(t: Tables, e: EntityId) {
    exists k :: k in t.evidence && k.entity == Some(e)
  }

  predicate Related(t: Tables, e: EntityId) {
    exists r :: r in t.relations && (r.source == e || r.target == e)
  }

  function Unsupported(t: Tables, candidates: set<EntityId>): set<EntityId> {
    set e | e in candidates && !Supported(t, e) && !Related(t, e)
  }

  predicate Touches(m: Merge, s: set<EntityId>) {
    m.source in s || m.target in s
  }

  predicate Inside(m: Merge, s: set<EntityId>) {
    m.source in s && m.target in s
  }

  /** A merge record ties the entity to one that stays. */
  predicate Protected(t: Tables, unsupported: set<EntityId>, e: EntityId) {
    exists m :: m in t.merges && Touches(m, unsupported) && !Inside(m, unsupported) && e in {m.source, m.target}
  }

  function Removable(t: Tables, unsupported: set<EntityId>): set<EntityId> {
    set e | e in unsupported && !Protected(t, unsupported, e)
  }

  function DropEntities(t: Tables, unsupported: set<EntityId>): Tables {
    var removable := Removable(t, unsupported);
    if removable == {} then t
    else
      var aliases := map a | a in t.aliases && t.aliases[a] !in removable :: t.aliases[a];
      t.(entities := t.entities - removable,
         merges := (set m | m in t.merges && !Inside(m, unsupported)),
         aliases := aliases,
         aliasEvidence := set l | l in t.aliasEvidence && l.alias in aliases)
  }

  /** The tables before the last stage. */
  function Stripped(t: Tables, document: int): Tables {
    DropRelations(DropAliases(DropEvidence(t, document), CitedEntities(t, document)), CitedRelations(t, document))
  }

  /** The entities that the last stage finds without evidence and without relations. */
  function Loose(t: Tables, document: int): set<EntityId> {
    var s := Stripped(t, document);
    Unsupported(s, Candidates(s, CitedEntities(t, document), CitedRelations(t, document)))
  }

  function Cleanup(t: Tables, document: int): Tables {
    DropEntities(Stripped(t, document), Loose(t, document))
  }

  // ---------- The transaction ----------

  class GraphStore {
    var tables: Tables

    constructor (t: Tables)
      ensures tables == t
    {
      tables := t;
    }

    method CleanupDocumentGraph(document: int)
      modifies this
      ensures tables == Cleanup(old(tables), document)
    {
      var affectedEntities := CitedEntities(tables, document);
      var affectedRelations := CitedRelations(tables, document);
      tables := DropEvidence(tables, document);
      if affectedEntities != {} {
        tables := DropAliases(tables, affectedEntities);
      } else {
        assert DropAliases(tables, {}).aliases == tables.aliases;
      }
      if affectedRelations != {} {
        tables := DropRelations(tables, affectedRelations);
      } else {
        assert DropRelations(tables, {}).relations == tables.relations;
      }
      var candidates := Candidates(tables, affectedEntities, affectedRelations);
      var unsupported := Unsupported(tables, candidates);
      tables := DropEntities(tables, unsupported);
    }
  }

  // ---------- Safety ----------

  /** Only the document's own evidence goes.  A relation goes exactly when it loses its last evidence;
      entities and aliases that other evidence speaks for stay. */
  lemma OthersAreSafe(t: Tables, document: int)
    requires Provenance(t)
    ensures var t' := Cleanup(t, document);
            && (forall k :: k in t'.evidence <==> k in t.evidence && !From(t, k, document))
            && (forall k :: k in t'.evidence ==> t'.evidence[k] == t.evidence[k])
            && (forall r :: r in t'.relations <==> r in t.relations && (r in CitedRelations(t, document) ==> HasEvidence(t', r)))
            && (forall e :: e in t.entities && (Supported(t', e) || Related(t', e)) ==> e in t'.entities)
            && (forall a :: a in t.aliases && HasLink(DropEvidence(t, document), a) ==> a in t'.aliases)
            && t'.runs == t.runs && t'.chunks == t.chunks
  {
    var s, t' := Stripped(t, document), Cleanup(t, document);
    assert t'.evidence == s.evidence && t'.relations == s.relations;
    forall e | e in t.entities && (Supported(t', e) || Related(t', e))
      ensures e in t'.entities
    {
      assert Supported(s, e) || Related(s, e);
    }
    forall a | a in t.aliases && HasLink(DropEvidence(t, document), a)
      ensures a in t'.aliases
    {
      var l :| l in DropEvidence(t, document).aliasEvidence && l.alias == a;
      assert Linked(t, l);
      assert l.evidence in s.evidence && Supported(s, t.aliases[a]);
    }
  }

  lemma CitedByOwn(t: Tables, document: int, e: EntityId)
    requires Provenance(t) && e in t.entities && e !in Cleanup(t, document).entities
    ensures e in CitedEntities(t, document)
  {
    var s := Stripped(t, document);
    assert e in Candidates(s, CitedEntities(t, document), CitedRelations(t, document));
    if r :| r in CitedRelations(t, document) && r in s.relations && e in {r.source, r.target} {
      EndpointIsCited(t, document, r);
    }
  }

  /** An alias goes exactly when the document cites its entity and no evidence is left for it, and the links go whose evidence
      goes. */
  lemma AliasesAreExact(t: Tables, document: int, a: AliasId, l: AliasLink)
    requires Provenance(t)
    ensures var t' := Cleanup(t, document);
            && (a in t'.aliases <==> a in t.aliases && (t.aliases[a] in CitedEntities(t, document) ==> HasLink(t', a)))
            && (a in t'.aliases ==> t'.aliases[a] == t.aliases[a])
            && (l in t'.aliasEvidence <==> l in t.aliasEvidence && !From(t, l.evidence, document))
  {
    var t1, t' := DropEvidence(t, document), Cleanup(t, document);
    OthersAreSafe(t, document);
    LinksAreExact(t, document, l);
    LinkedStays(t, document, a);
    if a in t.aliases && t.aliases[a] !in t'.entities {
      assert t.aliases[a] in t.entities;
      CitedByOwn(t, document, t.aliases[a]);
    }
  }

  lemma LinksAreExact(t: Tables, document: int, l: AliasLink)
    requires Provenance(t)
    ensures l in Cleanup(t, document).aliasEvidence <==> l in t.aliasEvidence && !From(t, l.evidence, document)
  {
    OthersAreSafe(t, document);
    if l in t.aliasEvidence && !From(t, l.evidence, document) {
      assert Linked(t, l);
      assert l in DropEvidence(t, document).aliasEvidence;
      assert HasLink(DropEvidence(t, document), l.alias);
    }
  }

  lemma LinkedStays(t: Tables, document: int, a: AliasId)
    requires Provenance(t)
    ensures HasLink(Cleanup(t, document), a) <==> HasLink(DropEvidence(t, document), a)
  {
    if l :| l in DropEvidence(t, document).aliasEvidence && l.alias == a {
      assert Linked(t, l);
      LinksAreExact(t, document, l);
    }
  }

  lemma EvidenceStaysSound(t: Tables, document: int, k: EvidenceId)
    requires Provenance(t) && k in Cleanup(t, document).evidence
    ensures Sound(Cleanup(t, document), k)
  {
    var s, t' := Stripped(t, document), Cleanup(t, document);
    assert t'.evidence == s.evidence && t'.chunks == t.chunks && Sound(t, k);
    var d := t.chunks[k.chunk].document;
    assert d != document;
    if k.entity.Some? {
      assert Supported(s, k.entity.value);
    } else {
      var r := k.relation.value;
      assert HasEvidence(s, r) && r in t'.relations;
    }
  }

  lemma LinkStays(t: Tables, document: int, l: AliasLink)
    requires Provenance(t) && l in Cleanup(t, document).aliasEvidence
    ensures Linked(Cleanup(t, document), l)
  {
    var t1 := DropEvidence(t, document);
    assert l in t1.aliasEvidence && Linked(t, l);
    assert HasLink(t1, l.alias);
  }

  /** No row is left pointing at a missing one, and what the writers maintain still holds. */
  lemma CleanupKeepsProvenance(t: Tables, document: int)
    requires Provenance(t)
    ensures Provenance(Cleanup(t, document))
  {
    var s, t' := Stripped(t, document), Cleanup(t, document);
    forall k | k in t'.evidence
      ensures Sound(t', k)
    {
      EvidenceStaysSound(t, document, k);
    }
    forall r | r in t'.relations
      ensures Joined(t', r)
    {
      assert r in t.relations && Joined(t, r);
      assert Related(s, r.source) && Related(s, r.target);
    }
    forall a | a in t'.aliases
      ensures t'.aliases[a] in t'.entities
    {
      assert t.aliases[a] in t.entities;
    }
    forall l | l in t'.aliasEvidence
      ensures Linked(t', l)
    {
      LinkStays(t, document, l);
    }
    forall m | m in t'.merges
      ensures m.source in t'.entities && m.target in t'.entities
    {
    }
  }

  // ---------- Completeness ----------

  /** The document was evidence for the entity, or for a relation at it. */
  ghost predicate Contributed(t: Tables, document: int, e: EntityId) {
    e in CitedEntities(t, document) || exists r :: r in CitedRelations(t, document) && e in {r.source, r.target}
  }

  /** A merge record that is left ties the entity to one that was not loose. */
  ghost predicate Tied(t: Tables, document: int, e: EntityId) {
    exists m :: m in Cleanup(t, document).merges && e in {m.source, m.target} && !Inside(m, Loose(t, document))
  }

  lemma EndpointIsCited(t: Tables, document: int, r: RelationId)
    requires Provenance(t) && r in CitedRelations(t, document)
    ensures r.source in CitedEntities(t, document) && r.target in CitedEntities(t, document)
  {
    var k :| k in t.evidence && From(t, k, document) && k.relation == Some(r);
    assert Sound(t, k);
    var a :| a in t.evidence && From(t, a, document) && a.entity == Some(r.source);
    var b :| b in t.evidence && From(t, b, document) && b.entity == Some(r.target);
  }

  /** Of the entities that the document contributed to, exactly those stay that still have evidence, a
      relation, or a merge record to an entity that was not loose. */
  lemma CollectorIsComplete(t: Tables, document: int, e: EntityId)
    requires Provenance(t) && e in t.entities && Contributed(t, document, e)
    ensures var t' := Cleanup(t, document);
            e in t'.entities <==> Supported(t', e) || Related(t', e) || Tied(t, document, e)
  {
    var s, t', loose := Stripped(t, document), Cleanup(t, document), Loose(t, document);
    if r :| r in CitedRelations(t, document) && e in {r.source, r.target} {
      EndpointIsCited(t, document, r);
    }
    assert e in Candidates(s, CitedEntities(t, document), CitedRelations(t, document));
    assert t'.evidence == s.evidence && t'.relations == s.relations;
    assert Supported(t', e) <==> Supported(s, e);
    assert Related(t', e) <==> Related(s, e);
    assert e in Removable(s, loose) <==> e in loose && !Protected(s, loose, e);
    if e in loose {
    }
  }

  /** Whatever the tables: of the entities left without evidence, relation or tie, exactly those are
      removed for which the document itself was evidence.  The endpoints of a deleted relation are
      looked up too late to be found otherwise, which is why the writers must cite both. */
  lemma OrphanRemovedIffCited(t: Tables, document: int, e: EntityId)
    requires e in t.entities
    requires !Supported(Stripped(t, document), e) && !Related(Stripped(t, document), e)
    requires !Protected(Stripped(t, document), Loose(t, document), e)
    ensures e !in Cleanup(t, document).entities <==> e in CitedEntities(t, document)
  {
    var s, loose := Stripped(t, document), Loose(t, document);
    assert e in Candidates(s, CitedEntities(t, document), CitedRelations(t, document)) <==> e in CitedEntities(t, document);
    assert e in Removable(s, loose) <==> e in loose;
  }

  /** A relation cited without its endpoints leaves them behind as orphans. */
  lemma UncitedEndpointsLeak() returns (t: Tables, e: EntityId)
    ensures e in Cleanup(t, 7).entities && Contributed(t, 7, e)
    ensures var t' := Cleanup(t, 7); t'.evidence == map[] && t'.relations == {} && t'.merges == {}
  {
    var a, b := EntityId("a", "t"), EntityId("b", "t");
    var r := RelationId(a, "R", b);
    var k := EvidenceId(Extraction, 0, None, Some(r));
    t := Tables(map[0 := Chunk(7, "")], map[], {a, b}, {r}, map[k := Span("", 0, 0)], map[], {}, {});
    e := a;
    assert From(t, k, 7) && r in CitedRelations(t, 7);
    var s := Stripped(t, 7);
    assert s.evidence == map[] && s.relations == {} && s.merges == {};
    assert CitedEntities(t, 7) == {};
    OrphanRemovedIffCited(t, 7, e);
  }

  // ---------- When the evidence is already gone ----------

  /** Without evidence of the document in the tables there is nothing the collector would do. */
  lemma NothingCitedNothingDone(t: Tables, document: int)
    requires Provenance(t) && forall k :: k in t.evidence ==> !From(t, k, document)
    ensures Cleanup(t, document) == t
  {
    forall l | l in t.aliasEvidence
      ensures l.evidence in t.evidence
    {
      assert Linked(t, l);
    }
    var t1 := DropEvidence(t, document);
    assert t1.evidence == t.evidence && t1.aliasEvidence == t.aliasEvidence;
    assert CitedEntities(t, document) == {} && CitedRelations(t, document) == {};
    var t2 := DropAliases(t1, {});
    assert t2.aliases == t.aliases;
    var s := DropRelations(t2, {});
    assert s.relations == t.relations;
    assert Candidates(s, {}, {}) == {};
    assert Removable(s, {}) == {};
  }

  /** Collecting a second time changes nothing. */
  lemma CleanupIsIdempotent(t: Tables, document: int)
    requires Provenance(t)
    ensures Cleanup(Cleanup(t, document), document) == Cleanup(t, document)
  {
    CleanupKeepsProvenance(t, document);
    OthersAreSafe(t, document);
    NothingCitedNothingDone(Cleanup(t, document), document);
  }

  /** Deleting a document, or its chunks before they are indexed again: the chunks take along their runs, their
      evidence and its alias links.  Entities, relations and aliases stay. */
  function Removed(t: Tables, document: int): Tables {
    DropEvidence(t, document).(
      chunks := (map c | c in t.chunks && t.chunks[c].document != document :: t.chunks[c]),
      runs := (map c | c in t.runs && !(c in t.chunks && t.chunks[c].document == document) :: t.runs[c]))
  }

  lemma RemovedStaysSound(t: Tables, document: int, k: EvidenceId)
    requires Provenance(t) && k in Removed(t, document).evidence
    ensures Sound(Removed(t, document), k)
  {
    var t' := Removed(t, document);
    assert Sound(t, k);
    if k.relation.Some? {
      var d := t.chunks[k.chunk].document;
      var a :| a in t.evidence && From(t, a, d) && a.entity == Some(k.relation.value.source);
      var b :| b in t.evidence && From(t, b, d) && b.entity == Some(k.relation.value.target);
      assert a in t'.evidence && From(t', a, d) && b in t'.evidence && From(t', b, d);
    }
  }

  /** What the writers maintain survives a deletion. */
  lemma RemovalKeepsProvenance(t: Tables, document: int)
    requires Provenance(t)
    ensures Provenance(Removed(t, document))
  {
    var t' := Removed(t, document);
    forall k | k in t'.evidence
      ensures Sound(t', k)
    {
      RemovedStaysSound(t, document, k);
    }
    forall r | r in t'.relations
      ensures Joined(t', r)
    {
      assert Joined(t, r);
    }
    forall l | l in t'.aliasEvidence
      ensures Linked(t', l)
    {
      assert Linked(t, l);
    }
    assert forall a :: a in t'.aliases ==> t.aliases[a] in t.entities;
  }

  /** When the document's rows are deleted first, as the callers do, the cascade has taken the evidence along, and
      the collector leaves every entity and relation in place. */
  lemma CascadeDisarmsCollector(t: Tables, document: int)
    requires Provenance(t)
    ensures Cleanup(Removed(t, document), document) == Removed(t, document)
    ensures Removed(t, document).entities == t.entities && Removed(t, document).relations == t.relations
  {
    RemovalKeepsProvenance(t, document);
    NothingCitedNothingDone(Removed(t, document), document);
  }
}
