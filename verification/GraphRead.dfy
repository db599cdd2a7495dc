/** The rows that the read side of the canonical graph looks at, and the filters it applies.

    A primary key is a number standing for the key's rank in the database's string order:
    only equality and order of keys are ever used.  A table is the sequence of its rows in
    ascending key order, so that `ORDER BY id` is a filter of that sequence and `LIMIT n` a prefix. */
module GraphRead {
  import opened Wrappers

  type Id = int

  datatype ReviewState = Unreviewed | NeedsReview | Approved | Rejected

  datatype Scope = Scope(project: nat, dataset: nat)

  datatype Entity = Entity(id: Id, scope: Scope, review: ReviewState, validUntil: Option<int>, supersededBy: Option<Id>)

  datatype Relation = Relation(id: Id, scope: Scope, source: Id, target: Id, confidence: real,
                               review: ReviewState, validUntil: Option<int>, supersededBy: Option<Id>)

  datatype Citation = OfEntity(entity: Id) | OfRelation(relation: Id)

  datatype Graph = Graph(entities: seq<Entity>, relations: seq<Relation>, evidence: set<Citation>)

  /** Ascending primary keys. */
  ghost predicate Keyed(relations: seq<Relation>) {
    relations == [] || ((forall r :: r in relations[1..] ==> relations[0].id < r.id) && Keyed(relations[1..]))
  }

  predicate SupportedRelation(g: Graph, r: Relation) {
    && r.review != Rejected
    && (r.review == Approved || OfRelation(r.id) in g.evidence)
  }

  predicate SupportedEntity(g: Graph, e: Entity) {
    && e.review != Rejected
    && (|| e.review == Approved
        || OfEntity(e.id) in g.evidence
        || exists r :: r in g.relations && OfRelation(r.id) in g.evidence && r.review != Rejected && e.id in {r.source, r.target})
  }

  /** The filters of one walk that do not change from level to level. */
  predicate LiveRelation(g: Graph, scope: Scope, r: Relation) {
    r.scope == scope && SupportedRelation(g, r) && r.validUntil.None? && r.supersededBy.None?
  }

  predicate LiveEntity(g: Graph, scope: Scope, e: Entity) {
    e.scope == scope && SupportedEntity(g, e) && e.validUntil.None? && e.supersededBy.None?
  }

  /** What is left of the tables under those filters. */
  datatype Snapshot = Snapshot(relations: seq<Relation>, entities: set<Id>)

  function Select(rows: seq<Relation>, keep: Relation -> bool): seq<Relation> {
    if rows == [] then []
    else (if keep(rows[0]) then [rows[0]] else []) + Select(rows[1..], keep)
  }

  function View(g: Graph, scope: Scope): Snapshot {
    Snapshot(Select(g.relations, r => LiveRelation(g, scope, r)), set e | e in g.entities && LiveEntity(g, scope, e) :: e.id)
  }

  lemma {:induction false} SelectKeeps(rows: seq<Relation>, keep: Relation -> bool)
    requires Keyed(rows)
    ensures forall r :: r in Select(rows, keep) <==> r in rows && keep(r)
    ensures Keyed(Select(rows, keep))
  {
    if rows != [] {
      var rest := rows[1..];
      SelectKeeps(rest, keep);
      assert rows == [rows[0]] + rest;
      assert Select(rows, keep) == if keep(rows[0]) then [rows[0]] + Select(rest, keep) else Select(rest, keep);
    }
  }

  /** The snapshot holds the live rows of the scope, all of them and no others. */
  lemma ViewIsLive(g: Graph, scope: Scope)
    requires Keyed(g.relations)
    ensures Keyed(View(g, scope).relations)
    ensures forall r :: r in View(g, scope).relations <==> r in g.relations && LiveRelation(g, scope, r)
    ensures forall x :: x in View(g, scope).entities <==> exists e :: e in g.entities && e.id == x && LiveEntity(g, scope, e)
  {
    SelectKeeps(g.relations, r => LiveRelation(g, scope, r));
  }

  predicate Joins(r: Relation, a: Id, b: Id) {
    (r.source == a && r.target == b) || (r.source == b && r.target == a)
  }

  ghost function Ids(rows: seq<Relation>): set<Id> {
    set r | r in rows :: r.id
  }

  lemma {:induction false} FewIds(rows: seq<Relation>)
    ensures |Ids(rows)| <= |rows|
  {
    if rows != [] {
      FewIds(rows[1..]);
      assert rows == [rows[0]] + rows[1..];
      assert Ids(rows) == {rows[0].id} + Ids(rows[1..]);
    }
  }

  lemma {:induction false} DistinctIds(rows: seq<Relation>)
    requires Keyed(rows)
    ensures |Ids(rows)| == |rows|
  {
    if rows != [] {
      var rest := rows[1..];
      DistinctIds(rest);
      assert rows == [rows[0]] + rest;
      assert Ids(rows) == {rows[0].id} + Ids(rest);
    }
  }

  lemma {:induction false} KeysIdentify(rows: seq<Relation>, a: Relation, b: Relation)
    requires Keyed(rows) && a in rows && b in rows && a.id == b.id
    ensures a == b
  {
    if a != rows[0] && b != rows[0] {
      assert rows == [rows[0]] + rows[1..];
      KeysIdentify(rows[1..], a, b);
    }
  }

  lemma Smaller<T>(a: set<T>, b: set<T>)
    requires a <= b
    ensures |a| <= |b|
    ensures |a| == |b| ==> a == b
  {
    assert b == a + (b - a);
  }
}
