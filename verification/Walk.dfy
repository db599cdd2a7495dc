/** The bounded breadth-first walk of apps/api/app/graph/service.py and the path it reports. */
module Walk {
  import opened Wrappers
  import opened Helpers
  import opened GraphRead

  // ---------- Reachability and paths ----------

  ghost function Neighbours(v: Snapshot, s: set<Id>): set<Id> {
    set b | b in v.entities && exists r, a :: r in v.relations && a in s && Joins(r, a, b)
  }

  /** Everything within `d` live relations of the root. */
  ghost function Reach(v: Snapshot, root: Id, d: nat): set<Id> {
    if d == 0 then {root} else Reach(v, root, d - 1) + Neighbours(v, Reach(v, root, d - 1))
  }

  ghost predicate Hop(v: Snapshot, a: Id, relation: Id, b: Id) {
    b in v.entities && exists r :: r in v.relations && r.id == relation && Joins(r, a, b)
  }

  /** `nodes` leads from `source` to `target`; relation i joins node i and node i + 1. */
  ghost predicate IsPath(v: Snapshot, source: Id, target: Id, nodes: seq<Id>, links: seq<Id>) {
    && |nodes| == |links| + 1
    && nodes[0] == source && nodes[|links|] == target
    && forall i :: 0 <= i < |links| ==> Hop(v, nodes[i], links[i], nodes[i + 1])
  }

  lemma {:induction false} ReachGrows(v: Snapshot, root: Id, m: nat, n: nat)
    requires m <= n
    ensures Reach(v, root, m) <= Reach(v, root, n)
    ensures Reach(v, root, n) <= v.entities + {root}
    decreases n
  {
    if m < n {
      ReachGrows(v, root, m, n - 1);
    } else if n > 0 {
      ReachGrows(v, root, n - 1, n - 1);
    }
  }

  lemma {:induction false} PathStaysInReach(v: Snapshot, root: Id, target: Id, nodes: seq<Id>, links: seq<Id>)
    requires IsPath(v, root, target, nodes, links)
    ensures target in Reach(v, root, |links|)
    decreases |links|
  {
    if links != [] {
      var k := |links| - 1;
      PathStaysInReach(v, root, nodes[k], nodes[..k + 1], links[..k]);
      assert Hop(v, nodes[k], links[k], nodes[k + 1]);
    }
  }

  lemma PathExtends(v: Snapshot, root: Id, a: Id, nodes: seq<Id>, links: seq<Id>, r: Relation, b: Id)
    requires IsPath(v, root, a, nodes, links) && r in v.relations && Joins(r, a, b) && b in v.entities
    ensures IsPath(v, root, b, nodes + [b], links + [r.id])
  {
    var ns, ls := nodes + [b], links + [r.id];
    assert Hop(v, a, r.id, b);
    forall i | 0 <= i < |ls|
      ensures Hop(v, ns[i], ls[i], ns[i + 1])
    {
      assert i < |links| ==> Hop(v, nodes[i], links[i], nodes[i + 1]);
    }
  }

  lemma LastStep(v: Snapshot, s: set<Id>, b: Id) returns (r: Relation, a: Id)
    requires b in Neighbours(v, s)
    ensures b in v.entities && r in v.relations && a in s && Joins(r, a, b)
  {
    r, a :| r in v.relations && a in s && Joins(r, a, b);
  }

  lemma {:induction false} ReachHasPath(v: Snapshot, root: Id, target: Id, d: nat) returns (nodes: seq<Id>, links: seq<Id>)
    requires target in Reach(v, root, d)
    ensures IsPath(v, root, target, nodes, links) && |links| <= d
    decreases d
  {
    if d == 0 {
      nodes, links := [root], [];
    } else if target in Reach(v, root, d - 1) {
      nodes, links := ReachHasPath(v, root, target, d - 1);
    } else {
      var r, a := LastStep(v, Reach(v, root, d - 1), target);
      nodes, links := ReachHasPath(v, root, a, d - 1);
      PathExtends(v, root, a, nodes, links, r, target);
      nodes, links := nodes + [target], links + [r.id];
    }
  }

  // ---------- What a walk returns ----------

  datatype Parent = Parent(node: Id, link: Id)

  datatype Found = Found(entities: set<Id>, relations: map<Id, Relation>, parents: map<Id, Parent>)

  /** The result is a tree of live relations hanging from the root; `level` is a node's depth in it. */
  ghost predicate Tree(v: Snapshot, root: Id, t: Found, level: map<Id, int>) {
    && root in t.entities && level.Keys == t.entities && t.parents.Keys <= t.entities
    && (forall x {:trigger Hangs(v, root, t, level, x)} :: x in t.entities ==> Hangs(v, root, t, level, x))
    && (forall r {:trigger Live(v, t, r)} :: r in t.relations ==> Live(v, t, r))
  }

  /** An entity is the root, or a live entity that its parent link joins to an entity one level up. */
  ghost predicate Hangs(v: Snapshot, root: Id, t: Found, level: map<Id, int>, x: Id)
    requires level.Keys == t.entities && x in t.entities
  {
    if x == root then level[x] == 0 && x !in t.parents
    else
      && x in t.parents && x in v.entities
      && var (p, r) := (t.parents[x].node, t.parents[x].link);
      && p in t.entities && level[x] == level[p] + 1 && level[p] >= 0
      && r in t.relations && Joins(t.relations[r], p, x)
  }

  /** A recorded relation is live and has both its endpoints in the result. */
  ghost predicate Live(v: Snapshot, t: Found, r: Id)
    requires r in t.relations
  {
    && t.relations[r] in v.relations && t.relations[r].id == r
    && t.relations[r].source in t.entities && t.relations[r].target in t.entities
  }

  /** The live relations that touch a set of entities. */
  ghost function Near(v: Snapshot, s: set<Id>): set<Id> {
    set r | r in v.relations && (r.source in s || r.target in s) :: r.id
  }

  /** The live relations that a walk of this depth can meet. */
  ghost function InSight(v: Snapshot, root: Id, depth: nat): set<Id> {
    if depth == 0 then {} else Near(v, Reach(v, root, depth - 1))
  }

  /** The limits cannot cut anything off: neither what lies within the depth nor the relations on the way there. */
  ghost predicate Ample(v: Snapshot, root: Id, depth: nat, nodeLimit: nat, relationLimit: nat) {
    |Reach(v, root, depth)| <= nodeLimit && |InSight(v, root, depth)| <= relationLimit
  }

  /** No entity was reached later than it could have been. */
  ghost predicate Earliest(v: Snapshot, root: Id, level: map<Id, int>) {
    forall x :: x in level && level[x] > 0 ==> x !in Reach(v, root, level[x] - 1)
  }

  lemma {:induction false} LevelReaches(v: Snapshot, root: Id, t: Found, level: map<Id, int>, x: Id)
    requires Tree(v, root, t, level) && x in t.entities
    ensures level[x] >= 0 && x in Reach(v, root, level[x])
    decreases if Hangs(v, root, t, level, x) then level[x] else 0
  {
    assert Hangs(v, root, t, level, x);
    if x != root {
      var p, r := t.parents[x].node, t.relations[t.parents[x].link];
      LevelReaches(v, root, t, level, p);
      assert Live(v, t, t.parents[x].link);
      JoinsNeighbour(v, Reach(v, root, level[p]), r, p, x);
    }
  }

  lemma TreeInside(v: Snapshot, root: Id, t: Found, level: map<Id, int>)
    requires Tree(v, root, t, level)
    ensures t.entities <= v.entities + {root} && t.relations.Keys <= Ids(v.relations)
  {
    forall x | x in t.entities && x != root
      ensures x in v.entities
    {
      assert Hangs(v, root, t, level, x);
    }
    forall r | r in t.relations
      ensures r in Ids(v.relations)
    {
      assert Live(v, t, r);
    }
  }

  // ---------- The query of one level ----------

  predicate Touches(r: Relation, frontier: set<Id>, seen: set<Id>) {
    (r.source in frontier || r.target in frontier) && r.id !in seen
  }

  function Query(rows: seq<Relation>, frontier: set<Id>, seen: set<Id>): seq<Relation> {
    if rows == [] then []
    else (if Touches(rows[0], frontier, seen) then [rows[0]] else []) + Query(rows[1..], frontier, seen)
  }

  lemma {:induction false} QuerySelects(rows: seq<Relation>, frontier: set<Id>, seen: set<Id>)
    requires Keyed(rows)
    ensures forall r :: r in Query(rows, frontier, seen) <==> r in rows && Touches(r, frontier, seen)
    ensures Keyed(Query(rows, frontier, seen))
  {
    if rows != [] {
      var rest := rows[1..];
      QuerySelects(rest, frontier, seen);
      assert rows == [rows[0]] + rest;
      var found := Query(rest, frontier, seen);
      assert Query(rows, frontier, seen) == if Touches(rows[0], frontier, seen) then [rows[0]] + found else found;
    }
  }

  /** The rows already taken and the rows of the next query never exceed the table. */
  lemma QueryFits(rows: seq<Relation>, frontier: set<Id>, seen: set<Id>)
    requires Keyed(rows) && seen <= Ids(rows)
    ensures |Query(rows, frontier, seen)| + |seen| <= |rows|
  {
    var q := Query(rows, frontier, seen);
    QuerySelects(rows, frontier, seen);
    DistinctIds(rows);
    DistinctIds(q);
    assert Ids(q) !! seen;
    assert |Ids(q) + seen| == |Ids(q)| + |seen|;
    Smaller(Ids(q) + seen, Ids(rows));
  }

  // ---------- The walk ----------

  function Link(t: Found, r: Relation): Found {
    t.(relations := t.relations[r.id := r])
  }

  function Grow(t: Found, r: Relation, p: Id, x: Id): Found {
    Found(t.entities + {x}, t.relations[r.id := r], t.parents[x := Parent(p, r.id)])
  }

  lemma LinkKeepsTree(v: Snapshot, root: Id, t: Found, level: map<Id, int>, r: Relation)
    requires Keyed(v.relations) && Tree(v, root, t, level)
    requires r in v.relations && r.source in t.entities && r.target in t.entities
    ensures Tree(v, root, Link(t, r), level)
  {
    if r.id in t.relations {
      assert Live(v, t, r.id);
      KeysIdentify(v.relations, r, t.relations[r.id]);
    }
    var t' := Link(t, r);
    forall x | x in t'.entities
      ensures Hangs(v, root, t', level, x)
    {
      assert Hangs(v, root, t, level, x);
    }
    forall k | k in t'.relations
      ensures Live(v, t', k)
    {
      assert k in t.relations ==> Live(v, t, k);
    }
  }

  lemma GrowKeepsTree(v: Snapshot, root: Id, t: Found, level: map<Id, int>, r: Relation, p: Id, x: Id)
    requires Keyed(v.relations) && Tree(v, root, t, level)
    requires r in v.relations && Joins(r, p, x) && p in t.entities && x !in t.entities && x in v.entities
    ensures Tree(v, root, Grow(t, r, p, x), level[x := level[p] + 1])
  {
    if r.id in t.relations {
      assert Live(v, t, r.id);
      KeysIdentify(v.relations, r, t.relations[r.id]);
    }
    var t', level' := Grow(t, r, p, x), level[x := level[p] + 1];
    assert Hangs(v, root, t, level, p) && Hangs(v, root, t, level, root);
    forall y | y in t'.entities
      ensures Hangs(v, root, t', level', y)
    {
      assert y in t.entities ==> Hangs(v, root, t, level, y);
    }
    forall k | k in t'.relations
      ensures Live(v, t', k)
    {
      assert k in t.relations ==> Live(v, t, k);
    }
  }

  /** `t` continues `t0` with entities at depth `d + 1` only. */
  ghost predicate Extends(t0: Found, level0: map<Id, int>, t: Found, level: map<Id, int>, d: nat)
    requires level0.Keys == t0.entities && level.Keys == t.entities
  {
    && t0.entities <= t.entities
    && forall x :: x in t.entities ==> level[x] == if x in t0.entities then level0[x] else d + 1
  }

  ghost predicate New(next: set<Id>, t: Found, t0: Found) {
    forall x :: x in next <==> x in t.entities && x !in t0.entities
  }

  /** Both endpoints of a row can be taken. */
  ghost predicate Open(v: Snapshot, root: Id, r: Relation) {
    (r.source in v.entities || r.source == root) && (r.target in v.entities || r.target == root)
  }

  /** A row may stay out only when the node limit was used up and it leads to an entity that is not there. */
  ghost predicate TurnedAway(t: Found, r: Relation, nodeLimit: nat) {
    |t.entities| >= nodeLimit && (r.source !in t.entities || r.target !in t.entities)
  }

  /** What one row adds: itself at most, and the entity `reached` hanging on it. */
  ghost predicate Adds(t0: Found, t: Found, r: Relation, nodeLimit: nat, reached: Option<Id>) {
    && t0.relations.Keys <= t.relations.Keys && t0.entities <= t.entities
    && |t.entities| <= Max(nodeLimit, |t0.entities|)
    && (reached.Some? ==> reached.value in t.entities)
    && (forall x :: x in t.entities && x !in t0.entities ==> reached == Some(x))
    && (forall k :: k in t.relations ==> k in t0.relations || k == r.id)
    && (forall x :: x in t0.parents ==> x in t.parents && t.parents[x] == t0.parents[x])
    && (forall x :: x in t.entities && x !in t0.entities ==> x in t.parents && t.parents[x].link == r.id)
    && (|t0.entities| >= nodeLimit ==> t.entities == t0.entities)
  }

  /** One row of a level's query.  `reached` is the far endpoint, unless the row is skipped. */
  method Visit(v: Snapshot, root: Id, ghost d: nat, frontier: set<Id>, r: Relation, nodeLimit: nat, t0: Found, ghost level0: map<Id, int>)
    returns (t: Found, ghost level: map<Id, int>, reached: Option<Id>)
    requires Keyed(v.relations) && Tree(v, root, t0, level0)
    requires forall x :: x in frontier ==> x in t0.entities && level0[x] == d
    requires r in v.relations && (r.source in frontier || r.target in frontier)
    ensures Tree(v, root, t, level) && Extends(t0, level0, t, level, d)
    ensures Adds(t0, t, r, nodeLimit, reached)
    ensures Open(v, root, r) ==> r.id in t.relations || TurnedAway(t0, r, nodeLimit)
  {
    t, level, reached := t0, level0, None;
    if r.source !in t.entities && r.source !in v.entities {
      return;
    }
    if r.target !in t.entities && r.target !in v.entities {
      return;
    }
    var far := if r.source in frontier then r.target else r.source;
    var near := if r.source in frontier then r.source else r.target;
    if far !in t.entities {
      if |t.entities| >= nodeLimit {
        return;
      }
      GrowKeepsTree(v, root, t, level, r, near, far);
      t, level := Grow(t, r, near, far), level[far := d + 1];
    } else {
      LinkKeepsTree(v, root, t, level, r);
      t := Link(t, r);
    }
    reached := Some(far);
  }

  lemma RelationCount(t0: Found, t: Found, rows: seq<Relation>)
    requires forall k :: k in t.relations ==> k in t0.relations || k in Ids(rows)
    ensures |t.relations| <= |t0.relations| + |rows|
  {
    FewIds(rows);
    var both := t0.relations.Keys + Ids(rows);
    forall k | k in t.relations.Keys
      ensures k in both
    {
    }
    Smaller(t.relations.Keys, both);
  }

  /** A row of a level was recorded, or turned away after rows with smaller ids had used up the node limit. */
  ghost predicate Handled(t0: Found, t: Found, r: Relation, nodeLimit: nat) {
    r.id in t.relations || (TurnedAway(t, r, nodeLimit) && HangsBelow(t0, t, r.id))
  }

  /** Entities that are new hang on links below `bound`. */
  ghost predicate HangsBelow(t0: Found, t: Found, bound: Id) {
    forall x :: x in t.entities && x !in t0.entities ==> x in t.parents && t.parents[x].link < bound
  }

  ghost predicate RowsHandled(v: Snapshot, root: Id, t0: Found, t: Found, rows: seq<Relation>, n: int, nodeLimit: nat)
    requires 0 <= n <= |rows|
  {
    && (n < |rows| ==> HangsBelow(t0, t, rows[n].id))
    && forall j :: 0 <= j < n && Open(v, root, rows[j]) ==> Handled(t0, t, rows[j], nodeLimit)
  }

  /** The target was not there before. */
  ghost predicate Met(target: Option<Id>, t0: Found, t: Found) {
    target.Some? && target.value in t.entities && target.value !in t0.entities
  }

  lemma MetIsReached(target: Option<Id>, t0: Found, t1: Found, t: Found, r: Relation, nodeLimit: nat, reached: Option<Id>)
    requires !Met(target, t0, t1) && Adds(t1, t, r, nodeLimit, reached)
    ensures Met(target, t0, t) ==> reached == target
  {
    if Met(target, t0, t) {
      var x := target.value;
      assert x in t.entities && x !in t1.entities;
      assert reached == Some(x);
    }
  }

  lemma {:induction false} KeysAscend(rows: seq<Relation>, i: int, j: int)
    requires Keyed(rows) && 0 <= i < j < |rows|
    ensures rows[i].id < rows[j].id
  {
    if i > 0 {
      KeysAscend(rows[1..], i - 1, j - 1);
    } else {
      assert rows[j] in rows[1..];
    }
  }

  /** The rows of one level, in order, until the target turns up. */
  method Level(v: Snapshot, root: Id, ghost d: nat, frontier: set<Id>, rows: seq<Relation>, nodeLimit: nat,
               target: Option<Id>, t0: Found, ghost level0: map<Id, int>)
    returns (t: Found, ghost level: map<Id, int>, next: set<Id>, found: bool)
    requires Keyed(v.relations) && Tree(v, root, t0, level0) && Keyed(rows)
    requires forall x :: x in frontier ==> x in t0.entities && level0[x] == d
    requires forall r :: r in rows ==> r in v.relations && (r.source in frontier || r.target in frontier)
    ensures Tree(v, root, t, level) && Extends(t0, level0, t, level, d) && Gathers(t0, t, rows, next, nodeLimit)
    ensures found ==> target.Some? && target.value in t.entities
    ensures !found ==> !Met(target, t0, t)
    ensures !found ==> forall r :: r in rows && Open(v, root, r) ==> Handled(t0, t, r, nodeLimit)
  {
    t, level, next, found := t0, level0, {}, false;
    for i := 0 to |rows|
      invariant Tree(v, root, t, level) && Extends(t0, level0, t, level, d) && Gathers(t0, t, rows, next, nodeLimit)
      invariant !Met(target, t0, t)
      invariant RowsHandled(v, root, t0, t, rows, i, nodeLimit)
    {
      assert rows[i] in rows;
      ghost var t1, level1, next1 := t, level, next;
      var known := t.entities;
      var reached;
      t, level, reached := Visit(v, root, d, frontier, rows[i], nodeLimit, t, level);
      if reached.Some? && reached.value !in known {
        next := next + {reached.value};
      }
      StillExtends(t0, level0, t1, level1, t, level, d);
      GathersMore(t0, t1, t, rows, i, next1, next, nodeLimit, reached);
      RowHandled(v, root, rows, i, t0, t1, t, nodeLimit, reached);
      MetIsReached(target, t0, t1, t, rows[i], nodeLimit, reached);
      if reached.Some? && target == reached {
        found := true;
        return;
      }
    }
  }

  /** What the rows of a level add: no relation besides them, and the entities of the next frontier. */
  ghost predicate Gathers(t0: Found, t: Found, rows: seq<Relation>, next: set<Id>, nodeLimit: nat) {
    && New(next, t, t0)
    && |t.entities| <= Max(nodeLimit, |t0.entities|)
    && t0.relations.Keys <= t.relations.Keys
    && forall k :: k in t.relations ==> k in t0.relations || k in Ids(rows)
  }

  lemma StillExtends(t0: Found, level0: map<Id, int>, t1: Found, level1: map<Id, int>, t: Found, level: map<Id, int>, d: nat)
    requires level0.Keys == t0.entities && level1.Keys == t1.entities && level.Keys == t.entities
    requires Extends(t0, level0, t1, level1, d) && Extends(t1, level1, t, level, d)
    ensures Extends(t0, level0, t, level, d)
  {
  }

  lemma GathersMore(t0: Found, t1: Found, t: Found, rows: seq<Relation>, i: int, next1: set<Id>, next: set<Id>, nodeLimit: nat, reached: Option<Id>)
    requires 0 <= i < |rows| && t0.entities <= t1.entities
    requires Gathers(t0, t1, rows, next1, nodeLimit) && Adds(t1, t, rows[i], nodeLimit, reached)
    requires next == if reached.Some? && reached.value !in t1.entities then next1 + {reached.value} else next1
    ensures Gathers(t0, t, rows, next, nodeLimit)
  {
    assert rows[i] in rows;
    Smaller(t0.entities, t1.entities);
  }

  lemma RowHandled(v: Snapshot, root: Id, rows: seq<Relation>, i: int, t0: Found, t1: Found, t: Found, nodeLimit: nat, reached: Option<Id>)
    requires Keyed(rows) && 0 <= i < |rows| && t0.entities <= t1.entities
    requires Adds(t1, t, rows[i], nodeLimit, reached)
    requires Open(v, root, rows[i]) ==> rows[i].id in t.relations || TurnedAway(t1, rows[i], nodeLimit)
    requires RowsHandled(v, root, t0, t1, rows, i, nodeLimit)
    ensures RowsHandled(v, root, t0, t, rows, i + 1, nodeLimit)
  {
    if i + 1 < |rows| {
      KeysAscend(rows, i, i + 1);
    }
  }

  /** Every relation with an endpoint less than `k` levels deep has led to its other endpoint. */
  ghost predicate Closed(v: Snapshot, entities: set<Id>, level: map<Id, int>, k: nat)
    requires level.Keys == entities
  {
    forall r :: r in v.relations ==>
      && (r.source in entities && level[r.source] < k && r.target in v.entities ==>
            r.target in entities && level[r.target] <= level[r.source] + 1)
      && (r.target in entities && level[r.target] < k && r.source in v.entities ==>
            r.source in entities && level[r.source] <= level[r.target] + 1)
  }

  // ---------- What the limits may keep out ----------

  ghost predicate TouchesAt(level: map<Id, int>, r: Relation, k: int) {
    (r.source in level && level[r.source] == k) || (r.target in level && level[r.target] == k)
  }

  ghost predicate TouchesBelow(level: map<Id, int>, r: Relation, k: int) {
    (r.source in level && level[r.source] < k) || (r.target in level && level[r.target] < k)
  }

  /** Relation `i` takes a place that `r` wants at level `k`: it was recorded above that level,
      or is a row of the level with a smaller id. */
  ghost predicate Ahead(v: Snapshot, t: Found, level: map<Id, int>, r: Relation, k: int, i: Id) {
    exists q :: q in v.relations && q.id == i != r.id && ((i in t.relations && TouchesBelow(level, q, k)) || (i < r.id && TouchesAt(level, q, k)))
  }

  /** So many relations come before `r` at level `k` that the relation limit leaves no room for it. */
  ghost predicate Crowded(v: Snapshot, t: Found, level: map<Id, int>, r: Relation, k: int, relationLimit: nat) {
    exists c: set<Id> :: |c| >= relationLimit && AllAhead(v, t, level, r, k, c)
  }

  ghost predicate AllAhead(v: Snapshot, t: Found, level: map<Id, int>, r: Relation, k: int, c: set<Id>) {
    forall i {:trigger Ahead(v, t, level, r, k, i)} :: i in c ==> Ahead(v, t, level, r, k, i)
  }

  /** The node limit was used up above level `k + 1`, or by entities of that level on relations with smaller
      ids while `r` leads to one that is not there. */
  ghost predicate Full(t: Found, level: map<Id, int>, r: Relation, k: int, nodeLimit: nat)
    requires level.Keys == t.entities
  {
    && |t.entities| >= nodeLimit
    && forall x :: x in level ==>
        || level[x] <= k
        || (&& level[x] == k + 1 && x in t.parents && t.parents[x].link < r.id
            && (r.source !in level || r.target !in level))
  }

  /** The relation was recorded and led no more than one level down. */
  ghost predicate Followed(t: Found, level: map<Id, int>, r: Relation, k: int) {
    && r.id in t.relations
    && r.source in level && level[r.source] <= k + 1
    && r.target in level && level[r.target] <= k + 1
  }

  /** A relation with an endpoint `e` in the result was followed from there, or a limit accounts for it. */
  ghost predicate Settled(v: Snapshot, t: Found, level: map<Id, int>, r: Relation, e: Id, nodeLimit: nat, relationLimit: nat)
    requires level.Keys == t.entities && e in level
  {
    || Followed(t, level, r, level[e])
    || Crowded(v, t, level, r, level[e], relationLimit)
    || Full(t, level, r, level[e], nodeLimit)
  }

  /** Every live relation that touches an entity less than `k` levels deep is settled there. */
  ghost predicate AllSettled(v: Snapshot, root: Id, t: Found, level: map<Id, int>, k: nat, nodeLimit: nat, relationLimit: nat)
    requires level.Keys == t.entities
  {
    forall r, e {:trigger Settled(v, t, level, r, e, nodeLimit, relationLimit)} ::
      r in v.relations && Open(v, root, r) && (e == r.source || e == r.target) && e in level && level[e] < k ==>
        Settled(v, t, level, r, e, nodeLimit, relationLimit)
  }

  /** Every recorded relation touches an entity less than `k` levels deep. */
  ghost predicate Anchored(t: Found, level: map<Id, int>, k: int) {
    forall i {:trigger t.relations[i]} :: i in t.relations ==> TouchesBelow(level, t.relations[i], k)
  }

  /** Neither limit kept anything out of the result. */
  ghost predicate Untrimmed(v: Snapshot, root: Id, t: Found, depth: nat, nodeLimit: nat, relationLimit: nat) {
    (|Reach(v, root, depth)| <= nodeLimit || |t.entities| < nodeLimit) && |InSight(v, root, depth)| <= relationLimit
  }

  /** `swept` is the depth below which everything has been followed; it falls short of `depth` only
      when the walk stopped at its target. */
  ghost predicate Swept(v: Snapshot, t: Found, level: map<Id, int>, depth: nat, target: Option<Id>, swept: nat)
    requires level.Keys == t.entities
  {
    && swept <= depth && Closed(v, t.entities, level, swept)
    && (forall x :: x in level ==> level[x] <= swept + 1)
    && (swept == depth || (target.Some? && target.value in t.entities))
  }

  /** A target other than the root is deeper than nothing else that was met, and it alone ends a walk early. */
  ghost predicate StopsAt(root: Id, level: map<Id, int>, depth: nat, target: Option<Id>, swept: nat) {
    && swept <= depth && (forall x :: x in level ==> level[x] <= swept + 1 && level[x] <= depth)
    && (swept < depth ==> target.Some? && target.value in level && (target.value == root || level[target.value] == swept + 1))
    && (target.Some? && target.value in level && target.value != root ==> forall x :: x in level ==> level[x] <= level[target.value])
  }

  /** The walk, level by level.  `swept` is the depth of the levels whose rows have all been looked at. */
  method BoundedWalk(v: Snapshot, root: Id, depth: nat, nodeLimit: nat, relationLimit: nat, target: Option<Id>)
    returns (t: Found, ghost level: map<Id, int>, ghost swept: nat)
    requires Keyed(v.relations)
    ensures Tree(v, root, t, level) && Anchored(t, level, depth)
    ensures |t.entities| <= Max(nodeLimit, 1)
    ensures |t.relations| <= relationLimit
    ensures StopsAt(root, level, depth, target, swept)
    // under any limits: what is not followed has given way to relations with smaller ids or to a full result
    ensures AllSettled(v, root, t, level, swept, nodeLimit, relationLimit)
    ensures Untrimmed(v, root, t, depth, nodeLimit, relationLimit) ==> Swept(v, t, level, depth, target, swept)
  {
    t, level, swept := Found({root}, map[], map[]), map[root := 0], 0;
    var frontier := {root};
    WalkStarts(v, root, t, level, nodeLimit, relationLimit);
    for d := 0 to depth
      invariant Tree(v, root, t, level)
      invariant Underway(v, root, t, level, frontier, d, nodeLimit, relationLimit)
      invariant Unmet(root, level, target)
    {
      if frontier == {} || |t.entities| >= nodeLimit || |t.relations| >= relationLimit {
        swept := depth;
        Exhausted(v, root, t, level, frontier, d, depth, nodeLimit, relationLimit, target);
        return;
      }
      var rows := Take(Query(v.relations, frontier, t.relations.Keys), relationLimit - |t.relations|);
      RowsAreQueried(v, frontier, t.relations.Keys, relationLimit - |t.relations|);
      ghost var before, depthOf := t, level;
      var found, next;
      t, level, next, found := Level(v, root, d, frontier, rows, nodeLimit, target, t, level);
      if found {
        swept := d;
        LevelStops(v, root, before, depthOf, t, level, frontier, next, rows, d, depth, nodeLimit, relationLimit, target);
        return;
      }
      LevelGoesOn(v, root, before, depthOf, t, level, frontier, next, rows, d, nodeLimit, relationLimit, target);
      frontier := next;
    }
    swept := depth;
    UntrimmedIsSwept(v, root, t, level, depth, nodeLimit, relationLimit, target, swept);
  }

  /** What holds before level `d`. */
  ghost predicate Underway(v: Snapshot, root: Id, t: Found, level: map<Id, int>, frontier: set<Id>, d: nat, nodeLimit: nat, relationLimit: nat)
    requires level.Keys == t.entities
  {
    Bounded(t, level, frontier, d, nodeLimit, relationLimit) && AllSettled(v, root, t, level, d, nodeLimit, relationLimit)
  }

  ghost predicate Bounded(t: Found, level: map<Id, int>, frontier: set<Id>, d: nat, nodeLimit: nat, relationLimit: nat)
    requires level.Keys == t.entities
  {
    && Anchored(t, level, d)
    && |t.entities| <= Max(nodeLimit, 1) && |t.relations| <= relationLimit
    && (forall x :: x in level ==> level[x] <= d)
    && (forall x :: x in frontier <==> x in t.entities && level[x] == d)
  }

  ghost predicate Unmet(root: Id, level: map<Id, int>, target: Option<Id>) {
    target.Some? && target.value in level ==> target.value == root
  }

  lemma WalkStarts(v: Snapshot, root: Id, t: Found, level: map<Id, int>, nodeLimit: nat, relationLimit: nat)
    requires t == Found({root}, map[], map[]) && level == map[root := 0]
    ensures Tree(v, root, t, level) && Underway(v, root, t, level, {root}, 0, nodeLimit, relationLimit)
  {
  }

  lemma LevelStops(v: Snapshot, root: Id, before: Found, depthOf: map<Id, int>, t: Found, level: map<Id, int>, frontier: set<Id>, next: set<Id>,
                   rows: seq<Relation>, d: nat, depth: nat, nodeLimit: nat, relationLimit: nat, target: Option<Id>)
    requires Keyed(v.relations) && Tree(v, root, before, depthOf) && Tree(v, root, t, level) && d < depth
    requires Underway(v, root, before, depthOf, frontier, d, nodeLimit, relationLimit) && |before.entities| < nodeLimit
    requires Extends(before, depthOf, t, level, d) && Gathers(before, t, rows, next, nodeLimit)
    requires AreRows(v, frontier, before.relations.Keys, relationLimit - |before.relations|, rows)
    requires Unmet(root, depthOf, target) && target.Some? && target.value in t.entities
    ensures Bounded(t, level, next, d + 1, nodeLimit, relationLimit) && Anchored(t, level, depth)
    ensures StopsAt(root, level, depth, target, d)
    ensures AllSettled(v, root, t, level, d, nodeLimit, relationLimit)
    ensures Untrimmed(v, root, t, depth, nodeLimit, relationLimit) ==> Swept(v, t, level, depth, target, d)
  {
    LevelIsBounded(v, root, before, depthOf, t, level, frontier, next, rows, d, nodeLimit, relationLimit);
    LevelKeepsSettled(v, root, before, depthOf, t, level, d, nodeLimit, relationLimit);
    AnchoredDeeper(t, level, d + 1, depth);
    UntrimmedIsSwept(v, root, t, level, depth, nodeLimit, relationLimit, target, d);
  }

  lemma LevelGoesOn(v: Snapshot, root: Id, before: Found, depthOf: map<Id, int>, t: Found, level: map<Id, int>, frontier: set<Id>, next: set<Id>,
                    rows: seq<Relation>, d: nat, nodeLimit: nat, relationLimit: nat, target: Option<Id>)
    requires Keyed(v.relations) && Tree(v, root, before, depthOf) && Tree(v, root, t, level)
    requires Underway(v, root, before, depthOf, frontier, d, nodeLimit, relationLimit) && |before.entities| < nodeLimit
    requires Extends(before, depthOf, t, level, d) && Gathers(before, t, rows, next, nodeLimit)
    requires AreRows(v, frontier, before.relations.Keys, relationLimit - |before.relations|, rows)
    requires Unmet(root, depthOf, target) && !Met(target, before, t)
    requires forall r :: r in rows && Open(v, root, r) ==> Handled(before, t, r, nodeLimit)
    ensures Underway(v, root, t, level, next, d + 1, nodeLimit, relationLimit) && Unmet(root, level, target)
  {
    LevelIsBounded(v, root, before, depthOf, t, level, frontier, next, rows, d, nodeLimit, relationLimit);
    LevelKeepsSettled(v, root, before, depthOf, t, level, d, nodeLimit, relationLimit);
    LevelSettles(v, root, before, depthOf, t, level, frontier, rows, d, nodeLimit, relationLimit);
  }

  lemma AnchoredDeeper(t: Found, level: map<Id, int>, d: int, depth: int)
    requires Anchored(t, level, d) && d <= depth
    ensures Anchored(t, level, depth)
  {
    forall i | i in t.relations
      ensures TouchesBelow(level, t.relations[i], depth)
    {
      assert TouchesBelow(level, t.relations[i], d);
    }
  }

  /** `rows` are the first `n` live relations, in key order, that touch the frontier and have not been seen. */
  ghost predicate AreRows(v: Snapshot, frontier: set<Id>, seen: set<Id>, n: int, rows: seq<Relation>) {
    n >= 0 && rows == Take(Query(v.relations, frontier, seen), n) && Keyed(rows)
    && forall r :: r in rows ==> r in v.relations && Touches(r, frontier, seen)
  }

  lemma RowsAreQueried(v: Snapshot, frontier: set<Id>, seen: set<Id>, n: nat)
    requires Keyed(v.relations)
    ensures AreRows(v, frontier, seen, n, Take(Query(v.relations, frontier, seen), n))
  {
    QuerySelects(v.relations, frontier, seen);
    TakeKeyed(Query(v.relations, frontier, seen), n);
  }

  lemma {:induction false} TakeKeyed(rows: seq<Relation>, n: nat)
    requires Keyed(rows)
    ensures Keyed(Take(rows, n))
  {
    if rows != [] && n > 0 && |rows| > n {
      TakeKeyed(rows[1..], n - 1);
      assert rows[..n] == [rows[0]] + Take(rows[1..], n - 1);
      assert rows[..n][1..] == Take(rows[1..], n - 1);
    }
  }

  lemma TakeHolds(rows: seq<Relation>, n: nat, j: nat)
    requires j < n && j < |rows|
    ensures rows[j] in Take(rows, n)
  {
    assert |rows| > n ==> rows[..n][j] == rows[j];
  }

  /** A row that the relation limit cut comes after as many rows as there was room for. */
  lemma CutComesAfter(rows: seq<Relation>, n: nat, r: Relation)
    requires Keyed(rows) && r in rows && r !in Take(rows, n)
    ensures |Take(rows, n)| == n && forall q :: q in Take(rows, n) ==> q.id < r.id
  {
    var j :| 0 <= j < |rows| && rows[j] == r;
    if j < n {
      TakeHolds(rows, n, j);
      assert false;
    }
    forall q | q in rows[..n]
      ensures q.id < r.id
    {
      var i :| 0 <= i < n && rows[i] == q;
      KeysAscend(rows, i, j);
    }
  }

  lemma LevelIsBounded(v: Snapshot, root: Id, before: Found, depthOf: map<Id, int>, t: Found, level: map<Id, int>,
                       frontier: set<Id>, next: set<Id>, rows: seq<Relation>, d: nat, nodeLimit: nat, relationLimit: nat)
    requires Keyed(v.relations) && Tree(v, root, before, depthOf) && Tree(v, root, t, level) && Extends(before, depthOf, t, level, d)
    requires Bounded(before, depthOf, frontier, d, nodeLimit, relationLimit) && Gathers(before, t, rows, next, nodeLimit)
    requires AreRows(v, frontier, before.relations.Keys, relationLimit - |before.relations|, rows)
    ensures Bounded(t, level, next, d + 1, nodeLimit, relationLimit)
  {
    RelationCount(before, t, rows);
    LevelIsAnchored(v, root, before, depthOf, t, level, frontier, rows, d);
    forall x
      ensures x in next <==> x in t.entities && level[x] == d + 1
    {
      assert x in depthOf ==> depthOf[x] <= d;
    }
  }

  lemma LevelIsAnchored(v: Snapshot, root: Id, before: Found, depthOf: map<Id, int>, t: Found, level: map<Id, int>,
                        frontier: set<Id>, rows: seq<Relation>, d: nat)
    requires Keyed(v.relations) && Tree(v, root, before, depthOf) && Tree(v, root, t, level) && Extends(before, depthOf, t, level, d)
    requires Anchored(before, depthOf, d) && before.relations.Keys <= t.relations.Keys
    requires forall x :: x in frontier <==> x in before.entities && depthOf[x] == d
    requires forall r :: r in rows ==> r in v.relations && (r.source in frontier || r.target in frontier)
    requires forall i :: i in t.relations ==> i in before.relations || i in Ids(rows)
    ensures Anchored(t, level, d + 1)
  {
    forall i | i in t.relations
      ensures TouchesBelow(level, t.relations[i], d + 1)
    {
      assert Live(v, t, i);
      if i in before.relations {
        assert Live(v, before, i);
        KeysIdentify(v.relations, t.relations[i], before.relations[i]);
        assert TouchesBelow(depthOf, before.relations[i], d);
      } else {
        var r :| r in rows && r.id == i;
        KeysIdentify(v.relations, t.relations[i], r);
      }
    }
  }

  lemma AheadPersists(v: Snapshot, before: Found, depthOf: map<Id, int>, t: Found, level: map<Id, int>, r: Relation, k: int, i: Id)
    requires before.relations.Keys <= t.relations.Keys && Ahead(v, before, depthOf, r, k, i)
    requires forall x :: x in depthOf ==> x in level && level[x] == depthOf[x]
    ensures Ahead(v, t, level, r, k, i)
  {
    var q :| q in v.relations && q.id == i != r.id
          && ((i in before.relations && TouchesBelow(depthOf, q, k)) || (i < r.id && TouchesAt(depthOf, q, k)));
    assert (i in t.relations && TouchesBelow(level, q, k)) || (i < r.id && TouchesAt(level, q, k));
  }

  lemma CrowdedPersists(v: Snapshot, before: Found, depthOf: map<Id, int>, t: Found, level: map<Id, int>, r: Relation, k: int, relationLimit: nat)
    requires before.relations.Keys <= t.relations.Keys && Crowded(v, before, depthOf, r, k, relationLimit)
    requires forall x :: x in depthOf ==> x in level && level[x] == depthOf[x]
    ensures Crowded(v, t, level, r, k, relationLimit)
  {
    var c: set<Id> :| |c| >= relationLimit && AllAhead(v, before, depthOf, r, k, c);
    forall i | i in c
      ensures Ahead(v, t, level, r, k, i)
    {
      AheadPersists(v, before, depthOf, t, level, r, k, i);
    }
    assert AllAhead(v, t, level, r, k, c);
  }

  lemma LevelKeepsSettled(v: Snapshot, root: Id, before: Found, depthOf: map<Id, int>, t: Found, level: map<Id, int>,
                          d: nat, nodeLimit: nat, relationLimit: nat)
    requires depthOf.Keys == before.entities && level.Keys == t.entities && Extends(before, depthOf, t, level, d)
    requires before.relations.Keys <= t.relations.Keys && |before.entities| < nodeLimit
    requires AllSettled(v, root, before, depthOf, d, nodeLimit, relationLimit)
    ensures AllSettled(v, root, t, level, d, nodeLimit, relationLimit)
  {
    forall r, e | r in v.relations && Open(v, root, r) && (e == r.source || e == r.target) && e in level && level[e] < d
      ensures Settled(v, t, level, r, e, nodeLimit, relationLimit)
    {
      assert e in depthOf && Settled(v, before, depthOf, r, e, nodeLimit, relationLimit);
      if Crowded(v, before, depthOf, r, depthOf[e], relationLimit) {
        CrowdedPersists(v, before, depthOf, t, level, r, depthOf[e], relationLimit);
      }
    }
  }

  /** A row that was cut is crowded out by what was recorded before and by the rows that were not cut. */
  lemma CutIsCrowded(v: Snapshot, root: Id, before: Found, depthOf: map<Id, int>, t: Found, level: map<Id, int>,
                     frontier: set<Id>, rows: seq<Relation>, r: Relation, d: nat, relationLimit: nat)
    requires Keyed(v.relations) && Tree(v, root, before, depthOf) && Anchored(before, depthOf, d)
    requires before.relations.Keys <= t.relations.Keys
    requires forall x :: x in depthOf ==> x in level && level[x] == depthOf[x]
    requires forall x :: x in frontier <==> x in before.entities && depthOf[x] == d
    requires AreRows(v, frontier, before.relations.Keys, relationLimit - |before.relations|, rows)
    requires r in Query(v.relations, frontier, before.relations.Keys) && r !in rows
    ensures Crowded(v, t, level, r, d, relationLimit)
  {
    QuerySelects(v.relations, frontier, before.relations.Keys);
    CutComesAfter(Query(v.relations, frontier, before.relations.Keys), relationLimit - |before.relations|, r);
    EnoughAhead(v, frontier, before.relations.Keys, relationLimit, rows);
    RecordedAreAhead(v, root, before, depthOf, t, level, r, d);
    RowsAreAhead(v, frontier, before.relations.Keys, relationLimit - |before.relations|, rows, t, level, r, d);
    CrowdedBy(v, t, level, r, d, before.relations.Keys, Ids(rows), relationLimit);
  }

  lemma CrowdedBy(v: Snapshot, t: Found, level: map<Id, int>, r: Relation, k: int, a: set<Id>, b: set<Id>, relationLimit: nat)
    requires AllAhead(v, t, level, r, k, a) && AllAhead(v, t, level, r, k, b) && |a + b| == relationLimit
    ensures Crowded(v, t, level, r, k, relationLimit)
  {
    assert AllAhead(v, t, level, r, k, a + b);
  }

  lemma EnoughAhead(v: Snapshot, frontier: set<Id>, seen: set<Id>, relationLimit: nat, rows: seq<Relation>)
    requires AreRows(v, frontier, seen, relationLimit - |seen|, rows) && |rows| == relationLimit - |seen|
    ensures |seen + Ids(rows)| == relationLimit
  {
    DistinctIds(rows);
    forall i | i in Ids(rows)
      ensures i !in seen
    {
      var r :| r in rows && r.id == i;
      assert Touches(r, frontier, seen);
    }
    assert seen !! Ids(rows);
  }

  lemma RecordedAreAhead(v: Snapshot, root: Id, before: Found, depthOf: map<Id, int>, t: Found, level: map<Id, int>, r: Relation, d: nat)
    requires Tree(v, root, before, depthOf) && Anchored(before, depthOf, d) && r.id !in before.relations
    requires before.relations.Keys <= t.relations.Keys
    requires forall x :: x in depthOf ==> x in level && level[x] == depthOf[x]
    ensures AllAhead(v, t, level, r, d, before.relations.Keys)
  {
    forall i | i in before.relations
      ensures Ahead(v, t, level, r, d, i)
    {
      assert Live(v, before, i) && TouchesBelow(depthOf, before.relations[i], d);
      assert TouchesBelow(level, before.relations[i], d);
    }
  }

  lemma RowsAreAhead(v: Snapshot, frontier: set<Id>, seen: set<Id>, n: nat, rows: seq<Relation>, t: Found, level: map<Id, int>, r: Relation, d: nat)
    requires AreRows(v, frontier, seen, n, rows)
    requires forall x :: x in frontier ==> x in level && level[x] == d
    requires forall q :: q in rows ==> q.id < r.id
    ensures AllAhead(v, t, level, r, d, Ids(rows))
  {
    forall i | i in Ids(rows)
      ensures Ahead(v, t, level, r, d, i)
    {
      var q :| q in rows && q.id == i;
      assert Touches(q, frontier, seen);
      assert TouchesAt(level, q, d);
    }
  }

  lemma LevelSettles(v: Snapshot, root: Id, before: Found, depthOf: map<Id, int>, t: Found, level: map<Id, int>,
                     frontier: set<Id>, rows: seq<Relation>, d: nat, nodeLimit: nat, relationLimit: nat)
    requires Keyed(v.relations) && Tree(v, root, before, depthOf) && Tree(v, root, t, level)
    requires Anchored(before, depthOf, d) && Extends(before, depthOf, t, level, d)
    requires before.relations.Keys <= t.relations.Keys
    requires forall x :: x in depthOf ==> depthOf[x] <= d
    requires forall x :: x in frontier <==> x in before.entities && depthOf[x] == d
    requires AreRows(v, frontier, before.relations.Keys, relationLimit - |before.relations|, rows)
    requires forall r :: r in rows && Open(v, root, r) ==> Handled(before, t, r, nodeLimit)
    requires AllSettled(v, root, t, level, d, nodeLimit, relationLimit)
    ensures AllSettled(v, root, t, level, d + 1, nodeLimit, relationLimit)
  {
    QuerySelects(v.relations, frontier, before.relations.Keys);
    forall r, e | r in v.relations && Open(v, root, r) && (e == r.source || e == r.target) && e in level && level[e] < d + 1
      ensures Settled(v, t, level, r, e, nodeLimit, relationLimit)
    {
      if level[e] == d {
        assert e in frontier;
        if r.id in t.relations {
          assert Live(v, t, r.id);
          KeysIdentify(v.relations, r, t.relations[r.id]);
        } else if r in rows {
          assert Full(t, level, r, d, nodeLimit);
        } else {
          CutIsCrowded(v, root, before, depthOf, t, level, frontier, rows, r, d, relationLimit);
        }
      }
    }
  }

  /** A walk that stops for want of a frontier or of room leaves nothing unsettled. */
  lemma Exhausted(v: Snapshot, root: Id, t: Found, level: map<Id, int>, frontier: set<Id>, d: nat, depth: nat,
                  nodeLimit: nat, relationLimit: nat, target: Option<Id>)
    requires Keyed(v.relations) && Tree(v, root, t, level) && Underway(v, root, t, level, frontier, d, nodeLimit, relationLimit)
    requires frontier == {} || |t.entities| >= nodeLimit || |t.relations| >= relationLimit
    requires d <= depth && Unmet(root, level, target)
    ensures Anchored(t, level, depth) && StopsAt(root, level, depth, target, depth)
    ensures AllSettled(v, root, t, level, depth, nodeLimit, relationLimit)
    ensures Untrimmed(v, root, t, depth, nodeLimit, relationLimit) ==> Swept(v, t, level, depth, target, depth)
  {
    AnchoredDeeper(t, level, d, depth);
    RestSettles(v, root, t, level, frontier, d, depth, nodeLimit, relationLimit);
    UntrimmedIsSwept(v, root, t, level, depth, nodeLimit, relationLimit, target, depth);
  }

  lemma RestSettles(v: Snapshot, root: Id, t: Found, level: map<Id, int>, frontier: set<Id>, d: nat, depth: nat,
                    nodeLimit: nat, relationLimit: nat)
    requires Keyed(v.relations) && Tree(v, root, t, level) && Underway(v, root, t, level, frontier, d, nodeLimit, relationLimit)
    requires frontier == {} || |t.entities| >= nodeLimit || |t.relations| >= relationLimit
    ensures AllSettled(v, root, t, level, depth, nodeLimit, relationLimit)
  {
    forall r, e | r in v.relations && Open(v, root, r) && (e == r.source || e == r.target) && e in level && level[e] < depth
      ensures Settled(v, t, level, r, e, nodeLimit, relationLimit)
    {
      if level[e] == d && |t.entities| < nodeLimit {
        if r.id in t.relations {
          assert Live(v, t, r.id);
          KeysIdentify(v.relations, r, t.relations[r.id]);
        } else {
          RecordedCrowd(v, root, t, level, r, d, relationLimit);
        }
      }
    }
  }

  lemma RecordedCrowd(v: Snapshot, root: Id, t: Found, level: map<Id, int>, r: Relation, d: nat, relationLimit: nat)
    requires Tree(v, root, t, level) && Anchored(t, level, d)
    requires r.id !in t.relations && |t.relations| >= relationLimit
    ensures Crowded(v, t, level, r, d, relationLimit)
  {
    var c := t.relations.Keys;
    forall i | i in c
      ensures Ahead(v, t, level, r, d, i)
    {
      assert Live(v, t, i) && TouchesBelow(level, t.relations[i], d);
    }
    assert |c| >= relationLimit && AllAhead(v, t, level, r, d, c);
  }

  // ---------- Limits that cut nothing off ----------

  lemma TreeInReach(v: Snapshot, root: Id, t: Found, level: map<Id, int>, depth: nat)
    requires Tree(v, root, t, level) && forall x :: x in level ==> level[x] <= depth
    ensures t.entities <= Reach(v, root, depth)
  {
    forall x | x in t.entities
      ensures x in Reach(v, root, depth)
    {
      LevelReaches(v, root, t, level, x);
      ReachGrows(v, root, level[x], depth);
    }
  }

  lemma TouchesInSight(v: Snapshot, root: Id, t: Found, level: map<Id, int>, depth: nat, r: Relation, k: int)
    requires Tree(v, root, t, level) && r in v.relations && k < depth
    requires TouchesAt(level, r, k) || TouchesBelow(level, r, k)
    ensures r.id in InSight(v, root, depth)
  {
    var e := if r.source in level && level[r.source] <= k then r.source else r.target;
    LevelReaches(v, root, t, level, e);
    ReachGrows(v, root, level[e], depth - 1);
  }

  /** A relation within sight is crowded out only by a relation limit below the number of those in sight. */
  lemma NotCrowded(v: Snapshot, root: Id, t: Found, level: map<Id, int>, depth: nat, r: Relation, e: Id, relationLimit: nat)
    requires Tree(v, root, t, level) && r in v.relations && (e == r.source || e == r.target)
    requires e in level && level[e] < depth && Crowded(v, t, level, r, level[e], relationLimit)
    ensures |InSight(v, root, depth)| > relationLimit
  {
    var c: set<Id> :| |c| >= relationLimit && AllAhead(v, t, level, r, level[e], c);
    forall i | i in c
      ensures i in InSight(v, root, depth) && i != r.id
    {
      assert Ahead(v, t, level, r, level[e], i);
      var q :| q in v.relations && q.id == i != r.id && (TouchesBelow(level, q, level[e]) || TouchesAt(level, q, level[e]));
      TouchesInSight(v, root, t, level, depth, q, level[e]);
    }
    TouchesInSight(v, root, t, level, depth, r, level[e]);
    Smaller(c + {r.id}, InSight(v, root, depth));
    assert |c + {r.id}| == |c| + 1;
  }

  /** With room for all that is in reach, both endpoints are there, one level down at most. */
  lemma FullIsClosed(v: Snapshot, root: Id, t: Found, level: map<Id, int>, depth: nat, r: Relation, e: Id, nodeLimit: nat)
    requires Tree(v, root, t, level) && (forall x :: x in level ==> level[x] <= depth)
    requires r in v.relations && (e == r.source || e == r.target) && e in level && level[e] < depth
    requires Full(t, level, r, level[e], nodeLimit) && |Reach(v, root, depth)| <= nodeLimit
    requires r.source in v.entities + {root} && r.target in v.entities + {root}
    ensures r.source in level && level[r.source] <= level[e] + 1 && r.target in level && level[r.target] <= level[e] + 1
  {
    var f := if e == r.source then r.target else r.source;
    TreeInReach(v, root, t, level, depth);
    Smaller(t.entities, Reach(v, root, depth));
    LevelReaches(v, root, t, level, e);
    FarInReach(v, root, r, e, f, level[e], depth);
    assert f in level;
  }

  lemma JoinsNeighbour(v: Snapshot, s: set<Id>, r: Relation, a: Id, b: Id)
    requires r in v.relations && a in s && Joins(r, a, b) && b in v.entities
    ensures b in Neighbours(v, s)
  {
  }

  lemma FarInReach(v: Snapshot, root: Id, r: Relation, e: Id, f: Id, k: nat, depth: nat)
    requires k < depth && e in Reach(v, root, k) && r in v.relations && Joins(r, e, f)
    requires f in v.entities || f == root
    ensures f in Reach(v, root, depth)
  {
    ReachGrows(v, root, k + 1, depth);
    ReachGrows(v, root, 0, depth);
    if f != root {
      NeighbourInReach(v, root, r, e, f, k + 1);
    }
  }

  lemma NeighbourInReach(v: Snapshot, root: Id, r: Relation, e: Id, f: Id, d: nat)
    requires d > 0 && e in Reach(v, root, d - 1) && r in v.relations && Joins(r, e, f) && f in v.entities
    ensures f in Reach(v, root, d)
  {
    JoinsNeighbour(v, Reach(v, root, d - 1), r, e, f);
  }

  lemma UntrimmedIsSwept(v: Snapshot, root: Id, t: Found, level: map<Id, int>, depth: nat, nodeLimit: nat, relationLimit: nat,
                         target: Option<Id>, swept: nat)
    requires Keyed(v.relations) && Tree(v, root, t, level)
    requires StopsAt(root, level, depth, target, swept) && AllSettled(v, root, t, level, swept, nodeLimit, relationLimit)
    ensures Untrimmed(v, root, t, depth, nodeLimit, relationLimit) ==> Swept(v, t, level, depth, target, swept)
  {
    if Untrimmed(v, root, t, depth, nodeLimit, relationLimit) {
      TreeInside(v, root, t, level);
      forall r, e | r in v.relations && Open(v, root, r) && (e == r.source || e == r.target) && e in level && level[e] < swept
        ensures r.source in level && level[r.source] <= level[e] + 1 && r.target in level && level[r.target] <= level[e] + 1
      {
        assert Settled(v, t, level, r, e, nodeLimit, relationLimit);
        if Crowded(v, t, level, r, level[e], relationLimit) {
          NotCrowded(v, root, t, level, depth, r, e, relationLimit);
        } else if Full(t, level, r, level[e], nodeLimit) {
          FullIsClosed(v, root, t, level, depth, r, e, nodeLimit);
        }
      }
    }
  }

  lemma {:induction false} ClosedBoundsReach(v: Snapshot, root: Id, entities: set<Id>, level: map<Id, int>, k: nat, j: nat)
    requires root in entities && level.Keys == entities && level[root] == 0
    requires Closed(v, entities, level, k) && j <= k
    ensures forall x :: x in Reach(v, root, j) ==> x in entities && level[x] <= j
    decreases j
  {
    if j > 0 {
      ClosedBoundsReach(v, root, entities, level, k, j - 1);
    }
  }

  lemma SweptIsEarliest(v: Snapshot, root: Id, t: Found, level: map<Id, int>, depth: nat, target: Option<Id>, swept: nat)
    requires Tree(v, root, t, level) && Swept(v, t, level, depth, target, swept)
    ensures Earliest(v, root, level)
  {
    forall x | x in level && level[x] > 0
      ensures x !in Reach(v, root, level[x] - 1)
    {
      assert Hangs(v, root, t, level, root);
      ClosedBoundsReach(v, root, t.entities, level, swept, level[x] - 1);
    }
  }

  /** With ample limits and no target to stop at, the walk finds exactly what lies within `depth`. */
  lemma SweptIsReach(v: Snapshot, root: Id, t: Found, level: map<Id, int>, depth: nat)
    requires Tree(v, root, t, level) && Closed(v, t.entities, level, depth)
    requires forall x :: x in level ==> level[x] <= depth
    ensures forall x :: x in t.entities <==> x in Reach(v, root, depth)
  {
    assert Hangs(v, root, t, level, root);
    ClosedBoundsReach(v, root, t.entities, level, depth, depth);
    forall x | x in t.entities
      ensures x in Reach(v, root, depth)
    {
      LevelReaches(v, root, t, level, x);
      ReachGrows(v, root, level[x], depth);
    }
    assert forall x :: x in Reach(v, root, depth) ==> x in t.entities;
  }

  // ---------- Reading a path off the tree ----------

  function Reversed<T>(s: seq<T>): (r: seq<T>)
    ensures |r| == |s| && forall i :: 0 <= i < |s| ==> r[i] == s[|s| - 1 - i]
  {
    seq(|s|, i requires 0 <= i < |s| => s[|s| - 1 - i])
  }

  /** `nodes` and `links` climb from `target`, one level at a time. */
  ghost predicate Climbs(v: Snapshot, t: Found, level: map<Id, int>, nodes: seq<Id>, links: seq<Id>, target: Id)
    requires level.Keys == t.entities
  {
    && |nodes| == |links| + 1 && nodes[0] == target && target in t.entities
    && (forall i :: 0 <= i < |nodes| ==> nodes[i] in t.entities && level[nodes[i]] == level[target] - i)
    && forall i :: 0 <= i < |links| ==> links[i] in t.relations && Hop(v, nodes[i + 1], links[i], nodes[i])
  }

  method PathIds(source: Id, target: Id, ghost v: Snapshot, t: Found, ghost level: map<Id, int>)
    returns (nodes: seq<Id>, links: seq<Id>)
    requires Tree(v, source, t, level)
    ensures target !in t.entities ==> nodes == [] && links == []
    ensures target in t.entities ==>
              && IsPath(v, source, target, nodes, links) && |links| == level[target]
              && (forall i :: 0 <= i < |nodes| ==> nodes[i] in t.entities)
              && (forall i, j :: 0 <= i < j < |nodes| ==> nodes[i] != nodes[j])
              && (forall i :: 0 <= i < |links| ==> links[i] in t.relations)
  {
    assert Hangs(v, source, t, level, source);
    if source == target {
      return [source], [];
    }
    assert target in t.entities ==> Hangs(v, source, t, level, target);
    if target !in t.parents {
      return [], [];
    }
    nodes, links := [target], [];
    var current := target;
    while current != source
      invariant Climbs(v, t, level, nodes, links, target)
      invariant current == nodes[|links|] && level[current] >= 0
      decreases level[current]
    {
      assert Hangs(v, source, t, level, current) && Live(v, t, t.parents[current].link);
      var parent := t.parents[current];
      assert Hop(v, parent.node, parent.link, current);
      nodes, links := nodes + [parent.node], links + [parent.link];
      current := parent.node;
    }
    ReverseClimb(v, t, level, nodes, links, source, target);
    nodes, links := Reversed(nodes), Reversed(links);
  }

  lemma ReverseClimb(v: Snapshot, t: Found, level: map<Id, int>, nodes: seq<Id>, links: seq<Id>, source: Id, target: Id)
    requires level.Keys == t.entities && Climbs(v, t, level, nodes, links, target)
    requires nodes[|links|] == source && level[source] == 0
    ensures IsPath(v, source, target, Reversed(nodes), Reversed(links))
    ensures |links| == level[target]
    ensures forall i :: 0 <= i < |nodes| ==> Reversed(nodes)[i] in t.entities && level[Reversed(nodes)[i]] == i
    ensures forall i :: 0 <= i < |links| ==> Reversed(links)[i] in t.relations
  {
    var ns, ls := Reversed(nodes), Reversed(links);
    forall i | 0 <= i < |ls|
      ensures Hop(v, ns[i], ls[i], ns[i + 1]) && ls[i] in t.relations
    {
      var k := |links| - 1 - i;
      assert Hop(v, nodes[k + 1], links[k], nodes[k]);
    }
  }

  // ---------- The endpoints of apps/api/app/graph/api.py ----------

  datatype PathView = Missing | PathView(nodes: seq<Id>, links: seq<Id>)

  predicate ScopedEntity(g: Graph, scope: Scope, id: Id) {
    exists e :: e in g.entities && e.id == id && e.scope == scope && SupportedEntity(g, e)
  }

  ghost predicate Connected(v: Snapshot, source: Id, target: Id, maxDepth: nat) {
    exists nodes, links :: IsPath(v, source, target, nodes, links) && |links| <= maxDepth
  }

  /** The relations of an entity whose ids are below that of `r`. */
  ghost function Sooner(v: Snapshot, e: Id, r: Relation): set<Id> {
    set q | q in v.relations && (q.source == e || q.target == e) && q.id < r.id :: q.id
  }

  /** A relation joins the two entities, and neither limit is used up by the relations of the source with smaller ids. */
  ghost predicate Adjacent(v: Snapshot, source: Id, target: Id, nodeLimit: nat, relationLimit: nat) {
    target in v.entities && exists r :: r in v.relations && Joins(r, source, target) && Spared(v, source, r, nodeLimit, relationLimit)
  }

  ghost predicate Spared(v: Snapshot, source: Id, r: Relation, nodeLimit: nat, relationLimit: nat) {
    |Sooner(v, source, r)| < relationLimit && |Sooner(v, source, r)| + 1 < nodeLimit
  }

  method Path(g: Graph, scope: Scope, source: Id, target: Id, maxDepth: nat, nodeLimit: nat, relationLimit: nat)
    returns (p: PathView)
    requires Keyed(g.relations)
    ensures p.Missing? <==> !(ScopedEntity(g, scope, source) && ScopedEntity(g, scope, target))
    // whatever the limits, a reported path is a simple live path within the depth
    ensures p.PathView? && p.nodes != [] ==>
              && IsPath(View(g, scope), source, target, p.nodes, p.links) && |p.links| <= maxDepth
              && forall i, j :: 0 <= i < j < |p.nodes| ==> p.nodes[i] != p.nodes[j]
    // limits that cut nothing off make it the shortest, and its absence conclusive
    ensures p.PathView? && Ample(View(g, scope), source, maxDepth, nodeLimit, relationLimit) ==>
              && (p.nodes != [] <==> Connected(View(g, scope), source, target, maxDepth))
              && (p.nodes != [] ==>
                    forall ns, ls :: IsPath(View(g, scope), source, target, ns, ls) ==> |p.links| <= |ls|)
    // and however large the dataset, a relation between the two that the limits spare is found
    ensures p.PathView? && maxDepth > 0 && Adjacent(View(g, scope), source, target, nodeLimit, relationLimit) ==>
              p.nodes != [] && |p.links| <= 1
  {
    if !ScopedEntity(g, scope, source) || !ScopedEntity(g, scope, target) {
      return Missing;
    }
    var v := View(g, scope);
    ViewIsLive(g, scope);
    var t, level, swept := BoundedWalk(v, source, maxDepth, nodeLimit, relationLimit, Some(target));
    var nodes, links := PathIds(source, target, v, t, level);
    if Ample(v, source, maxDepth, nodeLimit, relationLimit) {
      PathIsShortest(v, source, target, t, level, maxDepth, swept);
      assert target in t.entities ==> |nodes| > 0;
    }
    if maxDepth > 0 && Adjacent(v, source, target, nodeLimit, relationLimit) {
      AdjacentIsFound(v, source, target, t, level, maxDepth, swept, nodeLimit, relationLimit);
    }
    p := PathView(nodes, links);
  }

  lemma AdjacentIsFound(v: Snapshot, source: Id, target: Id, t: Found, level: map<Id, int>, depth: nat, swept: nat, nodeLimit: nat, relationLimit: nat)
    requires Keyed(v.relations) && Tree(v, source, t, level) && depth > 0
    requires StopsAt(source, level, depth, Some(target), swept) && AllSettled(v, source, t, level, swept, nodeLimit, relationLimit)
    requires Adjacent(v, source, target, nodeLimit, relationLimit)
    ensures target in level && level[target] <= 1
  {
    var r :| r in v.relations && Joins(r, source, target) && Spared(v, source, r, nodeLimit, relationLimit);
    assert Hangs(v, source, t, level, source);
    if target != source && !(target in level && level[target] <= 1) {
      assert Settled(v, t, level, r, source, nodeLimit, relationLimit);
      if Crowded(v, t, level, r, 0, relationLimit) {
        CrowdIsSooner(v, source, t, level, r, relationLimit);
      } else if Full(t, level, r, 0, nodeLimit) {
        ChildrenAreSooner(v, source, t, level, r, nodeLimit);
      }
      assert false;
    }
  }

  lemma OnlyRootAtTop(v: Snapshot, root: Id, t: Found, level: map<Id, int>, x: Id)
    requires Tree(v, root, t, level) && x in level
    ensures level[x] >= 0 && (level[x] == 0 ==> x == root)
  {
    assert Hangs(v, root, t, level, x);
  }

  lemma CrowdIsSooner(v: Snapshot, root: Id, t: Found, level: map<Id, int>, r: Relation, relationLimit: nat)
    requires Tree(v, root, t, level) && Crowded(v, t, level, r, 0, relationLimit)
    ensures |Sooner(v, root, r)| >= relationLimit
  {
    var c: set<Id> :| |c| >= relationLimit && AllAhead(v, t, level, r, 0, c);
    forall i | i in c
      ensures i in Sooner(v, root, r)
    {
      assert Ahead(v, t, level, r, 0, i);
      var q :| q in v.relations && q.id == i != r.id && ((i in t.relations && TouchesBelow(level, q, 0)) || (i < r.id && TouchesAt(level, q, 0)));
      if q.source in level {
        OnlyRootAtTop(v, root, t, level, q.source);
      }
      if q.target in level {
        OnlyRootAtTop(v, root, t, level, q.target);
      }
    }
    Smaller(c, Sooner(v, root, r));
  }

  ghost function ChildLinks(t: Found, s: set<Id>): set<Id>
    requires s <= t.parents.Keys
  {
    set x | x in s :: t.parents[x].link
  }

  /** Different entities hang on different relations. */
  lemma {:induction false} LinksDiffer(t: Found, s: set<Id>)
    requires s <= t.parents.Keys
    requires forall x, y :: x in s && y in s && t.parents[x].link == t.parents[y].link ==> x == y
    ensures |ChildLinks(t, s)| == |s|
  {
    if s != {} {
      var x := Member(s);
      LinksDiffer(t, s - {x});
      assert ChildLinks(t, s) == ChildLinks(t, s - {x}) + {t.parents[x].link};
    }
  }

  lemma ChildHangsOnRoot(v: Snapshot, root: Id, t: Found, level: map<Id, int>, x: Id)
    requires Tree(v, root, t, level) && x in level && x != root && level[x] <= 1
    ensures x in t.parents && t.parents[x].link in t.relations
    ensures var q := t.relations[t.parents[x].link]; q in v.relations && q.id == t.parents[x].link && Joins(q, root, x)
  {
    assert Hangs(v, root, t, level, x);
    var p := t.parents[x];
    OnlyRootAtTop(v, root, t, level, p.node);
    OnlyRootAtTop(v, root, t, level, x);
    assert Live(v, t, p.link);
  }

  lemma ChildrenAreSooner(v: Snapshot, root: Id, t: Found, level: map<Id, int>, r: Relation, nodeLimit: nat)
    requires Tree(v, root, t, level) && Full(t, level, r, 0, nodeLimit)
    ensures |Sooner(v, root, r)| + 1 >= nodeLimit
  {
    var s := t.entities - {root};
    forall x | x in s
      ensures x in t.parents && t.parents[x].link in t.relations && t.parents[x].link in Sooner(v, root, r)
      ensures Joins(t.relations[t.parents[x].link], root, x)
    {
      ChildHangsOnRoot(v, root, t, level, x);
      OnlyRootAtTop(v, root, t, level, x);
    }
    LinksDiffer(t, s);
    Smaller(ChildLinks(t, s), Sooner(v, root, r));
    assert |t.entities| == |s| + 1;
  }

  lemma NotReachedAgain(v: Snapshot, root: Id, level: map<Id, int>, x: Id, n: nat)
    requires Earliest(v, root, level) && x in level && x in Reach(v, root, n)
    ensures level[x] <= n
  {
    if n < level[x] {
      ReachGrows(v, root, n, level[x] - 1);
      assert false;
    }
  }

  lemma FoundIsShortest(v: Snapshot, source: Id, target: Id, t: Found, level: map<Id, int>, ns: seq<Id>, ls: seq<Id>)
    requires Tree(v, source, t, level) && Earliest(v, source, level) && target in t.entities
    requires IsPath(v, source, target, ns, ls)
    ensures level[target] <= |ls|
  {
    PathStaysInReach(v, source, target, ns, ls);
    NotReachedAgain(v, source, level, target, |ls|);
  }

  lemma FoundIsConnected(v: Snapshot, source: Id, target: Id, t: Found, level: map<Id, int>, maxDepth: nat)
    requires Tree(v, source, t, level) && target in t.entities && level[target] <= maxDepth
    ensures Connected(v, source, target, maxDepth)
  {
    LevelReaches(v, source, t, level, target);
    var nodes, links := ReachHasPath(v, source, target, level[target]);
  }

  lemma ConnectedIsFound(v: Snapshot, source: Id, target: Id, t: Found, level: map<Id, int>, maxDepth: nat)
    requires forall x :: x in t.entities <==> x in Reach(v, source, maxDepth)
    requires Connected(v, source, target, maxDepth)
    ensures target in t.entities
  {
    var ns, ls :| IsPath(v, source, target, ns, ls) && |ls| <= maxDepth;
    PathStaysInReach(v, source, target, ns, ls);
    ReachGrows(v, source, |ls|, maxDepth);
  }

  lemma PathIsShortest(v: Snapshot, source: Id, target: Id, t: Found, level: map<Id, int>, maxDepth: nat, swept: nat)
    requires Tree(v, source, t, level) && Swept(v, t, level, maxDepth, Some(target), swept)
    requires forall x :: x in level ==> level[x] <= maxDepth
    ensures target in t.entities <==> Connected(v, source, target, maxDepth)
    ensures target in t.entities ==> forall ns, ls :: IsPath(v, source, target, ns, ls) ==> level[target] <= |ls|
  {
    if target in t.entities {
      FoundIsConnected(v, source, target, t, level, maxDepth);
      SweptIsEarliest(v, source, t, level, maxDepth, Some(target), swept);
      forall ns, ls | IsPath(v, source, target, ns, ls)
        ensures level[target] <= |ls|
      {
        FoundIsShortest(v, source, target, t, level, ns, ls);
      }
    } else {
      SweptIsReach(v, source, t, level, maxDepth);
      if Connected(v, source, target, maxDepth) {
        ConnectedIsFound(v, source, target, t, level, maxDepth);
      }
    }
  }

  /** The subgraph view keeps the relations with both endpoints among its nodes: that is all of them. */
  lemma SubgraphKeepsEverything(v: Snapshot, root: Id, t: Found, level: map<Id, int>)
    requires Tree(v, root, t, level)
    ensures (map r | r in t.relations && t.relations[r].source in t.entities && t.relations[r].target in t.entities :: t.relations[r])
         == t.relations
  {
    forall r | r in t.relations
      ensures t.relations[r].source in t.entities && t.relations[r].target in t.entities
    {
      assert Live(v, t, r);
    }
  }
}
