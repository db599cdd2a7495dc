/** The multi-source traversal of apps/api/app/graph/store.py. */
module Traverse {
  import opened Wrappers
  import opened Helpers
  import opened GraphRead
  import opened Walk

  // ---------- Best relations first ----------

  /** By falling confidence, then by key. */
  predicate Before(a: Relation, b: Relation) {
    a.confidence > b.confidence || (a.confidence == b.confidence && a.id < b.id)
  }

  function Insert(rows: seq<Relation>, r: Relation): seq<Relation> {
    if rows == [] then [r]
    else if Before(r, rows[0]) then [r] + rows
    else [rows[0]] + Insert(rows[1..], r)
  }

  function Rank(rows: seq<Relation>): seq<Relation> {
    if rows == [] then [] else Insert(Rank(rows[1..]), rows[0])
  }

  ghost predicate Ordered(rows: seq<Relation>) {
    rows == [] || ((forall r :: r in rows[1..] ==> Before(rows[0], r)) && Ordered(rows[1..]))
  }

  lemma {:induction false} InsertKeeps(rows: seq<Relation>, r: Relation)
    requires Ordered(rows) && forall x :: x in rows ==> x.id != r.id
    ensures Ordered(Insert(rows, r)) && |Insert(rows, r)| == |rows| + 1
    ensures forall x :: x in Insert(rows, r) <==> x in rows || x == r
  {
    if rows == [] {
      assert [r][1..] == [];
    } else if Before(r, rows[0]) {
      forall x | x in rows
        ensures Before(r, x)
      {
        assert x == rows[0] || x in rows[1..];
      }
      assert ([r] + rows)[1..] == rows;
    } else {
      InsertKeeps(rows[1..], r);
      assert rows[0] in rows;
      assert Before(rows[0], r);
      assert rows == [rows[0]] + rows[1..];
      var after := Insert(rows, r);
      assert after[0] == rows[0] && after[1..] == Insert(rows[1..], r);
    }
  }

  lemma {:induction false} RankOrders(rows: seq<Relation>)
    requires Keyed(rows)
    ensures Ordered(Rank(rows)) && |Rank(rows)| == |rows|
    ensures forall r :: r in Rank(rows) <==> r in rows
  {
    if rows != [] {
      RankOrders(rows[1..]);
      InsertKeeps(Rank(rows[1..]), rows[0]);
      assert rows == [rows[0]] + rows[1..];
    }
  }

  lemma {:induction false} OrderedAt(rows: seq<Relation>, i: int, j: int)
    requires Ordered(rows) && 0 <= i < j < |rows|
    ensures Before(rows[i], rows[j])
  {
    if i > 0 {
      OrderedAt(rows[1..], i - 1, j - 1);
    }
  }

  ghost function Elements(rows: seq<Relation>): set<Relation> {
    set r | r in rows
  }

  lemma {:induction false} OrderedCount(rows: seq<Relation>)
    requires Ordered(rows)
    ensures |Elements(rows)| == |rows|
  {
    if rows != [] {
      OrderedCount(rows[1..]);
      assert rows == [rows[0]] + rows[1..];
      assert Elements(rows) == {rows[0]} + Elements(rows[1..]);
    }
  }

  lemma {:induction false} OrderedPrefix(rows: seq<Relation>, n: nat)
    requires Ordered(rows) && n <= |rows|
    ensures Ordered(rows[..n])
  {
    if n > 0 {
      OrderedPrefix(rows[1..], n - 1);
      assert rows[..n][1..] == rows[1..][..n - 1];
    }
  }

  /** The live relations of a frontier that come before `r`. */
  ghost function Ahead(v: Snapshot, frontier: set<Id>, r: Relation): set<Relation> {
    set q | q in v.relations && Touches(q, frontier, {}) && Before(q, r)
  }

  /** The relation touches the frontier, and fewer than `n` of those that do come before it. */
  ghost predicate Leads(v: Snapshot, frontier: set<Id>, n: nat, r: Relation) {
    r in v.relations && Touches(r, frontier, {}) && |Ahead(v, frontier, r)| < n
  }

  lemma PlaceInRank(v: Snapshot, frontier: set<Id>, ranked: seq<Relation>, i: nat)
    requires Ordered(ranked) && i < |ranked|
    requires forall r :: r in ranked <==> r in v.relations && Touches(r, frontier, {})
    ensures |Ahead(v, frontier, ranked[i])| == i
  {
    var first := ranked[..i];
    OrderedPrefix(ranked, i);
    OrderedCount(first);
    forall q
      ensures q in Ahead(v, frontier, ranked[i]) <==> q in Elements(first)
    {
      if q in Ahead(v, frontier, ranked[i]) {
        var j :| 0 <= j < |ranked| && ranked[j] == q;
        if i < j {
          OrderedAt(ranked, i, j);
        }
        assert j < i;
        assert first[j] == q;
      }
      if q in first {
        var j :| 0 <= j < i && first[j] == q;
        OrderedAt(ranked, j, i);
        assert ranked[j] == q;
      }
    }
    assert Ahead(v, frontier, ranked[i]) == Elements(first);
  }

  // ---------- Trails ----------

  /** The entities of a trail. */
  function Stops(path: seq<Id>): set<Id> {
    if path == [] then {}
    else if |path| < 3 then {path[0]}
    else Stops(path[..|path| - 2]) + {path[|path| - 1]}
  }

  /** Entities and relations in turn, from a seed; each relation joins its neighbours and no entity comes twice. */
  ghost predicate Trail(v: Snapshot, seeds: set<Id>, path: seq<Id>) {
    var n := |path|;
    if n < 3 then n == 1 && path[0] in seeds
    else
      && Trail(v, seeds, path[..n - 2])
      && Hop(v, path[n - 3], path[n - 2], path[n - 1])
      && path[n - 1] !in Stops(path[..n - 2])
  }

  /** The supported entities within `d` live relations of a seed. */
  ghost function Within(v: Snapshot, seeds: set<Id>, d: nat): set<Id> {
    if d == 0 then seeds else Within(v, seeds, d - 1) + Neighbours(v, Within(v, seeds, d - 1))
  }

  /** How many relations a trail follows. */
  function Hops(path: seq<Id>): nat {
    |path| / 2
  }

  lemma OneHopFurther(v: Snapshot, seeds: set<Id>, a: Id, link: Id, b: Id, d: nat)
    requires a in Within(v, seeds, d) && Hop(v, a, link, b)
    ensures b in Within(v, seeds, d + 1)
  {
    assert b in Neighbours(v, Within(v, seeds, d));
  }

  lemma {:induction false} TrailStaysWithin(v: Snapshot, seeds: set<Id>, path: seq<Id>)
    requires Trail(v, seeds, path)
    ensures |path| == 2 * Hops(path) + 1 && path[|path| - 1] in Within(v, seeds, Hops(path))
  {
    var n := |path|;
    if n >= 3 {
      var shorter := path[..n - 2];
      TrailStaysWithin(v, seeds, shorter);
      OneHopFurther(v, seeds, shorter[|shorter| - 1], path[n - 2], path[n - 1], Hops(shorter));
      assert Hops(path) == Hops(shorter) + 1;
    }
  }

  /** The i-th entity, relation and next entity of a trail. */
  lemma {:induction false} TrailAlternates(v: Snapshot, seeds: set<Id>, path: seq<Id>, i: nat)
    requires Trail(v, seeds, path) && i < Hops(path)
    ensures |path| == 2 * Hops(path) + 1 && path[0] in seeds
    ensures Hop(v, path[2 * i], path[2 * i + 1], path[2 * i + 2])
  {
    var h := Hops(path);
    var shorter := path[..|path| - 2];
    TrailStaysWithin(v, seeds, path);
    assert Trail(v, seeds, shorter);
    if h == 1 {
      assert i == 0;
    } else if i < h - 1 {
      TrailAlternates(v, seeds, shorter, i);
    } else {
      TrailAlternates(v, seeds, shorter, 0);
    }
  }

  lemma {:induction false} StopsAt(v: Snapshot, seeds: set<Id>, path: seq<Id>, i: nat)
    requires Trail(v, seeds, path) && i <= Hops(path)
    ensures 2 * i < |path| && path[2 * i] in Stops(path)
  {
    TrailStaysWithin(v, seeds, path);
    if Hops(path) > 0 && i < Hops(path) {
      StopsAt(v, seeds, path[..|path| - 2], i);
    }
  }

  lemma {:induction false} TrailIsSimple(v: Snapshot, seeds: set<Id>, path: seq<Id>, i: nat, j: nat)
    requires Trail(v, seeds, path) && i < j <= Hops(path)
    ensures 2 * j < |path| && path[2 * i] != path[2 * j]
  {
    TrailStaysWithin(v, seeds, path);
    var shorter := path[..|path| - 2];
    assert Trail(v, seeds, shorter);
    if j == Hops(path) {
      StopsAt(v, seeds, shorter, i);
    } else {
      TrailIsSimple(v, seeds, shorter, i, j);
    }
  }

  // ---------- The traversal ----------

  datatype Trace = Trace(paths: map<Id, seq<Id>>, relations: set<Id>)

  datatype Outcome = BadDepth | Nothing | Traced(trace: Trace)

  /** An entity's trail leads to it and passes through recorded entities only. */
  ghost predicate Recorded(v: Snapshot, seeds: set<Id>, t: Trace, d: nat, x: Id)
    requires x in t.paths
  {
    var path := t.paths[x];
    && x in v.entities
    && Trail(v, seeds, path) && path[|path| - 1] == x && Hops(path) <= d
    && forall y :: y in Stops(path) ==> y in t.paths
  }

  ghost predicate Followed(v: Snapshot, t: Trace, k: Id) {
    exists r :: r in v.relations && r.id == k && r.source in t.paths && r.target in t.paths
  }

  ghost predicate Sound(v: Snapshot, seeds: set<Id>, t: Trace, d: nat) {
    && (forall x {:trigger Recorded(v, seeds, t, d, x)} :: x in t.paths ==> Recorded(v, seeds, t, d, x))
    && (forall k :: k in t.relations ==> Followed(v, t, k))
  }

  /** Both live ends of a row are recorded. */
  ghost predicate Covered(v: Snapshot, r: Relation, t: Trace) {
    (r.source in v.entities ==> r.source in t.paths) && (r.target in v.entities ==> r.target in t.paths)
  }

  /** `t` adds trails of `d + 1` relations to `t0`, to the entities in `next`. */
  ghost predicate Added(t0: Trace, t: Trace, next: set<Id>, d: nat) {
    && (forall x :: x in t.paths <==> x in t0.paths || x in next)
    && (forall x :: x in next ==> x !in t0.paths)
    && (forall x :: x in t0.paths ==> x in t.paths && t.paths[x] == t0.paths[x])
    && (forall x :: x in next ==> x in t.paths && Hops(t.paths[x]) == d + 1)
  }

  ghost predicate Fringe(t: Trace, frontier: set<Id>, d: nat) {
    forall x :: x in frontier ==> x in t.paths && Hops(t.paths[x]) == d
  }

  lemma StepKeepsSound(v: Snapshot, seeds: set<Id>, t: Trace, d: nat, r: Relation, a: Id, b: Id)
    requires Sound(v, seeds, t, d + 1)
    requires r in v.relations && Joins(r, a, b) && a in t.paths && Hops(t.paths[a]) == d && b !in t.paths
    requires b in v.entities
    ensures Sound(v, seeds, Trace(t.paths[b := t.paths[a] + [r.id, b]], t.relations + {r.id}), d + 1)
    ensures Hops(t.paths[a] + [r.id, b]) == d + 1
  {
    var path := t.paths[a] + [r.id, b];
    var n := |path|;
    var t' := Trace(t.paths[b := path], t.relations + {r.id});
    assert Recorded(v, seeds, t, d + 1, a);
    assert path[..n - 2] == t.paths[a];
    assert Hop(v, a, r.id, b);
    forall x | x in t'.paths
      ensures Recorded(v, seeds, t', d + 1, x)
    {
      assert x in t.paths ==> Recorded(v, seeds, t, d + 1, x);
    }
    forall k | k in t'.relations
      ensures Followed(v, t', k)
    {
      assert k in t.relations ==> Followed(v, t, k);
    }
  }

  lemma NoteKeepsSound(v: Snapshot, seeds: set<Id>, t: Trace, d: nat, r: Relation)
    requires Sound(v, seeds, t, d) && r in v.relations && r.source in t.paths && r.target in t.paths
    ensures Sound(v, seeds, t.(relations := t.relations + {r.id}), d)
  {
    var t' := t.(relations := t.relations + {r.id});
    forall x | x in t'.paths
      ensures Recorded(v, seeds, t', d, x)
    {
      assert Recorded(v, seeds, t, d, x);
    }
    forall k | k in t'.relations
      ensures Followed(v, t', k)
    {
      assert k in t.relations ==> Followed(v, t, k);
    }
  }

  /** One row: the matched endpoint's trail is extended to the other endpoint, if that one is new and supported. */
  method Follow(v: Snapshot, ghost seeds: set<Id>, ghost d: nat, frontier: set<Id>, r: Relation, t0: Trace)
      returns (t: Trace, reached: Option<Id>)
    requires Sound(v, seeds, t0, d + 1) && Fringe(t0, frontier, d)
    requires r in v.relations && (r.source in frontier || r.target in frontier)
    ensures Sound(v, seeds, t, d + 1)
    ensures Added(t0, t, Reached(reached), d)
    ensures Covered(v, r, t)
    ensures t.relations == if r.source in v.entities && r.target in v.entities then t0.relations + {r.id} else t0.relations
    ensures reached.Some? ==> Grows(frontier, r, t0, t, reached.value)
  {
    t, reached := t0, None;
    assert forall x :: x in frontier ==> Recorded(v, seeds, t0, d + 1, x);
    var matched := if r.source in frontier then r.source else r.target;
    var other := if matched == r.source then r.target else r.source;
    if other !in v.entities {
      return;
    }
    if other !in t.paths {
      StepKeepsSound(v, seeds, t, d, r, matched, other);
      t := Trace(t.paths[other := t.paths[matched] + [r.id, other]], t.relations + {r.id});
      reached := Some(other);
      assert GrowsFrom(frontier, r, t0, t, other, matched);
    } else {
      NoteKeepsSound(v, seeds, t, d + 1, r);
      t := t.(relations := t.relations + {r.id});
    }
  }

  /** The trail of `x` is that of an entity of the frontier, which the relation joins to it, and one relation more. */
  ghost predicate Grows(frontier: set<Id>, r: Relation, t0: Trace, t: Trace, x: Id) {
    exists m :: GrowsFrom(frontier, r, t0, t, x, m)
  }

  ghost predicate GrowsFrom(frontier: set<Id>, r: Relation, t0: Trace, t: Trace, x: Id, m: Id) {
    m in frontier && m in t0.paths && Joins(r, m, x) && x in t.paths && t.paths[x] == t0.paths[m] + [r.id, x]
  }

  lemma AddedFurther(t0: Trace, t1: Trace, next1: set<Id>, t2: Trace, next2: set<Id>, d: nat)
    requires Added(t0, t1, next1, d) && Added(t1, t2, next2, d)
    ensures Added(t0, t2, next1 + next2, d)
  {
  }

  /** A row between supported entities was among those followed. */
  ghost predicate Noted(v: Snapshot, rows: seq<Relation>, k: Id) {
    exists r :: r in rows && r.id == k && r.source in v.entities && r.target in v.entities
  }

  /** The trail of `x` grows by row `i`, the first with an end there. */
  ghost predicate GrownAt(rows: seq<Relation>, frontier: set<Id>, t0: Trace, t: Trace, x: Id, i: int) {
    && 0 <= i < |rows| && Grows(frontier, rows[i], t0, t, x)
    && forall j :: 0 <= j < i ==> x != rows[j].source && x != rows[j].target
  }

  ghost predicate Grown(rows: seq<Relation>, frontier: set<Id>, t0: Trace, t: Trace, x: Id) {
    exists i :: GrownAt(rows, frontier, t0, t, x, i)
  }

  /** Exactly the rows between supported entities are noted, and new trails grow by the first row that leads there. */
  ghost predicate Tracked(v: Snapshot, rows: seq<Relation>, frontier: set<Id>, t0: Trace, t: Trace, next: set<Id>) {
    && (forall k :: k in t.relations <==> k in t0.relations || Noted(v, rows, k))
    && (forall x {:trigger Grown(rows, frontier, t0, t, x)} :: x in next ==> Grown(rows, frontier, t0, t, x))
  }

  lemma NotedNext(v: Snapshot, rows: seq<Relation>, r: Relation, k: Id)
    ensures Noted(v, rows + [r], k) <==>
              Noted(v, rows, k) || (k == r.id && r.source in v.entities && r.target in v.entities)
  {
    if Noted(v, rows + [r], k) {
      var q :| q in rows + [r] && q.id == k && q.source in v.entities && q.target in v.entities;
      assert q in rows || q == r;
    }
    if Noted(v, rows, k) {
      var q :| q in rows && q.id == k && q.source in v.entities && q.target in v.entities;
      assert q in rows + [r];
    }
    assert r in rows + [r];
  }

  lemma GrownStays(rows: seq<Relation>, r: Relation, frontier: set<Id>, t0: Trace, t: Trace, t1: Trace, x: Id)
    requires Grown(rows, frontier, t0, t, x) && x in t1.paths && (x in t.paths ==> t1.paths[x] == t.paths[x])
    ensures Grown(rows + [r], frontier, t0, t1, x)
  {
    var i :| GrownAt(rows, frontier, t0, t, x, i);
    var m :| GrowsFrom(frontier, rows[i], t0, t, x, m);
    assert (rows + [r])[i] == rows[i];
    assert GrowsFrom(frontier, rows[i], t0, t1, x, m);
    assert GrownAt(rows + [r], frontier, t0, t1, x, i);
  }

  /** A row that adds an entity is the first to lead there. */
  lemma GrownNow(v: Snapshot, rows: seq<Relation>, r: Relation, frontier: set<Id>, t0: Trace, t: Trace, t1: Trace, x: Id)
    requires forall k :: 0 <= k < |rows| ==> Covered(v, rows[k], t)
    requires x in v.entities && x !in t.paths && Grows(frontier, r, t, t1, x)
    requires forall m :: m in frontier ==> m in t0.paths && m in t.paths && t.paths[m] == t0.paths[m]
    ensures Grown(rows + [r], frontier, t0, t1, x)
  {
    var n := |rows|;
    var m :| GrowsFrom(frontier, r, t, t1, x, m);
    assert GrowsFrom(frontier, r, t0, t1, x, m);
    assert (rows + [r])[n] == r;
    forall j | 0 <= j < n
      ensures x != (rows + [r])[j].source && x != (rows + [r])[j].target
    {
      assert (rows + [r])[j] == rows[j] && Covered(v, rows[j], t);
    }
    assert GrownAt(rows + [r], frontier, t0, t1, x, n);
  }

  lemma TrackNext(v: Snapshot, rows: seq<Relation>, i: nat, frontier: set<Id>, t0: Trace, t: Trace, next: set<Id>, t1: Trace,
                  reached: Option<Id>, d: nat)
    requires i < |rows| && Tracked(v, rows[..i], frontier, t0, t, next)
    requires Added(t0, t, next, d) && Added(t, t1, Reached(reached), d) && Fringe(t0, frontier, d)
    requires forall k :: 0 <= k < i ==> Covered(v, rows[k], t)
    requires t1.relations == if rows[i].source in v.entities && rows[i].target in v.entities
                             then t.relations + {rows[i].id} else t.relations
    requires reached.Some? ==> reached.value in v.entities && Grows(frontier, rows[i], t, t1, reached.value)
    ensures Tracked(v, rows[..i + 1], frontier, t0, t1, next + Reached(reached))
  {
    var r := rows[i];
    assert rows[..i + 1] == rows[..i] + [r];
    forall k
      ensures k in t1.relations <==> k in t0.relations || Noted(v, rows[..i + 1], k)
    {
      NotedNext(v, rows[..i], r, k);
    }
    forall x | x in next + Reached(reached)
      ensures Grown(rows[..i + 1], frontier, t0, t1, x)
    {
      if x in next {
        GrownStays(rows[..i], r, frontier, t0, t, t1, x);
      } else {
        GrownNow(v, rows[..i], r, frontier, t0, t, t1, x);
      }
    }
  }

  method FollowAll(v: Snapshot, ghost seeds: set<Id>, ghost d: nat, frontier: set<Id>, rows: seq<Relation>, t0: Trace)
      returns (t: Trace, next: set<Id>)
    requires Sound(v, seeds, t0, d + 1) && Fringe(t0, frontier, d)
    requires forall r :: r in rows ==> r in v.relations && Touches(r, frontier, {})
    ensures Sound(v, seeds, t, d + 1)
    ensures Added(t0, t, next, d) && |next| <= |rows|
    ensures forall r :: r in rows ==> Covered(v, r, t)
    ensures Tracked(v, rows, frontier, t0, t, next)
  {
    t, next := t0, {};
    for i := 0 to |rows|
      invariant Underway(v, seeds, d, frontier, rows, i, t0, t, next)
    {
      assert rows[i] in rows;
      var t1, reached := Follow(v, seeds, d, frontier, rows[i], t);
      FollowedOne(v, seeds, d, frontier, rows, i, t0, t, next, t1, reached);
      next := next + Reached(reached);
      t := t1;
    }
    assert rows[..|rows|] == rows;
  }

  function Reached(x: Option<Id>): set<Id> {
    if x.Some? then {x.value} else {}
  }

  /** After the first `i` rows. */
  ghost predicate Underway(v: Snapshot, seeds: set<Id>, d: nat, frontier: set<Id>, rows: seq<Relation>, i: nat, t0: Trace,
                           t: Trace, next: set<Id>)
    requires i <= |rows|
  {
    && Sound(v, seeds, t, d + 1) && Fringe(t, frontier, d)
    && Added(t0, t, next, d) && |next| <= i
    && (forall k :: 0 <= k < i ==> Covered(v, rows[k], t))
    && Tracked(v, rows[..i], frontier, t0, t, next)
  }

  lemma CoveredStays(v: Snapshot, r: Relation, t: Trace, t1: Trace, next: set<Id>, d: nat)
    requires Covered(v, r, t) && Added(t, t1, next, d)
    ensures Covered(v, r, t1)
  {
  }

  lemma FringeStays(t: Trace, t1: Trace, frontier: set<Id>, next: set<Id>, d: nat)
    requires Fringe(t, frontier, d) && Added(t, t1, next, d)
    ensures Fringe(t1, frontier, d)
  {
  }

  lemma FollowedOne(v: Snapshot, seeds: set<Id>, d: nat, frontier: set<Id>, rows: seq<Relation>, i: nat, t0: Trace,
                    t: Trace, next: set<Id>, t1: Trace, reached: Option<Id>)
    requires i < |rows| && Underway(v, seeds, d, frontier, rows, i, t0, t, next)
    requires Sound(v, seeds, t1, d + 1) && Added(t, t1, Reached(reached), d) && Covered(v, rows[i], t1)
    requires t1.relations == if rows[i].source in v.entities && rows[i].target in v.entities
                             then t.relations + {rows[i].id} else t.relations
    requires reached.Some? ==> Grows(frontier, rows[i], t, t1, reached.value)
    requires Fringe(t0, frontier, d)
    ensures Underway(v, seeds, d, frontier, rows, i + 1, t0, t1, next + Reached(reached))
  {
    AddedFurther(t0, t, next, t1, Reached(reached), d);
    assert reached.Some? ==> Recorded(v, seeds, t1, d + 1, reached.value);
    FringeStays(t, t1, frontier, Reached(reached), d);
    forall k | 0 <= k < i + 1
      ensures Covered(v, rows[k], t1)
    {
      if k < i {
        CoveredStays(v, rows[k], t, t1, Reached(reached), d);
      }
    }
    TrackNext(v, rows, i, frontier, t0, t, next, t1, reached, d);
  }

  /** The rows of one level's query. */
  function Best(v: Snapshot, frontier: set<Id>, fanout: nat): seq<Relation> {
    Take(Rank(Query(v.relations, frontier, {})), Times(|frontier|, fanout))
  }

  /** The query returns the relations of the frontier that fewer than `fanout` for every entity of it come before,
      the best first. */
  lemma BestLeads(v: Snapshot, frontier: set<Id>, fanout: nat)
    requires Keyed(v.relations)
    ensures Ordered(Best(v, frontier, fanout))
    ensures forall r :: r in Best(v, frontier, fanout) <==> Leads(v, frontier, Times(|frontier|, fanout), r)
  {
    var found := Query(v.relations, frontier, {});
    QuerySelects(v.relations, frontier, {});
    RankOrders(found);
    TakenLead(v, frontier, Rank(found), Times(|frontier|, fanout));
  }

  ghost function Touching(v: Snapshot, s: set<Id>): set<Relation> {
    set r | r in v.relations && Touches(r, s, {})
  }

  /** A limit that is no smaller than the number of relations cuts none. */
  lemma AllLead(v: Snapshot, frontier: set<Id>, n: nat)
    requires |Touching(v, frontier)| <= n
    ensures forall r :: r in v.relations && Touches(r, frontier, {}) ==> Leads(v, frontier, n, r)
  {
    forall r | r in v.relations && Touches(r, frontier, {})
      ensures Leads(v, frontier, n, r)
    {
      Smaller(Ahead(v, frontier, r) + {r}, Touching(v, frontier));
      assert |Ahead(v, frontier, r) + {r}| == |Ahead(v, frontier, r)| + 1;
    }
  }

  /** What the limit of a level cuts ranks behind all that it keeps. */
  lemma LimitKeepsBest(v: Snapshot, frontier: set<Id>, fanout: nat, kept: Relation, lost: Relation)
    requires Keyed(v.relations) && kept in Best(v, frontier, fanout)
    requires lost in v.relations && Touches(lost, frontier, {}) && lost !in Best(v, frontier, fanout)
    ensures kept.confidence > lost.confidence || (kept.confidence == lost.confidence && kept.id < lost.id)
  {
    BestLeads(v, frontier, fanout);
    if !Before(kept, lost) {
      assert kept != lost;
      if kept.id == lost.id {
        KeysIdentify(v.relations, kept, lost);
      }
      Smaller(Ahead(v, frontier, lost), Ahead(v, frontier, kept));
      assert false;
    }
  }

  lemma TakenLead(v: Snapshot, frontier: set<Id>, ranked: seq<Relation>, n: nat)
    requires Ordered(ranked) && forall r :: r in ranked <==> r in v.relations && Touches(r, frontier, {})
    ensures Ordered(Take(ranked, n)) && forall r :: r in Take(ranked, n) <==> Leads(v, frontier, n, r)
  {
    OrderedPrefix(ranked, if n < |ranked| then n else |ranked|);
    forall r
      ensures r in Take(ranked, n) <==> Leads(v, frontier, n, r)
    {
      TakenLeads(v, frontier, ranked, n, r);
    }
  }

  lemma TakenLeads(v: Snapshot, frontier: set<Id>, ranked: seq<Relation>, n: nat, r: Relation)
    requires Ordered(ranked) && forall r :: r in ranked <==> r in v.relations && Touches(r, frontier, {})
    ensures r in Take(ranked, n) <==> Leads(v, frontier, n, r)
  {
    var taken := Take(ranked, n);
    if r in taken {
      var i :| 0 <= i < |taken| && taken[i] == r;
      assert ranked[i] == r;
      PlaceInRank(v, frontier, ranked, i);
    }
    if Leads(v, frontier, n, r) {
      var i :| 0 <= i < |ranked| && ranked[i] == r;
      PlaceInRank(v, frontier, ranked, i);
      assert taken[i] == r;
    }
  }

  /** One level: the best rows, at most `fanout` for every entity of the frontier. */
  method Expand(v: Snapshot, ghost seeds: set<Id>, ghost d: nat, frontier: set<Id>, fanout: nat, t0: Trace)
      returns (t: Trace, next: set<Id>)
    requires Keyed(v.relations) && fanout >= 1
    requires Sound(v, seeds, t0, d) && Fringe(t0, frontier, d)
    ensures Sound(v, seeds, t, d + 1)
    ensures Added(t0, t, next, d) && |next| <= Times(|frontier|, fanout)
    ensures var best := Best(v, frontier, fanout);
            && (forall r :: r in best ==> Covered(v, r, t))
            && Tracked(v, best, frontier, t0, t, next)
    ensures |Touching(v, frontier)| <= Times(|frontier|, fanout) ==> AllCovered(v, frontier, t)
  {
    BestLeads(v, frontier, fanout);
    SoundDeeper(v, seeds, t0, d);
    t, next := FollowAll(v, seeds, d, frontier, Best(v, frontier, fanout), t0);
    if |Touching(v, frontier)| <= Times(|frontier|, fanout) {
      AllLead(v, frontier, Times(|frontier|, fanout));
    }
  }

  // ---------- What every level did ----------

  /** The entities whose trails have `d` relations. */
  ghost function Front(t: Trace, d: nat): set<Id> {
    set x | x in t.paths && Hops(t.paths[x]) == d
  }

  /** The relation is one of the best of its level: `fanout` for every entity there. */
  ghost predicate Leading(v: Snapshot, t: Trace, fanout: nat, d: nat, r: Relation) {
    Leads(v, Front(t, d), Times(|Front(t, d)|, fanout), r)
  }

  /** Its supported ends are recorded, one level down at most, and so is the relation if both are. */
  ghost predicate Taken(v: Snapshot, t: Trace, d: nat, r: Relation) {
    && (r.source in v.entities ==> r.source in t.paths && Hops(t.paths[r.source]) <= d + 1)
    && (r.target in v.entities ==> r.target in t.paths && Hops(t.paths[r.target]) <= d + 1)
    && (r.source in v.entities && r.target in v.entities ==> r.id in t.relations)
  }

  /** The trail of `x` grows from that of `m` by the best relation that leads to `x` from its level. */
  ghost predicate BestInto(v: Snapshot, t: Trace, fanout: nat, d: nat, x: Id, r: Relation, m: Id) {
    && Leading(v, t, fanout, d, r) && m in Front(t, d) && Joins(r, m, x)
    && x in t.paths && t.paths[x] == t.paths[m] + [r.id, x]
    && forall q :: Leading(v, t, fanout, d, q) && (x == q.source || x == q.target) ==> q == r || Before(r, q)
  }

  ghost predicate GrownBest(v: Snapshot, t: Trace, fanout: nat, d: nat, x: Id) {
    exists r, m :: BestInto(v, t, fanout, d, x, r, m)
  }

  /** Level `d` took the best relations of its entities, and nothing else. */
  ghost predicate LevelHolds(v: Snapshot, t: Trace, fanout: nat, d: nat) {
    && (forall r {:trigger Leading(v, t, fanout, d, r)} :: Leading(v, t, fanout, d, r) ==> Taken(v, t, d, r))
    && (forall x {:trigger GrownBest(v, t, fanout, d, x)} :: x in Front(t, d + 1) ==> GrownBest(v, t, fanout, d, x))
  }

  /** The relation was one of the best of some level, between supported entities. */
  ghost predicate NotedAt(v: Snapshot, t: Trace, fanout: nat, d: nat, k: Id) {
    exists r :: Leading(v, t, fanout, d, r) && r.id == k && r.source in v.entities && r.target in v.entities
  }

  ghost predicate NotedBelow(v: Snapshot, t: Trace, fanout: nat, n: nat, k: Id) {
    exists d: nat :: d < n && NotedAt(v, t, fanout, d, k)
  }

  ghost predicate AllLevels(v: Snapshot, t: Trace, fanout: nat, n: nat) {
    && (forall d: nat {:trigger LevelHolds(v, t, fanout, d)} :: d < n ==> LevelHolds(v, t, fanout, d))
    && (forall k {:trigger NotedBelow(v, t, fanout, n, k)} :: k in t.relations ==> NotedBelow(v, t, fanout, n, k))
  }

  lemma FrontStays(t0: Trace, t: Trace, next: set<Id>, d: nat, e: nat)
    requires Added(t0, t, next, d) && e <= d
    ensures Front(t, e) == Front(t0, e)
  {
    forall x
      ensures x in Front(t, e) <==> x in Front(t0, e)
    {
    }
  }

  lemma FrontGrows(t0: Trace, t: Trace, next: set<Id>, d: nat)
    requires Added(t0, t, next, d) && forall x :: x in t0.paths ==> Hops(t0.paths[x]) <= d
    ensures Front(t, d + 1) == next
  {
    forall x
      ensures x in Front(t, d + 1) <==> x in next
    {
    }
  }

  lemma LeadingStays(v: Snapshot, t0: Trace, t: Trace, fanout: nat, e: nat, r: Relation)
    requires Front(t, e) == Front(t0, e)
    ensures Leading(v, t, fanout, e, r) <==> Leading(v, t0, fanout, e, r)
  {
  }

  lemma BestIntoStays(v: Snapshot, t0: Trace, t: Trace, next: set<Id>, fanout: nat, d: nat, e: nat, x: Id)
    requires Added(t0, t, next, d) && e < d && GrownBest(v, t0, fanout, e, x)
    ensures GrownBest(v, t, fanout, e, x)
  {
    FrontStays(t0, t, next, d, e);
    var r, m :| BestInto(v, t0, fanout, e, x, r, m);
    LeadingStays(v, t0, t, fanout, e, r);
    forall q | Leading(v, t, fanout, e, q) && (x == q.source || x == q.target)
      ensures q == r || Before(r, q)
    {
      LeadingStays(v, t0, t, fanout, e, q);
    }
    assert BestInto(v, t, fanout, e, x, r, m);
  }

  lemma LevelStays(v: Snapshot, t0: Trace, t: Trace, next: set<Id>, fanout: nat, d: nat, e: nat)
    requires Added(t0, t, next, d) && e < d && LevelHolds(v, t0, fanout, e) && t0.relations <= t.relations
    ensures LevelHolds(v, t, fanout, e)
  {
    FrontStays(t0, t, next, d, e);
    FrontStays(t0, t, next, d, e + 1);
    forall r | Leading(v, t, fanout, e, r)
      ensures Taken(v, t, e, r)
    {
      LeadingStays(v, t0, t, fanout, e, r);
      assert Taken(v, t0, e, r);
    }
    forall x | x in Front(t, e + 1)
      ensures GrownBest(v, t, fanout, e, x)
    {
      assert x in Front(t0, e + 1) && GrownBest(v, t0, fanout, e, x);
      BestIntoStays(v, t0, t, next, fanout, d, e, x);
    }
  }

  lemma NotedStays(v: Snapshot, t0: Trace, t: Trace, next: set<Id>, fanout: nat, d: nat, k: Id, n: nat)
    requires Added(t0, t, next, d) && NotedBelow(v, t0, fanout, d, k) && n >= d
    ensures NotedBelow(v, t, fanout, n, k)
  {
    var e: nat :| e < d && NotedAt(v, t0, fanout, e, k);
    var r :| Leading(v, t0, fanout, e, r) && r.id == k && r.source in v.entities && r.target in v.entities;
    FrontStays(t0, t, next, d, e);
    LeadingStays(v, t0, t, fanout, e, r);
    assert NotedAt(v, t, fanout, e, k);
  }

  /** A trail that grew by the first row of a ranked query grew by the best. */
  lemma FirstIsBest(v: Snapshot, t0: Trace, t: Trace, rows: seq<Relation>, fanout: nat, d: nat, x: Id)
    requires Ordered(rows) && (forall r :: r in rows <==> Leading(v, t, fanout, d, r))
    requires Front(t, d) == Front(t0, d) && Grown(rows, Front(t0, d), t0, t, x)
    requires forall m :: m in t0.paths ==> m in t.paths && t.paths[m] == t0.paths[m]
    ensures GrownBest(v, t, fanout, d, x)
  {
    var i :| GrownAt(rows, Front(t0, d), t0, t, x, i);
    var m :| GrowsFrom(Front(t0, d), rows[i], t0, t, x, m);
    assert rows[i] in rows;
    forall q | Leading(v, t, fanout, d, q) && (x == q.source || x == q.target)
      ensures q == rows[i] || Before(rows[i], q)
    {
      assert q in rows;
      var j :| 0 <= j < |rows| && rows[j] == q;
      if i < j {
        OrderedAt(rows, i, j);
      }
    }
    assert BestInto(v, t, fanout, d, x, rows[i], m);
  }

  lemma LevelNow(v: Snapshot, seeds: set<Id>, t0: Trace, frontier: set<Id>, fanout: nat, t: Trace, next: set<Id>, d: nat)
    requires Keyed(v.relations) && frontier == Front(t0, d) && Added(t0, t, next, d) && Sound(v, seeds, t, d + 1)
    requires forall x :: x in t0.paths ==> Hops(t0.paths[x]) <= d
    requires forall r :: r in Best(v, frontier, fanout) ==> Covered(v, r, t)
    requires Tracked(v, Best(v, frontier, fanout), frontier, t0, t, next)
    ensures LevelHolds(v, t, fanout, d)
    ensures forall k :: k in t.relations ==> k in t0.relations || NotedAt(v, t, fanout, d, k)
  {
    var rows := Best(v, frontier, fanout);
    FrontStays(t0, t, next, d, d);
    FrontGrows(t0, t, next, d);
    BestLeads(v, frontier, fanout);
    forall r | Leading(v, t, fanout, d, r)
      ensures Taken(v, t, d, r)
    {
      RowTaken(v, seeds, rows, frontier, t0, t, next, d, r);
    }
    forall x | x in Front(t, d + 1)
      ensures GrownBest(v, t, fanout, d, x)
    {
      FirstIsBest(v, t0, t, rows, fanout, d, x);
    }
    forall k | k in t.relations && k !in t0.relations
      ensures NotedAt(v, t, fanout, d, k)
    {
      var r :| r in rows && r.id == k && r.source in v.entities && r.target in v.entities;
      assert Leading(v, t, fanout, d, r);
    }
  }

  lemma RowTaken(v: Snapshot, seeds: set<Id>, rows: seq<Relation>, frontier: set<Id>, t0: Trace, t: Trace, next: set<Id>, d: nat, r: Relation)
    requires Sound(v, seeds, t, d + 1) && r in rows && Covered(v, r, t) && Tracked(v, rows, frontier, t0, t, next)
    ensures Taken(v, t, d, r)
  {
    assert r.source in t.paths ==> Recorded(v, seeds, t, d + 1, r.source);
    assert r.target in t.paths ==> Recorded(v, seeds, t, d + 1, r.target);
    assert r.source in v.entities && r.target in v.entities ==> Noted(v, rows, r.id);
  }

  lemma AllLevelsNext(v: Snapshot, seeds: set<Id>, t0: Trace, frontier: set<Id>, fanout: nat, t: Trace, next: set<Id>, d: nat, n: nat)
    requires n == d + 1 && Keyed(v.relations) && frontier == Front(t0, d) && Added(t0, t, next, d)
    requires Sound(v, seeds, t0, d) && Sound(v, seeds, t, n) && AllLevels(v, t0, fanout, d)
    requires forall r :: r in Best(v, frontier, fanout) ==> Covered(v, r, t)
    requires Tracked(v, Best(v, frontier, fanout), frontier, t0, t, next)
    ensures AllLevels(v, t, fanout, n) && next == Front(t, n)
  {
    forall x | x in t0.paths
      ensures Hops(t0.paths[x]) <= d
    {
      assert Recorded(v, seeds, t0, d, x);
    }
    LevelNow(v, seeds, t0, frontier, fanout, t, next, d);
    FrontGrows(t0, t, next, d);
    assert forall k :: k in t0.relations ==> k in t.relations;
    forall e: nat | e < n
      ensures LevelHolds(v, t, fanout, e)
    {
      if e < d {
        LevelStays(v, t0, t, next, fanout, d, e);
      }
    }
    forall k | k in t.relations
      ensures NotedBelow(v, t, fanout, n, k)
    {
      if k in t0.relations {
        NotedStays(v, t0, t, next, fanout, d, k, n);
      } else {
        assert d < n && NotedAt(v, t, fanout, d, k);
      }
    }
  }

  lemma EmptyLevel(v: Snapshot, t: Trace, fanout: nat, d: nat)
    requires Front(t, d) == {} && Front(t, d + 1) == {}
    ensures LevelHolds(v, t, fanout, d)
  {
    forall r
      ensures !Leading(v, t, fanout, d, r)
    {
    }
  }

  lemma NotedDeeper(v: Snapshot, t: Trace, fanout: nat, d: nat, n: nat, k: Id)
    requires d <= n && NotedBelow(v, t, fanout, d, k)
    ensures NotedBelow(v, t, fanout, n, k)
  {
    var e: nat :| e < d && NotedAt(v, t, fanout, e, k);
  }

  /** Nothing happens on the levels behind an empty frontier. */
  lemma AllLevelsIdle(v: Snapshot, seeds: set<Id>, t: Trace, fanout: nat, d: nat, n: nat)
    requires d <= n && Sound(v, seeds, t, d) && Front(t, d) == {} && AllLevels(v, t, fanout, d)
    ensures AllLevels(v, t, fanout, n)
  {
    forall x | x in t.paths
      ensures Hops(t.paths[x]) < d
    {
      assert Recorded(v, seeds, t, d, x);
      assert x !in Front(t, d);
    }
    forall e: nat | e < n
      ensures LevelHolds(v, t, fanout, e)
    {
      if d <= e {
        assert Front(t, e) == {} && Front(t, e + 1) == {};
        EmptyLevel(v, t, fanout, e);
      }
    }
    forall k | k in t.relations
      ensures NotedBelow(v, t, fanout, n, k)
    {
      NotedDeeper(v, t, fanout, d, n, k);
    }
  }

  lemma LevelsStart(v: Snapshot, seeds: set<Id>, t: Trace, fanout: nat)
    requires t == Trace(map x | x in seeds :: [x], {})
    ensures AllLevels(v, t, fanout, 0) && Front(t, 0) == seeds
  {
    forall x
      ensures x in Front(t, 0) <==> x in seeds
    {
    }
  }

  /** The traversal of a depth and the depths below it, from the supported ones among the candidates. */
  method Traverse(v: Snapshot, candidates: set<Id>, maxDepth: int, fanout: int, seedLimit: int) returns (o: Outcome)
    requires Keyed(v.relations)
    ensures o.BadDepth? <==> maxDepth !in {1, 2}
    ensures o.Nothing? <==> maxDepth in {1, 2} && (fanout < 1 || seedLimit < 1)
    ensures o.Traced? ==>
              var seeds := candidates * v.entities;
              && Sound(v, seeds, o.trace, maxDepth)
              && Rooted(o.trace, seeds)
              && |o.trace.paths| <= |seeds| * (1 + fanout + fanout * fanout)
              && AllLevels(v, o.trace, fanout, maxDepth)
              && (Roomy(v, seeds, fanout, maxDepth) ==> Exact(v, seeds, o.trace, maxDepth))
  {
    if maxDepth !in {1, 2} {
      return BadDepth;
    }
    if fanout < 1 || seedLimit < 1 {
      return Nothing;
    }
    var t := Levels(v, candidates * v.entities, maxDepth, fanout);
    FinalBound(|candidates * v.entities|, |t.paths|, fanout, maxDepth);
    o := Traced(t);
  }

  /** The fan-out is no smaller than the number of relations that lie within sight. */
  ghost predicate Roomy(v: Snapshot, seeds: set<Id>, fanout: nat, depth: nat) {
    forall d: nat {:trigger Within(v, seeds, d)} :: d < depth ==> |Touching(v, Within(v, seeds, d))| <= fanout
  }

  /** What holds after `d` levels. */
  ghost predicate Progress(v: Snapshot, seeds: set<Id>, t: Trace, frontier: set<Id>, fanout: nat, d: nat, depth: nat) {
    && AllLevels(v, t, fanout, d) && frontier == Front(t, d)
    && Sound(v, seeds, t, d) && Fringe(t, frontier, d) && Rooted(t, seeds)
    && |frontier| <= LevelCap(|seeds|, fanout, d) && |t.paths| <= PathCap(|seeds|, fanout, d)
    && (Roomy(v, seeds, fanout, depth) ==> Exact(v, seeds, t, d) && Edge(v, seeds, frontier, d))
  }

  method Levels(v: Snapshot, seeds: set<Id>, maxDepth: nat, fanout: nat) returns (t: Trace)
    requires Keyed(v.relations) && fanout >= 1 && seeds <= v.entities
    ensures Sound(v, seeds, t, maxDepth) && Rooted(t, seeds) && |t.paths| <= PathCap(|seeds|, fanout, maxDepth)
    ensures AllLevels(v, t, fanout, maxDepth)
    ensures Roomy(v, seeds, fanout, maxDepth) ==> Exact(v, seeds, t, maxDepth)
  {
    t := Trace(map x | x in seeds :: [x], {});
    var frontier := seeds;
    StartsSound(v, seeds, t);
    LevelsStart(v, seeds, t, fanout);
    for d := 0 to maxDepth
      invariant Progress(v, seeds, t, frontier, fanout, d, maxDepth)
    {
      if frontier == {} {
        Idle(v, seeds, t, fanout, d, maxDepth);
        AllLevelsIdle(v, seeds, t, fanout, d, maxDepth);
        return;
      }
      var t1, next := Expand(v, seeds, d, frontier, fanout, t);
      Advance(v, seeds, t, frontier, fanout, t1, next, d, maxDepth);
      t, frontier := t1, next;
    }
  }

  lemma Advance(v: Snapshot, seeds: set<Id>, t0: Trace, frontier: set<Id>, fanout: nat, t: Trace, next: set<Id>,
                d: nat, depth: nat)
    requires Progress(v, seeds, t0, frontier, fanout, d, depth) && d < depth
    requires |Touching(v, frontier)| <= Times(|frontier|, fanout) ==> AllCovered(v, frontier, t)
    requires frontier != {} && Sound(v, seeds, t, d + 1) && Keyed(v.relations)
    requires Added(t0, t, next, d) && |next| <= Times(|frontier|, fanout)
    requires forall r :: r in Best(v, frontier, fanout) ==> Covered(v, r, t)
    requires Tracked(v, Best(v, frontier, fanout), frontier, t0, t, next)
    ensures Progress(v, seeds, t, next, fanout, d + 1, depth)
  {
    Scales(|frontier|, LevelCap(|seeds|, fanout, d), fanout);
    CountAdded(t0, t, next, d);
    StaysRooted(t0, t, next, d, seeds);
    StaysExact(v, seeds, t0, frontier, fanout, t, next, d, depth);
    AllLevelsNext(v, seeds, t0, frontier, fanout, t, next, d, d + 1);
  }

  /** A seed's own trail is the seed alone. */
  ghost predicate Rooted(t: Trace, seeds: set<Id>) {
    forall x :: x in seeds ==> x in t.paths && t.paths[x] == [x]
  }

  lemma StaysRooted(t0: Trace, t: Trace, next: set<Id>, d: nat, seeds: set<Id>)
    requires Rooted(t0, seeds) && Added(t0, t, next, d)
    ensures Rooted(t, seeds) && Fringe(t, next, d + 1)
  {
  }

  // ---------- Counting ----------

  /** How many entities the d-th level can add, from `s` seeds. */
  function LevelCap(s: nat, f: nat, d: nat): (n: nat)
    decreases d
  {
    if d == 0 then s else Times(LevelCap(s, f, d - 1), f)
  }

  function PathCap(s: nat, f: nat, d: nat): (n: nat)
    decreases d
  {
    if d == 0 then s else PathCap(s, f, d - 1) + LevelCap(s, f, d)
  }

  lemma Scales(a: nat, b: nat, f: nat)
    requires a <= b
    ensures Times(a, f) <= Times(b, f)
  {
  }

  lemma {:induction false} PathCapGrows(s: nat, f: nat, d: nat, e: nat)
    requires d <= e
    ensures PathCap(s, f, d) <= PathCap(s, f, e)
  {
    if d < e {
      PathCapGrows(s, f, d, e - 1);
    }
  }

  lemma FinalBound(s: nat, paths: nat, f: nat, d: nat)
    requires d in {1, 2} && paths <= PathCap(s, f, d)
    ensures paths <= s * (1 + f + f * f)
  {
    PathCapGrows(s, f, d, 2);
    assert LevelCap(s, f, 0) == s;
    assert LevelCap(s, f, 1) == Times(s, f);
    assert LevelCap(s, f, 2) == Times(Times(s, f), f);
    assert PathCap(s, f, 1) == s + LevelCap(s, f, 1);
    assert PathCap(s, f, 2) == PathCap(s, f, 1) + LevelCap(s, f, 2);
    assert s * (1 + f + f * f) == s + s * f + s * f * f;
  }

  lemma Enough(n: nat, frontier: set<Id>, f: nat)
    requires n <= f && frontier != {}
    ensures n <= Times(|frontier|, f)
  {
    assert |frontier| >= 1;
    Scales(1, |frontier|, f);
  }

  lemma CountAdded(t0: Trace, t: Trace, next: set<Id>, d: nat)
    requires Added(t0, t, next, d)
    ensures |t.paths| == |t0.paths| + |next|
  {
    forall x
      ensures x in t.paths.Keys <==> x in t0.paths.Keys || x in next
    {
    }
    assert t.paths.Keys == t0.paths.Keys + next;
    forall x
      ensures !(x in t0.paths.Keys && x in next)
    {
    }
  }

  // ---------- Completeness when the fan-out cuts nothing ----------

  ghost predicate AllCovered(v: Snapshot, frontier: set<Id>, t: Trace) {
    forall r :: r in v.relations && Touches(r, frontier, {}) ==> Covered(v, r, t)
  }

  /** Exactly what lies within `d` relations is recorded, each with a shortest trail. */
  ghost predicate Exact(v: Snapshot, seeds: set<Id>, t: Trace, d: nat) {
    && (forall x :: x in t.paths <==> x in Within(v, seeds, d))
    && (forall x {:trigger Shortest(v, seeds, t.paths[x], x)} :: x in t.paths ==> Shortest(v, seeds, t.paths[x], x))
  }

  /** Fewer relations do not lead to `x`. */
  ghost predicate Shortest(v: Snapshot, seeds: set<Id>, path: seq<Id>, x: Id) {
    Hops(path) > 0 ==> x !in Within(v, seeds, Hops(path) - 1)
  }

  /** The frontier holds whatever was not within fewer relations. */
  ghost predicate Edge(v: Snapshot, seeds: set<Id>, frontier: set<Id>, d: nat) {
    forall x :: x in Within(v, seeds, d) ==> x in frontier || (d > 0 && x in Within(v, seeds, d - 1))
  }

  lemma StartsSound(v: Snapshot, seeds: set<Id>, t: Trace)
    requires seeds <= v.entities && t == Trace(map x | x in seeds :: [x], {})
    ensures Sound(v, seeds, t, 0) && Fringe(t, seeds, 0) && |t.paths| == |seeds|
    ensures Exact(v, seeds, t, 0) && Edge(v, seeds, seeds, 0)
  {
    assert t.paths.Keys == seeds;
  }

  /** A neighbour of the frontier is recorded by now; a neighbour of what lay nearer was recorded before. */
  lemma NeighbourRecorded(v: Snapshot, here: set<Id>, nearer: set<Id>, frontier: set<Id>, t: Trace, x: Id)
    requires AllCovered(v, frontier, t) && x in Neighbours(v, here)
    requires forall y :: y in here ==> y in frontier || y in nearer
    requires forall y :: y in Neighbours(v, nearer) ==> y in t.paths
    ensures x in t.paths
  {
    var r, a :| r in v.relations && a in here && Joins(r, a, x);
    if a in frontier {
      assert Touches(r, frontier, {});
      assert Covered(v, r, t);
    } else {
      assert x in Neighbours(v, nearer);
    }
  }

  lemma ReachesAll(v: Snapshot, seeds: set<Id>, t0: Trace, frontier: set<Id>, t: Trace, next: set<Id>, d: nat, x: Id)
    requires Exact(v, seeds, t0, d) && Edge(v, seeds, frontier, d)
    requires Added(t0, t, next, d) && AllCovered(v, frontier, t) && x in Within(v, seeds, d + 1)
    ensures x in t.paths
  {
    var here := Within(v, seeds, d);
    if x !in here {
      var nearer := if d == 0 then {} else Within(v, seeds, d - 1);
      NeighbourRecorded(v, here, nearer, frontier, t, x);
    }
  }

  lemma NextWithin(v: Snapshot, seeds: set<Id>, t: Trace, d: nat, x: Id)
    requires Sound(v, seeds, t, d + 1) && x in t.paths && Hops(t.paths[x]) == d + 1
    ensures x in Within(v, seeds, d + 1)
  {
    assert Recorded(v, seeds, t, d + 1, x);
    TrailStaysWithin(v, seeds, t.paths[x]);
  }

  lemma WithinGrows(v: Snapshot, seeds: set<Id>, d: nat, x: Id)
    requires x in Within(v, seeds, d)
    ensures x in Within(v, seeds, d + 1)
  {
  }

  lemma StillShortest(v: Snapshot, seeds: set<Id>, t0: Trace, t: Trace, next: set<Id>, d: nat, x: Id)
    requires Exact(v, seeds, t0, d) && Added(t0, t, next, d) && x in t.paths
    ensures Shortest(v, seeds, t.paths[x], x)
  {
    if x in t0.paths {
      assert Shortest(v, seeds, t0.paths[x], x);
    }
  }

  lemma ExpandIsExact(v: Snapshot, seeds: set<Id>, t0: Trace, frontier: set<Id>, t: Trace, next: set<Id>, d: nat)
    requires Exact(v, seeds, t0, d) && Edge(v, seeds, frontier, d)
    requires Sound(v, seeds, t, d + 1) && Added(t0, t, next, d) && AllCovered(v, frontier, t)
    ensures Exact(v, seeds, t, d + 1) && Edge(v, seeds, next, d + 1)
  {
    forall x
      ensures x in t.paths <==> x in Within(v, seeds, d + 1)
    {
      if x in Within(v, seeds, d + 1) {
        ReachesAll(v, seeds, t0, frontier, t, next, d, x);
      } else if x in next {
        NextWithin(v, seeds, t, d, x);
      } else if x in t.paths {
        WithinGrows(v, seeds, d, x);
      }
    }
    forall x | x in t.paths
      ensures Shortest(v, seeds, t.paths[x], x)
    {
      StillShortest(v, seeds, t0, t, next, d, x);
    }
  }

  lemma StaysExact(v: Snapshot, seeds: set<Id>, t0: Trace, frontier: set<Id>, fanout: nat, t: Trace, next: set<Id>,
                   d: nat, depth: nat)
    requires Roomy(v, seeds, fanout, depth) ==> Exact(v, seeds, t0, d) && Edge(v, seeds, frontier, d)
    requires |Touching(v, frontier)| <= Times(|frontier|, fanout) ==> AllCovered(v, frontier, t)
    requires frontier != {} && Sound(v, seeds, t, d + 1) && Added(t0, t, next, d) && Fringe(t0, frontier, d) && d < depth
    ensures Roomy(v, seeds, fanout, depth) ==> Exact(v, seeds, t, d + 1) && Edge(v, seeds, next, d + 1)
  {
    if Roomy(v, seeds, fanout, depth) {
      Smaller(Touching(v, frontier), Touching(v, Within(v, seeds, d)));
      Enough(|Touching(v, frontier)|, frontier, fanout);
      ExpandIsExact(v, seeds, t0, frontier, t, next, d);
    }
  }

  /** Once the frontier is empty nothing more is within reach. */
  lemma {:induction false} Idle(v: Snapshot, seeds: set<Id>, t: Trace, f: nat, d: nat, e: nat)
    requires d <= e && f >= 1 && Sound(v, seeds, t, d) && |t.paths| <= PathCap(|seeds|, f, d)
    ensures Sound(v, seeds, t, e) && |t.paths| <= PathCap(|seeds|, f, e)
    ensures Exact(v, seeds, t, d) && Edge(v, seeds, {}, d) ==> Exact(v, seeds, t, e)
    decreases e - d
  {
    if d < e {
      SoundDeeper(v, seeds, t, d);
      PathCapGrows(|seeds|, f, d, d + 1);
      if Exact(v, seeds, t, d) && Edge(v, seeds, {}, d) {
        assert Neighbours(v, Within(v, seeds, d)) <= Within(v, seeds, d) by {
          forall x | x in Neighbours(v, Within(v, seeds, d))
            ensures x in Within(v, seeds, d)
          {
            var r, a :| r in v.relations && a in Within(v, seeds, d) && Joins(r, a, x);
            assert x in Neighbours(v, Within(v, seeds, d - 1));
          }
        }
      }
      Idle(v, seeds, t, f, d + 1, e);
    }
  }

  lemma SoundDeeper(v: Snapshot, seeds: set<Id>, t: Trace, d: nat)
    requires Sound(v, seeds, t, d)
    ensures Sound(v, seeds, t, d + 1)
  {
    forall x | x in t.paths
      ensures Recorded(v, seeds, t, d + 1, x)
    {
      assert Recorded(v, seeds, t, d, x);
    }
  }

  // ---------- The levels determine everything ----------

  /** Both traces have the same trails of up to `d` relations. */
  ghost predicate SameUpTo(t: Trace, t': Trace, d: nat) {
    forall x :: (x in t.paths && Hops(t.paths[x]) <= d <==> x in t'.paths && Hops(t'.paths[x]) <= d)
             && (x in t.paths && Hops(t.paths[x]) <= d ==> t'.paths[x] == t.paths[x])
  }

  lemma SameFront(t: Trace, t': Trace, d: nat, e: nat)
    requires SameUpTo(t, t', d) && e <= d
    ensures Front(t, e) == Front(t', e)
  {
    forall x
      ensures x in Front(t, e) <==> x in Front(t', e)
    {
    }
  }

  /** A trail of the next level is a trail of the other trace, too. */
  lemma NextTrailSame(v: Snapshot, seeds: set<Id>, t: Trace, t': Trace, fanout: nat, d: nat, depth: nat, x: Id)
    requires Sound(v, seeds, t, depth) && SameUpTo(t, t', d) && d < depth
    requires LevelHolds(v, t, fanout, d) && LevelHolds(v, t', fanout, d)
    requires x in t.paths && Hops(t.paths[x]) == d + 1
    ensures x in t'.paths && t'.paths[x] == t.paths[x]
  {
    SameFront(t, t', d, d);
    assert Recorded(v, seeds, t, depth, x);
    assert x in Front(t, d + 1) && GrownBest(v, t, fanout, d, x);
    var r, m :| BestInto(v, t, fanout, d, x, r, m);
    LeadingStays(v, t, t', fanout, d, r);
    assert Taken(v, t', d, r);
    assert x in Front(t', d + 1) && GrownBest(v, t', fanout, d, x);
    var r', m' :| BestInto(v, t', fanout, d, x, r', m');
    LeadingStays(v, t, t', fanout, d, r');
    OneBest(v, t, t', fanout, d, x, r, m, r', m');
  }

  lemma OneBest(v: Snapshot, t: Trace, t': Trace, fanout: nat, d: nat, x: Id, r: Relation, m: Id, r': Relation, m': Id)
    requires BestInto(v, t, fanout, d, x, r, m) && BestInto(v, t', fanout, d, x, r', m')
    requires Leading(v, t', fanout, d, r) && Leading(v, t, fanout, d, r')
    requires SameUpTo(t, t', d) && m in Front(t', d) && x !in Front(t, d) && m' in Front(t, d)
    ensures t'.paths[x] == t.paths[x]
  {
    assert r == r' && m == m';
  }

  lemma {:induction false} SameTrails(v: Snapshot, seeds: set<Id>, t: Trace, t': Trace, fanout: nat, d: nat, depth: nat)
    requires Sound(v, seeds, t, depth) && Sound(v, seeds, t', depth) && Rooted(t, seeds) && Rooted(t', seeds)
    requires AllLevels(v, t, fanout, depth) && AllLevels(v, t', fanout, depth) && d <= depth
    ensures SameUpTo(t, t', d)
  {
    if d == 0 {
      SeedTrails(v, seeds, t, depth);
      SeedTrails(v, seeds, t', depth);
    } else {
      SameTrails(v, seeds, t, t', fanout, d - 1, depth);
      assert LevelHolds(v, t, fanout, d - 1) && LevelHolds(v, t', fanout, d - 1);
      forall x
        ensures (x in t.paths && Hops(t.paths[x]) == d ==> x in t'.paths && t'.paths[x] == t.paths[x])
        ensures (x in t'.paths && Hops(t'.paths[x]) == d ==> x in t.paths && t.paths[x] == t'.paths[x])
      {
        if x in t.paths && Hops(t.paths[x]) == d {
          NextTrailSame(v, seeds, t, t', fanout, d - 1, depth, x);
        }
        if x in t'.paths && Hops(t'.paths[x]) == d {
          NextTrailSame(v, seeds, t', t, fanout, d - 1, depth, x);
        }
      }
    }
  }

  lemma SeedTrails(v: Snapshot, seeds: set<Id>, t: Trace, depth: nat)
    requires Sound(v, seeds, t, depth) && Rooted(t, seeds)
    ensures forall x :: x in t.paths && Hops(t.paths[x]) <= 0 <==> x in seeds
  {
    forall x | x in t.paths && Hops(t.paths[x]) == 0
      ensures x in seeds
    {
      assert Recorded(v, seeds, t, depth, x);
    }
  }

  /** There is only one trace whose levels each take the best relations of their entities: the fan-out, the ranking and
      the snapshot leave nothing open. */
  lemma TraceIsUnique(v: Snapshot, seeds: set<Id>, t: Trace, t': Trace, fanout: nat, depth: nat)
    requires Sound(v, seeds, t, depth) && Sound(v, seeds, t', depth) && Rooted(t, seeds) && Rooted(t', seeds)
    requires AllLevels(v, t, fanout, depth) && AllLevels(v, t', fanout, depth)
    ensures t == t'
  {
    SameTrails(v, seeds, t, t', fanout, depth, depth);
    forall x
      ensures x in t.paths <==> x in t'.paths
      ensures x in t.paths ==> t'.paths[x] == t.paths[x]
    {
      assert x in t.paths ==> Recorded(v, seeds, t, depth, x);
      assert x in t'.paths ==> Recorded(v, seeds, t', depth, x);
    }
    assert t.paths == t'.paths;
    SameRelations(v, t, t', fanout, depth);
    SameRelations(v, t', t, fanout, depth);
  }

  lemma SameRelations(v: Snapshot, t: Trace, t': Trace, fanout: nat, depth: nat)
    requires t.paths == t'.paths && AllLevels(v, t, fanout, depth) && AllLevels(v, t', fanout, depth)
    ensures t.relations <= t'.relations
  {
    forall k | k in t.relations
      ensures k in t'.relations
    {
      assert NotedBelow(v, t, fanout, depth, k);
      var d: nat :| d < depth && NotedAt(v, t, fanout, d, k);
      var r :| Leading(v, t, fanout, d, r) && r.id == k && r.source in v.entities && r.target in v.entities;
      assert Front(t, d) == Front(t', d);
      LeadingStays(v, t, t', fanout, d, r);
      assert LevelHolds(v, t', fanout, d) && Taken(v, t', d, r);
    }
  }
}
