/** The three-level community hierarchy of apps/api/app/graph/analytics.py.  Clustering itself is left
    open: it may be any function that splits a graph's nodes into groups. */
module Analytics {
  import opened Wrappers
  import opened Helpers

  datatype Relation = Relation(source: int, target: int, confidence: real)

  /** An undirected edge. */
  datatype Edge = Edge(u: int, v: int, w: real)

  datatype Graph = Graph(nodes: seq<int>, edges: seq<Edge>)

  type Group = set<int>

  // ---------- Building graphs ----------

  predicate Same(e: Edge, s: int, t: int) {
    (e.u == s && e.v == t) || (e.u == t && e.v == s)
  }

  function WithNode(nodes: seq<int>, x: int): seq<int> {
    if x in nodes then nodes else nodes + [x]
  }

  /** Parallel edges are one edge with the sum of their weights. */
  function WithEdge(edges: seq<Edge>, s: int, t: int, w: real): seq<Edge> {
    if edges == [] then [Edge(s, t, w)]
    else if Same(edges[0], s, t) then [edges[0].(w := edges[0].w + w)] + edges[1..]
    else [edges[0]] + WithEdge(edges[1..], s, t, w)
  }

  function AddEdge(g: Graph, s: int, t: int, w: real): Graph {
    Graph(WithNode(WithNode(g.nodes, s), t), WithEdge(g.edges, s, t, w))
  }

  function AddNodes(nodes: seq<int>): seq<int> {
    if nodes == [] then [] else WithNode(AddNodes(nodes[..|nodes| - 1]), nodes[|nodes| - 1])
  }

  function Build(entities: seq<int>, relations: seq<Relation>): Graph {
    if relations == [] then Graph(AddNodes(entities), [])
    else
      var r := relations[|relations| - 1];
      AddEdge(Build(entities, relations[..|relations| - 1]), r.source, r.target, r.confidence)
  }

  /** At most one edge between two nodes. */
  ghost predicate Simple(edges: seq<Edge>) {
    edges == [] || ((forall e :: e in edges[1..] ==> !Same(e, edges[0].u, edges[0].v)) && Simple(edges[1..]))
  }

  ghost predicate Distinct(nodes: seq<int>) {
    nodes == [] || (nodes[0] !in nodes[1..] && Distinct(nodes[1..]))
  }

  ghost predicate Sound(e: Edge, nodes: seq<int>) {
    e.u in nodes && e.v in nodes && e.w >= 0.0
  }

  ghost predicate WellFormed(g: Graph) {
    && Distinct(g.nodes) && Simple(g.edges)
    && forall e :: e in g.edges ==> Sound(e, g.nodes)
  }

  function Total(edges: seq<Edge>): real {
    if edges == [] then 0.0 else edges[0].w + Total(edges[1..])
  }

  // ---------- Partitions ----------

  ghost predicate Within(group: Group, nodes: seq<int>) {
    group != {} && forall x :: x in group ==> x in nodes
  }

  ghost predicate Partition(groups: seq<Group>, nodes: seq<int>) {
    && (forall i :: 0 <= i < |groups| ==> Within(groups[i], nodes))
    && (forall x :: x in nodes ==> Covered(groups, x))
    && Disjoint(groups)
  }

  ghost predicate Covered(groups: seq<Group>, x: int) {
    exists i :: 0 <= i < |groups| && x in groups[i]
  }

  ghost predicate Apart(a: Group, b: Group) {
    forall x :: x in a ==> x !in b
  }

  ghost predicate Disjoint(groups: seq<Group>) {
    forall i, j {:trigger Apart(groups[i], groups[j])} :: 0 <= i < j < |groups| ==> Apart(groups[i], groups[j])
  }

  /** A clustering splits the nodes of every non-empty simple graph into groups. */
  ghost predicate Clusters(cluster: (Graph, real) -> seq<Group>) {
    forall g: Graph, r: real {:trigger cluster(g, r)} :: g.nodes != [] && WellFormed(g) ==> Partition(cluster(g, r), g.nodes)
  }

  // ---------- The hierarchy ----------

  /** The position of the group that holds an entity. */
  function Home(groups: seq<Group>, x: int): (i: int)
    ensures 0 <= i <= |groups| && (i < |groups| ==> x in groups[i])
    ensures forall j :: 0 <= j < i ==> x !in groups[j]
  {
    if groups == [] then 0
    else if x in groups[0] then 0
    else
      var i := Home(groups[1..], x);
      assert forall j :: 0 < j < i + 1 ==> groups[j] == groups[1..][j - 1];
      i + 1
  }

  function Range(n: nat): (s: seq<int>)
    ensures |s| == n && forall i :: 0 <= i < n ==> s[i] == i
  {
    seq(n, i => i)
  }

  function QuotientEdges(children: seq<Group>, edges: seq<Edge>): seq<Edge> {
    if edges == [] then []
    else
      var n := |edges| - 1;
      var left, right := Home(children, edges[n].u), Home(children, edges[n].v);
      var before := QuotientEdges(children, edges[..n]);
      if left == right then before else WithEdge(before, left, right, edges[n].w)
  }

  /** One node for every child community, and the edges between them. */
  function Quotient(children: seq<Group>, edges: seq<Edge>): Graph {
    Graph(Range(|children|), QuotientEdges(children, edges))
  }

  function Union(children: seq<Group>, indexes: Group): Group {
    set i, x | i in indexes && 0 <= i < |children| && x in children[i] :: x
  }

  function Parents(children: seq<Group>, groups: seq<Group>): (parents: seq<Group>)
    ensures |parents| == |groups| && forall k :: 0 <= k < |groups| ==> parents[k] == Union(children, groups[k])
  {
    seq(|groups|, k requires 0 <= k < |groups| => Union(children, groups[k]))
  }

  ghost predicate Inside(group: Group, broad: seq<Group>) {
    exists j :: 0 <= j < |broad| && group <= broad[j]
  }

  /** Every finer group lies within one broader group. */
  ghost predicate Refines(fine: seq<Group>, broad: seq<Group>) {
    forall i :: 0 <= i < |fine| ==> Inside(fine[i], broad)
  }

  method BuildGraph(entities: seq<int>, relations: seq<Relation>) returns (g: Graph)
    ensures g == Build(entities, relations)
  {
    g := Graph(AddNodes(entities), []);
    for i := 0 to |relations|
      invariant g == Build(entities, relations[..i])
    {
      assert relations[..i + 1][..i] == relations[..i];
      g := AddEdge(g, relations[i].source, relations[i].target, relations[i].confidence);
    }
    assert relations[..|relations|] == relations;
  }

  method BuildQuotient(children: seq<Group>, edges: seq<Edge>) returns (q: Graph)
    ensures q == Quotient(children, edges)
  {
    var merged := [];
    for i := 0 to |edges|
      invariant merged == QuotientEdges(children, edges[..i])
    {
      assert edges[..i + 1][..i] == edges[..i];
      var left, right := Home(children, edges[i].u), Home(children, edges[i].v);
      if left != right {
        merged := WithEdge(merged, left, right, edges[i].w);
      }
    }
    assert edges[..|edges|] == edges;
    q := Graph(Range(|children|), merged);
  }

  lemma SameHome(groups: seq<Group>, i: int, j: int, x: int)
    requires Disjoint(groups) && 0 <= i < |groups| && 0 <= j < |groups| && x in groups[i] && x in groups[j]
    ensures i == j
  {
    assert i < j ==> Apart(groups[i], groups[j]);
    assert j < i ==> Apart(groups[j], groups[i]);
  }

  lemma ParentsDisjoint(children: seq<Group>, groups: seq<Group>)
    requires Disjoint(children) && Disjoint(groups)
    ensures Disjoint(Parents(children, groups))
  {
    var parents := Parents(children, groups);
    forall a, b | 0 <= a < b < |parents|
      ensures Apart(parents[a], parents[b])
    {
      assert Apart(groups[a], groups[b]);
      forall x | x in parents[a]
        ensures x !in parents[b]
      {
        var i :| i in groups[a] && 0 <= i < |children| && x in children[i];
        forall j | j in groups[b] && 0 <= j < |children|
          ensures x !in children[j]
        {
          assert i != j;
          assert i < j ==> Apart(children[i], children[j]);
          assert j < i ==> Apart(children[j], children[i]);
        }
      }
    }
  }

  lemma ParentWithin(children: seq<Group>, nodes: seq<int>, group: Group)
    requires Partition(children, nodes) && Within(group, Range(|children|))
    ensures Within(Union(children, group), nodes)
  {
    var parent := Union(children, group);
    var i := Member(group);
    assert Within(children[i], nodes);
    var x := Member(children[i]);
    assert x in parent;
    forall y | y in parent
      ensures y in nodes
    {
      var c :| c in group && 0 <= c < |children| && y in children[c];
      assert Within(children[c], nodes);
    }
  }

  lemma ChildrenNest(children: seq<Group>, nodes: seq<int>, groups: seq<Group>)
    requires Partition(children, nodes) && Partition(groups, Range(|children|))
    ensures Refines(children, Parents(children, groups))
  {
    var parents := Parents(children, groups);
    forall i | 0 <= i < |children|
      ensures Inside(children[i], parents)
    {
      assert Range(|children|)[i] == i;
      assert Covered(groups, i);
      var j :| 0 <= j < |groups| && i in groups[j];
      assert children[i] <= parents[j] by {
        forall x | x in children[i]
          ensures x in parents[j]
        {
        }
      }
    }
  }

  lemma ParentsCover(children: seq<Group>, parents: seq<Group>, x: int)
    requires Refines(children, parents) && Covered(children, x)
    ensures Covered(parents, x)
  {
    var i :| 0 <= i < |children| && x in children[i];
    var j :| 0 <= j < |parents| && children[i] <= parents[j];
    assert x in parents[j];
  }

  /** The next level partitions the entities again, and each community lies within one of its parents. */
  lemma NextLevel(children: seq<Group>, nodes: seq<int>, groups: seq<Group>)
    requires Partition(children, nodes) && Partition(groups, Range(|children|))
    ensures Partition(Parents(children, groups), nodes) && Refines(children, Parents(children, groups))
  {
    var parents := Parents(children, groups);
    forall k | 0 <= k < |parents|
      ensures Within(parents[k], nodes)
    {
      assert Within(groups[k], Range(|children|));
      ParentWithin(children, nodes, groups[k]);
    }
    ChildrenNest(children, nodes, groups);
    forall x | x in nodes
      ensures Covered(parents, x)
    {
      ParentsCover(children, parents, x);
    }
    ParentsDisjoint(children, groups);
  }

  // ---------- Edge counts and weights ----------

  function Bit(b: bool): int {
    if b then 1 else 0
  }

  function Part(b: bool, w: real): real {
    if b then w else 0.0
  }

  function Internal(group: Group, edges: seq<Edge>): int {
    if edges == [] then 0
    else Bit(edges[0].u in group && edges[0].v in group) + Internal(group, edges[1..])
  }

  function External(group: Group, edges: seq<Edge>): int {
    if edges == [] then 0
    else Bit((edges[0].u in group) != (edges[0].v in group)) + External(group, edges[1..])
  }

  /** The weight of the edges with an end in the group. */
  function Touched(group: Group, edges: seq<Edge>): real {
    if edges == [] then 0.0
    else Part(edges[0].u in group || edges[0].v in group, edges[0].w) + Touched(group, edges[1..])
  }

  function Density(group: Group, edges: seq<Edge>): real {
    if |group| < 2 then 0.0
    else (2 * Internal(group, edges)) as real / (|group| * (|group| - 1)) as real
  }

  function Importance(group: Group, edges: seq<Edge>): real {
    if Total(edges) == 0.0 then 0.0 else Touched(group, edges) / (2.0 * Total(edges))
  }

  function WeightedDegree(x: int, edges: seq<Edge>): real {
    if edges == [] then 0.0
    else Part(edges[0].u == x, edges[0].w) + Part(edges[0].v == x, edges[0].w) + WeightedDegree(x, edges[1..])
  }

  function SumDegrees(nodes: seq<int>, edges: seq<Edge>): real {
    if nodes == [] then 0.0 else WeightedDegree(nodes[0], edges) + SumDegrees(nodes[1..], edges)
  }

  function EntityImportance(g: Graph, x: int): real
    requires g.nodes != []
  {
    var total := SumDegrees(g.nodes, g.edges);
    if total != 0.0 then WeightedDegree(x, g.edges) / total else 1.0 / |g.nodes| as real
  }

  /** How many groups hold an entity. */
  function Hits(groups: seq<Group>, x: int): int {
    if groups == [] then 0 else Bit(x in groups[0]) + Hits(groups[1..], x)
  }

  /** The weight an edge adds to all groups together. */
  function HitWeight(groups: seq<Group>, e: Edge): real {
    if groups == [] then 0.0 else Part(e.u in groups[0] || e.v in groups[0], e.w) + HitWeight(groups[1..], e)
  }

  ghost predicate Together(groups: seq<Group>, x: int, y: int) {
    exists i :: 0 <= i < |groups| && x in groups[i] && y in groups[i]
  }

  lemma {:induction false} HitOnce(groups: seq<Group>, x: int)
    requires Disjoint(groups)
    ensures Hits(groups, x) == Bit(Covered(groups, x))
  {
    if groups != [] {
      HitOnce(groups[1..], x);
      if x in groups[0] && Covered(groups[1..], x) {
        var j :| 0 <= j < |groups[1..]| && x in groups[1..][j];
        SameHome(groups, 0, j + 1, x);
      }
    }
  }

  /** An edge weighs once when its ends share a group, twice when they do not. */
  lemma {:induction false} HitWeightIs(groups: seq<Group>, e: Edge)
    requires Disjoint(groups)
    ensures HitWeight(groups, e) == Part(Covered(groups, e.u), e.w) + Part(Covered(groups, e.v), e.w)
                                    - Part(Together(groups, e.u, e.v), e.w)
  {
    if groups != [] {
      HitWeightIs(groups[1..], e);
      HeadOnly(groups, e.u);
      HeadOnly(groups, e.v);
      if Together(groups[1..], e.u, e.v) {
        assert Covered(groups[1..], e.u) && Covered(groups[1..], e.v);
      }
    }
  }

  lemma HeadOnly(groups: seq<Group>, x: int)
    requires Disjoint(groups) && groups != []
    ensures x in groups[0] ==> !Covered(groups[1..], x)
  {
    forall j | 0 <= j < |groups| - 1 && x in groups[0]
      ensures x !in groups[1..][j]
    {
      assert Apart(groups[0], groups[j + 1]);
    }
  }

  // ---------- Conservation ----------

  /** Twice the internal edges plus the external edges, over all groups. */
  function EdgeLedger(groups: seq<Group>, edges: seq<Edge>): int {
    if groups == [] then 0
    else 2 * Internal(groups[0], edges) + External(groups[0], edges) + EdgeLedger(groups[1..], edges)
  }

  lemma {:induction false} LedgerGrows(groups: seq<Group>, edges: seq<Edge>)
    requires edges != []
    ensures EdgeLedger(groups, edges)
         == EdgeLedger(groups, edges[1..]) + Hits(groups, edges[0].u) + Hits(groups, edges[0].v)
  {
    if groups != [] {
      LedgerGrows(groups[1..], edges);
    }
  }

  lemma {:induction false} NoEdgesNoLedger(groups: seq<Group>)
    ensures EdgeLedger(groups, []) == 0 && TouchedByAll(groups, []) == 0.0
  {
    if groups != [] {
      NoEdgesNoLedger(groups[1..]);
    }
  }

  /** Internal edges plus half the external edges of all communities are the edges of the graph. */
  lemma {:induction false} EdgesAreConserved(groups: seq<Group>, nodes: seq<int>, edges: seq<Edge>)
    requires Partition(groups, nodes) && forall e :: e in edges ==> Sound(e, nodes)
    ensures EdgeLedger(groups, edges) == 2 * |edges|
  {
    if edges == [] {
      NoEdgesNoLedger(groups);
    } else {
      EdgesAreConserved(groups, nodes, edges[1..]);
      LedgerGrows(groups, edges);
      assert edges[0] in edges;
      HitOnce(groups, edges[0].u);
      HitOnce(groups, edges[0].v);
    }
  }

  function TouchedByAll(groups: seq<Group>, edges: seq<Edge>): real {
    if groups == [] then 0.0 else Touched(groups[0], edges) + TouchedByAll(groups[1..], edges)
  }

  /** The weight of the edges between different groups. */
  ghost function CrossWeight(groups: seq<Group>, edges: seq<Edge>): real {
    if edges == [] then 0.0
    else Part(!Together(groups, edges[0].u, edges[0].v), edges[0].w) + CrossWeight(groups, edges[1..])
  }

  lemma {:induction false} TouchedGrows(groups: seq<Group>, edges: seq<Edge>)
    requires edges != []
    ensures TouchedByAll(groups, edges) == TouchedByAll(groups, edges[1..]) + HitWeight(groups, edges[0])
  {
    if groups != [] {
      TouchedGrows(groups[1..], edges);
    }
  }

  lemma {:induction false} TouchedIsTotalPlusCross(groups: seq<Group>, nodes: seq<int>, edges: seq<Edge>)
    requires Partition(groups, nodes) && forall e :: e in edges ==> Sound(e, nodes)
    ensures TouchedByAll(groups, edges) == Total(edges) + CrossWeight(groups, edges)
  {
    if edges == [] {
      NoEdgesNoLedger(groups);
    } else {
      TouchedIsTotalPlusCross(groups, nodes, edges[1..]);
      TouchedGrows(groups, edges);
      assert edges[0] in edges;
      HitWeightIs(groups, edges[0]);
    }
  }

  lemma {:induction false} CrossNarrows(fine: seq<Group>, broad: seq<Group>, edges: seq<Edge>)
    requires Refines(fine, broad) && forall e :: e in edges ==> e.w >= 0.0
    ensures 0.0 <= CrossWeight(broad, edges) <= CrossWeight(fine, edges) <= Total(edges)
  {
    if edges != [] {
      CrossNarrows(fine, broad, edges[1..]);
      assert edges[0] in edges;
      if Together(fine, edges[0].u, edges[0].v) {
        var i :| 0 <= i < |fine| && edges[0].u in fine[i] && edges[0].v in fine[i];
        var j :| 0 <= j < |broad| && fine[i] <= broad[j];
        assert edges[0].u in broad[j] && edges[0].v in broad[j];
      }
    }
  }

  function SumImportance(groups: seq<Group>, edges: seq<Edge>): real {
    if groups == [] then 0.0 else Importance(groups[0], edges) + SumImportance(groups[1..], edges)
  }

  lemma {:induction false} SumImportanceIs(groups: seq<Group>, edges: seq<Edge>)
    requires Total(edges) != 0.0
    ensures SumImportance(groups, edges) == TouchedByAll(groups, edges) / (2.0 * Total(edges))
  {
    if groups != [] {
      SumImportanceIs(groups[1..], edges);
      AddShares(Touched(groups[0], edges), TouchedByAll(groups[1..], edges), 2.0 * Total(edges));
    }
  }

  lemma SharesInOrder(t: real, broad: real, fine: real)
    requires t > 0.0 && 0.0 <= broad <= fine <= t
    ensures 0.5 <= LevelShare(t, broad) <= LevelShare(t, fine) <= 1.0
  {
    var d := 2.0 * t;
    DivideOrder(t, t + broad, d);
    DivideOrder(t + broad, t + fine, d);
    DivideOrder(t + fine, d, d);
    ShareIs(0.5, t, d);
    ShareIs(1.0, d, d);
  }

  lemma ShareIs(q: real, a: real, d: real)
    requires d > 0.0 && q * d == a
    ensures a / d == q
  {
    assert (a / d - q) * d == 0.0;
  }

  lemma CommunityShares(groups: seq<Group>, g: Graph)
    requires WellFormed(g) && Total(g.edges) != 0.0 && Partition(groups, g.nodes)
    ensures SumImportance(groups, g.edges) == LevelShare(Total(g.edges), CrossWeight(groups, g.edges))
  {
    TouchedIsTotalPlusCross(groups, g.nodes, g.edges);
    SumImportanceIs(groups, g.edges);
  }

  lemma CrossBounds(fine: seq<Group>, broad: seq<Group>, g: Graph)
    requires WellFormed(g) && Refines(fine, broad)
    ensures 0.0 <= CrossWeight(broad, g.edges) <= CrossWeight(fine, g.edges) <= Total(g.edges)
  {
    forall e | e in g.edges
      ensures e.w >= 0.0
    {
      assert Sound(e, g.nodes);
    }
    CrossNarrows(fine, broad, g.edges);
  }

  /** The importance of a level with so much weight between its communities. */
  function LevelShare(total: real, cross: real): real
    requires total != 0.0
  {
    (total + cross) / (2.0 * total)
  }

  /** Communities share between half and all of the importance, and broader levels never share more. */
  lemma ImportanceFallsWithBreadth(fine: seq<Group>, broad: seq<Group>, g: Graph)
    requires WellFormed(g) && Total(g.edges) != 0.0
    requires Partition(fine, g.nodes) && Partition(broad, g.nodes) && Refines(fine, broad)
    ensures SumImportance(fine, g.edges) == LevelShare(Total(g.edges), CrossWeight(fine, g.edges))
    ensures 0.5 <= SumImportance(broad, g.edges) <= SumImportance(fine, g.edges) <= 1.0
  {
    CommunityShares(fine, g);
    CommunityShares(broad, g);
    CrossBounds(fine, broad, g);
    SharesInOrder(Total(g.edges), CrossWeight(broad, g.edges), CrossWeight(fine, g.edges));
  }

  // ---------- Density ----------

  /** The edges from one node into a group. */
  function Spokes(x: int, group: Group, edges: seq<Edge>): int {
    if edges == [] then 0
    else Bit((edges[0].u == x && edges[0].v in group) || (edges[0].v == x && edges[0].u in group))
         + Spokes(x, group, edges[1..])
  }

  lemma {:induction false} SpokesAvoid(x: int, y: int, group: Group, edges: seq<Edge>)
    requires forall e :: e in edges ==> !Same(e, x, y)
    ensures Spokes(x, group, edges) == Spokes(x, group - {y}, edges)
  {
    if edges != [] {
      assert edges[0] in edges;
      SpokesAvoid(x, y, group, edges[1..]);
    }
  }

  /** A simple graph has one edge at most from a node to each other node. */
  lemma {:induction false} FewSpokes(x: int, group: Group, edges: seq<Edge>)
    requires Simple(edges)
    ensures Spokes(x, group, edges) <= |group|
  {
    if edges != [] {
      var e := edges[0];
      if (e.u == x && e.v in group) || (e.v == x && e.u in group) {
        var y := if e.u == x && e.v in group then e.v else e.u;
        SpokesAvoid(x, y, group, edges[1..]);
        FewSpokes(x, group - {y}, edges[1..]);
      } else {
        FewSpokes(x, group, edges[1..]);
      }
    }
  }

  ghost predicate Loopless(edges: seq<Edge>) {
    forall e :: e in edges ==> e.u != e.v
  }

  lemma {:induction false} InternalPeels(x: int, group: Group, edges: seq<Edge>)
    requires x in group && Loopless(edges)
    ensures Internal(group, edges) == Internal(group - {x}, edges) + Spokes(x, group - {x}, edges)
  {
    if edges != [] {
      assert edges[0] in edges;
      assert Loopless(edges[1..]) by {
        assert forall e :: e in edges[1..] ==> e in edges;
      }
      InternalPeels(x, group, edges[1..]);
    }
  }

  lemma {:induction false} FewInternal(group: Group, edges: seq<Edge>)
    requires Simple(edges) && Loopless(edges)
    ensures 2 * Internal(group, edges) <= |group| * (|group| - 1)
    decreases |group|
  {
    if group == {} {
      NoneInternal(edges);
    } else {
      var x := Member(group);
      InternalPeels(x, group, edges);
      FewInternal(group - {x}, edges);
      FewSpokes(x, group - {x}, edges);
      var n := |group|;
      assert |group - {x}| == n - 1;
      assert n * (n - 1) == (n - 1) * (n - 2) + 2 * (n - 1);
    }
  }

  lemma {:induction false} NoneInternal(edges: seq<Edge>)
    ensures Internal({}, edges) == 0
  {
    if edges != [] {
      NoneInternal(edges[1..]);
    }
  }

  lemma {:induction false} InternalIsCount(group: Group, edges: seq<Edge>)
    ensures 0 <= Internal(group, edges) <= |edges|
  {
    if edges != [] {
      InternalIsCount(group, edges[1..]);
    }
  }

  /** Without self-loops a community is at most complete. */
  lemma DensityAtMostOne(group: Group, edges: seq<Edge>)
    requires Simple(edges) && Loopless(edges)
    ensures 0.0 <= Density(group, edges) <= 1.0
  {
    FewInternal(group, edges);
    InternalIsCount(group, edges);
    if |group| >= 2 {
      var d := |group| * (|group| - 1);
      assert d > 0;
      DivideOrder(0.0, (2 * Internal(group, edges)) as real, d as real);
      DivideOrder((2 * Internal(group, edges)) as real, d as real, d as real);
    }
  }

  predicate Loop(e: Edge) {
    e.u == e.v
  }

  predicate Meets(e: Edge, x: int) {
    e.u == x || e.v == x
  }

  /** At most one self-loop, on an entity without other edges. */
  ghost predicate LoopsStandAlone(edges: seq<Edge>) {
    forall i, j :: 0 <= i < |edges| && 0 <= j < |edges| && i != j && Loop(edges[i]) ==>
      !Loop(edges[j]) && !Meets(edges[j], edges[i].u)
  }

  function WithoutLoops(edges: seq<Edge>): seq<Edge> {
    if edges == [] then []
    else (if Loop(edges[0]) then [] else [edges[0]]) + WithoutLoops(edges[1..])
  }

  /** The self-loops inside a group. */
  function LoopsIn(group: Group, edges: seq<Edge>): int {
    if edges == [] then 0 else Bit(Loop(edges[0]) && edges[0].u in group) + LoopsIn(group, edges[1..])
  }

  lemma {:induction false} LoopsApart(group: Group, edges: seq<Edge>)
    requires Simple(edges)
    ensures Internal(group, edges) == Internal(group, WithoutLoops(edges)) + LoopsIn(group, edges)
    ensures Simple(WithoutLoops(edges)) && Loopless(WithoutLoops(edges))
    ensures forall e :: e in WithoutLoops(edges) ==> e in edges
  {
    if edges != [] {
      LoopsApart(group, edges[1..]);
      var rest := WithoutLoops(edges[1..]);
      assert forall e :: e in edges[1..] ==> e in edges;
      if !Loop(edges[0]) {
        assert WithoutLoops(edges) == [edges[0]] + rest && ([edges[0]] + rest)[1..] == rest;
      } else {
        assert WithoutLoops(edges) == rest;
      }
    }
  }

  lemma {:induction false} NoLoopsIn(group: Group, edges: seq<Edge>)
    requires forall e :: e in edges ==> !Loop(e) || e.u !in group
    ensures LoopsIn(group, edges) == 0
  {
    if edges != [] {
      assert edges[0] in edges;
      NoLoopsIn(group, edges[1..]);
    }
  }

  lemma {:induction false} LoneLoop(group: Group, edges: seq<Edge>) returns (i: nat)
    requires LoopsStandAlone(edges) && LoopsIn(group, edges) != 0
    ensures LoopsIn(group, edges) == 1 && i < |edges| && Loop(edges[i]) && edges[i].u in group
  {
    var rest := edges[1..];
    if Loop(edges[0]) && edges[0].u in group {
      i := 0;
      forall e | e in rest
        ensures !Loop(e)
      {
        var j :| 0 <= j < |rest| && rest[j] == e;
        assert edges[j + 1] == e;
      }
      NoLoopsIn(group, rest);
    } else {
      var k := LoneLoop(group, rest);
      i := k + 1;
    }
  }

  lemma {:induction false} UnmetLeaves(group: Group, x: int, edges: seq<Edge>)
    requires forall e :: e in edges ==> !Meets(e, x)
    ensures Internal(group, edges) == Internal(group - {x}, edges)
  {
    if edges != [] {
      assert edges[0] in edges;
      UnmetLeaves(group, x, edges[1..]);
    }
  }

  /** A loop that stands alone costs its entity every other edge, so the group stays within its bound. */
  lemma AloneIsBounded(group: Group, edges: seq<Edge>)
    requires Simple(edges) && LoopsStandAlone(edges) && |group| >= 2
    ensures 2 * Internal(group, edges) <= |group| * (|group| - 1)
  {
    var plain := WithoutLoops(edges);
    LoopsApart(group, edges);
    if LoopsIn(group, edges) == 0 {
      FewInternal(group, plain);
    } else {
      var i := LoneLoop(group, edges);
      var x := edges[i].u;
      forall e | e in plain
        ensures !Meets(e, x)
      {
        var j :| 0 <= j < |edges| && edges[j] == e;
        assert e.u != e.v;
      }
      UnmetLeaves(group, x, plain);
      FewInternal(group - {x}, plain);
      var n := |group|;
      assert |group - {x}| == n - 1;
      assert n * (n - 1) == (n - 1) * (n - 2) + 2 * (n - 1);
    }
  }

  lemma {:induction false} InsideCounts(group: Group, edges: seq<Edge>, i: nat)
    requires i < |edges| && edges[i].u in group && edges[i].v in group
    ensures Internal(group, edges) >= 1
  {
    InternalIsCount(group, edges[1..]);
    if i > 0 {
      InsideCounts(group, edges[1..], i - 1);
    }
  }

  lemma {:induction false} TwoInside(group: Group, edges: seq<Edge>, i: nat, j: nat)
    requires i < j < |edges|
    requires edges[i].u in group && edges[i].v in group && edges[j].u in group && edges[j].v in group
    ensures Internal(group, edges) >= 2
  {
    if i == 0 {
      InsideCounts(group, edges[1..], j - 1);
    } else {
      TwoInside(group, edges[1..], i - 1, j - 1);
    }
  }

  lemma {:induction false} SimpleAt(edges: seq<Edge>, i: nat, j: nat)
    requires Simple(edges) && i < j < |edges|
    ensures !Same(edges[j], edges[i].u, edges[i].v)
  {
    if i > 0 {
      SimpleAt(edges[1..], i - 1, j - 1);
    } else {
      assert edges[1..][j - 1] == edges[j];
    }
  }

  /** A loop with company: the two entities around both edges make a group of density two at least. */
  lemma CompanyExceeds(edges: seq<Edge>, i: nat, j: nat) returns (group: Group)
    requires Simple(edges) && i < |edges| && j < |edges| && i != j
    requires Loop(edges[i]) && (Loop(edges[j]) || Meets(edges[j], edges[i].u))
    ensures Density(group, edges) > 1.0
  {
    var a := edges[i].u;
    var b := if edges[j].u != a then edges[j].u else edges[j].v;
    group := {a, b};
    if i < j {
      SimpleAt(edges, i, j);
      TwoInside(group, edges, i, j);
    } else {
      SimpleAt(edges, j, i);
      TwoInside(group, edges, j, i);
    }
    assert a != b && |group| == 2;
    DivideOrder(4.0, (2 * Internal(group, edges)) as real, 2.0);
  }

  /** Density stays within one for every group exactly when there is at most one self-loop, and that on an entity
      without other edges. */
  lemma DensityBoundedIffLoopsAlone(edges: seq<Edge>)
    requires Simple(edges)
    ensures (forall group :: Density(group, edges) <= 1.0) <==> LoopsStandAlone(edges)
  {
    if LoopsStandAlone(edges) {
      forall group
        ensures Density(group, edges) <= 1.0
      {
        if |group| >= 2 {
          AloneIsBounded(group, edges);
          var d := (|group| * (|group| - 1)) as real;
          DivideOrder((2 * Internal(group, edges)) as real, d, d);
        }
      }
    } else {
      var i, j :| 0 <= i < |edges| && 0 <= j < |edges| && i != j && Loop(edges[i])
                  && !(!Loop(edges[j]) && !Meets(edges[j], edges[i].u));
      var group := CompanyExceeds(edges, i, j);
    }
  }

  // ---------- Entity importance ----------

  function Occurrences(nodes: seq<int>, x: int): int {
    if nodes == [] then 0 else Bit(nodes[0] == x) + Occurrences(nodes[1..], x)
  }

  function OccurrenceWeight(nodes: seq<int>, e: Edge): real {
    if nodes == [] then 0.0
    else Part(e.u == nodes[0], e.w) + Part(e.v == nodes[0], e.w) + OccurrenceWeight(nodes[1..], e)
  }

  lemma {:induction false} OccurrenceWeightIs(nodes: seq<int>, e: Edge)
    requires Distinct(nodes)
    ensures OccurrenceWeight(nodes, e) == Part(e.u in nodes, e.w) + Part(e.v in nodes, e.w)
  {
    if nodes != [] {
      OccurrenceWeightIs(nodes[1..], e);
    }
  }

  lemma {:induction false} DegreesGrow(nodes: seq<int>, edges: seq<Edge>)
    requires edges != []
    ensures SumDegrees(nodes, edges) == SumDegrees(nodes, edges[1..]) + OccurrenceWeight(nodes, edges[0])
  {
    if nodes != [] {
      DegreesGrow(nodes[1..], edges);
    }
  }

  lemma {:induction false} NoEdgesNoDegrees(nodes: seq<int>)
    ensures SumDegrees(nodes, []) == 0.0
  {
    if nodes != [] {
      NoEdgesNoDegrees(nodes[1..]);
    }
  }

  /** Every edge counts at both ends, so a self-loop counts twice. */
  lemma {:induction false} DegreesAreConserved(nodes: seq<int>, edges: seq<Edge>)
    requires Distinct(nodes) && forall e :: e in edges ==> Sound(e, nodes)
    ensures SumDegrees(nodes, edges) == 2.0 * Total(edges)
  {
    if edges == [] {
      NoEdgesNoDegrees(nodes);
    } else {
      DegreesAreConserved(nodes, edges[1..]);
      DegreesGrow(nodes, edges);
      assert edges[0] in edges;
      OccurrenceWeightIs(nodes, edges[0]);
    }
  }

  /** The importances of some nodes of the graph together. */
  function SumEntityImportance(g: Graph, nodes: seq<int>): real
    requires g.nodes != []
  {
    if nodes == [] then 0.0 else EntityImportance(g, nodes[0]) + SumEntityImportance(g, nodes[1..])
  }

  lemma {:induction false} SharesOf(g: Graph, nodes: seq<int>)
    requires g.nodes != []
    ensures var total := SumDegrees(g.nodes, g.edges);
            SumEntityImportance(g, nodes)
            == if total != 0.0 then SumDegrees(nodes, g.edges) / total else |nodes| as real / |g.nodes| as real
  {
    if nodes != [] {
      SharesOf(g, nodes[1..]);
      var total := SumDegrees(g.nodes, g.edges);
      if total != 0.0 {
        AddShares(WeightedDegree(nodes[0], g.edges), SumDegrees(nodes[1..], g.edges), total);
      } else {
        AddShares(1.0, |nodes[1..]| as real, |g.nodes| as real);
      }
    }
  }

  /** Entity importances sum to one, whatever the weights. */
  lemma ImportancesSumToOne(g: Graph)
    requires g.nodes != []
    ensures SumEntityImportance(g, g.nodes) == 1.0
  {
    SharesOf(g, g.nodes);
  }

  // ---------- The graph that is analysed ----------

  function Between(relations: seq<Relation>, a: int, b: int): real {
    if relations == [] then 0.0
    else
      var r := relations[|relations| - 1];
      Between(relations[..|relations| - 1], a, b) + Part(Same(Edge(r.source, r.target, 0.0), a, b), r.confidence)
  }

  function WeightOf(edges: seq<Edge>, a: int, b: int): real {
    if edges == [] then 0.0 else Part(Same(edges[0], a, b), edges[0].w) + WeightOf(edges[1..], a, b)
  }

  function Confidence(relations: seq<Relation>): real {
    if relations == [] then 0.0
    else Confidence(relations[..|relations| - 1]) + relations[|relations| - 1].confidence
  }

  lemma {:induction false} WithEdgeSums(edges: seq<Edge>, s: int, t: int, w: real)
    ensures Total(WithEdge(edges, s, t, w)) == Total(edges) + w
  {
    if edges != [] && !Same(edges[0], s, t) {
      WithEdgeSums(edges[1..], s, t, w);
    }
  }

  lemma {:induction false} WithEdgeWeighs(edges: seq<Edge>, s: int, t: int, w: real, a: int, b: int)
    ensures WeightOf(WithEdge(edges, s, t, w), a, b)
         == WeightOf(edges, a, b) + Part(Same(Edge(s, t, 0.0), a, b), w)
  {
    if edges != [] && !Same(edges[0], s, t) {
      WithEdgeWeighs(edges[1..], s, t, w, a, b);
    }
  }

  lemma {:induction false} WithEdgeKeeps(edges: seq<Edge>, s: int, t: int, w: real)
    requires Simple(edges) && w >= 0.0 && forall e :: e in edges ==> e.w >= 0.0
    ensures Simple(WithEdge(edges, s, t, w))
    ensures forall e :: e in WithEdge(edges, s, t, w) ==> e.w >= 0.0 && (Same(e, s, t) || e in edges)
  {
    if edges != [] && Same(edges[0], s, t) {
      assert edges[0] in edges;
      assert forall e :: e in WithEdge(edges, s, t, w) ==> e == edges[0].(w := edges[0].w + w) || e in edges[1..];
    } else if edges != [] {
      WithEdgeKeeps(edges[1..], s, t, w);
      assert edges[0] in edges;
      assert WithEdge(edges, s, t, w)[1..] == WithEdge(edges[1..], s, t, w);
    }
  }

  lemma {:induction false} AppendDistinct(nodes: seq<int>, x: int)
    requires Distinct(nodes)
    ensures Distinct(WithNode(nodes, x)) && forall y :: y in WithNode(nodes, x) <==> y in nodes || y == x
  {
    if x !in nodes && nodes != [] {
      AppendDistinct(nodes[1..], x);
      assert (nodes + [x])[1..] == nodes[1..] + [x];
    }
  }

  lemma {:induction false} AddNodesIsSet(nodes: seq<int>)
    ensures Distinct(AddNodes(nodes)) && forall y :: y in AddNodes(nodes) <==> y in nodes
  {
    if nodes != [] {
      var n := |nodes| - 1;
      AddNodesIsSet(nodes[..n]);
      AppendDistinct(AddNodes(nodes[..n]), nodes[n]);
      assert nodes == nodes[..n] + [nodes[n]];
    }
  }

  /** An end of one of the relations. */
  ghost predicate Touching(relations: seq<Relation>, x: int) {
    exists r :: r in relations && (x == r.source || x == r.target)
  }

  lemma {:induction false} BuildWeighs(entities: seq<int>, relations: seq<Relation>, a: int, b: int)
    ensures Total(Build(entities, relations).edges) == Confidence(relations)
    ensures WeightOf(Build(entities, relations).edges, a, b) == Between(relations, a, b)
  {
    if relations != [] {
      var r := relations[|relations| - 1];
      var before := Build(entities, relations[..|relations| - 1]);
      BuildWeighs(entities, relations[..|relations| - 1], a, b);
      WithEdgeSums(before.edges, r.source, r.target, r.confidence);
      WithEdgeWeighs(before.edges, r.source, r.target, r.confidence, a, b);
    }
  }

  lemma {:induction false} BuildIsWellFormed(entities: seq<int>, relations: seq<Relation>)
    requires forall r :: r in relations ==> r.confidence >= 0.0
    ensures WellFormed(Build(entities, relations))
    ensures forall x :: x in Build(entities, relations).nodes <==> x in entities || Touching(relations, x)
  {
    if relations == [] {
      AddNodesIsSet(entities);
    } else {
      var n := |relations| - 1;
      var r := relations[n];
      var before := Build(entities, relations[..n]);
      assert r in relations;
      BuildIsWellFormed(entities, relations[..n]);
      AddEdgeKeeps(before, r.source, r.target, r.confidence);
    }
  }

  lemma AddEdgeKeeps(g: Graph, s: int, t: int, w: real)
    requires WellFormed(g) && w >= 0.0
    ensures WellFormed(AddEdge(g, s, t, w))
    ensures forall x :: x in AddEdge(g, s, t, w).nodes <==> x in g.nodes || x == s || x == t
  {
    AppendDistinct(g.nodes, s);
    AppendDistinct(WithNode(g.nodes, s), t);
    assert forall e :: e in g.edges ==> Sound(e, g.nodes);
    WithEdgeKeeps(g.edges, s, t, w);
  }

  lemma {:induction false} BuildIsLoopless(entities: seq<int>, relations: seq<Relation>)
    requires forall r :: r in relations ==> r.source != r.target && r.confidence >= 0.0
    ensures Loopless(Build(entities, relations).edges)
  {
    if relations != [] {
      var n := |relations| - 1;
      var r := relations[n];
      var before := Build(entities, relations[..n]);
      assert r in relations;
      BuildIsLoopless(entities, relations[..n]);
      BuildIsWellFormed(entities, relations[..n]);
      assert forall e :: e in before.edges ==> Sound(e, before.nodes);
      WithEdgeKeeps(before.edges, r.source, r.target, r.confidence);
    }
  }

  /** The graph is simple, its nodes are the entities and the ends of relations, and an edge weighs what the
      relations between its ends weigh together. */
  lemma BuildIsSound(entities: seq<int>, relations: seq<Relation>)
    requires forall r :: r in relations ==> r.confidence >= 0.0
    ensures var g := Build(entities, relations);
            && WellFormed(g)
            && Total(g.edges) == Confidence(relations)
            && (forall x :: x in g.nodes <==> x in entities || Touching(relations, x))
            && (forall a, b :: WeightOf(g.edges, a, b) == Between(relations, a, b))
            && ((forall r :: r in relations ==> r.source != r.target) ==> Loopless(g.edges))
  {
    BuildIsWellFormed(entities, relations);
    BuildWeighs(entities, relations, 0, 0);
    forall a, b
      ensures WeightOf(Build(entities, relations).edges, a, b) == Between(relations, a, b)
    {
      BuildWeighs(entities, relations, a, b);
    }
    if forall r :: r in relations ==> r.source != r.target {
      BuildIsLoopless(entities, relations);
    }
  }

  lemma {:induction false} DistinctByIndex(nodes: seq<int>)
    requires forall i, j :: 0 <= i < j < |nodes| ==> nodes[i] != nodes[j]
    ensures Distinct(nodes)
  {
    if nodes != [] {
      DistinctByIndex(nodes[1..]);
    }
  }

  lemma {:induction false} CrossAppend(groups: seq<Group>, edges: seq<Edge>, e: Edge)
    ensures CrossWeight(groups, edges + [e])
         == CrossWeight(groups, edges) + Part(!Together(groups, e.u, e.v), e.w)
  {
    if edges != [] {
      CrossAppend(groups, edges[1..], e);
      assert (edges + [e])[1..] == edges[1..] + [e];
    } else {
      assert ([e])[1..] == [];
    }
  }

  /** Two covered entities have one home exactly when a group holds both. */
  lemma HomesMeet(groups: seq<Group>, x: int, y: int)
    requires Disjoint(groups) && Covered(groups, x) && Covered(groups, y)
    ensures Home(groups, x) < |groups| && Home(groups, y) < |groups|
    ensures Home(groups, x) == Home(groups, y) <==> Together(groups, x, y)
  {
    var h, k := Home(groups, x), Home(groups, y);
    var i :| 0 <= i < |groups| && x in groups[i];
    var j :| 0 <= j < |groups| && y in groups[j];
    assert x in groups[h] && y in groups[k];
    if Together(groups, x, y) {
      var c :| 0 <= c < |groups| && x in groups[c] && y in groups[c];
      SameHome(groups, h, c, x);
      SameHome(groups, k, c, y);
    }
  }

  /** The quotient is a simple graph without loops, and its weight is the weight between the communities. */
  lemma {:induction false} QuotientIsSound(children: seq<Group>, nodes: seq<int>, edges: seq<Edge>)
    requires Partition(children, nodes) && forall e :: e in edges ==> Sound(e, nodes)
    ensures WellFormed(Quotient(children, edges)) && Loopless(Quotient(children, edges).edges)
    ensures Total(Quotient(children, edges).edges) == CrossWeight(children, edges)
  {
    DistinctByIndex(Range(|children|));
    if edges != [] {
      var n := |edges| - 1;
      var e := edges[n];
      assert edges == edges[..n] + [e];
      assert Sound(e, nodes);
      QuotientIsSound(children, nodes, edges[..n]);
      HomesMeet(children, e.u, e.v);
      CrossAppend(children, edges[..n], e);
      var left, right := Home(children, e.u), Home(children, e.v);
      var before := QuotientEdges(children, edges[..n]);
      if left != right {
        WithEdgeKeeps(before, left, right, e.w);
        WithEdgeSums(before, left, right, e.w);
        assert Range(|children|)[left] == left && Range(|children|)[right] == right;
      }
    }
  }

  /** What the edges between two communities weigh together. */
  function Crossing(a: Group, b: Group, edges: seq<Edge>): real {
    if edges == [] then 0.0
    else
      var e := edges[|edges| - 1];
      Crossing(a, b, edges[..|edges| - 1]) + Part((e.u in a && e.v in b) || (e.u in b && e.v in a), e.w)
  }

  lemma HomeIs(groups: seq<Group>, x: int, i: int)
    requires Disjoint(groups) && Covered(groups, x) && 0 <= i < |groups|
    ensures Home(groups, x) == i <==> x in groups[i]
  {
    HomesMeet(groups, x, x);
    if x in groups[i] {
      SameHome(groups, Home(groups, x), i, x);
    }
  }

  /** The quotient joins two communities by what the edges between them weigh. */
  lemma {:induction false} QuotientWeighs(children: seq<Group>, nodes: seq<int>, edges: seq<Edge>, i: int, j: int)
    requires Partition(children, nodes) && forall e :: e in edges ==> Sound(e, nodes)
    requires 0 <= i < |children| && 0 <= j < |children| && i != j
    ensures WeightOf(Quotient(children, edges).edges, i, j) == Crossing(children[i], children[j], edges)
  {
    if edges != [] {
      var n := |edges| - 1;
      var e := edges[n];
      assert e in edges && Sound(e, nodes);
      QuotientWeighs(children, nodes, edges[..n], i, j);
      HomeIs(children, e.u, i);
      HomeIs(children, e.u, j);
      HomeIs(children, e.v, i);
      HomeIs(children, e.v, j);
      WithEdgeWeighs(QuotientEdges(children, edges[..n]), Home(children, e.u), Home(children, e.v), e.w, i, j);
    }
  }

  // ---------- What degrees and weights mean for the relations ----------

  /** What the relations at an entity weigh together; one from an entity to itself counts twice. */
  function Strength(relations: seq<Relation>, x: int): real {
    if relations == [] then 0.0
    else
      var r := relations[|relations| - 1];
      Strength(relations[..|relations| - 1], x) + Part(r.source == x, r.confidence) + Part(r.target == x, r.confidence)
  }

  /** What the relations with an end in the group weigh together. */
  function Reach(relations: seq<Relation>, group: Group): real {
    if relations == [] then 0.0
    else
      var r := relations[|relations| - 1];
      Reach(relations[..|relations| - 1], group) + Part(r.source in group || r.target in group, r.confidence)
  }

  lemma {:induction false} WithEdgeDegrees(edges: seq<Edge>, s: int, t: int, w: real, x: int)
    ensures WeightedDegree(x, WithEdge(edges, s, t, w)) == WeightedDegree(x, edges) + Part(s == x, w) + Part(t == x, w)
  {
    if edges != [] && !Same(edges[0], s, t) {
      WithEdgeDegrees(edges[1..], s, t, w, x);
    }
  }

  lemma {:induction false} WithEdgeTouches(edges: seq<Edge>, s: int, t: int, w: real, group: Group)
    ensures Touched(group, WithEdge(edges, s, t, w)) == Touched(group, edges) + Part(s in group || t in group, w)
  {
    if edges != [] && !Same(edges[0], s, t) {
      WithEdgeTouches(edges[1..], s, t, w, group);
    }
  }

  lemma {:induction false} DegreeIsStrength(entities: seq<int>, relations: seq<Relation>, x: int)
    ensures WeightedDegree(x, Build(entities, relations).edges) == Strength(relations, x)
  {
    if relations != [] {
      var n := |relations| - 1;
      DegreeIsStrength(entities, relations[..n], x);
      WithEdgeDegrees(Build(entities, relations[..n]).edges, relations[n].source, relations[n].target, relations[n].confidence, x);
    }
  }

  /** The edges at a community weigh what the relations with an end in it weigh. */
  lemma {:induction false} TouchedIsReach(entities: seq<int>, relations: seq<Relation>, group: Group)
    ensures Touched(group, Build(entities, relations).edges) == Reach(relations, group)
  {
    if relations != [] {
      var n := |relations| - 1;
      TouchedIsReach(entities, relations[..n], group);
      WithEdgeTouches(Build(entities, relations[..n]).edges, relations[n].source, relations[n].target, relations[n].confidence, group);
    }
  }

  /** An entity's importance is its share in the weight of all relation ends; without any weight all are alike. */
  lemma ImportanceIsShare(entities: seq<int>, relations: seq<Relation>, x: int)
    requires Build(entities, relations).nodes != [] && forall r :: r in relations ==> r.confidence >= 0.0
    ensures var g := Build(entities, relations);
            if Confidence(relations) != 0.0 then EntityImportance(g, x) == Strength(relations, x) / (2.0 * Confidence(relations))
            else EntityImportance(g, x) == 1.0 / |g.nodes| as real
  {
    var g := Build(entities, relations);
    BuildIsSound(entities, relations);
    assert forall e :: e in g.edges ==> Sound(e, g.nodes);
    DegreesAreConserved(g.nodes, g.edges);
    DegreeIsStrength(entities, relations, x);
  }

  // ---------- The analysis ----------

  /** A community is named by its level and its members; `parent` is the parent's members. */
  datatype Stats = Stats(members: Group, parent: Option<Group>, internalEdges: int, externalEdges: int,
                         density: real, importance: real)

  datatype Analysis = Analysis(levels: seq<seq<Group>>, stats: seq<seq<Stats>>, importance: map<int, real>)

  function Groups(cluster: (Graph, real) -> seq<Group>, g: Graph, resolution: real): seq<Group> {
    if g.nodes == [] then [] else cluster(g, resolution)
  }

  function Broader(cluster: (Graph, real) -> seq<Group>, children: seq<Group>, edges: seq<Edge>, resolution: real)
    : seq<Group>
  {
    Parents(children, Groups(cluster, Quotient(children, edges), resolution))
  }

  /** The statistics of one community; its parent is the one broader community around all its members. */
  ghost predicate Described(s: Stats, group: Group, edges: seq<Edge>, broad: Option<seq<Group>>) {
    && s.members == group
    && s.internalEdges == Internal(group, edges)
    && s.externalEdges == External(group, edges)
    && s.density == Density(group, edges)
    && s.importance == Importance(group, edges)
    && (s.parent.None? <==> broad.None?)
    && (s.parent.Some? ==> s.parent.value in broad.value && group <= s.parent.value)
  }

  ghost predicate AllDescribed(stats: seq<Stats>, groups: seq<Group>, edges: seq<Edge>, broad: Option<seq<Group>>) {
    |stats| == |groups| && forall i :: 0 <= i < |stats| ==> Described(stats[i], groups[i], edges, broad)
  }

  /** Every member has the parent that any one member has. */
  lemma ParentOfAnyMember(group: Group, x: int, broad: seq<Group>)
    requires Disjoint(broad) && x in group
    requires Inside(group, broad)
    ensures Home(broad, x) < |broad| && group <= broad[Home(broad, x)]
  {
    var j :| 0 <= j < |broad| && group <= broad[j];
    assert x in broad[j];
    SameHome(broad, j, Home(broad, x), x);
  }

  method Describe(group: Group, edges: seq<Edge>, broad: Option<seq<Group>>) returns (s: Stats)
    requires group != {}
    requires broad.Some? ==> Disjoint(broad.value) && Inside(group, broad.value)
    ensures Described(s, group, edges, broad)
  {
    var parent := None;
    if broad.Some? {
      ghost var member := Member(group);
      var x :| x in group;
      ParentOfAnyMember(group, x, broad.value);
      parent := Some(broad.value[Home(broad.value, x)]);
    }
    s := Stats(group, parent, Internal(group, edges), External(group, edges), Density(group, edges),
               Importance(group, edges));
  }

  method DescribeAll(groups: seq<Group>, nodes: seq<int>, edges: seq<Edge>, broad: Option<seq<Group>>)
      returns (stats: seq<Stats>)
    requires Partition(groups, nodes)
    requires broad.Some? ==> Partition(broad.value, nodes) && Refines(groups, broad.value)
    ensures AllDescribed(stats, groups, edges, broad)
  {
    stats := [];
    for i := 0 to |groups|
      invariant |stats| == i && forall k :: 0 <= k < i ==> Described(stats[k], groups[k], edges, broad)
    {
      assert Within(groups[i], nodes);
      var s := Describe(groups[i], edges, broad);
      stats := stats + [s];
    }
  }

  lemma BroaderIsSound(cluster: (Graph, real) -> seq<Group>, children: seq<Group>, g: Graph, resolution: real)
    requires Clusters(cluster) && WellFormed(g) && Partition(children, g.nodes)
    ensures Partition(Broader(cluster, children, g.edges, resolution), g.nodes)
    ensures Refines(children, Broader(cluster, children, g.edges, resolution))
  {
    QuotientIsSound(children, g.nodes, g.edges);
    var q := Quotient(children, g.edges);
    assert Partition(Groups(cluster, q, resolution), Range(|children|));
    NextLevel(children, g.nodes, Groups(cluster, q, resolution));
  }

  ghost predicate Hierarchy(levels: seq<seq<Group>>, g: Graph, cluster: (Graph, real) -> seq<Group>) {
    && |levels| == 3
    && levels[0] == Groups(cluster, g, 1.0)
    && levels[1] == Broader(cluster, levels[0], g.edges, 0.5)
    && levels[2] == Broader(cluster, levels[1], g.edges, 0.25)
  }

  /** Each level partitions the entities, and each community lies within a community of the next level. */
  ghost predicate Nested(levels: seq<seq<Group>>, nodes: seq<int>) {
    && |levels| == 3
    && Partition(levels[0], nodes) && Partition(levels[1], nodes) && Partition(levels[2], nodes)
    && Refines(levels[0], levels[1]) && Refines(levels[1], levels[2])
  }

  ghost predicate Explained(stats: seq<seq<Stats>>, levels: seq<seq<Group>>, edges: seq<Edge>) {
    && |stats| == 3 && |levels| == 3
    && AllDescribed(stats[0], levels[0], edges, Some(levels[1]))
    && AllDescribed(stats[1], levels[1], edges, Some(levels[2]))
    && AllDescribed(stats[2], levels[2], edges, None)
  }

  ghost predicate Ranked(importance: map<int, real>, g: Graph) {
    && (forall x :: x in importance <==> x in g.nodes)
    && (forall x :: x in importance ==> g.nodes != [] && importance[x] == EntityImportance(g, x))
  }

  /** Three levels, each a partition of the entities within the next, with their statistics. */
  method AnalyzeGraph(entities: seq<int>, relations: seq<Relation>, cluster: (Graph, real) -> seq<Group>)
      returns (a: Analysis)
    requires Clusters(cluster) && forall r :: r in relations ==> r.confidence >= 0.0
    ensures Hierarchy(a.levels, Build(entities, relations), cluster)
    ensures Nested(a.levels, Build(entities, relations).nodes)
    ensures Explained(a.stats, a.levels, Build(entities, relations).edges)
    ensures Ranked(a.importance, Build(entities, relations))
  {
    var g := BuildGraph(entities, relations);
    BuildIsSound(entities, relations);
    var levels := ThreeLevels(g, cluster);
    var stats := ThreeDescriptions(g, levels);
    var importance := RankEntities(g);
    a := Analysis(levels, stats, importance);
  }

  method ThreeLevels(g: Graph, cluster: (Graph, real) -> seq<Group>) returns (levels: seq<seq<Group>>)
    requires Clusters(cluster) && WellFormed(g)
    ensures Hierarchy(levels, g, cluster) && Nested(levels, g.nodes)
  {
    var finest := Groups(cluster, g, 1.0);
    assert Partition(finest, g.nodes);
    var middle := HigherLevel(cluster, finest, g, 0.5);
    var broadest := HigherLevel(cluster, middle, g, 0.25);
    levels := [finest, middle, broadest];
  }

  method ThreeDescriptions(g: Graph, levels: seq<seq<Group>>) returns (stats: seq<seq<Stats>>)
    requires Nested(levels, g.nodes)
    ensures Explained(stats, levels, g.edges)
  {
    var s0 := DescribeAll(levels[0], g.nodes, g.edges, Some(levels[1]));
    var s1 := DescribeAll(levels[1], g.nodes, g.edges, Some(levels[2]));
    var s2 := DescribeAll(levels[2], g.nodes, g.edges, None);
    stats := [s0, s1, s2];
  }

  method RankEntities(g: Graph) returns (importance: map<int, real>)
    ensures Ranked(importance, g)
  {
    importance := map[];
    for i := 0 to |g.nodes|
      invariant forall x :: x in importance <==> x in g.nodes[..i]
      invariant forall x :: x in importance ==> g.nodes != [] && importance[x] == EntityImportance(g, x)
    {
      assert g.nodes[..i + 1] == g.nodes[..i] + [g.nodes[i]];
      importance := importance[g.nodes[i] := EntityImportance(g, g.nodes[i])];
    }
    assert g.nodes[..|g.nodes|] == g.nodes;
  }

  method HigherLevel(cluster: (Graph, real) -> seq<Group>, children: seq<Group>, g: Graph, resolution: real)
      returns (parents: seq<Group>)
    requires Clusters(cluster) && WellFormed(g) && Partition(children, g.nodes)
    ensures parents == Broader(cluster, children, g.edges, resolution)
    ensures Partition(parents, g.nodes) && Refines(children, parents)
  {
    var q := BuildQuotient(children, g.edges);
    parents := Parents(children, Groups(cluster, q, resolution));
    BroaderIsSound(cluster, children, g, resolution);
  }

  /** Twice the internal edges plus the external edges that a level reports. */
  function ReportedEdges(stats: seq<Stats>): int {
    if stats == [] then 0
    else 2 * stats[0].internalEdges + stats[0].externalEdges + ReportedEdges(stats[1..])
  }

  function ReportedImportance(stats: seq<Stats>): real {
    if stats == [] then 0.0 else stats[0].importance + ReportedImportance(stats[1..])
  }

  lemma {:induction false} ReportsAddUp(stats: seq<Stats>, groups: seq<Group>, edges: seq<Edge>,
                                        broad: Option<seq<Group>>)
    requires AllDescribed(stats, groups, edges, broad)
    ensures ReportedEdges(stats) == EdgeLedger(groups, edges)
    ensures ReportedImportance(stats) == SumImportance(groups, edges)
  {
    if stats != [] {
      assert Described(stats[0], groups[0], edges, broad);
      assert AllDescribed(stats[1..], groups[1..], edges, broad);
      ReportsAddUp(stats[1..], groups[1..], edges, broad);
    }
  }

  /** What a whole analysis reports: every level accounts for every edge, and importance falls from the finest
      level to the broadest. */
  lemma AnalysisConserves(a: Analysis, g: Graph)
    requires WellFormed(g) && Nested(a.levels, g.nodes) && Explained(a.stats, a.levels, g.edges)
    ensures forall l :: 0 <= l < 3 ==> ReportedEdges(a.stats[l]) == 2 * |g.edges|
    ensures Total(g.edges) != 0.0 ==>
              1.0 >= ReportedImportance(a.stats[0]) >= ReportedImportance(a.stats[1])
              >= ReportedImportance(a.stats[2]) >= 0.5
  {
    LevelConserves(a.stats[0], a.levels[0], g, Some(a.levels[1]));
    LevelConserves(a.stats[1], a.levels[1], g, Some(a.levels[2]));
    LevelConserves(a.stats[2], a.levels[2], g, None);
    if Total(g.edges) != 0.0 {
      ImportanceFallsWithBreadth(a.levels[0], a.levels[1], g);
      ImportanceFallsWithBreadth(a.levels[1], a.levels[2], g);
    }
  }

  lemma LevelConserves(stats: seq<Stats>, groups: seq<Group>, g: Graph, broad: Option<seq<Group>>)
    requires WellFormed(g) && Partition(groups, g.nodes) && AllDescribed(stats, groups, g.edges, broad)
    ensures ReportedEdges(stats) == 2 * |g.edges|
    ensures ReportedImportance(stats) == SumImportance(groups, g.edges)
  {
    ReportsAddUp(stats, groups, g.edges, broad);
    EdgesAreConserved(groups, g.nodes, g.edges);
  }
}
