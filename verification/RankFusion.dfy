/** Weighted reciprocal rank fusion: apps/api/app/retrieval.py.  Scores are exact reals; the final rounding to
    four digits is not modelled. */
module RankFusion {
  import opened Wrappers
  import opened Helpers

  type Id = int

  datatype Source = FromVector | FromGraph | Hybrid

  datatype Chunk = Chunk(id: Id, body: int, vectorScore: Option<real>, graphScore: Option<real>,
                         entities: seq<int>, relations: seq<int>)

  datatype Fused = Fused(chunk: Chunk, score: real, source: Source)

  /** The two weights and the rank offset. */
  datatype Weights = Weights(vector: real, graph: real, k: nat)

  // ---------- Ranks and scores ----------

  /** The position of the last chunk with this id, counted from one; zero when there is none. */
  function RankOf(list: seq<Chunk>, id: Id): nat {
    if list == [] then 0
    else if list[|list| - 1].id == id then |list|
    else RankOf(list[..|list| - 1], id)
  }

  function RankShare(w: real, k: nat, rank: nat): real {
    if rank == 0 then 0.0 else w / (k + rank) as real
  }

  function Score(vector: seq<Chunk>, graph: seq<Chunk>, w: Weights, id: Id): real {
    RankShare(w.vector, w.k, RankOf(vector, id)) + RankShare(w.graph, w.k, RankOf(graph, id))
  }

  function MaxPossible(w: Weights): real {
    if w.vector + w.graph > 0.0 then (w.vector + w.graph) / (w.k + 1) as real else 1.0
  }

  function Normalized(score: real, w: Weights): real
    requires MaxPossible(w) != 0.0
  {
    var share := score / MaxPossible(w);
    if share < 1.0 then share else 1.0
  }

  lemma {:induction false} RankIsLast(list: seq<Chunk>, id: Id)
    ensures RankOf(list, id) <= |list|
    ensures RankOf(list, id) == 0 <==> forall i :: 0 <= i < |list| ==> list[i].id != id
    ensures RankOf(list, id) > 0 ==> list[RankOf(list, id) - 1].id == id
    ensures forall i :: RankOf(list, id) <= i < |list| ==> list[i].id != id
  {
    if list != [] {
      RankIsLast(list[..|list| - 1], id);
    }
  }

  /** A later rank has a smaller part, strictly so under a positive weight. */
  lemma ShareFalls(w: real, a: real, b: real)
    requires w >= 0.0 && 0.0 < a <= b
    ensures w / a >= w / b >= 0.0
    ensures w > 0.0 && a < b ==> w / a > w / b
  {
    var x, y := w / a, w / b;
    assert x * a == w && y * b == w;
    if w == 0.0 {
    } else {
      assert (x - y) * a == y * (b - a);
    }
  }

  lemma PartInRange(w: real, k: nat, rank: nat)
    requires w >= 0.0
    ensures 0.0 <= RankShare(w, k, rank) <= w / (k + 1) as real
    ensures w > 0.0 ==> (RankShare(w, k, rank) == w / (k + 1) as real <==> rank == 1)
  {
    ShareFalls(w, (k + 1) as real, (k + 1) as real);
    if w > 0.0 {
    }
    if rank > 0 {
      ShareFalls(w, (k + 1) as real, (k + rank) as real);
    }
  }

  lemma ShareOfMost(a: real, m: real)
    requires 0.0 <= a <= m && m > 0.0
    ensures 0.0 <= a / m <= 1.0
    ensures a / m == 1.0 <==> a == m
  {
    var q := a / m;
    assert q * m == a;
  }

  /** The share never exceeds one, so the clamp never acts; it is one exactly for a chunk that every list of
      positive weight ranks first. */
  lemma ScoreInRange(vector: seq<Chunk>, graph: seq<Chunk>, w: Weights, id: Id)
    requires w.vector >= 0.0 && w.graph >= 0.0
    ensures MaxPossible(w) > 0.0
    ensures 0.0 <= Score(vector, graph, w, id) / MaxPossible(w) <= 1.0
    ensures Normalized(Score(vector, graph, w, id), w) == Score(vector, graph, w, id) / MaxPossible(w)
    ensures w.vector + w.graph > 0.0 ==>
              (Normalized(Score(vector, graph, w, id), w) == 1.0
               <==> (w.vector > 0.0 ==> RankOf(vector, id) == 1) && (w.graph > 0.0 ==> RankOf(graph, id) == 1))
  {
    PartInRange(w.vector, w.k, RankOf(vector, id));
    PartInRange(w.graph, w.k, RankOf(graph, id));
    AddShares(w.vector, w.graph, (w.k + 1) as real);
    ShareOfMost(Score(vector, graph, w, id), MaxPossible(w));
  }

  // ---------- Order ----------

  /** By falling score, then by id. */
  predicate Precedes(vector: seq<Chunk>, graph: seq<Chunk>, w: Weights, a: Id, b: Id) {
    var (s, t) := (Score(vector, graph, w, a), Score(vector, graph, w, b));
    s > t || (s == t && a < b)
  }

  /** A list ranks `a` at least as well as `b`. */
  predicate NoWorse(list: seq<Chunk>, a: Id, b: Id) {
    RankOf(list, b) > 0 ==> 0 < RankOf(list, a) <= RankOf(list, b)
  }

  predicate Better(list: seq<Chunk>, a: Id, b: Id) {
    RankOf(list, a) > 0 && (RankOf(list, b) == 0 || RankOf(list, a) < RankOf(list, b))
  }

  lemma PartOrder(list: seq<Chunk>, weight: real, k: nat, a: Id, b: Id)
    requires weight >= 0.0 && NoWorse(list, a, b)
    ensures RankShare(weight, k, RankOf(list, a)) >= RankShare(weight, k, RankOf(list, b))
    ensures weight > 0.0 && Better(list, a, b) ==>
              RankShare(weight, k, RankOf(list, a)) > RankShare(weight, k, RankOf(list, b))
  {
    PartInRange(weight, k, RankOf(list, a));
    if RankOf(list, a) > 0 {
      ShareFalls(weight, (k + RankOf(list, a)) as real, (k + RankOf(list, a)) as real);
      if weight > 0.0 {
      }
    }
    if RankOf(list, b) > 0 {
      ShareFalls(weight, (k + RankOf(list, a)) as real, (k + RankOf(list, b)) as real);
    }
  }

  /** No worse anywhere and better in a list that weighs: then first. */
  lemma BetterPrecedes(vector: seq<Chunk>, graph: seq<Chunk>, w: Weights, a: Id, b: Id)
    requires w.vector >= 0.0 && w.graph >= 0.0
    requires NoWorse(vector, a, b) && NoWorse(graph, a, b)
    requires (w.vector > 0.0 && Better(vector, a, b)) || (w.graph > 0.0 && Better(graph, a, b))
    ensures Precedes(vector, graph, w, a, b)
  {
    PartOrder(vector, w.vector, w.k, a, b);
    PartOrder(graph, w.graph, w.k, a, b);
  }

  function Insert(vector: seq<Chunk>, graph: seq<Chunk>, w: Weights, ids: seq<Id>, id: Id): seq<Id> {
    if ids == [] then [id]
    else if Precedes(vector, graph, w, id, ids[0]) then [id] + ids
    else [ids[0]] + Insert(vector, graph, w, ids[1..], id)
  }

  function AddId(ids: seq<Id>, id: Id): seq<Id> {
    if id in ids then ids else ids + [id]
  }

  /** The ids of a list after those before it, each once. */
  function AddIds(ids: seq<Id>, list: seq<Chunk>): seq<Id> {
    if list == [] then ids else AddId(AddIds(ids, list[..|list| - 1]), list[|list| - 1].id)
  }

  function Sort(vector: seq<Chunk>, graph: seq<Chunk>, w: Weights, ids: seq<Id>): seq<Id> {
    if ids == [] then [] else Insert(vector, graph, w, Sort(vector, graph, w, ids[1..]), ids[0])
  }

  /** All ids, best first.  Their order before sorting does not matter. */
  function Order(vector: seq<Chunk>, graph: seq<Chunk>, w: Weights): seq<Id> {
    Sort(vector, graph, w, AddIds(AddIds([], vector), graph))
  }

  ghost predicate Unique(ids: seq<Id>) {
    forall i, j :: 0 <= i < j < |ids| ==> ids[i] != ids[j]
  }

  ghost predicate Sorted(vector: seq<Chunk>, graph: seq<Chunk>, w: Weights, ids: seq<Id>) {
    ids == [] || ((forall b :: b in ids[1..] ==> Precedes(vector, graph, w, ids[0], b))
                  && Sorted(vector, graph, w, ids[1..]))
  }

  lemma {:induction false} InsertSorts(vector: seq<Chunk>, graph: seq<Chunk>, w: Weights, ids: seq<Id>, id: Id)
    requires Sorted(vector, graph, w, ids) && id !in ids
    ensures Sorted(vector, graph, w, Insert(vector, graph, w, ids, id))
    ensures forall x :: x in Insert(vector, graph, w, ids, id) <==> x in ids || x == id
  {
    if ids == [] {
      assert [id][1..] == [];
    } else if Precedes(vector, graph, w, id, ids[0]) {
      forall b | b in ids
        ensures Precedes(vector, graph, w, id, b)
      {
        assert b == ids[0] || b in ids[1..];
      }
      assert ([id] + ids)[1..] == ids;
    } else {
      InsertSorts(vector, graph, w, ids[1..], id);
      assert ids[0] in ids && ids[0] != id;
      assert Precedes(vector, graph, w, ids[0], id);
      assert ids == [ids[0]] + ids[1..];
      var after := Insert(vector, graph, w, ids, id);
      assert after[0] == ids[0] && after[1..] == Insert(vector, graph, w, ids[1..], id);
    }
  }

  lemma {:induction false} SortSorts(vector: seq<Chunk>, graph: seq<Chunk>, w: Weights, ids: seq<Id>)
    requires Unique(ids)
    ensures Sorted(vector, graph, w, Sort(vector, graph, w, ids))
    ensures forall x :: x in Sort(vector, graph, w, ids) <==> x in ids
  {
    if ids != [] {
      SortSorts(vector, graph, w, ids[1..]);
      assert ids == [ids[0]] + ids[1..];
      InsertSorts(vector, graph, w, Sort(vector, graph, w, ids[1..]), ids[0]);
    }
  }

  lemma {:induction false} AddIdsAdds(ids: seq<Id>, list: seq<Chunk>)
    requires Unique(ids)
    ensures Unique(AddIds(ids, list))
    ensures forall x :: x in AddIds(ids, list) <==> x in ids || RankOf(list, x) > 0
  {
    if list != [] {
      AddIdsAdds(ids, list[..|list| - 1]);
    }
  }

  /** The order holds exactly the ids of the two lists. */
  lemma OrderHolds(vector: seq<Chunk>, graph: seq<Chunk>, w: Weights)
    ensures Sorted(vector, graph, w, Order(vector, graph, w))
    ensures forall x :: x in Order(vector, graph, w) <==> RankOf(vector, x) > 0 || RankOf(graph, x) > 0
  {
    AddIdsAdds([], vector);
    AddIdsAdds(AddIds([], vector), graph);
    SortSorts(vector, graph, w, AddIds(AddIds([], vector), graph));
  }

  lemma {:induction false} SortedAt(vector: seq<Chunk>, graph: seq<Chunk>, w: Weights, ids: seq<Id>, i: nat, j: nat)
    requires Sorted(vector, graph, w, ids) && i < j < |ids|
    ensures Precedes(vector, graph, w, ids[i], ids[j])
  {
    if i > 0 {
      SortedAt(vector, graph, w, ids[1..], i - 1, j - 1);
    }
  }

  ghost predicate SameIds(ids: seq<Id>, others: seq<Id>) {
    forall x :: x in ids <==> x in others
  }

  lemma SameAt(ids: seq<Id>, others: seq<Id>, x: Id)
    requires SameIds(ids, others)
    ensures x in ids <==> x in others
  {
  }

  lemma HeadFollowsNobody(vector: seq<Chunk>, graph: seq<Chunk>, w: Weights, ids: seq<Id>, x: Id)
    requires ids != [] && Sorted(vector, graph, w, ids)
    ensures x in ids[1..] <==> x in ids && x != ids[0]
  {
    assert ids == [ids[0]] + ids[1..];
  }

  /** Sorting the ids in whatever order a set yields them gives this one result. */
  lemma {:induction false} OrderIsUnique(vector: seq<Chunk>, graph: seq<Chunk>, w: Weights, ids: seq<Id>, others: seq<Id>)
    requires Sorted(vector, graph, w, ids) && Sorted(vector, graph, w, others)
    requires SameIds(ids, others)
    ensures ids == others
  {
    if ids == [] || others == [] {
      if ids != [] {
        SameAt(ids, others, ids[0]);
      } else if others != [] {
        SameAt(ids, others, others[0]);
      }
    } else {
      SameAt(ids, others, ids[0]);
      SameAt(ids, others, others[0]);
      assert ids[0] == others[0] by {
        HeadFollowsNobody(vector, graph, w, ids, others[0]);
        HeadFollowsNobody(vector, graph, w, others, ids[0]);
      }
      forall x
        ensures x in ids[1..] <==> x in others[1..]
      {
        SameAt(ids, others, x);
        HeadFollowsNobody(vector, graph, w, ids, x);
        HeadFollowsNobody(vector, graph, w, others, x);
      }
      OrderIsUnique(vector, graph, w, ids[1..], others[1..]);
    }
  }

  /** In the order, a chunk that is no worse anywhere and better somewhere comes first. */
  lemma BetterComesFirst(vector: seq<Chunk>, graph: seq<Chunk>, w: Weights, i: nat, j: nat)
    requires w.vector >= 0.0 && w.graph >= 0.0
    requires i < |Order(vector, graph, w)| && j < |Order(vector, graph, w)|
    requires var (a, b) := (Order(vector, graph, w)[i], Order(vector, graph, w)[j]);
             && NoWorse(vector, a, b) && NoWorse(graph, a, b)
             && ((w.vector > 0.0 && Better(vector, a, b)) || (w.graph > 0.0 && Better(graph, a, b)))
    ensures i < j
  {
    var order := Order(vector, graph, w);
    OrderHolds(vector, graph, w);
    BetterPrecedes(vector, graph, w, order[i], order[j]);
    if j < i {
      SortedAt(vector, graph, w, order, j, i);
    }
  }

  // ---------- Merged chunks ----------

  /** First occurrences only. */
  function Dedup(xs: seq<int>): seq<int> {
    if xs == [] then [] else AddId(Dedup(xs[..|xs| - 1]), xs[|xs| - 1])
  }

  function Merge(a: Chunk, b: Chunk): Chunk {
    a.(graphScore := b.graphScore, entities := Dedup(a.entities + b.entities), relations := Dedup(a.relations + b.relations))
  }

  function Keep(list: seq<Chunk>): map<Id, Chunk> {
    if list == [] then map[] else Keep(list[..|list| - 1])[list[|list| - 1].id := list[|list| - 1]]
  }

  function Absorb(store: map<Id, Chunk>, c: Chunk): map<Id, Chunk> {
    store[c.id := if c.id in store then Merge(store[c.id], c) else c]
  }

  function Store(vector: seq<Chunk>, graph: seq<Chunk>): map<Id, Chunk> {
    if graph == [] then Keep(vector) else Absorb(Store(vector, graph[..|graph| - 1]), graph[|graph| - 1])
  }

  lemma {:induction false} DedupIs(xs: seq<int>)
    ensures Unique(Dedup(xs)) && forall x :: x in Dedup(xs) <==> x in xs
  {
    if xs != [] {
      DedupIs(xs[..|xs| - 1]);
      assert xs == xs[..|xs| - 1] + [xs[|xs| - 1]];
    }
  }

  /** `x` occurs in `xs` before any `y` does. */
  ghost predicate Sooner(xs: seq<int>, x: int, y: int) {
    exists p :: 0 <= p < |xs| && xs[p] == x && y !in xs[..p + 1]
  }

  lemma SoonerStays(xs: seq<int>, z: int, x: int, y: int)
    requires Sooner(xs, x, y) || (x in xs && y !in xs && y == z)
    ensures Sooner(xs + [z], x, y)
  {
    var p :| 0 <= p < |xs| && xs[p] == x && y !in xs[..p + 1];
    assert (xs + [z])[..p + 1] == xs[..p + 1] && (xs + [z])[p] == x;
  }

  /** First occurrences keep their order. */
  lemma {:induction false} DedupKeepsOrder(xs: seq<int>, i: nat, j: nat)
    requires i < j < |Dedup(xs)|
    ensures Sooner(xs, Dedup(xs)[i], Dedup(xs)[j])
  {
    var n := |xs| - 1;
    var before, z := Dedup(xs[..n]), xs[n];
    assert xs == xs[..n] + [z];
    DedupIs(xs[..n]);
    if j < |before| {
      DedupKeepsOrder(xs[..n], i, j);
    } else {
      assert before[i] in before;
    }
    SoonerStays(xs[..n], z, Dedup(xs)[i], Dedup(xs)[j]);
  }

  /** One of the graph chunks with the id has the entity. */
  ghost predicate Brings(graph: seq<Chunk>, id: Id, e: int) {
    exists i :: 0 <= i < |graph| && graph[i].id == id && e in graph[i].entities
  }

  ghost predicate BringsRelation(graph: seq<Chunk>, id: Id, r: int) {
    exists i :: 0 <= i < |graph| && graph[i].id == id && r in graph[i].relations
  }

  lemma BringsNext(graph: seq<Chunk>, id: Id, e: int, n: nat)
    requires n == |graph| - 1
    ensures Brings(graph, id, e) <==> Brings(graph[..n], id, e) || (graph[n].id == id && e in graph[n].entities)
    ensures BringsRelation(graph, id, e) <==> BringsRelation(graph[..n], id, e) || (graph[n].id == id && e in graph[n].relations)
  {
    if i :| 0 <= i < |graph| && graph[i].id == id && e in graph[i].entities {
      assert i < n ==> graph[..n][i] == graph[i];
    }
    if i :| 0 <= i < n && graph[..n][i].id == id && e in graph[..n][i].entities {
      assert graph[i] == graph[..n][i];
    }
    if i :| 0 <= i < |graph| && graph[i].id == id && e in graph[i].relations {
      assert i < n ==> graph[..n][i] == graph[i];
    }
    if i :| 0 <= i < n && graph[..n][i].id == id && e in graph[..n][i].relations {
      assert graph[i] == graph[..n][i];
    }
  }

  /** The chunk that the others with its id are merged into: the last vector chunk, or the first graph chunk. */
  ghost predicate IsBase(vector: seq<Chunk>, graph: seq<Chunk>, id: Id, base: Chunk) {
    var v := RankOf(vector, id);
    if v > 0 then v <= |vector| && base == vector[v - 1]
    else exists i :: 0 <= i < |graph| && base == graph[i] && base.id == id && RankOf(graph[..i], id) == 0
  }

  lemma BaseStays(vector: seq<Chunk>, graph: seq<Chunk>, id: Id, base: Chunk, n: nat)
    requires n <= |graph| && IsBase(vector, graph[..n], id, base)
    ensures IsBase(vector, graph, id, base)
  {
    if RankOf(vector, id) == 0 {
      var i :| 0 <= i < n && base == graph[..n][i] && base.id == id && RankOf(graph[..n][..i], id) == 0;
      assert graph[..n][..i] == graph[..i] && graph[i] == base;
    }
  }

  /** What the store keeps of all chunks with an id, whatever repeats there are: identity, body and vector score of the base,
      the graph score of the last graph chunk, and every entity and relation. */
  ghost predicate Keeps(vector: seq<Chunk>, graph: seq<Chunk>, id: Id, base: Chunk, kept: Chunk) {
    && IsBase(vector, graph, id, base)
    && kept.id == id && kept.body == base.body && kept.vectorScore == base.vectorScore
    && kept.graphScore == (var g := RankOf(graph, id); if 0 < g <= |graph| then graph[g - 1].graphScore else base.graphScore)
    && (forall e :: e in kept.entities <==> e in base.entities || Brings(graph, id, e))
    && (forall r :: r in kept.relations <==> r in base.relations || BringsRelation(graph, id, r))
  }

  lemma MergeKeeps(vector: seq<Chunk>, graph: seq<Chunk>, n: nat, id: Id, base: Chunk, kept: Chunk)
    requires n == |graph| - 1 && Keeps(vector, graph[..n], id, base, kept) && graph[n].id == id
    ensures Keeps(vector, graph, id, base, Merge(kept, graph[n]))
  {
    BaseStays(vector, graph, id, base, n);
    DedupIs(kept.entities + graph[n].entities);
    DedupIs(kept.relations + graph[n].relations);
    forall e
      ensures Brings(graph, id, e) <==> Brings(graph[..n], id, e) || e in graph[n].entities
      ensures BringsRelation(graph, id, e) <==> BringsRelation(graph[..n], id, e) || e in graph[n].relations
    {
      BringsNext(graph, id, e, n);
    }
  }

  lemma OtherKeeps(vector: seq<Chunk>, graph: seq<Chunk>, n: nat, id: Id, base: Chunk, kept: Chunk)
    requires n == |graph| - 1 && Keeps(vector, graph[..n], id, base, kept) && graph[n].id != id
    ensures Keeps(vector, graph, id, base, kept)
  {
    BaseStays(vector, graph, id, base, n);
    RankIsLast(graph[..n], id);
    if RankOf(graph, id) > 0 {
      assert graph[..n][RankOf(graph, id) - 1] == graph[RankOf(graph, id) - 1];
    }
    forall e
      ensures Brings(graph, id, e) <==> Brings(graph[..n], id, e)
      ensures BringsRelation(graph, id, e) <==> BringsRelation(graph[..n], id, e)
    {
      BringsNext(graph, id, e, n);
    }
  }

  lemma FirstKeeps(vector: seq<Chunk>, graph: seq<Chunk>, n: nat, id: Id)
    requires n == |graph| - 1 && RankOf(vector, id) == 0 && RankOf(graph[..n], id) == 0 && graph[n].id == id
    ensures Keeps(vector, graph, id, graph[n], graph[n])
  {
    RankIsLast(graph[..n], id);
    forall e
      ensures Brings(graph, id, e) <==> e in graph[n].entities
      ensures BringsRelation(graph, id, e) <==> e in graph[n].relations
    {
      BringsNext(graph, id, e, n);
      assert !Brings(graph[..n], id, e) && !BringsRelation(graph[..n], id, e);
    }
  }

  lemma {:induction false} StoreKeeps(vector: seq<Chunk>, graph: seq<Chunk>, id: Id) returns (base: Chunk)
    requires RankOf(vector, id) > 0 || RankOf(graph, id) > 0
    ensures id in Store(vector, graph) && Keeps(vector, graph, id, base, Store(vector, graph)[id])
    decreases |graph|
  {
    StoreHolds(vector, graph, id);
    RankIsLast(vector, id);
    KeepIs(vector, id);
    if graph == [] {
      base := vector[RankOf(vector, id) - 1];
    } else {
      var n := |graph| - 1;
      StoreHolds(vector, graph[..n], id);
      if RankOf(vector, id) > 0 || RankOf(graph[..n], id) > 0 {
        base := StoreKeeps(vector, graph[..n], id);
        if graph[n].id == id {
          MergeKeeps(vector, graph, n, id, base, Store(vector, graph[..n])[id]);
        } else {
          OtherKeeps(vector, graph, n, id, base, Store(vector, graph[..n])[id]);
        }
      } else {
        base := graph[n];
        FirstKeeps(vector, graph, n, id);
      }
    }
  }

  lemma {:induction false} KeepIs(list: seq<Chunk>, id: Id)
    ensures id in Keep(list) <==> RankOf(list, id) > 0
    ensures RankOf(list, id) > 0 ==> RankOf(list, id) <= |list| && Keep(list)[id] == list[RankOf(list, id) - 1]
  {
    if list != [] {
      KeepIs(list[..|list| - 1], id);
    }
  }

  ghost predicate UniqueIds(list: seq<Chunk>) {
    list == [] || (RankOf(list[..|list| - 1], list[|list| - 1].id) == 0 && UniqueIds(list[..|list| - 1]))
  }

  /** Over lists without repeats: the vector chunk merged with the graph chunk, or the one that there is. */
  lemma {:induction false} StoreIs(vector: seq<Chunk>, graph: seq<Chunk>, id: Id)
    requires UniqueIds(graph)
    ensures id in Store(vector, graph) <==> RankOf(vector, id) > 0 || RankOf(graph, id) > 0
    ensures var (v, g) := (RankOf(vector, id), RankOf(graph, id));
            && v <= |vector| && g <= |graph|
            && (v > 0 && g == 0 ==> Store(vector, graph)[id] == vector[v - 1])
            && (v == 0 && g > 0 ==> Store(vector, graph)[id] == graph[g - 1])
            && (v > 0 && g > 0 ==> Store(vector, graph)[id] == Merge(vector[v - 1], graph[g - 1]))
  {
    RankIsLast(vector, id);
    RankIsLast(graph, id);
    KeepIs(vector, id);
    if graph != [] {
      StoreIs(vector, graph[..|graph| - 1], id);
    }
  }

  lemma {:induction false} StoreHolds(vector: seq<Chunk>, graph: seq<Chunk>, id: Id)
    ensures id in Store(vector, graph) <==> RankOf(vector, id) > 0 || RankOf(graph, id) > 0
  {
    KeepIs(vector, id);
    if graph != [] {
      StoreHolds(vector, graph[..|graph| - 1], id);
    }
  }

  // ---------- The fusion ----------

  /** A list cut off as Python does it: a negative bound counts from the end. */
  function Slice(ids: seq<Id>, n: int): seq<Id> {
    if n >= |ids| then ids
    else if n >= 0 then ids[..n]
    else if |ids| + n >= 0 then ids[..|ids| + n]
    else []
  }

  function Origin(vector: seq<Chunk>, graph: seq<Chunk>, id: Id): Source {
    if RankOf(vector, id) > 0 && RankOf(graph, id) > 0 then Hybrid
    else if RankOf(vector, id) > 0 then FromVector
    else FromGraph
  }

  /** What the result says about one id. */
  ghost predicate Describes(vector: seq<Chunk>, graph: seq<Chunk>, w: Weights, f: Fused, id: Id) {
    && id in Store(vector, graph) && f.chunk == Store(vector, graph)[id]
    && MaxPossible(w) != 0.0 && f.score == Normalized(Score(vector, graph, w, id), w)
    && f.source == Origin(vector, graph, id)
  }

  ghost predicate Lists(vector: seq<Chunk>, graph: seq<Chunk>, w: Weights, fused: seq<Fused>, ids: seq<Id>) {
    |fused| == |ids| && forall i :: 0 <= i < |fused| ==> Describes(vector, graph, w, fused[i], ids[i])
  }

  ghost predicate Ranked(list: seq<Chunk>, ranks: map<Id, int>) {
    forall id :: (id in ranks <==> RankOf(list, id) > 0) && (id in ranks ==> ranks[id] == RankOf(list, id))
  }

  lemma RankNext(list: seq<Chunk>, i: nat, ranks: map<Id, int>)
    requires i < |list| && Ranked(list[..i], ranks)
    ensures Ranked(list[..i + 1], ranks[list[i].id := i + 1])
  {
    assert list[..i + 1][..i] == list[..i];
  }

  method RankVector(vector: seq<Chunk>) returns (ranks: map<Id, int>, store: map<Id, Chunk>)
    ensures Ranked(vector, ranks) && store == Keep(vector)
  {
    ranks, store := map[], map[];
    for i := 0 to |vector|
      invariant Ranked(vector[..i], ranks) && store == Keep(vector[..i])
    {
      RankNext(vector, i, ranks);
      assert vector[..i + 1][..i] == vector[..i];
      ranks := ranks[vector[i].id := i + 1];
      store := store[vector[i].id := vector[i]];
    }
    assert vector[..|vector|] == vector;
  }

  method RankGraph(ghost vector: seq<Chunk>, graph: seq<Chunk>, kept: map<Id, Chunk>)
      returns (ranks: map<Id, int>, store: map<Id, Chunk>)
    requires kept == Keep(vector)
    ensures Ranked(graph, ranks) && store == Store(vector, graph)
  {
    ranks, store := map[], kept;
    for i := 0 to |graph|
      invariant Ranked(graph[..i], ranks) && store == Store(vector, graph[..i])
    {
      RankNext(graph, i, ranks);
      assert graph[..i + 1][..i] == graph[..i];
      var c := graph[i];
      ranks := ranks[c.id := i + 1];
      if c.id !in store {
        store := store[c.id := c];
      } else {
        store := store[c.id := Merge(store[c.id], c)];
      }
    }
    assert graph[..|graph|] == graph;
  }

  /** The best `topK` of all ids, in order, each with its merged chunk, its share of the best score and its origin. */
  method Fuse(vector: seq<Chunk>, graph: seq<Chunk>, topK: int, w: Weights) returns (fused: seq<Fused>)
    ensures Lists(vector, graph, w, fused, Slice(Order(vector, graph, w), topK))
  {
    OrderHolds(vector, graph, w);
    if vector == [] && graph == [] {
      return [];
    }
    var vectorRanks, kept := RankVector(vector);
    var graphRanks, store := RankGraph(vector, graph, kept);
    var scores, order := OrderIds(vector, graph, w, vectorRanks, graphRanks);
    SliceMembers(order, topK);
    fused := Entries(vector, graph, w, vectorRanks, graphRanks, store, scores, Slice(order, topK));
  }

  lemma SliceMembers(ids: seq<Id>, n: int)
    ensures forall id :: id in Slice(ids, n) ==> id in ids
  {
  }

  /** The ids of both lists, sorted by the scores that the rank tables give. */
  method OrderIds(vector: seq<Chunk>, graph: seq<Chunk>, w: Weights, vectorRanks: map<Id, int>, graphRanks: map<Id, int>)
      returns (scores: map<Id, real>, order: seq<Id>)
    requires Ranked(vector, vectorRanks) && Ranked(graph, graphRanks)
    ensures order == Order(vector, graph, w)
    ensures forall id :: id in order ==> Scored(vector, graph, w, scores, id)
  {
    var all := AddIds(AddIds([], vector), graph);
    scores := ScoreAll(vector, graph, w, vectorRanks, graphRanks, all);
    SortByIsSort(vector, graph, w, scores, all);
    SortMembers(vector, graph, w, all);
    order := SortBy(scores, all);
  }

  method Entries(ghost vector: seq<Chunk>, ghost graph: seq<Chunk>, w: Weights, vectorRanks: map<Id, int>,
                 graphRanks: map<Id, int>, store: map<Id, Chunk>, scores: map<Id, real>, ids: seq<Id>)
      returns (fused: seq<Fused>)
    requires Ranked(vector, vectorRanks) && Ranked(graph, graphRanks) && store == Store(vector, graph)
    requires forall id :: id in ids ==> Scored(vector, graph, w, scores, id)
    requires forall id :: id in ids ==> RankOf(vector, id) > 0 || RankOf(graph, id) > 0
    ensures Lists(vector, graph, w, fused, ids)
  {
    fused := [];
    for i := 0 to |ids|
      invariant |fused| == i && forall k :: 0 <= k < i ==> Describes(vector, graph, w, fused[k], ids[k])
    {
      assert ids[i] in ids;
      var entry := Entry(vector, graph, w, vectorRanks, graphRanks, store, ids[i], scores);
      fused := fused + [entry];
    }
  }

  /** The scores of some ids, as computed. */
  ghost predicate Scored(vector: seq<Chunk>, graph: seq<Chunk>, w: Weights, scores: map<Id, real>, id: Id) {
    id in scores && scores[id] == Score(vector, graph, w, id)
  }

  method ScoreAll(ghost vector: seq<Chunk>, ghost graph: seq<Chunk>, w: Weights, vectorRanks: map<Id, int>,
                  graphRanks: map<Id, int>, ids: seq<Id>) returns (scores: map<Id, real>)
    requires Ranked(vector, vectorRanks) && Ranked(graph, graphRanks)
    ensures forall id :: id in ids ==> Scored(vector, graph, w, scores, id)
  {
    scores := map[];
    for i := 0 to |ids|
      invariant forall k :: 0 <= k < i ==> Scored(vector, graph, w, scores, ids[k])
    {
      TablesScore(vector, graph, w, vectorRanks, graphRanks, ids[i]);
      scores := scores[ids[i] := ScoreOf(vectorRanks, graphRanks, w, ids[i])];
    }
  }

  lemma TablesScore(vector: seq<Chunk>, graph: seq<Chunk>, w: Weights, vectorRanks: map<Id, int>,
                    graphRanks: map<Id, int>, id: Id)
    requires Ranked(vector, vectorRanks) && Ranked(graph, graphRanks)
    ensures id in vectorRanks ==> vectorRanks[id] > 0
    ensures id in graphRanks ==> graphRanks[id] > 0
    ensures ScoreOf(vectorRanks, graphRanks, w, id) == Score(vector, graph, w, id)
  {
  }

  function Rate(scores: map<Id, real>, id: Id): real {
    if id in scores then scores[id] else 0.0
  }

  /** By falling score, then by id, with the scores in a table. */
  predicate Earlier(scores: map<Id, real>, a: Id, b: Id) {
    Rate(scores, a) > Rate(scores, b) || (Rate(scores, a) == Rate(scores, b) && a < b)
  }

  function InsertBy(scores: map<Id, real>, ids: seq<Id>, id: Id): seq<Id> {
    if ids == [] then [id]
    else if Earlier(scores, id, ids[0]) then [id] + ids
    else [ids[0]] + InsertBy(scores, ids[1..], id)
  }

  function SortBy(scores: map<Id, real>, ids: seq<Id>): seq<Id> {
    if ids == [] then [] else InsertBy(scores, SortBy(scores, ids[1..]), ids[0])
  }

  lemma {:induction false} InsertByIsInsert(vector: seq<Chunk>, graph: seq<Chunk>, w: Weights, scores: map<Id, real>,
                                            ids: seq<Id>, id: Id)
    requires Scored(vector, graph, w, scores, id) && forall x :: x in ids ==> Scored(vector, graph, w, scores, x)
    ensures InsertBy(scores, ids, id) == Insert(vector, graph, w, ids, id)
  {
    if ids != [] {
      assert Scored(vector, graph, w, scores, ids[0]);
      InsertByIsInsert(vector, graph, w, scores, ids[1..], id);
    }
  }

  lemma {:induction false} InsertMembers(vector: seq<Chunk>, graph: seq<Chunk>, w: Weights, ids: seq<Id>, id: Id)
    ensures forall x :: x in Insert(vector, graph, w, ids, id) ==> x in ids || x == id
  {
    if ids != [] {
      InsertMembers(vector, graph, w, ids[1..], id);
    }
  }

  lemma {:induction false} SortMembers(vector: seq<Chunk>, graph: seq<Chunk>, w: Weights, ids: seq<Id>)
    ensures forall x :: x in Sort(vector, graph, w, ids) ==> x in ids
  {
    if ids != [] {
      SortMembers(vector, graph, w, ids[1..]);
      InsertMembers(vector, graph, w, Sort(vector, graph, w, ids[1..]), ids[0]);
    }
  }

  /** Sorting by the table of scores gives the order that the ranks define. */
  lemma {:induction false} SortByIsSort(vector: seq<Chunk>, graph: seq<Chunk>, w: Weights, scores: map<Id, real>,
                                        ids: seq<Id>)
    requires forall x :: x in ids ==> Scored(vector, graph, w, scores, x)
    ensures SortBy(scores, ids) == Sort(vector, graph, w, ids)
  {
    if ids != [] {
      var sorted := Sort(vector, graph, w, ids[1..]);
      SortByIsSort(vector, graph, w, scores, ids[1..]);
      SortMembers(vector, graph, w, ids[1..]);
      InsertByIsInsert(vector, graph, w, scores, sorted, ids[0]);
    }
  }

  method Entry(ghost vector: seq<Chunk>, ghost graph: seq<Chunk>, w: Weights, vectorRanks: map<Id, int>,
               graphRanks: map<Id, int>, store: map<Id, Chunk>, id: Id, scores: map<Id, real>) returns (f: Fused)
    requires Scored(vector, graph, w, scores, id) && Ranked(vector, vectorRanks) && Ranked(graph, graphRanks) && store == Store(vector, graph)
    requires RankOf(vector, id) > 0 || RankOf(graph, id) > 0
    ensures Describes(vector, graph, w, f, id)
  {
    StoreHolds(vector, graph, id);
    var inVector, inGraph := id in vectorRanks, id in graphRanks;
    var source := if inVector && inGraph then Hybrid else if inVector then FromVector else FromGraph;
    f := Fused(store[id], Normalized(scores[id], w), source);
  }

  /** The score out of the two rank tables. */
  function ScoreOf(vectorRanks: map<Id, int>, graphRanks: map<Id, int>, w: Weights, id: Id): real
    requires id in vectorRanks ==> vectorRanks[id] > 0
    requires id in graphRanks ==> graphRanks[id] > 0
  {
    (if id in vectorRanks then w.vector / (w.k + vectorRanks[id]) as real else 0.0)
    + (if id in graphRanks then w.graph / (w.k + graphRanks[id]) as real else 0.0)
  }

  /** A smaller `topK` gives the front of the result of a larger one. */
  lemma SmallerTopIsPrefix(vector: seq<Chunk>, graph: seq<Chunk>, w: Weights, n: nat, m: nat,
                           few: seq<Fused>, many: seq<Fused>)
    requires n <= m
    requires Lists(vector, graph, w, few, Slice(Order(vector, graph, w), n))
    requires Lists(vector, graph, w, many, Slice(Order(vector, graph, w), m))
    ensures few <= many
  {
    var order := Order(vector, graph, w);
    forall i | 0 <= i < |few|
      ensures i < |many| && few[i] == many[i]
    {
      assert Describes(vector, graph, w, few[i], order[i]);
      assert Describes(vector, graph, w, many[i], order[i]);
    }
  }
}
