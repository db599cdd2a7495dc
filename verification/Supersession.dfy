/** Supersession links between memory episodes: apps/api/app/memory/confidence.py and apps/api/app/memory/api.py. */
module Supersession {
  import opened Wrappers

  type Id = int

  // ---------- Chains of links ----------

  /** Where `n` links lead from `x`, if the chain is that long. */
  ghost function At(links: map<Id, Id>, x: Id, n: nat): Option<Id> {
    if n == 0 then Some(x)
    else
      var y := At(links, x, n - 1);
      if y.Some? && y.value in links then Some(links[y.value]) else None
  }

  ghost predicate Reaches(links: map<Id, Id>, x: Id, y: Id) {
    exists n: nat :: At(links, x, n) == Some(y)
  }

  ghost predicate Ends(links: map<Id, Id>, x: Id) {
    exists n: nat :: At(links, x, n) == None
  }

  ghost predicate OnCycle(links: map<Id, Id>, x: Id) {
    exists n: nat :: n > 0 && At(links, x, n) == Some(x)
  }

  ghost predicate Acyclic(links: map<Id, Id>) {
    forall x :: !OnCycle(links, x)
  }

  /** What the chain walk accepts for a new link from `a` to `b`. */
  ghost predicate Accepts(links: map<Id, Id>, a: Id, b: Id) {
    Ends(links, b) && !Reaches(links, b, a)
  }

  lemma {:induction false} Compose(links: map<Id, Id>, x: Id, n: nat, y: Id, m: nat)
    requires At(links, x, n) == Some(y)
    ensures At(links, x, n + m) == At(links, y, m)
  {
    if m > 0 {
      Compose(links, x, n, y, m - 1);
    }
  }

  lemma {:induction false} StaysEnded(links: map<Id, Id>, x: Id, n: nat, m: nat)
    requires n <= m && At(links, x, n) == None
    ensures At(links, x, m) == None
  {
    if n < m {
      StaysEnded(links, x, n, m - 1);
    }
  }

  /** A chain that meets an entry twice goes on for ever. */
  lemma {:induction false} RepeatNeverEnds(links: map<Id, Id>, x: Id, k: nat, n: nat, m: nat)
    requires k < n && At(links, x, k).Some? && At(links, x, k) == At(links, x, n)
    ensures At(links, x, m).Some?
  {
    if m <= n {
      if At(links, x, m) == None {
        StaysEnded(links, x, m, n);
      }
    } else {
      var y := At(links, x, n).value;
      Compose(links, x, n, y, m - n);
      Compose(links, x, k, y, m - n);
      RepeatNeverEnds(links, x, k, n, k + m - n);
    }
  }

  /** Two tables of links that agree along a chain lead the same way. */
  lemma {:induction false} SameWay(links: map<Id, Id>, other: map<Id, Id>, x: Id, a: Id, n: nat)
    requires forall y :: y != a ==> (y in links <==> y in other)
    requires forall y :: y != a && y in links ==> y in other && links[y] == other[y]
    requires forall k: nat :: k < n ==> At(links, x, k) != Some(a)
    ensures At(links, x, n) == At(other, x, n)
  {
    if n > 0 {
      SameWay(links, other, x, a, n - 1);
      assert At(links, x, n - 1) != Some(a);
    }
  }

  /** The first time a chain reaches an entry. */
  lemma {:induction false} FirstVisit(links: map<Id, Id>, x: Id, a: Id, n: nat) returns (k: nat)
    requires At(links, x, n) == Some(a)
    ensures k <= n && At(links, x, k) == Some(a)
    ensures forall j: nat :: j < k ==> At(links, x, j) != Some(a)
  {
    if j: nat :| j < n && At(links, x, j) == Some(a) {
      k := FirstVisit(links, x, a, j);
    } else {
      k := n;
    }
  }

  /** Linking to a chain that does not come back puts nothing new on a cycle, even beside older cycles. */
  lemma AcceptedAddsNoCycle(links: map<Id, Id>, a: Id, b: Id, x: Id)
    requires !Reaches(links, b, a)
    requires OnCycle(links[a := b], x)
    ensures OnCycle(links, x)
  {
    var after := links[a := b];
    var n: nat :| n > 0 && At(after, x, n) == Some(x);
    if k: nat :| k < n && At(after, x, k) == Some(a) {
      assert At(after, x, k + 1) == Some(b);
      Compose(after, x, n, x, k);
      Compose(after, x, k + 1, b, n - 1);
      var j := FirstVisit(after, b, a, n - 1);
      SameWay(after, links, b, a, j);
      assert false;
    } else {
      SameWay(after, links, x, a, n);
    }
  }

  /** A new or changed link closes a cycle exactly when its target already leads back to its source. */
  lemma LinkClosesCycle(links: map<Id, Id>, a: Id, b: Id)
    requires Acyclic(links)
    ensures Acyclic(links[a := b]) <==> !Reaches(links, b, a)
  {
    var after := links[a := b];
    if Reaches(links, b, a) {
      var m: nat :| At(links, b, m) == Some(a);
      var n := FirstVisit(links, b, a, m);
      SameWay(links, after, b, a, n);
      assert At(after, b, n + 1) == Some(b);
      assert OnCycle(after, b);
    } else {
      forall x
        ensures !OnCycle(after, x)
      {
        if OnCycle(after, x) {
          AcceptedAddsNoCycle(links, a, b, x);
        }
      }
    }
  }

  ghost predicate SubLinks(some: map<Id, Id>, links: map<Id, Id>) {
    forall x {:trigger x in some} :: x in some ==> x in links && links[x] == some[x]
  }

  lemma SubLinkAt(some: map<Id, Id>, links: map<Id, Id>, x: Id)
    requires SubLinks(some, links) && x in some
    ensures x in links && links[x] == some[x]
  {
  }

  lemma {:induction false} FewerReach(some: map<Id, Id>, links: map<Id, Id>, x: Id, n: nat)
    requires SubLinks(some, links)
    ensures At(some, x, n).Some? ==> At(links, x, n) == At(some, x, n)
  {
    if n > 0 {
      FewerReach(some, links, x, n - 1);
      var y := At(some, x, n - 1);
      if y.Some? && y.value in some {
        SubLinkAt(some, links, y.value);
      }
    }
  }

  /** Dropping links never makes a cycle. */
  lemma FewerStayAcyclic(some: map<Id, Id>, links: map<Id, Id>)
    requires SubLinks(some, links) && Acyclic(links)
    ensures Acyclic(some)
  {
    forall x
      ensures !OnCycle(some, x)
    {
      if n: nat :| n > 0 && At(some, x, n) == Some(x) {
        FewerReach(some, links, x, n);
        assert OnCycle(links, x);
        assert false;
      }
    }
  }

  function Without(links: map<Id, Id>, b: Id): map<Id, Id> {
    map x | x in links && x != b :: links[x]
  }

  lemma WithoutIsSmaller(links: map<Id, Id>, b: Id)
    requires b in links
    ensures |Without(links, b)| < |links|
  {
    assert Without(links, b).Keys == links.Keys - {b};
    assert |links.Keys| == |links|;
  }

  /** In an acyclic table every chain ends. */
  lemma {:induction false} AcyclicEnds(links: map<Id, Id>, b: Id)
    requires Acyclic(links)
    ensures Ends(links, b)
    decreases |links|
  {
    if b !in links {
      assert At(links, b, 1) == None;
    } else {
      var rest := Without(links, b);
      var c := links[b];
      WithoutIsSmaller(links, b);
      FewerStayAcyclic(rest, links);
      AcyclicEnds(rest, c);
      var n: nat :| At(rest, c, n) == None;
      assert At(links, b, 1) == Some(c);
      forall k: nat
        ensures At(links, c, k) != Some(b)
      {
        Compose(links, b, 1, c, k);
        assert At(links, b, 1 + k) == Some(b) ==> OnCycle(links, b);
      }
      SameWay(links, rest, c, b, n);
      Compose(links, b, 1, c, n);
    }
  }

  /** The chain walk rejects exactly the links that would close a cycle. */
  lemma WalkIsExact(links: map<Id, Id>, a: Id, b: Id)
    requires Acyclic(links)
    ensures Accepts(links, a, b) <==> Acyclic(links[a := b])
  {
    AcyclicEnds(links, b);
    LinkClosesCycle(links, a, b);
  }

  lemma UnlinkedReachesItself(links: map<Id, Id>, x: Id, y: Id)
    requires x !in links && x != y
    ensures Accepts(links, y, x)
  {
    assert At(links, x, 1) == None;
    forall n: nat
      ensures At(links, x, n) != Some(y)
    {
      if n > 0 {
        StaysEnded(links, x, 1, n);
      }
    }
  }

  // ---------- Episodes ----------

  datatype Status = Open | Active | Degraded | Superseded | Rejected | Archived

  datatype Episode = Episode(project: Id, kind: int, status: Status, next: Option<Id>)

  datatype Answer =
    | Done
    | NotFound
    | OtherProject
    | OtherKind
    | Itself
    | AlreadySuperseded
    | WouldCycle
    | BrokenChain
    | OnHold

  ghost function Links(t: map<Id, Episode>): map<Id, Id> {
    map x | x in t && t[x].next.Some? :: t[x].next.value
  }

  predicate Owned(t: map<Id, Episode>, project: Id, x: Id) {
    x in t && t[x].project == project
  }

  /** A link leads to an episode of the same project. */
  ghost predicate Intact(t: map<Id, Episode>) {
    forall x {:trigger t[x]} :: x in t && t[x].next.Some? ==> Owned(t, t[x].project, t[x].next.value)
  }

  datatype Event =
    | Create(id: Id, project: Id, kind: int, status: Status)
    | Supersede(project: Id, item: Id, other: Id)
    | SupersedeMemory(project: Id, item: Id, other: Id)
    | Merge(project: Id, source: Id, target: Id)
    | SetStatus(id: Id, status: Status)
    | HardDelete(project: Id, id: Id, held: bool)

  ghost function AnswerTo(t: map<Id, Episode>, e: Event): Answer {
    match e
    case Create(id, _, _, _) => Done
    case Supersede(project, item, other) =>
      if !Owned(t, project, item) || !Owned(t, project, other) then NotFound
      else if item == other then Itself
      else if t[item].status.Superseded? || t[other].status.Superseded? then AlreadySuperseded
      else if !Accepts(Links(t), item, other) then WouldCycle
      else Done
    case SupersedeMemory(project, item, other) =>
      if !Owned(t, project, item) || other !in t then NotFound
      else if t[other].project != project then OtherProject
      else if item == other then Itself
      else if !Accepts(Links(t), item, other) then WouldCycle
      else Done
    case Merge(project, source, target) =>
      if !Owned(t, project, source) || target !in t then NotFound
      else if t[target].project != project then OtherProject
      else if t[target].kind != t[source].kind then OtherKind
      else if source == target then Itself
      else Done
    case SetStatus(id, _) => if id in t then Done else NotFound
    case HardDelete(project, id, held) => if !Owned(t, project, id) then NotFound else if held then OnHold else Done
  }

  /** A deleted episode takes the links to it along. */
  function Deleted(t: map<Id, Episode>, id: Id): map<Id, Episode> {
    map x | x in t && x != id :: if t[x].next == Some(id) then t[x].(next := None) else t[x]
  }

  function Linked(t: map<Id, Episode>, a: Id, b: Id): map<Id, Episode>
    requires a in t
  {
    t[a := t[a].(status := Superseded, next := Some(b))]
  }

  ghost function Step(t: map<Id, Episode>, e: Event): map<Id, Episode> {
    if !AnswerTo(t, e).Done? then t
    else
      match e
      case Create(id, project, kind, status) =>
        if id in t then t else t[id := Episode(project, kind, status, None)]
      case Supersede(_, item, other) => Linked(t, item, other)
      case SupersedeMemory(_, item, other) => Linked(t, item, other)
      case Merge(_, source, target) => Linked(t, target, source)
      case SetStatus(id, status) => t[id := t[id].(status := status)]
      case HardDelete(_, id, _) => Deleted(t, id)
  }

  ghost function Run(es: seq<Event>): map<Id, Episode> {
    if es == [] then map[] else Step(Run(es[..|es| - 1]), es[|es| - 1])
  }

  lemma {:induction false} RunsStayIntact(es: seq<Event>)
    ensures Intact(Run(es))
  {
    if es != [] {
      RunsStayIntact(es[..|es| - 1]);
    }
  }

  /** A merge that goes through, from a source whose chain already leads to the target. */
  ghost predicate BadMerge(t: map<Id, Episode>, e: Event) {
    e.Merge? && AnswerTo(t, e).Done? && Reaches(Links(t), e.source, e.target)
  }

  lemma LinkedLinks(t: map<Id, Episode>, a: Id, b: Id)
    requires a in t
    ensures Links(Linked(t, a, b)) == Links(t)[a := b]
  {
  }

  /** Only merging into an episode that the source already leads to can break acyclicity, and it always does. */
  lemma StepAcyclicIff(t: map<Id, Episode>, e: Event)
    requires Acyclic(Links(t))
    ensures Acyclic(Links(Step(t, e))) <==> !BadMerge(t, e)
  {
    if !AnswerTo(t, e).Done? {
      return;
    }
    match e
    case Supersede(_, item, other) =>
      LinkedLinks(t, item, other);
      LinkClosesCycle(Links(t), item, other);
    case SupersedeMemory(_, item, other) =>
      LinkedLinks(t, item, other);
      LinkClosesCycle(Links(t), item, other);
    case Merge(_, source, target) =>
      LinkedLinks(t, target, source);
      LinkClosesCycle(Links(t), target, source);
    case Create(_, _, _, _) =>
      FewerStayAcyclic(Links(Step(t, e)), Links(t));
    case SetStatus(_, _) =>
      FewerStayAcyclic(Links(Step(t, e)), Links(t));
    case HardDelete(_, _, _) =>
      FewerStayAcyclic(Links(Step(t, e)), Links(t));
  }

  ghost predicate AlwaysAcyclic(es: seq<Event>) {
    Acyclic(Links(Run(es))) && (es == [] || AlwaysAcyclic(es[..|es| - 1]))
  }

  ghost predicate NoBadMerge(es: seq<Event>) {
    es == [] || (NoBadMerge(es[..|es| - 1]) && !BadMerge(Run(es[..|es| - 1]), es[|es| - 1]))
  }

  /** A history is free of cycles throughout exactly when it holds no bad merge; without merges it always is. */
  lemma {:induction false} AcyclicIffNoBadMerge(es: seq<Event>)
    ensures AlwaysAcyclic(es) <==> NoBadMerge(es)
  {
    if es == [] {
    } else {
      var before := es[..|es| - 1];
      AcyclicIffNoBadMerge(before);
      if AlwaysAcyclic(before) {
        StepAcyclicIff(Run(before), es[|es| - 1]);
      }
    }
  }

  lemma {:induction false} NoMergeNoBadMerge(es: seq<Event>)
    requires forall e :: e in es ==> !e.Merge?
    ensures NoBadMerge(es)
  {
    if es != [] {
      assert es[|es| - 1] in es;
      NoMergeNoBadMerge(es[..|es| - 1]);
    }
  }

  /** Merging two episodes into each other closes a cycle. */
  lemma MergesCanCycle()
    ensures exists es: seq<Event> :: |es| == 4 && !Acyclic(Links(Run(es)))
  {
    var e0, e1 := Create(1, 7, 0, Open), Create(2, 7, 0, Open);
    var e2, e3 := Merge(7, 1, 2), Merge(7, 2, 1);
    var es := [e0, e1, e2, e3];
    var t2 := map[1 := Episode(7, 0, Open, None), 2 := Episode(7, 0, Open, None)];
    assert Run([e0]) == map[1 := Episode(7, 0, Open, None)] by {
      assert [e0][..0] == [];
    }
    assert Run([e0, e1]) == t2 by {
      assert [e0, e1][..1] == [e0];
    }
    var t3 := Linked(t2, 2, 1);
    assert Run([e0, e1, e2]) == t3 by {
      assert [e0, e1, e2][..2] == [e0, e1];
    }
    assert Run(es) == Linked(t3, 1, 2) by {
      assert es[..3] == [e0, e1, e2];
    }
    var links := Links(Run(es));
    assert At(links, 1, 1) == Some(2);
    assert At(links, 1, 2) == Some(1);
    assert OnCycle(links, 1);
  }

  // ---------- The endpoints ----------

  lemma Shrinks(all: set<Id>, visited: set<Id>, x: Id)
    requires x in all && x !in visited
    ensures |all - (visited + {x})| < |all - visited|
  {
    assert all - (visited + {x}) == (all - visited) - {x};
  }

  ghost predicate Met(links: map<Id, Id>, start: Id, n: nat, y: Id) {
    exists k: nat :: k < n && At(links, start, k) == Some(y)
  }

  /** What the walk has seen after `n` links: nobody twice, and not the episode to be linked. */
  ghost predicate Seen(links: map<Id, Id>, start: Id, item: Id, visited: set<Id>, n: nat) {
    && (forall y :: y in visited <==> y == item || Met(links, start, n, y))
    && (forall k: nat :: k < n ==> At(links, start, k).Some? && At(links, start, k) != Some(item))
  }

  lemma WalkRejects(links: map<Id, Id>, start: Id, item: Id, visited: set<Id>, n: nat, cursor: Id)
    requires Seen(links, start, item, visited, n) && At(links, start, n) == Some(cursor) && cursor in visited
    ensures !Accepts(links, item, start)
  {
    if cursor != item {
      var k: nat :| k < n && At(links, start, k) == Some(cursor);
      forall m: nat
        ensures At(links, start, m).Some?
      {
        RepeatNeverEnds(links, start, k, n, m);
      }
    }
  }

  lemma SeenGrows(links: map<Id, Id>, start: Id, item: Id, visited: set<Id>, n: nat, cursor: Id)
    requires Seen(links, start, item, visited, n) && At(links, start, n) == Some(cursor) && cursor !in visited
    ensures Seen(links, start, item, visited + {cursor}, n + 1)
  {
    forall y
      ensures Met(links, start, n + 1, y) <==> Met(links, start, n, y) || y == cursor
    {
      if k: nat :| k < n + 1 && At(links, start, k) == Some(y) {
        assert k < n || k == n;
      }
    }
  }

  /** A chain that ends at `cursor` without meeting the episode to be linked is accepted. */
  lemma WalkAccepts(links: map<Id, Id>, start: Id, item: Id, visited: set<Id>, n: nat, cursor: Id)
    requires Seen(links, start, item, visited, n) && At(links, start, n) == Some(cursor) && cursor !in visited
    requires cursor !in links
    ensures Accepts(links, item, start)
  {
    assert At(links, start, n + 1) == None;
    forall k: nat
      ensures At(links, start, k) != Some(item)
    {
      if k > n {
        StaysEnded(links, start, n + 1, k);
      }
    }
  }

  lemma StartsLinked(links: map<Id, Id>, start: Id, n: nat, y: Id)
    requires At(links, start, n) == Some(y) && y in links
    ensures start in links
  {
    if start !in links && n > 0 {
      assert At(links, start, 1) == None;
      StaysEnded(links, start, 1, n);
    }
  }

  class Memory {
    var episodes: map<Id, Episode>

    ghost predicate Valid()
      reads this
    {
      Intact(episodes)
    }

    constructor ()
      ensures Valid() && episodes == Run([])
    {
      episodes := map[];
    }

    /** Follows the links from `start`; a missing or foreign episode on the way ends the request. */
    method WalkOwned(project: Id, item: Id, start: Id) returns (r: Answer)
      requires Valid() && Owned(episodes, project, start)
      ensures r == if Accepts(Links(episodes), item, start) then Done else WouldCycle
    {
      var cursor := start;
      var visited := {item};
      ghost var n: nat := 0;
      ghost var links := Links(episodes);
      while true
        invariant Owned(episodes, project, cursor)
        invariant Seen(links, start, item, visited, n) && At(links, start, n) == Some(cursor)
        decreases |episodes.Keys - visited|
      {
        ghost var before := visited;
        if cursor in visited {
          WalkRejects(links, start, item, visited, n, cursor);
          return WouldCycle;
        }
        SeenGrows(links, start, item, visited, n, cursor);
        Shrinks(episodes.Keys, visited, cursor);
        visited := visited + {cursor};
        if episodes[cursor].next.None? {
          WalkAccepts(links, start, item, before, n, cursor);
          return Done;
        }
        var next := episodes[cursor].next.value;
        if !Owned(episodes, project, next) {
          return NotFound;
        }
        cursor, n := next, n + 1;
      }
    }

    /** Follows the links from `start`; a missing episode ends the walk. */
    method WalkAny(item: Id, start: Id) returns (r: Answer)
      requires Valid() && start in episodes
      ensures r == if Accepts(Links(episodes), item, start) then Done else WouldCycle
    {
      var cursor := Some(start);
      var visited := {item};
      ghost var n: nat := 0;
      ghost var links := Links(episodes);
      while cursor.Some?
        invariant cursor.Some? && cursor.value in episodes
        invariant Seen(links, start, item, visited, n) && At(links, start, n) == cursor
        decreases |episodes.Keys - visited|
      {
        ghost var before := visited;
        if cursor.value in visited {
          WalkRejects(links, start, item, visited, n, cursor.value);
          return WouldCycle;
        }
        SeenGrows(links, start, item, visited, n, cursor.value);
        Shrinks(episodes.Keys, visited, cursor.value);
        visited := visited + {cursor.value};
        if episodes[cursor.value].next.None? {
          WalkAccepts(links, start, item, before, n, cursor.value);
          return Done;
        }
        var next := episodes[cursor.value].next.value;
        cursor, n := if next in episodes then Some(next) else None, n + 1;
      }
    }

    method SupersedeEpisode(project: Id, item: Id, other: Id) returns (r: Answer)
      requires Valid()
      modifies this`episodes
      ensures Valid()
      ensures r == AnswerTo(old(episodes), Supersede(project, item, other))
      ensures episodes == Step(old(episodes), Supersede(project, item, other))
    {
      if !Owned(episodes, project, item) || !Owned(episodes, project, other) {
        return NotFound;
      }
      if item == other {
        return Itself;
      }
      if episodes[item].status.Superseded? || episodes[other].status.Superseded? {
        return AlreadySuperseded;
      }
      r := WalkOwned(project, item, other);
      if r.Done? {
        episodes := episodes[item := episodes[item].(status := Superseded, next := Some(other))];
      }
    }

    method SupersedeCurrent(project: Id, item: Id, other: Id) returns (r: Answer)
      requires Valid()
      modifies this`episodes
      ensures Valid()
      ensures r == AnswerTo(old(episodes), SupersedeMemory(project, item, other))
      ensures episodes == Step(old(episodes), SupersedeMemory(project, item, other))
    {
      if !Owned(episodes, project, item) || other !in episodes {
        return NotFound;
      }
      if episodes[other].project != episodes[item].project {
        return OtherProject;
      }
      if other == item {
        return Itself;
      }
      r := WalkAny(item, other);
      if r.Done? {
        episodes := episodes[item := episodes[item].(status := Superseded, next := Some(other))];
      }
    }

    method MergeMemories(project: Id, source: Id, target: Id) returns (r: Answer)
      requires Valid()
      modifies this`episodes
      ensures Valid()
      ensures r == AnswerTo(old(episodes), Merge(project, source, target))
      ensures episodes == Step(old(episodes), Merge(project, source, target))
    {
      if !Owned(episodes, project, source) || target !in episodes {
        return NotFound;
      }
      if episodes[target].project != episodes[source].project {
        return OtherProject;
      }
      if episodes[target].kind != episodes[source].kind {
        return OtherKind;
      }
      if target == source {
        return Itself;
      }
      episodes := episodes[target := episodes[target].(status := Superseded, next := Some(source))];
      r := Done;
    }

    /** `held` is what the legal hold check finds. */
    method HardDeleteEpisode(project: Id, id: Id, held: bool) returns (r: Answer)
      requires Valid()
      modifies this`episodes
      ensures Valid()
      ensures r == AnswerTo(old(episodes), HardDelete(project, id, held))
      ensures episodes == Step(old(episodes), HardDelete(project, id, held))
    {
      if !Owned(episodes, project, id) {
        return NotFound;
      }
      if held {
        return OnHold;
      }
      episodes := Deleted(episodes, id);
      r := Done;
    }
  }
}
