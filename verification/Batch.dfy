/** Batched extraction in packages/core/src/open_graph_core/extraction.py: fitting a request into its
    character budget, and turning whatever the provider answers into one result per chunk. */
module Batch {
  import opened Wrappers

  type Id = int

  datatype Reference = Reference(id: Id, index: int, text: string)

  datatype Context = Context(id: Id, target: string, references: seq<Reference>)

  type Extraction = int

  datatype Result = Result(id: Id, extraction: Extraction)

  // ---------- Fitting the budget ----------

  function AllReferences(contexts: seq<Context>): seq<Reference> {
    if contexts == [] then [] else contexts[0].references + AllReferences(contexts[1..])
  }

  /** The order in which references are given up. */
  predicate Older(a: Reference, b: Reference) {
    a.index < b.index || (a.index == b.index && a.id <= b.id)
  }

  function Oldest(rs: seq<Reference>): (r: Reference)
    requires rs != []
    ensures r in rs && forall x :: x in rs ==> Older(r, x)
  {
    if |rs| == 1 then rs[0]
    else
      assert rs == [rs[0]] + rs[1..];
      var o := Oldest(rs[1..]);
      if Older(rs[0], o) then rs[0] else o
  }

  function Without(rs: seq<Reference>, id: Id): (kept: seq<Reference>)
    ensures forall r :: r in kept <==> r in rs && r.id != id
    ensures |kept| <= |rs| && ((exists r :: r in rs && r.id == id) ==> |kept| < |rs|)
  {
    if rs == [] then []
    else
      assert rs == [rs[0]] + rs[1..];
      (if rs[0].id == id then [] else [rs[0]]) + Without(rs[1..], id)
  }

  function Drop(contexts: seq<Context>, id: Id): (r: seq<Context>)
    ensures |r| == |contexts|
    ensures forall k :: 0 <= k < |r| ==> r[k] == contexts[k].(references := Without(contexts[k].references, id))
  {
    seq(|contexts|, k requires 0 <= k < |contexts| => contexts[k].(references := Without(contexts[k].references, id)))
  }

  lemma {:induction false} AllReferencesOf(contexts: seq<Context>, r: Reference)
    ensures r in AllReferences(contexts) <==> exists k :: 0 <= k < |contexts| && r in contexts[k].references
  {
    if contexts != [] {
      AllReferencesOf(contexts[1..], r);
      if r in contexts[0].references {
        assert r in contexts[0].references;
      } else if r in AllReferences(contexts[1..]) {
        var k :| 0 <= k < |contexts| - 1 && r in contexts[1..][k].references;
        assert r in contexts[k + 1].references;
      }
      if k :| 0 <= k < |contexts| && r in contexts[k].references {
        assert k > 0 ==> r in contexts[1..][k - 1].references;
      }
    }
  }

  lemma {:induction false} DropShrinks(contexts: seq<Context>, id: Id)
    requires exists r :: r in AllReferences(contexts) && r.id == id
    ensures |AllReferences(Drop(contexts, id))| < |AllReferences(contexts)|
  {
    var rest, dropped := contexts[1..], Drop(contexts, id);
    assert dropped[1..] == Drop(rest, id);
    if exists r :: r in AllReferences(rest) && r.id == id {
      DropShrinks(rest, id);
    } else {
      DropKeepsCount(rest, id);
    }
  }

  lemma {:induction false} DropKeepsCount(contexts: seq<Context>, id: Id)
    ensures |AllReferences(Drop(contexts, id))| <= |AllReferences(contexts)|
  {
    if contexts != [] {
      assert Drop(contexts, id)[1..] == Drop(contexts[1..], id);
      DropKeepsCount(contexts[1..], id);
    }
  }

  /** `r` asks for the first targets of `contexts`, with some of their references left out: none of the
      references kept is older than any that was given up for its identifier. */
  ghost predicate Trimmed(contexts: seq<Context>, r: seq<Context>) {
    && |r| <= |contexts|
    && forall k :: 0 <= k < |r| ==> SameTarget(contexts[k], r[k])
  }

  ghost predicate SameTarget(a: Context, b: Context) {
    b.id == a.id && b.target == a.target && forall x :: x in b.references ==> x in a.references
  }

  /** `payloadChars` measures a request, as the length of its JSON text. */
  method FitBatch(contexts: seq<Context>, maxChars: int, payloadChars: seq<Context> -> nat)
    returns (selected: seq<Context>, ghost tried: seq<seq<Context>>)
    requires contexts != []
    ensures selected != [] && Trimmed(contexts, selected)
    // the request fits, unless a single target without references is already too much
    ensures payloadChars(selected) <= maxChars || (|selected| == 1 && AllReferences(selected) == [])
    // nothing is given up in vain: each request tried before was too long and lost only its next part
    ensures Tried(contexts, tried, selected) && TooLong(tried, maxChars, payloadChars)
    ensures payloadChars(contexts) <= maxChars ==> selected == contexts
    // no target is given up while a reference is left
    ensures |selected| < |contexts| ==> AllReferences(selected) == []
    // references are given up oldest first
    ensures InOrder(contexts, selected)
  {
    selected, tried := contexts, [contexts];
    while payloadChars(selected) > maxChars
      invariant selected != [] && Trimmed(contexts, selected) && InOrder(contexts, selected)
      invariant Tried(contexts, tried, selected) && TooLong(tried, maxChars, payloadChars)
      invariant |selected| < |contexts| ==> AllReferences(selected) == []
      decreases |AllReferences(selected)|, |selected|
    {
      var references := AllReferences(selected);
      ghost var before := selected;
      if references == [] {
        if |selected| == 1 {
          return;
        }
        selected := selected[..|selected| - 1];
        ShorterHasNone(before);
        ShorterInOrder(contexts, before, selected);
      } else {
        var oldest := Oldest(references);
        selected := Drop(selected, oldest.id);
        DropShrinks(before, oldest.id);
        DropKeepsOrder(contexts, before, oldest);
      }
      TriedNext(contexts, tried, before, selected, maxChars, payloadChars);
      tried := tried + [selected];
    }
  }

  /** References are only given up, and each went with the identifier of one at least as old as all that are kept. */
  ghost predicate InOrder(contexts: seq<Context>, selected: seq<Context>)
    requires |selected| <= |contexts|
  {
    && (forall x :: x in AllReferences(selected) ==> x in AllReferences(contexts))
    && forall k, d :: 0 <= k < |selected| && d in contexts[k].references && d !in selected[k].references ==>
         GivenUpInOrder(AllReferences(contexts), AllReferences(selected), d)
  }

  /** All requests but the last were too long. */
  ghost predicate TooLong(tried: seq<seq<Context>>, maxChars: int, payloadChars: seq<Context> -> nat) {
    forall i :: 0 <= i < |tried| - 1 ==> payloadChars(tried[i]) > maxChars
  }

  lemma ShorterInOrder(contexts: seq<Context>, selected: seq<Context>, shorter: seq<Context>)
    requires |selected| <= |contexts| && InOrder(contexts, selected) && AllReferences(selected) == [] == AllReferences(shorter)
    requires selected != [] && shorter == selected[..|selected| - 1]
    ensures InOrder(contexts, shorter)
  {
    forall k, d | 0 <= k < |shorter| && d in contexts[k].references && d !in shorter[k].references
      ensures GivenUpInOrder(AllReferences(contexts), AllReferences(shorter), d)
    {
      assert d !in selected[k].references;
    }
  }

  /** From one request to the next: the oldest reference goes, wherever its identifier occurs, and when there is
      none left the last target. */
  ghost predicate Loses(a: seq<Context>, b: seq<Context>) {
    var references := AllReferences(a);
    if references == [] then |a| > 1 && b == a[..|a| - 1]
    else exists o :: o in references && (forall x :: x in references ==> Older(o, x)) && b == Drop(a, o.id)
  }

  ghost predicate Tried(contexts: seq<Context>, tried: seq<seq<Context>>, selected: seq<Context>) {
    && tried != [] && tried[0] == contexts && tried[|tried| - 1] == selected
    && forall i, j :: 0 <= i && j == i + 1 && j < |tried| ==> Loses(tried[i], tried[j])
  }

  lemma TriedNext(contexts: seq<Context>, tried: seq<seq<Context>>, selected: seq<Context>, next: seq<Context>,
                  maxChars: int, payloadChars: seq<Context> -> nat)
    requires Tried(contexts, tried, selected) && Loses(selected, next)
    requires TooLong(tried, maxChars, payloadChars) && payloadChars(selected) > maxChars
    ensures Tried(contexts, tried + [next], next) && TooLong(tried + [next], maxChars, payloadChars)
  {
  }

  /** `d` went with the identifier of a reference at least as old as everything that is kept. */
  ghost predicate GivenUpInOrder(before: seq<Reference>, kept: seq<Reference>, d: Reference) {
    exists o :: o in before && o.id == d.id && forall x :: x in kept ==> Older(o, x)
  }

  lemma {:induction false} ShorterHasNone(contexts: seq<Context>)
    requires contexts != [] && AllReferences(contexts) == []
    ensures AllReferences(contexts[..|contexts| - 1]) == []
  {
    if |contexts| > 1 {
      var shorter := contexts[..|contexts| - 1];
      assert shorter[1..] == contexts[1..][..|contexts| - 2];
      ShorterHasNone(contexts[1..]);
    }
  }

  lemma DropKeepsOrder(contexts: seq<Context>, selected: seq<Context>, oldest: Reference)
    requires Trimmed(contexts, selected) && oldest in AllReferences(selected)
    requires forall x :: x in AllReferences(selected) ==> Older(oldest, x)
    requires InOrder(contexts, selected)
    ensures Trimmed(contexts, Drop(selected, oldest.id)) && InOrder(contexts, Drop(selected, oldest.id))
  {
    var r := Drop(selected, oldest.id);
    forall k | 0 <= k < |r|
      ensures SameTarget(contexts[k], r[k])
    {
      assert SameTarget(contexts[k], selected[k]);
    }
    forall x | x in AllReferences(r)
      ensures x in AllReferences(selected)
    {
      AllReferencesOf(r, x);
      var k :| 0 <= k < |r| && x in r[k].references;
      assert x in selected[k].references;
      AllReferencesOf(selected, x);
    }
    forall k, d | 0 <= k < |r| && d in contexts[k].references && d !in r[k].references
      ensures GivenUpInOrder(AllReferences(contexts), AllReferences(r), d)
    {
      if d in selected[k].references {
        assert d.id == oldest.id && oldest in AllReferences(contexts);
      } else {
        assert GivenUpInOrder(AllReferences(contexts), AllReferences(selected), d);
      }
    }
  }

  // ---------- Reading a reply ----------

  /** What a request can come back as.  An item's chunk id is missing when it is not a usable string; an
      item's extraction is missing when it does not validate. */
  datatype Item = Item(id: Option<Id>, extraction: Option<Extraction>)

  datatype Reply = HttpError | Unreadable | Bare(extraction: Option<Extraction>) | Results(items: seq<Item>)

  /** The chunk ids asked for, as a reply would name them. */
  function Wanted(contexts: seq<Context>): (ids: seq<Option<Id>>)
    ensures |ids| == |contexts| && forall k :: 0 <= k < |ids| ==> ids[k] == Some(contexts[k].id)
  {
    seq(|contexts|, k requires 0 <= k < |contexts| => Some(contexts[k].id))
  }

  function Named(items: seq<Item>): (ids: seq<Option<Id>>)
    ensures |ids| == |items| && forall k :: 0 <= k < |ids| ==> ids[k] == items[k].id
  {
    seq(|items|, k requires 0 <= k < |items| => items[k].id)
  }

  /** The items that would state the results. */
  function Stated(results: seq<Result>): (items: seq<Item>)
    ensures |items| == |results|
    ensures forall k :: 0 <= k < |items| ==> items[k] == Item(Some(results[k].id), Some(results[k].extraction))
  {
    seq(|results|, k requires 0 <= k < |results| => Item(Some(results[k].id), Some(results[k].extraction)))
  }

  ghost predicate Distinct(ids: seq<Option<Id>>) {
    forall i, j :: 0 <= i < j < |ids| ==> ids[i] != ids[j]
  }

  /** One result for every chunk asked for, and no other. */
  ghost predicate Answers(contexts: seq<Context>, results: seq<Result>) {
    multiset(Named(Stated(results))) == multiset(Wanted(contexts))
  }

  lemma {:induction false} CountsOnce(ids: seq<Option<Id>>, x: Option<Id>)
    requires Distinct(ids)
    ensures multiset(ids)[x] == if x in ids then 1 else 0
  {
    if ids != [] {
      var n := |ids| - 1;
      assert ids == ids[..n] + [ids[n]];
      CountsOnce(ids[..n], x);
    }
  }

  lemma CountsTwice(ids: seq<Option<Id>>, j: int, k: int)
    requires 0 <= j < k < |ids| && ids[j] == ids[k]
    ensures multiset(ids)[ids[k]] >= 2
  {
    assert ids == ids[..k] + ids[k..];
    assert ids[k] == ids[..k][j] && ids[k] == ids[k..][0];
    assert multiset(ids)[ids[k]] == multiset(ids[..k])[ids[k]] + multiset(ids[k..])[ids[k]];
  }

  /** The items of a reply cover the request: every chunk once, nothing else, and all of them valid. */
  ghost predicate Covers(items: seq<Item>, contexts: seq<Context>) {
    && multiset(Named(items)) == multiset(Wanted(contexts))
    && forall k :: 0 <= k < |items| ==> items[k].extraction.Some?
  }

  lemma NotCovered(items: seq<Item>, contexts: seq<Context>, k: int)
    requires Distinct(Wanted(contexts)) && 0 <= k < |items|
    requires items[k].id !in Wanted(contexts) || exists j :: 0 <= j < k && items[j].id == items[k].id
    ensures !Covers(items, contexts)
  {
    CountsOnce(Wanted(contexts), items[k].id);
    assert Named(items)[k] in multiset(Named(items));
    if j :| 0 <= j < k && items[j].id == items[k].id {
      CountsTwice(Named(items), j, k);
    }
  }

  lemma SameElements(a: seq<Option<Id>>, b: seq<Option<Id>>)
    requires Distinct(a) && Distinct(b) && forall x :: x in a <==> x in b
    ensures multiset(a) == multiset(b)
  {
    forall x
      ensures multiset(a)[x] == multiset(b)[x]
    {
      CountsOnce(a, x);
      CountsOnce(b, x);
    }
  }

  /** Reads the items of a reply; it succeeds exactly when they cover the request. */
  method ParseItems(items: seq<Item>, contexts: seq<Context>) returns (parsed: Option<seq<Result>>)
    requires Distinct(Wanted(contexts))
    ensures parsed.Some? <==> Covers(items, contexts)
    ensures parsed.Some? ==> Stated(parsed.value) == items
  {
    var results: seq<Result>, seen := [], {};
    ghost var names := Named(items);
    for k := 0 to |items|
      invariant |results| == k && Stated(results) == items[..k]
      invariant Distinct(names[..k]) && seen == set j | 0 <= j < k :: names[j]
      invariant forall j :: 0 <= j < k ==> names[j] in Wanted(contexts)
    {
      var item := items[k];
      if item.id.None? || item.id !in Wanted(contexts) || item.id in seen {
        NotCovered(items, contexts, k);
        return None;
      }
      if item.extraction.None? {
        return None;
      }
      results, seen := results + [Result(item.id.value, item.extraction.value)], seen + {item.id};
      assert items[..k + 1] == items[..k] + [item];
    }
    assert items[..|items|] == items && names[..|items|] == names;
    if seen != set x | x in Wanted(contexts) {
      assert !Covers(items, contexts) by {
        var x :| x in Wanted(contexts) && x !in seen;
        assert x !in names;
        assert x in multiset(Wanted(contexts));
      }
      return None;
    }
    forall x
      ensures x in names <==> x in Wanted(contexts)
    {
      if x in Wanted(contexts) {
        assert x in seen;
      }
    }
    SameElements(names, Wanted(contexts));
    return Some(results);
  }

  method ParseBatch(reply: Reply, contexts: seq<Context>) returns (parsed: Option<seq<Result>>)
    requires contexts != [] && Distinct(Wanted(contexts))
    ensures parsed.Some? <==> Readable(reply, contexts)
    ensures parsed.Some? ==> Answers(contexts, parsed.value) && forall r :: r in parsed.value <==> Offered(contexts, reply, r)
  {
    match reply
    case HttpError => return None;
    case Unreadable => return None;
    case Bare(extraction) =>
      if |contexts| == 1 && extraction.Some? {
        var result := Result(contexts[0].id, extraction.value);
        assert Named(Stated([result])) == Wanted(contexts);
        return Some([result]);
      }
      return None;
    case Results(items) =>
      parsed := ParseItems(items, contexts);
      if parsed.Some? {
        StatedAre(parsed.value, items);
      }
  }

  lemma StatedAre(results: seq<Result>, items: seq<Item>)
    requires Stated(results) == items
    ensures forall r: Result :: r in results <==> Item(Some(r.id), Some(r.extraction)) in items
  {
    forall r: Result | Item(Some(r.id), Some(r.extraction)) in items
      ensures r in results
    {
      var k :| 0 <= k < |items| && items[k] == Item(Some(r.id), Some(r.extraction));
      assert results[k] == r;
    }
    forall r | r in results
      ensures Item(Some(r.id), Some(r.extraction)) in items
    {
      var k :| 0 <= k < |results| && results[k] == r;
      assert Stated(results)[k] in items;
    }
  }

  /** The request can be read off the reply. */
  ghost predicate Readable(reply: Reply, request: seq<Context>) {
    || (reply.Bare? && |request| == 1 && reply.extraction.Some?)
    || (reply.Results? && Covers(reply.items, request))
  }

  /** The reply to the request contains the result. */
  ghost predicate Offered(request: seq<Context>, reply: Reply, r: Result) {
    || (reply.Bare? && |request| == 1 && r.id == request[0].id && reply.extraction == Some(r.extraction))
    || (reply.Results? && Item(Some(r.id), Some(r.extraction)) in reply.items)
  }

  // ---------- Extracting ----------

  /** What a request comes to: what its reply offers if that can be read; for a single chunk otherwise the extraction
      of its own text; and nothing for several chunks. */
  ghost predicate Tells(request: seq<Context>, reply: Reply, fallback: string -> Extraction, r: Result) {
    && !reply.HttpError?
    && if Readable(reply, request) then Offered(request, reply, r)
       else |request| == 1 && r == Result(request[0].id, fallback(request[0].target))
  }

  ghost predicate TellsAt(sent: seq<seq<Context>>, replies: nat -> Reply, from: nat, fallback: string -> Extraction, i: int, r: Result) {
    0 <= i < |sent| && Tells(sent[i], replies(from + i), fallback, r)
  }

  /** The results are what the requests sent come to, all of it. */
  ghost predicate Explains(sent: seq<seq<Context>>, replies: nat -> Reply, from: nat, fallback: string -> Extraction, results: seq<Result>) {
    forall r :: r in results <==> ToldOf(sent, replies, from, fallback, r)
  }

  ghost predicate ToldOf(sent: seq<seq<Context>>, replies: nat -> Reply, from: nat, fallback: string -> Extraction, r: Result) {
    exists i :: TellsAt(sent, replies, from, fallback, i, r)
  }

  /** A request asks for chunks of `contexts` with their texts, and is within the limit unless it cannot be. */
  ghost predicate Proper(contexts: seq<Context>, request: seq<Context>, maxChars: int, payloadChars: seq<Context> -> nat) {
    && (payloadChars(request) <= maxChars || (|request| == 1 && AllReferences(request) == []))
    && forall s :: s in request ==> exists c :: c in contexts && c.id == s.id && c.target == s.target
  }

  ghost predicate AllProper(contexts: seq<Context>, sent: seq<seq<Context>>, maxChars: int, payloadChars: seq<Context> -> nat) {
    forall i {:trigger sent[i]} :: 0 <= i < |sent| ==> Proper(contexts, sent[i], maxChars, payloadChars)
  }

  /** `replies(n)` is what the provider answers to the n-th request, whatever that is; `next` counts the
      requests, and `sent` are those of this call.  A request that raises loses the whole call. */
  method ExtractBatch(contexts: seq<Context>, maxChars: int, payloadChars: seq<Context> -> nat,
                      replies: nat -> Reply, fallback: string -> Extraction, from: nat)
    returns (results: Option<seq<Result>>, next: nat, ghost sent: seq<seq<Context>>)
    requires Distinct(Wanted(contexts))
    ensures next == from + |sent| && AllProper(contexts, sent, maxChars, payloadChars)
    ensures results.Some? ==> Answers(contexts, results.value) && Explains(sent, replies, from, fallback, results.value)
    ensures results.None? ==> sent != [] && replies(next - 1).HttpError?
    decreases |contexts|, 3
  {
    var remaining, gathered: seq<Result> := contexts, [];
    next, sent := from, [];
    while remaining != []
      invariant next == from + |sent| && AllProper(contexts, sent, maxChars, payloadChars)
      invariant Served(contexts, remaining, gathered) && Explains(sent, replies, from, fallback, gathered)
      decreases |remaining|
    {
      var more;
      ghost var asked;
      remaining, more, next, asked := ServeNext(contexts, remaining, gathered, maxChars, payloadChars, replies, fallback, next);
      ProperJoin(contexts, sent, asked, maxChars, payloadChars);
      if more.None? {
        return None, next, sent + asked;
      }
      ExplainsJoin(sent, asked, replies, from, fallback, gathered, more.value);
      gathered, sent := gathered + more.value, sent + asked;
    }
    assert contexts[..|contexts|] == contexts;
    results := Some(gathered);
  }

  lemma ProperJoin(contexts: seq<Context>, a: seq<seq<Context>>, b: seq<seq<Context>>, maxChars: int, payloadChars: seq<Context> -> nat)
    requires AllProper(contexts, a, maxChars, payloadChars) && AllProper(contexts, b, maxChars, payloadChars)
    ensures AllProper(contexts, a + b, maxChars, payloadChars)
  {
  }

  lemma ToldJoin(a: seq<seq<Context>>, b: seq<seq<Context>>, replies: nat -> Reply, from: nat, later: nat, fallback: string -> Extraction, r: Result)
    requires later == from + |a|
    ensures ToldOf(a + b, replies, from, fallback, r)
       <==> ToldOf(a, replies, from, fallback, r) || ToldOf(b, replies, later, fallback, r)
  {
    if i :| TellsAt(a + b, replies, from, fallback, i, r) {
      if i < |a| {
        assert TellsAt(a, replies, from, fallback, i, r);
      } else {
        var j := i - |a|;
        assert (a + b)[i] == b[j];
        assert TellsAt(b, replies, later, fallback, j, r);
      }
    }
    if i :| TellsAt(a, replies, from, fallback, i, r) {
      assert (a + b)[i] == a[i];
      assert TellsAt(a + b, replies, from, fallback, i, r);
    }
    if j :| TellsAt(b, replies, later, fallback, j, r) {
      var i := |a| + j;
      assert (a + b)[i] == b[j];
      assert TellsAt(a + b, replies, from, fallback, i, r);
    }
  }

  lemma ExplainsJoin(a: seq<seq<Context>>, b: seq<seq<Context>>, replies: nat -> Reply, from: nat, fallback: string -> Extraction,
                     x: seq<Result>, y: seq<Result>)
    requires Explains(a, replies, from, fallback, x) && Explains(b, replies, from + |a|, fallback, y)
    ensures Explains(a + b, replies, from, fallback, x + y)
  {
    forall r
      ensures r in x + y <==> ToldOf(a + b, replies, from, fallback, r)
    {
      ToldJoin(a, b, replies, from, from + |a|, fallback, r);
    }
  }

  /** One request for the front of what remains, and those that its reply makes necessary. */
  method ServeNext(contexts: seq<Context>, remaining: seq<Context>, ghost gathered: seq<Result>, maxChars: int,
                   payloadChars: seq<Context> -> nat, replies: nat -> Reply, fallback: string -> Extraction, from: nat)
    returns (rest: seq<Context>, results: Option<seq<Result>>, next: nat, ghost sent: seq<seq<Context>>)
    requires Distinct(Wanted(contexts)) && remaining != [] && Served(contexts, remaining, gathered)
    ensures |rest| < |remaining| && next == from + |sent| && AllProper(contexts, sent, maxChars, payloadChars)
    ensures results.Some? ==> Served(contexts, rest, gathered + results.value) && Explains(sent, replies, from, fallback, results.value)
    ensures results.None? ==> sent != [] && replies(next - 1).HttpError?
    decreases |contexts|, 2
  {
    var request;
    ghost var tried;
    request, tried := FitBatch(remaining, maxChars, payloadChars);
    RequestIsProper(contexts, remaining, request, maxChars, payloadChars);
    var reply := replies(from);
    rest, next, sent := remaining[|request|..], from + 1, [request];
    if reply.HttpError? {
      return rest, None, next, sent;
    }
    RequestDistinct(contexts, remaining, request);
    ghost var more;
    results, next, more := Resolve(request, reply, |contexts|, maxChars, payloadChars, replies, fallback, next);
    sent := sent + more;
    ProperWithin(contexts, request, more, maxChars, payloadChars);
    if results.Some? {
      ServesMore(contexts, remaining, request, gathered, results.value);
    }
  }

  /** All but the last `remaining` contexts have their results. */
  ghost predicate Served(contexts: seq<Context>, remaining: seq<Context>, gathered: seq<Result>) {
    && |remaining| <= |contexts| && remaining == contexts[|contexts| - |remaining|..]
    && Answers(contexts[..|contexts| - |remaining|], gathered)
  }

  lemma RequestIsProper(contexts: seq<Context>, remaining: seq<Context>, request: seq<Context>, maxChars: int, payloadChars: seq<Context> -> nat)
    requires |remaining| <= |contexts| && remaining == contexts[|contexts| - |remaining|..] && Trimmed(remaining, request)
    requires payloadChars(request) <= maxChars || (|request| == 1 && AllReferences(request) == [])
    ensures Proper(contexts, request, maxChars, payloadChars)
  {
    forall s | s in request
      ensures exists c :: c in contexts && c.id == s.id && c.target == s.target
    {
      var k :| 0 <= k < |request| && request[k] == s;
      assert SameTarget(remaining[k], s) && remaining[k] in contexts;
    }
  }

  lemma ServesMore(contexts: seq<Context>, remaining: seq<Context>, request: seq<Context>, gathered: seq<Result>, parsed: seq<Result>)
    requires Distinct(Wanted(contexts)) && Served(contexts, remaining, gathered)
    requires Trimmed(remaining, request) && Answers(request, parsed)
    ensures Served(contexts, remaining[|request|..], gathered + parsed)
  {
    RequestDistinct(contexts, remaining, request);
    AnswersMore(contexts, remaining, request, gathered, parsed);
  }

  lemma ProperWithin(contexts: seq<Context>, request: seq<Context>, sent: seq<seq<Context>>, maxChars: int, payloadChars: seq<Context> -> nat)
    requires Proper(contexts, request, maxChars, payloadChars) && AllProper(request, sent, maxChars, payloadChars)
    ensures AllProper(contexts, [request] + sent, maxChars, payloadChars)
  {
    forall i | 0 <= i < |sent|
      ensures Proper(contexts, sent[i], maxChars, payloadChars)
    {
      assert Proper(request, sent[i], maxChars, payloadChars);
      forall s | s in sent[i]
        ensures exists c :: c in contexts && c.id == s.id && c.target == s.target
      {
        var m :| m in request && m.id == s.id && m.target == s.target;
        assert exists c :: c in contexts && c.id == m.id && c.target == m.target;
      }
    }
    var all := [request] + sent;
    forall i | 0 <= i < |all|
      ensures Proper(contexts, all[i], maxChars, payloadChars)
    {
      assert i > 0 ==> all[i] == sent[i - 1];
    }
  }

  /** What one reply comes to: its results, or else a request per chunk, or else the text itself. */
  method Resolve(request: seq<Context>, reply: Reply, ghost size: nat, maxChars: int, payloadChars: seq<Context> -> nat,
                 replies: nat -> Reply, fallback: string -> Extraction, from: nat)
    returns (results: Option<seq<Result>>, next: nat, ghost sent: seq<seq<Context>>)
    requires 0 < |request| <= size && Distinct(Wanted(request)) && from > 0 && reply == replies(from - 1) && !reply.HttpError?
    ensures next == from + |sent| && AllProper(request, sent, maxChars, payloadChars)
    ensures results.Some? ==> Answers(request, results.value) && Explains([request] + sent, replies, from - 1, fallback, results.value)
    ensures results.None? ==> sent != [] && replies(next - 1).HttpError?
    decreases size, 1
  {
    next, sent := from, [];
    results := ParseBatch(reply, request);
    if results.Some? {
      ReadExplains(request, reply, replies, from - 1, fallback, results.value);
    } else if |request| > 1 {
      results, next, sent := ExtractEach(request, size, maxChars, payloadChars, replies, fallback, from);
      if results.Some? {
        UnreadTellsNothing(request, replies, from - 1, fallback);
        ExplainsJoin([request], sent, replies, from - 1, fallback, [], results.value);
      }
    } else {
      var result := Result(request[0].id, fallback(request[0].target));
      assert Named(Stated([result])) == Wanted(request);
      TextExplains(request, result, replies, from - 1, fallback);
      results := Some([result]);
    }
    assert [request] + [] == [request];
  }

  lemma ToldByOne(request: seq<Context>, replies: nat -> Reply, from: nat, fallback: string -> Extraction, r: Result)
    ensures ToldOf([request], replies, from, fallback, r) <==> Tells(request, replies(from), fallback, r)
  {
    var sent := [request];
    assert TellsAt(sent, replies, from, fallback, 0, r) <==> Tells(request, replies(from), fallback, r);
    if i :| TellsAt(sent, replies, from, fallback, i, r) {
      assert i == 0;
    }
  }

  lemma ReadExplains(request: seq<Context>, reply: Reply, replies: nat -> Reply, from: nat, fallback: string -> Extraction, results: seq<Result>)
    requires reply == replies(from) && !reply.HttpError? && Readable(reply, request) && Answers(request, results)
    requires forall r :: r in results <==> Offered(request, reply, r)
    ensures Explains([request], replies, from, fallback, results)
  {
    forall r
      ensures r in results <==> ToldOf([request], replies, from, fallback, r)
    {
      ToldByOne(request, replies, from, fallback, r);
    }
  }

  lemma UnreadTellsNothing(request: seq<Context>, replies: nat -> Reply, from: nat, fallback: string -> Extraction)
    requires |request| > 1 && !Readable(replies(from), request)
    ensures Explains([request], replies, from, fallback, [])
  {
    forall r
      ensures !ToldOf([request], replies, from, fallback, r)
    {
      ToldByOne(request, replies, from, fallback, r);
    }
  }

  lemma TextExplains(request: seq<Context>, result: Result, replies: nat -> Reply, from: nat, fallback: string -> Extraction)
    requires |request| == 1 && !replies(from).HttpError? && !Readable(replies(from), request)
    requires result == Result(request[0].id, fallback(request[0].target))
    ensures Explains([request], replies, from, fallback, [result])
  {
    forall r
      ensures r in [result] <==> ToldOf([request], replies, from, fallback, r)
    {
      ToldByOne(request, replies, from, fallback, r);
      assert request[0] in request;
    }
  }

  /** The fallback for a batch that could not be read: one request for every chunk. */
  method ExtractEach(request: seq<Context>, ghost size: nat, maxChars: int, payloadChars: seq<Context> -> nat,
                     replies: nat -> Reply, fallback: string -> Extraction, from: nat)
    returns (results: Option<seq<Result>>, next: nat, ghost sent: seq<seq<Context>>)
    requires 1 < |request| <= size
    ensures next == from + |sent| && AllProper(request, sent, maxChars, payloadChars)
    ensures results.Some? ==> Answers(request, results.value) && Explains(sent, replies, from, fallback, results.value)
    ensures results.None? ==> sent != [] && replies(next - 1).HttpError?
    decreases size, 0
  {
    var gathered: seq<Result> := [];
    next, sent := from, [];
    for k := 0 to |request|
      invariant next == from + |sent| && AllProper(request, sent, maxChars, payloadChars)
      invariant Answers(request[..k], gathered) && Explains(sent, replies, from, fallback, gathered)
    {
      var one;
      ghost var asked;
      one, next, asked := ExtractBatch([request[k]], maxChars, payloadChars, replies, fallback, next);
      ProperAlone(request, k, asked, maxChars, payloadChars);
      ProperJoin(request, sent, asked, maxChars, payloadChars);
      if one.None? {
        return None, next, sent + asked;
      }
      AnswersJoin(request[..k], [request[k]], gathered, one.value);
      assert request[..k + 1] == request[..k] + [request[k]];
      ExplainsJoin(sent, asked, replies, from, fallback, gathered, one.value);
      gathered, sent := gathered + one.value, sent + asked;
    }
    assert request[..|request|] == request;
    results := Some(gathered);
  }

  lemma ProperAlone(request: seq<Context>, k: nat, sent: seq<seq<Context>>, maxChars: int, payloadChars: seq<Context> -> nat)
    requires k < |request| && AllProper([request[k]], sent, maxChars, payloadChars)
    ensures AllProper(request, sent, maxChars, payloadChars)
  {
    forall i | 0 <= i < |sent|
      ensures Proper(request, sent[i], maxChars, payloadChars)
    {
      forall s | s in sent[i]
        ensures exists c :: c in request && c.id == s.id && c.target == s.target
      {
        assert request[k] in request;
      }
    }
  }

  lemma AnswersJoin(a: seq<Context>, b: seq<Context>, x: seq<Result>, y: seq<Result>)
    requires Answers(a, x) && Answers(b, y)
    ensures Answers(a + b, x + y)
  {
    assert Named(Stated(x + y)) == Named(Stated(x)) + Named(Stated(y));
    assert Wanted(a + b) == Wanted(a) + Wanted(b);
  }

  lemma RequestDistinct(contexts: seq<Context>, remaining: seq<Context>, request: seq<Context>)
    requires Distinct(Wanted(contexts)) && |remaining| <= |contexts| && remaining == contexts[|contexts| - |remaining|..]
    requires Trimmed(remaining, request)
    ensures Distinct(Wanted(request)) && Wanted(request) == Wanted(remaining)[..|request|]
  {
    forall k | 0 <= k < |request|
      ensures request[k].id == remaining[k].id
    {
      assert SameTarget(remaining[k], request[k]);
    }
  }

  lemma AnswersMore(contexts: seq<Context>, remaining: seq<Context>, request: seq<Context>, gathered: seq<Result>, parsed: seq<Result>)
    requires |remaining| <= |contexts| && remaining == contexts[|contexts| - |remaining|..]
    requires Trimmed(remaining, request) && Wanted(request) == Wanted(remaining)[..|request|]
    requires Answers(contexts[..|contexts| - |remaining|], gathered) && Answers(request, parsed)
    ensures Answers(contexts[..|contexts| - |remaining| + |request|], gathered + parsed)
  {
    var d := |contexts| - |remaining|;
    AnswersJoin(contexts[..d], request, gathered, parsed);
    assert Wanted(contexts[..d] + request) == Wanted(contexts[..d + |request|]);
  }
}
