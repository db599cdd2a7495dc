/** The writing loops of apps/api/app/graph/pipeline.py over the stored tables. */
module GraphWriter {
  import opened Wrappers
  import opened GraphTables
  import opened Pipeline
  import opened GraphRuns
  import E = Evidence

  /** What becomes of one group of requests.  The process dies before its runs are marked, after, or after the
      answers are saved; an error is raised before they are saved or after; or all goes on, though the provider
      may not have answered for every chunk. */
  datatype Fate =
    | CrashBefore
    | CrashAfter
    | CrashSaved(answer: int -> Option<Raw>)
    | Raised
    | RaisedSaved(answer: int -> Option<Raw>)
    | Answered(answer: int -> Option<Raw>)

  class Writer {
    var tables: Tables
    const x: Reading

    constructor (t: Tables, x: Reading)
      ensures tables == t && this.x == x
    {
      tables := t;
      this.x := x;
    }

    method InsertEvidence(k: EvidenceId, s: Span)
      modifies this
      ensures tables == AddEvidence(old(tables), k, s)
    {
      if k !in tables.evidence {
        tables := tables.(evidence := tables.evidence[k := s]);
      }
    }

    method InsertEntity(c: int, l: Located)
      modifies this
      ensures tables == AddEntity(old(tables), c, l)
    {
      if l.id !in tables.entities {
        tables := tables.(entities := tables.entities + {l.id});
      } else {
        assert tables.entities + {l.id} == tables.entities;
      }
      InsertEvidence(EntityEvidence(c, l.id), l.span);
    }

    method PersistEntities(c: int, text: string, items: seq<RawEntity>) returns (located: seq<Located>)
      modifies this
      ensures located == Locate(x, text, items) && tables == AddEntities(old(tables), c, located)
    {
      located := [];
      for i := 0 to |items|
        invariant located == Locate(x, text, items[..i]) && tables == AddEntities(old(tables), c, located)
      {
        LocateNext(x, text, items, i);
        var found := E.FindEvidence(x.unicode, text, items[i].name);
        if found.None? {
          continue;
        }
        var l := Located(EntityId(x.norm(items[i].name), x.norm(items[i].kind)), SpanOf(found.value));
        AddEntitiesNext(old(tables), c, located, l);
        InsertEntity(c, l);
        located := located + [l];
      }
      assert items[..|items|] == items;
    }

    method InsertFact(c: int, f: Fact)
      modifies this
      ensures tables == AddFact(old(tables), c, f)
    {
      tables := tables.(relations := tables.relations + {f.relation});
      InsertEvidence(RelationEvidence(c, f.relation), f.span);
    }

    method PersistRelations(c: int, text: string, located: seq<Located>, items: seq<RawRelation>)
      modifies this
      ensures tables == AddFacts(old(tables), c, Facts(x, text, located, items))
    {
      ghost var facts := [];
      for i := 0 to |items|
        invariant facts == Facts(x, text, located, items[..i]) && tables == AddFacts(old(tables), c, facts)
      {
        FactsNext(x, text, located, items, i);
        var added := Relate(x, text, located, items[i]);
        if added != [] {
          var f := added[0];
          AddFactsNext(old(tables), c, facts, f);
          InsertFact(c, f);
          facts := facts + [f];
        }
      }
      assert items[..|items|] == items;
    }

    method PersistChunkResult(c: int, raw: Raw)
      requires c in tables.chunks
      modifies this
      ensures tables == Persist(x, old(tables), c, raw)
    {
      if c in tables.runs && tables.runs[c].status == Succeeded {
        return;
      }
      var text := tables.chunks[c].text;
      ghost var before := tables;
      var located := PersistEntities(c, text, raw.entities);
      PersistRelations(c, text, located, raw.relations);
      OnlyRows(before, c, located, Facts(x, text, located, raw.relations));
      tables := tables.(runs := tables.runs[c := Run(Succeeded, Some(raw))]);
    }

    method EnsureRunning(c: int)
      modifies this
      ensures tables == Begin(old(tables), c)
    {
      var run := if c in tables.runs then tables.runs[c].(status := Running) else Run(Running, None);
      tables := tables.(runs := tables.runs[c := run]);
    }

    method RecordFailure(c: int)
      modifies this
      ensures tables == MarkFailed(old(tables), c)
    {
      if c in tables.runs && tables.runs[c].status != Succeeded {
        tables := tables.(runs := tables.runs[c := tables.runs[c].(status := Failed)]);
      }
    }

    /** One extraction of a document whose chunks come in `groups`.  Whatever happens to it, it amounts to
        an orderly history: the pending chunks are started, stored or failed, and none other.  So keys that folded
        before fold afterwards.  It succeeds exactly when every pending chunk is answered and projection and
        analytics succeed at the end (`closes`); otherwise the runs tell how far it came. */
    method ExtractDocument(groups: seq<seq<int>>, fates: nat -> Fate, closes: bool) returns (ok: bool, ghost log: seq<Event>)
      requires forall g, c :: 0 <= g < |groups| && c in groups[g] ==> c in tables.chunks
      requires Disjoint(groups)
      modifies this
      ensures tables == RunAll(x, old(tables), log) && Orderly(x, old(tables), log)
      ensures Folded(x, old(tables)) ==> Folded(x, tables)
      ensures ok <==> closes && AllClear(old(tables), groups, fates, |groups|)
      ensures Attempted(old(tables), tables, groups, fates, |groups|)
      ensures ok ==> forall g, c :: 0 <= g < |groups| && c in groups[g] ==> Done(tables, c)
    {
      ghost var start := tables;
      ok, log := ExtractGroups(groups, fates);
      if ok && !closes {
        var last := if groups == [] then [] else groups[|groups| - 1];
        ghost var cleared := tables;
        log := FailAll(last, start, log);
        ClosingKeepsRuns(start, cleared, tables, groups, fates, last);
        ok := false;
      }
      if Folded(x, start) {
        RetriesFold(x, start, log);
      }
    }

    method ExtractGroups(groups: seq<seq<int>>, fates: nat -> Fate) returns (ok: bool, ghost log: seq<Event>)
      requires forall g, c :: 0 <= g < |groups| && c in groups[g] ==> c in tables.chunks
      requires Disjoint(groups)
      modifies this
      ensures tables == RunAll(x, old(tables), log) && Orderly(x, old(tables), log)
      ensures ok <==> AllClear(old(tables), groups, fates, |groups|)
      ensures Attempted(old(tables), tables, groups, fates, |groups|)
      ensures ok ==> forall g, c :: 0 <= g < |groups| && c in groups[g] ==> Done(tables, c)
    {
      var start := tables;
      log := [];
      for g := 0 to |groups|
        invariant tables == RunAll(x, start, log) && Orderly(x, start, log) && tables.chunks == start.chunks
        invariant AllClear(start, groups, fates, g) && Attempted(start, tables, groups, fates, g)
      {
        var goesOn;
        goesOn, log := AttemptGroup(groups, fates, g, g + 1, start, log);
        if !goesOn {
          return false, log;
        }
      }
      ok := true;
      AllDone(start, tables, groups, fates);
    }

    /** The next group, unless nothing of it is pending. */
    method AttemptGroup(groups: seq<seq<int>>, fates: nat -> Fate, g: int, ghost n: int, start: Tables, ghost log0: seq<Event>)
      returns (goesOn: bool, ghost log: seq<Event>)
      requires 0 <= g < n <= |groups| && n == g + 1 && Disjoint(groups)
      requires forall g, c :: 0 <= g < |groups| && c in groups[g] ==> c in start.chunks
      requires tables == RunAll(x, start, log0) && Orderly(x, start, log0) && tables.chunks == start.chunks
      requires AllClear(start, groups, fates, g) && Attempted(start, tables, groups, fates, g)
      modifies this
      ensures tables == RunAll(x, start, log) && Orderly(x, start, log) && tables.chunks == start.chunks
      ensures goesOn ==> AllClear(start, groups, fates, n) && Attempted(start, tables, groups, fates, n)
      ensures !goesOn ==> !AllClear(start, groups, fates, |groups|) && Attempted(start, tables, groups, fates, |groups|)
    {
      var active := Pending(start, groups[g]);
      PendingNow(start, tables, groups, fates, g, active);
      if active == [] {
        NothingPending(start, tables, groups, fates, g, n);
        return true, log0;
      }
      ghost var before := tables;
      goesOn, log := ExtractGroup(active, fates(g), start, log0);
      GroupAttempted(start, before, tables, groups, fates, g, n, active);
      GoesOnIfClear(start, groups[g], active, fates(g));
      ClearAgain(start, groups, fates, g, n);
      if !goesOn {
        NoneReachedAfter(start, tables, groups, fates, g, n);
      }
    }

    /** What becomes of the pending chunks of one group.  Its answers are stored together with the success of
        their runs; of the rest it shows how far the group came. */
    method ExtractGroup(active: seq<int>, fate: Fate, ghost start: Tables, ghost log0: seq<Event>)
      returns (goesOn: bool, ghost log: seq<Event>)
      requires tables == RunAll(x, start, log0) && Orderly(x, start, log0)
      requires forall c :: c in active ==> c in tables.chunks && !Done(tables, c)
      modifies this
      ensures tables == RunAll(x, start, log) && Orderly(x, start, log) && tables.chunks == old(tables.chunks)
      ensures GroupTells(old(tables), tables, active, fate)
      ensures goesOn <==> fate.Answered? && forall c :: c in active ==> fate.answer(c).Some?
    {
      goesOn, log := false, log0;
      ghost var t0 := tables;
      if fate.CrashBefore? {
        return;
      }
      log := StartAll(active, start, log);
      ghost var t1 := tables;
      StartedAreNotDone(t0, t1, active);
      if fate.CrashAfter? {
        return;
      }
      if fate.Raised? {
        log := FailAll(active, start, log);
        StartedThenGivenUp(t0, t1, tables, active, fate);
        return;
      }
      var complete;
      complete, log := StoreAll(active, fate.answer, start, log);
      ghost var t2 := tables;
      if fate.RaisedSaved? || (fate.Answered? && !complete) {
        log := FailAll(active, start, log);
      }
      StoredThen(t0, t1, t2, tables, active, fate, complete);
      goesOn := fate.Answered? && complete;
    }

    method StartAll(active: seq<int>, ghost start: Tables, ghost log0: seq<Event>) returns (ghost log: seq<Event>)
      requires tables == RunAll(x, start, log0) && Orderly(x, start, log0)
      requires forall c :: c in active ==> c in tables.chunks && !Done(tables, c)
      modifies this
      ensures tables == RunAll(x, start, log) && Orderly(x, start, log) && tables.chunks == old(tables.chunks)
      ensures Started(old(tables), tables, active)
    {
      log := log0;
      ghost var t0 := tables;
      for i := 0 to |active|
        invariant tables == RunAll(x, start, log) && Orderly(x, start, log) && tables.chunks == t0.chunks
        invariant Started(t0, tables, active[..i])
      {
        var c := active[i];
        assert c in active && active[..i + 1] == active[..i] + [c];
        StartedNext(t0, tables, active[..i], c);
        Appended(x, start, log, Start(c));
        EnsureRunning(c);
        log := log + [Start(c)];
      }
      assert active[..|active|] == active;
    }

    method StoreAll(active: seq<int>, answer: int -> Option<Raw>, ghost start: Tables, ghost log0: seq<Event>)
      returns (complete: bool, ghost log: seq<Event>)
      requires tables == RunAll(x, start, log0) && Orderly(x, start, log0)
      requires forall c :: c in active ==> c in tables.chunks && !Done(tables, c)
      modifies this
      ensures tables == RunAll(x, start, log) && Orderly(x, start, log) && tables.chunks == old(tables.chunks)
      ensures Stored(old(tables), tables, active, answer)
      ensures complete <==> forall c :: c in active ==> answer(c).Some?
    {
      log, complete := log0, true;
      ghost var t0 := tables;
      for i := 0 to |active|
        invariant tables == RunAll(x, start, log) && Orderly(x, start, log) && tables.chunks == t0.chunks
        invariant Stored(t0, tables, active[..i], answer)
        invariant complete <==> forall c :: c in active[..i] ==> answer(c).Some?
      {
        var c := active[i];
        assert c in active && active[..i + 1] == active[..i] + [c];
        StoredNext(x, t0, tables, active[..i], answer, c);
        if answer(c).None? {
          complete := false;
        } else {
          Appended(x, start, log, Store(c, answer(c).value));
          PersistChunkResult(c, answer(c).value);
          log := log + [Store(c, answer(c).value)];
        }
      }
      assert active[..|active|] == active;
    }

    method FailAll(active: seq<int>, ghost start: Tables, ghost log0: seq<Event>) returns (ghost log: seq<Event>)
      requires tables == RunAll(x, start, log0) && Orderly(x, start, log0)
      modifies this
      ensures tables == RunAll(x, start, log) && Orderly(x, start, log) && tables.chunks == old(tables.chunks)
      ensures GivenUp(old(tables), tables, active)
    {
      log := log0;
      ghost var t0 := tables;
      for i := 0 to |active|
        invariant tables == RunAll(x, start, log) && Orderly(x, start, log) && tables.chunks == t0.chunks
        invariant GivenUp(t0, tables, active[..i])
      {
        assert active[..i + 1] == active[..i] + [active[i]];
        GivenUpNext(t0, tables, active[..i], active[i]);
        Appended(x, start, log, Fail(active[i]));
        RecordFailure(active[i]);
        log := log + [Fail(active[i])];
      }
      assert active[..|active|] == active;
    }
  }

  // ---------- What becomes of the runs ----------

  /** No chunk is in two groups. */
  ghost predicate Disjoint(groups: seq<seq<int>>) {
    forall g, h, c :: 0 <= g < h < |groups| && c in groups[g] ==> c !in groups[h]
  }

  function RunOf(t: Tables, c: int): Option<Run> {
    if c in t.runs then Some(t.runs[c]) else None
  }

  /** The run with another status: what it recorded stays. */
  function Marked(r: Option<Run>, status: RunStatus): Option<Run> {
    Some(Run(status, if r.None? then None else r.value.raw))
  }

  /** The run of a pending chunk after its group: succeeded with the answer recorded if the answer was saved;
      otherwise failed if an error was raised or an answer is missing, running after a crash, and as before if
      the crash came before the mark. */
  function RunAfter(before: Option<Run>, fate: Fate, c: int): Option<Run> {
    match fate
    case CrashBefore => before
    case CrashAfter => Marked(before, Running)
    case Raised => Marked(before, Failed)
    case CrashSaved(answer) => if answer(c).Some? then Some(Run(Succeeded, answer(c))) else Marked(before, Running)
    case RaisedSaved(answer) => if answer(c).Some? then Some(Run(Succeeded, answer(c))) else Marked(before, Failed)
    case Answered(answer) => if answer(c).Some? then Some(Run(Succeeded, answer(c))) else Marked(before, Failed)
  }

  /** Nothing of the group keeps the extraction from going on. */
  ghost predicate Clear(t: Tables, group: seq<int>, fate: Fate) {
    (exists c :: c in group && !Done(t, c)) ==> fate.Answered? && forall c :: c in group && !Done(t, c) ==> fate.answer(c).Some?
  }

  ghost predicate AllClear(t: Tables, groups: seq<seq<int>>, fates: nat -> Fate, n: int)
    requires 0 <= n <= |groups|
  {
    forall h {:trigger groups[h]} :: 0 <= h < n ==> Clear(t, groups[h], fates(h))
  }

  /** The run of chunk `c`, from `t0` to `t`: changed by the group that holds it, if the extraction came to that
      group and the chunk was pending, and by nothing else. */
  ghost predicate RunTells(t0: Tables, t: Tables, groups: seq<seq<int>>, fates: nat -> Fate, n: int, c: int)
    requires 0 <= n <= |groups|
  {
    && (forall g {:trigger groups[g]} :: 0 <= g < n && c in groups[g] && !Done(t0, c) && AllClear(t0, groups, fates, g) ==>
          RunOf(t, c) == RunAfter(RunOf(t0, c), fates(g), c))
    && ((forall g {:trigger groups[g]} :: 0 <= g < n && c in groups[g] ==> Done(t0, c) || !AllClear(t0, groups, fates, g)) ==>
          RunOf(t, c) == RunOf(t0, c))
  }

  ghost predicate Attempted(t0: Tables, t: Tables, groups: seq<seq<int>>, fates: nat -> Fate, n: int)
    requires 0 <= n <= |groups|
  {
    forall c {:trigger RunTells(t0, t, groups, fates, n, c)} :: RunTells(t0, t, groups, fates, n, c)
  }

  /** The runs of the chunks at work in one group, and no others. */
  ghost predicate GroupTells(t0: Tables, t: Tables, active: seq<int>, fate: Fate) {
    forall c :: RunOf(t, c) == if c in active then RunAfter(RunOf(t0, c), fate, c) else RunOf(t0, c)
  }

  ghost predicate Started(t0: Tables, t: Tables, active: seq<int>) {
    forall c :: RunOf(t, c) == if c in active then Marked(RunOf(t0, c), Running) else RunOf(t0, c)
  }

  ghost predicate Stored(t0: Tables, t: Tables, active: seq<int>, answer: int -> Option<Raw>) {
    forall c :: RunOf(t, c) == if c in active && answer(c).Some? then Some(Run(Succeeded, answer(c))) else RunOf(t0, c)
  }

  ghost predicate GivenUp(t0: Tables, t: Tables, active: seq<int>) {
    forall c :: RunOf(t, c) ==
      if c in active && RunOf(t0, c).Some? && !Done(t0, c) then Marked(RunOf(t0, c), Failed) else RunOf(t0, c)
  }

  lemma StartedNext(t0: Tables, t1: Tables, active: seq<int>, c: int)
    requires Started(t0, t1, active) && !Done(t0, c)
    ensures !Done(t1, c) && Started(t0, Begin(t1, c), active + [c])
  {
    assert RunOf(t1, c) == if c in active then Marked(RunOf(t0, c), Running) else RunOf(t0, c);
  }

  lemma StartedAreNotDone(t0: Tables, t1: Tables, active: seq<int>)
    requires Started(t0, t1, active) && forall c :: c in active ==> !Done(t0, c)
    ensures forall c :: c in active ==> !Done(t1, c)
  {
    forall c | c in active
      ensures !Done(t1, c)
    {
      assert RunOf(t1, c) == Marked(RunOf(t0, c), Running);
    }
  }

  lemma StartedThenGivenUp(t0: Tables, t1: Tables, t: Tables, active: seq<int>, fate: Fate)
    requires Started(t0, t1, active) && GivenUp(t1, t, active) && fate.Raised?
    ensures GroupTells(t0, t, active, fate)
  {
    forall c
      ensures RunOf(t, c) == if c in active then RunAfter(RunOf(t0, c), fate, c) else RunOf(t0, c)
    {
      assert RunOf(t1, c) == if c in active then Marked(RunOf(t0, c), Running) else RunOf(t0, c);
    }
  }

  lemma StoredThen(t0: Tables, t1: Tables, t2: Tables, t: Tables, active: seq<int>, fate: Fate, complete: bool)
    requires Started(t0, t1, active) && (fate.CrashSaved? || fate.RaisedSaved? || fate.Answered?)
    requires Stored(t1, t2, active, fate.answer) && (complete <==> forall c :: c in active ==> fate.answer(c).Some?)
    requires if fate.RaisedSaved? || (fate.Answered? && !complete) then GivenUp(t2, t, active) else t == t2
    ensures GroupTells(t0, t, active, fate)
  {
    forall c
      ensures RunOf(t, c) == if c in active then RunAfter(RunOf(t0, c), fate, c) else RunOf(t0, c)
    {
      assert RunOf(t1, c) == if c in active then Marked(RunOf(t0, c), Running) else RunOf(t0, c);
      assert RunOf(t2, c) == if c in active && fate.answer(c).Some? then Some(Run(Succeeded, fate.answer(c))) else RunOf(t1, c);
    }
  }

  lemma StoredNext(x: Reading, t0: Tables, t1: Tables, active: seq<int>, answer: int -> Option<Raw>, c: int)
    requires Stored(t0, t1, active, answer) && !Done(t0, c) && c in t1.chunks
    ensures answer(c).None? ==> Stored(t0, t1, active + [c], answer)
    ensures answer(c).Some? ==> var t := Persist(x, t1, c, answer(c).value); Stored(t0, t, active + [c], answer) && t.chunks == t1.chunks
  {
    assert RunOf(t1, c) == if c in active && answer(c).Some? then Some(Run(Succeeded, answer(c))) else RunOf(t0, c);
    if answer(c).Some? && !Done(t1, c) {
      PersistKeys(x, t1, c, answer(c).value);
    }
  }

  lemma GivenUpNext(t0: Tables, t1: Tables, active: seq<int>, c: int)
    requires GivenUp(t0, t1, active)
    ensures GivenUp(t0, MarkFailed(t1, c), active + [c])
  {
  }

  /** Chunks of a group to come are as they were. */
  lemma GroupIsUntouched(t0: Tables, t: Tables, groups: seq<seq<int>>, fates: nat -> Fate, g: int)
    requires 0 <= g < |groups| && Attempted(t0, t, groups, fates, g) && Disjoint(groups)
    ensures forall c :: c in groups[g] ==> RunOf(t, c) == RunOf(t0, c)
  {
    forall c | c in groups[g]
      ensures RunOf(t, c) == RunOf(t0, c)
    {
      assert RunTells(t0, t, groups, fates, g, c);
    }
  }

  lemma PendingNow(t0: Tables, t: Tables, groups: seq<seq<int>>, fates: nat -> Fate, g: int, active: seq<int>)
    requires 0 <= g < |groups| && Attempted(t0, t, groups, fates, g) && Disjoint(groups) && t.chunks == t0.chunks
    requires (forall g, c :: 0 <= g < |groups| && c in groups[g] ==> c in t0.chunks) && active == Pending(t0, groups[g])
    ensures forall c :: c in active ==> c in t.chunks && !Done(t, c)
  {
    GroupIsUntouched(t0, t, groups, fates, g);
    forall c | c in active
      ensures c in t.chunks && !Done(t, c)
    {
      assert RunOf(t, c) == RunOf(t0, c);
    }
  }

  lemma LocateNext(x: Reading, text: string, items: seq<RawEntity>, i: nat)
    requires i < |items|
    ensures Locate(x, text, items[..i + 1]) == Locate(x, text, items[..i]) + LocateOne(x, text, items[i])
  {
    assert items[..i + 1][..i] == items[..i];
  }

  lemma AddEntitiesNext(t: Tables, c: int, located: seq<Located>, l: Located)
    ensures AddEntities(t, c, located + [l]) == AddEntity(AddEntities(t, c, located), c, l)
  {
    assert (located + [l])[..|located|] == located;
  }

  lemma FactsNext(x: Reading, text: string, located: seq<Located>, items: seq<RawRelation>, i: nat)
    requires i < |items|
    ensures var facts, added := Facts(x, text, located, items[..i]), Relate(x, text, located, items[i]);
            Facts(x, text, located, items[..i + 1]) == if added == [] then facts else facts + [added[0]]
  {
    assert items[..i + 1][..i] == items[..i];
    var added := Relate(x, text, located, items[i]);
    assert added == [] || added == [added[0]];
  }

  lemma AddFactsNext(t: Tables, c: int, facts: seq<Fact>, f: Fact)
    ensures AddFacts(t, c, facts + [f]) == AddFact(AddFacts(t, c, facts), c, f)
  {
    assert (facts + [f])[..|facts|] == facts;
  }

  lemma GoesOnIfClear(t0: Tables, group: seq<int>, active: seq<int>, fate: Fate)
    requires active != [] && forall c :: c in active <==> c in group && !Done(t0, c)
    ensures Clear(t0, group, fate) <==> fate.Answered? && forall c :: c in active ==> fate.answer(c).Some?
  {
    var c := active[0];
    assert c in active;
    assert c in group && !Done(t0, c);
  }

  lemma NothingPending(t0: Tables, t: Tables, groups: seq<seq<int>>, fates: nat -> Fate, g: int, n: int)
    requires 0 <= g < n <= |groups| && n == g + 1 && Attempted(t0, t, groups, fates, g) && AllClear(t0, groups, fates, g)
    requires forall c :: c in groups[g] ==> Done(t0, c)
    ensures Attempted(t0, t, groups, fates, n) && AllClear(t0, groups, fates, n)
  {
    forall c
      ensures RunTells(t0, t, groups, fates, n, c)
    {
      assert RunTells(t0, t, groups, fates, g, c);
    }
  }

  lemma GroupAttempted(t0: Tables, t1: Tables, t: Tables, groups: seq<seq<int>>, fates: nat -> Fate, g: int, n: int, active: seq<int>)
    requires 0 <= g < n <= |groups| && n == g + 1 && Attempted(t0, t1, groups, fates, g) && AllClear(t0, groups, fates, g)
    requires Disjoint(groups) && active == Pending(t0, groups[g]) && GroupTells(t1, t, active, fates(g))
    ensures Attempted(t0, t, groups, fates, n)
  {
    GroupIsUntouched(t0, t1, groups, fates, g);
    forall c
      ensures RunTells(t0, t, groups, fates, n, c)
    {
      assert RunTells(t0, t1, groups, fates, g, c);
      assert RunOf(t, c) == if c in active then RunAfter(RunOf(t1, c), fates(g), c) else RunOf(t1, c);
    }
  }

  lemma ClearAgain(t0: Tables, groups: seq<seq<int>>, fates: nat -> Fate, g: int, n: int)
    requires 0 <= g < n <= |groups| && n == g + 1 && AllClear(t0, groups, fates, g)
    ensures AllClear(t0, groups, fates, n) <==> Clear(t0, groups[g], fates(g))
  {
  }

  lemma NoneReachedAfter(t0: Tables, t: Tables, groups: seq<seq<int>>, fates: nat -> Fate, g: int, n: int)
    requires 0 <= g < n <= |groups| && n == g + 1 && Attempted(t0, t, groups, fates, n) && !Clear(t0, groups[g], fates(g))
    ensures Attempted(t0, t, groups, fates, |groups|) && !AllClear(t0, groups, fates, |groups|)
  {
    forall c
      ensures RunTells(t0, t, groups, fates, |groups|, c)
    {
      assert RunTells(t0, t, groups, fates, n, c);
    }
  }

  lemma AllDone(t0: Tables, t: Tables, groups: seq<seq<int>>, fates: nat -> Fate)
    requires Attempted(t0, t, groups, fates, |groups|) && AllClear(t0, groups, fates, |groups|)
    ensures forall g, c :: 0 <= g < |groups| && c in groups[g] ==> Done(t, c)
  {
    forall g, c | 0 <= g < |groups| && c in groups[g]
      ensures Done(t, c)
    {
      assert RunTells(t0, t, groups, fates, |groups|, c);
      assert AllClear(t0, groups, fates, g) && Clear(t0, groups[g], fates(g));
      if !Done(t0, c) {
        assert RunOf(t, c) == RunAfter(RunOf(t0, c), fates(g), c);
      }
    }
  }

  /** Everything has succeeded by then, so that the failure of what follows marks no run. */
  lemma ClosingKeepsRuns(t0: Tables, t1: Tables, t: Tables, groups: seq<seq<int>>, fates: nat -> Fate, last: seq<int>)
    requires Attempted(t0, t1, groups, fates, |groups|) && GivenUp(t1, t, last)
    requires forall c :: c in last ==> Done(t1, c)
    ensures Attempted(t0, t, groups, fates, |groups|)
  {
    forall c
      ensures RunTells(t0, t, groups, fates, |groups|, c)
    {
      assert RunTells(t0, t1, groups, fates, |groups|, c);
      assert RunOf(t, c) == RunOf(t1, c);
    }
  }

  function Pending(t: Tables, chunks: seq<int>): (p: seq<int>)
    ensures forall c :: c in p <==> c in chunks && !Done(t, c)
  {
    if chunks == [] then []
    else
      assert chunks == [chunks[0]] + chunks[1..];
      (if Done(t, chunks[0]) then [] else [chunks[0]]) + Pending(t, chunks[1..])
  }

  lemma {:induction false} OnlyRows(t: Tables, c: int, located: seq<Located>, facts: seq<Fact>)
    ensures var t' := AddFacts(AddEntities(t, c, located), c, facts); t'.runs == t.runs && t'.chunks == t.chunks
  {
    AddEntitiesKeys(t, c, located);
    AddFactsKeys(AddEntities(t, c, located), c, facts);
  }
}
