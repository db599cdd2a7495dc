/** Writing extractions and consolidations to the graph, as in apps/api/app/graph/pipeline.py: rows are
    keyed and inserted only if absent, a chunk's rows are committed together with its run, and crashed or
    failed chunks are tried again. */
module Pipeline {
  import opened Wrappers
  import opened GraphTables
  import E = Evidence

  /** How text is read: `norm` is `normalize_name`. */
  datatype Reading = Reading(unicode: E.Unicode, norm: string -> string)

  // ---------- What an extraction amounts to ----------

  datatype Located = Located(id: EntityId, span: Span)

  datatype Fact = Fact(relation: RelationId, span: Span)

  function SpanOf(q: E.Quote): Span {
    Span(q.text, q.offset, q.offset + |q.text|)
  }

  /** The entities whose names can be read in the chunk. */
  function Locate(x: Reading, text: string, items: seq<RawEntity>): seq<Located> {
    if items == [] then []
    else
      var n := |items| - 1;
      Locate(x, text, items[..n]) + LocateOne(x, text, items[n])
  }

  function LocateOne(x: Reading, text: string, item: RawEntity): seq<Located> {
    match E.FindEvidence(x.unicode, text, item.name)
    case None => []
    case Some(q) => [Located(EntityId(x.norm(item.name), x.norm(item.kind)), SpanOf(q))]
  }

  predicate Named(x: Reading, id: EntityId, name: string, kind: Option<string>) {
    id.name == x.norm(name) && (kind.None? || id.kind == x.norm(kind.value))
  }

  function Matching(x: Reading, located: seq<Located>, name: string, kind: Option<string>): (ids: seq<EntityId>)
    ensures forall id :: id in ids ==> exists l :: l in located && l.id == id
  {
    if located == [] then []
    else
      assert located == [located[0]] + located[1..];
      (if Named(x, located[0].id, name, kind) then [located[0].id] else []) + Matching(x, located[1..], name, kind)
  }

  /** An endpoint must match exactly one of the located entities. */
  function Endpoint(x: Reading, located: seq<Located>, name: string, kind: Option<string>): (e: Option<EntityId>)
    ensures e.Some? ==> exists l :: l in located && l.id == e.value
  {
    var ids := Matching(x, located, name, kind);
    if |ids| == 1 then
      assert ids[0] in ids;
      Some(ids[0])
    else None
  }

  /** The relation, with its evidence, unless an endpoint or the evidence is missing. */
  function Relate(x: Reading, text: string, located: seq<Located>, item: RawRelation): seq<Fact> {
    var source := Endpoint(x, located, item.source, item.sourceKind);
    var target := Endpoint(x, located, item.target, item.targetKind);
    if source.None? || target.None? || source == target then []
    else
      var quote := if item.quote.None? || item.quote.value == "" then text else item.quote.value;
      match E.FindEvidence(x.unicode, text, quote)
      case None => []
      case Some(q) => [Fact(RelationId(source.value, item.kind, target.value), SpanOf(q))]
  }

  function Facts(x: Reading, text: string, located: seq<Located>, items: seq<RawRelation>): seq<Fact> {
    if items == [] then []
    else
      var n := |items| - 1;
      Facts(x, text, located, items[..n]) + Relate(x, text, located, items[n])
  }

  // ---------- Inserting rows ----------

  function EntityEvidence(c: int, e: EntityId): EvidenceId {
    EvidenceId(Extraction, c, Some(e), None)
  }

  function RelationEvidence(c: int, r: RelationId): EvidenceId {
    EvidenceId(Extraction, c, None, Some(r))
  }

  function AddEvidence(t: Tables, k: EvidenceId, s: Span): Tables {
    if k in t.evidence then t else t.(evidence := t.evidence[k := s])
  }

  function AddEntity(t: Tables, c: int, l: Located): Tables {
    AddEvidence(t.(entities := t.entities + {l.id}), EntityEvidence(c, l.id), l.span)
  }

  function AddEntities(t: Tables, c: int, located: seq<Located>): Tables {
    if located == [] then t
    else
      var n := |located| - 1;
      AddEntity(AddEntities(t, c, located[..n]), c, located[n])
  }

  function AddFact(t: Tables, c: int, f: Fact): Tables {
    AddEvidence(t.(relations := t.relations + {f.relation}), RelationEvidence(c, f.relation), f.span)
  }

  function AddFacts(t: Tables, c: int, facts: seq<Fact>): Tables {
    if facts == [] then t
    else
      var n := |facts| - 1;
      AddFact(AddFacts(t, c, facts[..n]), c, facts[n])
  }

  predicate Done(t: Tables, c: int) {
    c in t.runs && t.runs[c].status == Succeeded
  }

  /** The rows of one chunk's extraction, and the success of its run. */
  function Persist(x: Reading, t: Tables, c: int, raw: Raw): Tables
    requires c in t.chunks
  {
    if Done(t, c) then t
    else
      var text := t.chunks[c].text;
      var located := Locate(x, text, raw.entities);
      AddFacts(AddEntities(t, c, located), c, Facts(x, text, located, raw.relations))
        .(runs := t.runs[c := Run(Succeeded, Some(raw))])
  }

  function Begin(t: Tables, c: int): Tables {
    t.(runs := t.runs[c := if c in t.runs then t.runs[c].(status := Running) else Run(Running, None)])
  }

  function MarkFailed(t: Tables, c: int): Tables {
    if c in t.runs && t.runs[c].status != Succeeded then t.(runs := t.runs[c := t.runs[c].(status := Failed)]) else t
  }

  // ---------- Consolidation ----------

  datatype FoundRelation = FoundRelation(source: string, sourceKind: string, target: string, targetKind: string,
                                         kind: string, chunk: int, quote: string)

  datatype FoundAlias = FoundAlias(canonicalName: string, kind: string, alias: string, chunk: int, quote: string)

  /** The tables as far as a consolidation got; it stops at the first item that does not check out, and
      what it wrote before is committed all the same. */
  datatype Progress = Progress(t: Tables, ok: bool)

  /** The stored entity of that name and type, if the document is evidence for it. */
  ghost function Known(x: Reading, t: Tables, document: int, name: string, kind: string): Option<EntityId> {
    var id := EntityId(x.norm(name), x.norm(kind));
    if id in t.entities && Cites(t, document, id) then Some(id) else None
  }

  /** The evidence for an item, if its quote can be read in an extracted chunk of the document. */
  ghost function Checked(x: Reading, t: Tables, document: int, c: int, quote: string): Option<Span> {
    if c in t.chunks && t.chunks[c].document == document && E.FindEvidence(x.unicode, t.chunks[c].text, quote).Some? && Done(t, c)
    then Some(SpanOf(E.FindEvidence(x.unicode, t.chunks[c].text, quote).value))
    else None
  }

  ghost function AddFoundRelation(x: Reading, t0: Tables, t: Tables, document: int, run: int, r: FoundRelation): Progress {
    var source := Known(x, t0, document, r.source, r.sourceKind);
    var target := Known(x, t0, document, r.target, r.targetKind);
    if source.None? || target.None? || source == target then Progress(t, false)
    else
      var id := RelationId(source.value, r.kind, target.value);
      var t' := t.(relations := t.relations + {id});
      var s := Checked(x, t, document, r.chunk, r.quote);
      if s.None? then Progress(t', false)
      else Progress(AddEvidence(t', EvidenceId(Consolidation(run, s.value.quote), r.chunk, None, Some(id)), s.value), true)
  }

  ghost function AddFoundAlias(x: Reading, t0: Tables, t: Tables, document: int, run: int, a: FoundAlias): Progress {
    var e := Known(x, t0, document, a.canonicalName, a.kind);
    if e.None? then Progress(t, false)
    else if x.norm(a.alias) == e.value.name then Progress(t, true)
    else
      var id := AliasId(x.norm(a.alias), a.kind);
      if id in t.aliases && t.aliases[id] != e.value then Progress(t, false)
      else
        var t' := t.(aliases := t.aliases[id := e.value]);
        var s := Checked(x, t, document, a.chunk, a.quote);
        if s.None? then Progress(t', false)
        else
          var k := EvidenceId(Consolidation(run, s.value.quote), a.chunk, Some(e.value), None);
          var t'' := AddEvidence(t', k, s.value);
          Progress(t''.(aliasEvidence := t''.aliasEvidence + {AliasLink(id, k)}), true)
  }

  ghost function AddFoundRelations(x: Reading, t: Tables, document: int, run: int, items: seq<FoundRelation>): Progress {
    if items == [] then Progress(t, true)
    else
      var n := |items| - 1;
      var p := AddFoundRelations(x, t, document, run, items[..n]);
      if p.ok then AddFoundRelation(x, t, p.t, document, run, items[n]) else p
  }

  ghost function AddFoundAliases(x: Reading, t0: Tables, t: Tables, document: int, run: int, items: seq<FoundAlias>): Progress {
    if items == [] then Progress(t, true)
    else
      var n := |items| - 1;
      var p := AddFoundAliases(x, t0, t, document, run, items[..n]);
      if p.ok then AddFoundAlias(x, t0, p.t, document, run, items[n]) else p
  }

  ghost function Consolidate(x: Reading, t: Tables, document: int, run: int, relations: seq<FoundRelation>, aliases: seq<FoundAlias>): Progress {
    var p := AddFoundRelations(x, t, document, run, relations);
    if p.ok then AddFoundAliases(x, t, p.t, document, run, aliases) else p
  }

  // ---------- Tables that only grow ----------

  ghost predicate Grows(t: Tables, t': Tables) {
    && t'.chunks == t.chunks && t.entities <= t'.entities && t.relations <= t'.relations
    && t.aliasEvidence <= t'.aliasEvidence && t'.merges == t.merges
    && (forall k {:trigger t'.evidence[k]} {:trigger k in t'.evidence} :: k in t.evidence ==> k in t'.evidence && t'.evidence[k] == t.evidence[k])
    && (forall a {:trigger t'.aliases[a]} {:trigger t.aliases[a]} :: a in t.aliases ==> a in t'.aliases && t'.aliases[a] == t.aliases[a])
  }

  lemma CitesGrows(t: Tables, t': Tables, document: int, e: EntityId)
    requires Grows(t, t') && Cites(t, document, e)
    ensures Cites(t', document, e)
  {
    var k :| k in t.evidence && From(t, k, document) && k.entity == Some(e);
    assert k in t'.evidence && From(t', k, document);
  }

  lemma SoundGrows(t: Tables, t': Tables, k: EvidenceId)
    requires Grows(t, t') && k in t.evidence && Sound(t, k)
    ensures Sound(t', k)
  {
    assert k in t'.evidence && t'.evidence[k] == t.evidence[k];
    if k.relation.Some? {
      CitesGrows(t, t', t.chunks[k.chunk].document, k.relation.value.source);
      CitesGrows(t, t', t.chunks[k.chunk].document, k.relation.value.target);
    }
  }

  /** New rows that check out, added to tables that do, leave tables that do. */
  lemma GrowthKeepsProvenance(t: Tables, t': Tables)
    requires Provenance(t) && Grows(t, t')
    requires forall k :: k in t'.evidence && k !in t.evidence ==> Sound(t', k)
    requires forall r :: r in t'.relations && r !in t.relations ==> Joined(t', r)
    requires forall a :: a in t'.aliases && a !in t.aliases ==> t'.aliases[a] in t'.entities
    requires forall l :: l in t'.aliasEvidence && l !in t.aliasEvidence ==> Linked(t', l)
    ensures Provenance(t')
  {
    forall k | k in t'.evidence
      ensures Sound(t', k)
    {
      if k in t.evidence {
        assert Sound(t, k);
        SoundGrows(t, t', k);
      }
    }
    forall r | r in t'.relations
      ensures Joined(t', r)
    {
      assert r in t.relations ==> Joined(t, r);
    }
    forall a | a in t'.aliases
      ensures t'.aliases[a] in t'.entities
    {
      assert a in t.aliases ==> t.aliases[a] in t.entities;
    }
    forall l | l in t'.aliasEvidence
      ensures Linked(t', l)
    {
      if l in t.aliasEvidence {
        assert Linked(t, l) && t.aliases[l.alias] in t.entities;
      }
    }
  }

  /** Evidence for a stored entity, or for a stored relation whose endpoints the document cites already. */
  lemma EvidenceKeeps(t: Tables, k: EvidenceId, s: Span)
    requires Provenance(t) && k.chunk in t.chunks && Quotes(t.chunks[k.chunk].text, s) && (k.entity.Some? <==> k.relation.None?)
    requires k.entity.Some? ==> k.entity.value in t.entities
    requires k.relation.Some? ==>
               && k.relation.value in t.relations
               && Cites(t, t.chunks[k.chunk].document, k.relation.value.source)
               && Cites(t, t.chunks[k.chunk].document, k.relation.value.target)
    ensures var t' := AddEvidence(t, k, s);
            Provenance(t') && Grows(t, t') && t'.runs == t.runs && k in t'.evidence
  {
    var t', d := AddEvidence(t, k, s), t.chunks[k.chunk].document;
    if k.relation.Some? {
      CitesGrows(t, t', d, k.relation.value.source);
      CitesGrows(t, t', d, k.relation.value.target);
    }
    GrowthKeepsProvenance(t, t');
  }

  lemma RelationKeeps(t: Tables, r: RelationId)
    requires Provenance(t) && r.source != r.target && r.source in t.entities && r.target in t.entities
    ensures var t' := t.(relations := t.relations + {r}); Provenance(t') && Grows(t, t')
  {
    GrowthKeepsProvenance(t, t.(relations := t.relations + {r}));
  }

  lemma AddEntityKeeps(t: Tables, c: int, l: Located)
    requires Provenance(t) && c in t.chunks && Quotes(t.chunks[c].text, l.span)
    ensures var t' := AddEntity(t, c, l);
            Provenance(t') && Grows(t, t') && t'.runs == t.runs && Cites(t', t.chunks[c].document, l.id)
  {
    var t1, k := t.(entities := t.entities + {l.id}), EntityEvidence(c, l.id);
    GrowthKeepsProvenance(t, t1);
    EvidenceKeeps(t1, k, l.span);
    assert From(AddEntity(t, c, l), k, t.chunks[c].document);
  }

  lemma AddFactKeeps(t: Tables, c: int, f: Fact)
    requires Provenance(t) && c in t.chunks && Quotes(t.chunks[c].text, f.span) && f.relation.source != f.relation.target
    requires Cites(t, t.chunks[c].document, f.relation.source) && Cites(t, t.chunks[c].document, f.relation.target)
    ensures var t' := AddFact(t, c, f);
            Provenance(t') && Grows(t, t') && t'.runs == t.runs
  {
    RelationEvidenceKeeps(t, RelationEvidence(c, f.relation), f.relation, f.span);
  }

  /** A relation whose endpoints the document cites, together with evidence for it. */
  lemma RelationEvidenceKeeps(t: Tables, k: EvidenceId, r: RelationId, s: Span)
    requires Provenance(t) && k.chunk in t.chunks && k.relation == Some(r) && k.entity == None
    requires Quotes(t.chunks[k.chunk].text, s) && r.source != r.target
    requires Cites(t, t.chunks[k.chunk].document, r.source) && Cites(t, t.chunks[k.chunk].document, r.target)
    ensures var t' := AddEvidence(t.(relations := t.relations + {r}), k, s);
            Provenance(t') && Grows(t, t') && t'.runs == t.runs
  {
    var t1, d := t.(relations := t.relations + {r}), t.chunks[k.chunk].document;
    CitedIsStored(t, d, r.source);
    CitedIsStored(t, d, r.target);
    RelationKeeps(t, r);
    CitesGrows(t, t1, d, r.source);
    CitesGrows(t, t1, d, r.target);
    EvidenceKeeps(t1, k, s);
  }

  lemma CitedIsStored(t: Tables, document: int, e: EntityId)
    requires Provenance(t) && Cites(t, document, e)
    ensures e in t.entities
  {
    var k :| k in t.evidence && From(t, k, document) && k.entity == Some(e);
    assert Sound(t, k);
  }

  lemma FoundQuotes(x: Reading, text: string, mention: string)
    requires x.unicode.Sane() && E.FindEvidence(x.unicode, text, mention).Some?
    ensures Quotes(text, SpanOf(E.FindEvidence(x.unicode, text, mention).value))
  {
    var before, after := E.EvidenceIsLocal(x.unicode, text, mention);
  }

  // ---------- Every writer keeps provenance ----------

  ghost predicate Quoted(text: string, located: seq<Located>) {
    forall l :: l in located ==> Quotes(text, l.span)
  }

  lemma {:induction false} LocateQuotes(x: Reading, text: string, items: seq<RawEntity>)
    requires x.unicode.Sane()
    ensures Quoted(text, Locate(x, text, items))
  {
    if items != [] {
      var n := |items| - 1;
      LocateQuotes(x, text, items[..n]);
      if E.FindEvidence(x.unicode, text, items[n].name).Some? {
        FoundQuotes(x, text, items[n].name);
      }
    }
  }

  lemma {:induction false} AddEntitiesKeeps(t: Tables, c: int, located: seq<Located>)
    requires Provenance(t) && c in t.chunks && Quoted(t.chunks[c].text, located)
    ensures var t' := AddEntities(t, c, located);
            && Provenance(t') && Grows(t, t') && t'.runs == t.runs
            && forall l :: l in located ==> Cites(t', t.chunks[c].document, l.id)
  {
    if located != [] {
      var n, d := |located| - 1, t.chunks[c].document;
      var t1, t' := AddEntities(t, c, located[..n]), AddEntities(t, c, located);
      AddEntitiesKeeps(t, c, located[..n]);
      AddEntityKeeps(t1, c, located[n]);
      forall l | l in located
        ensures Cites(t', d, l.id)
      {
        if l != located[n] {
          assert l in located[..n];
          CitesGrows(t1, t', d, l.id);
        }
      }
    }
  }

  /** A fact that the persisting step may add. */
  ghost predicate Grounded(t: Tables, c: int, f: Fact)
    requires c in t.chunks
  {
    && Quotes(t.chunks[c].text, f.span) && f.relation.source != f.relation.target
    && Cites(t, t.chunks[c].document, f.relation.source) && Cites(t, t.chunks[c].document, f.relation.target)
  }

  lemma {:induction false} FactsAreGrounded(x: Reading, t: Tables, c: int, located: seq<Located>, items: seq<RawRelation>)
    requires x.unicode.Sane() && c in t.chunks
    requires forall l :: l in located ==> Cites(t, t.chunks[c].document, l.id)
    ensures forall f :: f in Facts(x, t.chunks[c].text, located, items) ==> Grounded(t, c, f)
  {
    if items != [] {
      var n, text := |items| - 1, t.chunks[c].text;
      FactsAreGrounded(x, t, c, located, items[..n]);
      var quote := if items[n].quote.None? || items[n].quote.value == "" then text else items[n].quote.value;
      if E.FindEvidence(x.unicode, text, quote).Some? {
        FoundQuotes(x, text, quote);
      }
    }
  }

  lemma {:induction false} AddFactsKeeps(t: Tables, c: int, facts: seq<Fact>)
    requires Provenance(t) && c in t.chunks && forall f :: f in facts ==> Grounded(t, c, f)
    ensures var t' := AddFacts(t, c, facts);
            Provenance(t') && Grows(t, t') && t'.runs == t.runs
  {
    if facts != [] {
      var n := |facts| - 1;
      var t1 := AddFacts(t, c, facts[..n]);
      AddFactsKeeps(t, c, facts[..n]);
      assert Grounded(t, c, facts[n]);
      CitesGrows(t, t1, t.chunks[c].document, facts[n].relation.source);
      CitesGrows(t, t1, t.chunks[c].document, facts[n].relation.target);
      AddFactKeeps(t1, c, facts[n]);
    }
  }

  lemma RunsDoNotMatter(t: Tables, runs: map<int, Run>)
    requires Provenance(t)
    ensures Provenance(t.(runs := runs))
  {
    var t' := t.(runs := runs);
    forall k | k in t'.evidence
      ensures Sound(t', k)
    {
      assert Sound(t, k);
      SoundGrows(t, t', k);
    }
    forall r | r in t'.relations
      ensures Joined(t', r)
    {
      assert Joined(t, r);
    }
    forall l | l in t'.aliasEvidence
      ensures Linked(t', l)
    {
      assert Linked(t, l);
    }
    assert forall a :: a in t'.aliases ==> t.aliases[a] in t'.entities;
  }

  lemma PersistKeepsProvenance(x: Reading, t: Tables, c: int, raw: Raw)
    requires x.unicode.Sane() && Provenance(t) && c in t.chunks
    ensures Provenance(Persist(x, t, c, raw))
  {
    if !Done(t, c) {
      var text := t.chunks[c].text;
      var located := Locate(x, text, raw.entities);
      LocateQuotes(x, text, raw.entities);
      AddEntitiesKeeps(t, c, located);
      var t1 := AddEntities(t, c, located);
      FactsAreGrounded(x, t1, c, located, raw.relations);
      AddFactsKeeps(t1, c, Facts(x, text, located, raw.relations));
      RunsDoNotMatter(AddFacts(t1, c, Facts(x, text, located, raw.relations)), t.runs[c := Run(Succeeded, Some(raw))]);
    }
  }

  lemma CheckedQuotes(x: Reading, t: Tables, document: int, c: int, quote: string)
    requires x.unicode.Sane() && Checked(x, t, document, c, quote).Some?
    ensures c in t.chunks && t.chunks[c].document == document && Quotes(t.chunks[c].text, Checked(x, t, document, c, quote).value)
  {
    FoundQuotes(x, t.chunks[c].text, quote);
  }

  lemma FoundRelationKeeps(x: Reading, t0: Tables, t: Tables, document: int, run: int, r: FoundRelation)
    requires x.unicode.Sane() && Provenance(t) && Grows(t0, t)
    ensures var p := AddFoundRelation(x, t0, t, document, run, r);
            Provenance(p.t) && Grows(t0, p.t)
  {
    var source := Known(x, t0, document, r.source, r.sourceKind);
    var target := Known(x, t0, document, r.target, r.targetKind);
    if source.Some? && target.Some? && source != target {
      var id := RelationId(source.value, r.kind, target.value);
      RelationKeeps(t, id);
      var found := Checked(x, t, document, r.chunk, r.quote);
      if found.Some? {
        CheckedQuotes(x, t, document, r.chunk, r.quote);
        CitesGrows(t0, t, document, source.value);
        CitesGrows(t0, t, document, target.value);
        RelationEvidenceKeeps(t, EvidenceId(Consolidation(run, found.value.quote), r.chunk, None, Some(id)), id, found.value);
      }
    }
  }

  /** An alias of a stored entity, and, with evidence for the entity, the link between the two. */
  lemma AliasKeeps(t: Tables, id: AliasId, e: EntityId)
    requires Provenance(t) && e in t.entities && (id in t.aliases ==> t.aliases[id] == e)
    ensures var t' := t.(aliases := t.aliases[id := e]); Provenance(t') && Grows(t, t')
  {
    GrowthKeepsProvenance(t, t.(aliases := t.aliases[id := e]));
  }

  lemma LinkKeeps(t: Tables, l: AliasLink)
    requires Provenance(t) && Linked(t, l)
    ensures var t' := t.(aliasEvidence := t.aliasEvidence + {l}); Provenance(t') && Grows(t, t')
  {
    GrowthKeepsProvenance(t, t.(aliasEvidence := t.aliasEvidence + {l}));
  }

  /** An alias, evidence for its entity, and the link between them. */
  lemma LinkedAliasKeeps(t: Tables, id: AliasId, k: EvidenceId, s: Span)
    requires Provenance(t) && k.chunk in t.chunks && Quotes(t.chunks[k.chunk].text, s)
    requires k.entity.Some? && k.relation.None? && k.entity.value in t.entities
    requires id in t.aliases ==> t.aliases[id] == k.entity.value
    ensures var t' := AddEvidence(t.(aliases := t.aliases[id := k.entity.value]), k, s);
            var t'' := t'.(aliasEvidence := t'.aliasEvidence + {AliasLink(id, k)});
            Provenance(t'') && Grows(t, t'')
  {
    var t1 := t.(aliases := t.aliases[id := k.entity.value]);
    AliasKeeps(t, id, k.entity.value);
    EvidenceKeeps(t1, k, s);
    LinkKeeps(AddEvidence(t1, k, s), AliasLink(id, k));
  }

  lemma KnownIsStored(x: Reading, t0: Tables, t: Tables, document: int, name: string, kind: string)
    requires Grows(t0, t) && Known(x, t0, document, name, kind).Some?
    ensures Known(x, t0, document, name, kind).value in t.entities
  {
  }

  lemma GrowsFurther(t0: Tables, t: Tables, t': Tables)
    requires Grows(t0, t) && Grows(t, t')
    ensures Grows(t0, t')
  {
  }

  lemma FoundAliasKeeps(x: Reading, t0: Tables, t: Tables, document: int, run: int, a: FoundAlias)
    requires x.unicode.Sane() && Provenance(t) && Grows(t0, t)
    ensures var p := AddFoundAlias(x, t0, t, document, run, a);
            Provenance(p.t) && Grows(t0, p.t)
  {
    var e := Known(x, t0, document, a.canonicalName, a.kind);
    var id := AliasId(x.norm(a.alias), a.kind);
    if e.Some? && x.norm(a.alias) != e.value.name && (id in t.aliases ==> t.aliases[id] == e.value) {
      KnownIsStored(x, t0, t, document, a.canonicalName, a.kind);
      AliasKeeps(t, id, e.value);
      var found := Checked(x, t, document, a.chunk, a.quote);
      if found.Some? {
        CheckedQuotes(x, t, document, a.chunk, a.quote);
        LinkedAliasKeeps(t, id, EvidenceId(Consolidation(run, found.value.quote), a.chunk, Some(e.value), None), found.value);
        GrowsFurther(t0, t, AddFoundAlias(x, t0, t, document, run, a).t);
      }
    }
  }

  lemma {:induction false} FoundRelationsKeep(x: Reading, t: Tables, document: int, run: int, items: seq<FoundRelation>)
    requires x.unicode.Sane() && Provenance(t)
    ensures var p := AddFoundRelations(x, t, document, run, items);
            Provenance(p.t) && Grows(t, p.t)
  {
    if items != [] {
      var n := |items| - 1;
      FoundRelationsKeep(x, t, document, run, items[..n]);
      FoundRelationKeeps(x, t, AddFoundRelations(x, t, document, run, items[..n]).t, document, run, items[n]);
    }
  }

  lemma {:induction false} FoundAliasesKeep(x: Reading, t0: Tables, t: Tables, document: int, run: int, items: seq<FoundAlias>)
    requires x.unicode.Sane() && Provenance(t) && Grows(t0, t)
    ensures var p := AddFoundAliases(x, t0, t, document, run, items);
            Provenance(p.t) && Grows(t0, p.t)
  {
    if items != [] {
      var n := |items| - 1;
      FoundAliasesKeep(x, t0, t, document, run, items[..n]);
      FoundAliasKeeps(x, t0, AddFoundAliases(x, t0, t, document, run, items[..n]).t, document, run, items[n]);
    }
  }

  lemma ConsolidateKeepsProvenance(x: Reading, t: Tables, document: int, run: int, relations: seq<FoundRelation>, aliases: seq<FoundAlias>)
    requires x.unicode.Sane() && Provenance(t)
    ensures Provenance(Consolidate(x, t, document, run, relations, aliases).t)
  {
    FoundRelationsKeep(x, t, document, run, relations);
    var p := AddFoundRelations(x, t, document, run, relations);
    if p.ok {
      FoundAliasesKeep(x, t, p.t, document, run, aliases);
    }
  }
}
