/** What a consolidation leaves in the tables, said of its items (apps/api/app/graph/pipeline.py): each item that is
    reached adds its rows, and the first that does not check out stops it. */
module Consolidated {
  import opened Wrappers
  import opened GraphTables
  import opened Pipeline

  // ---------- Relations ----------

  /** The two named entities are known, differ, and are the relation's ends in this order. */
  ghost predicate Joins(x: Reading, t: Tables, document: int, item: FoundRelation, r: RelationId) {
    && Known(x, t, document, item.source, item.sourceKind) == Some(r.source)
    && Known(x, t, document, item.target, item.targetKind) == Some(r.target)
    && r.source != r.target && item.kind == r.kind
  }

  /** The item joins the relation and its quote reads `s` in chunk `c`. */
  ghost predicate Proves(x: Reading, t: Tables, document: int, item: FoundRelation, r: RelationId, c: int, s: Span) {
    Joins(x, t, document, item, r) && item.chunk == c && Checked(x, t, document, item.chunk, item.quote) == Some(s)
  }

  ghost predicate RelationFits(x: Reading, t: Tables, document: int, item: FoundRelation) {
    exists r, c, s :: Proves(x, t, document, item, r, c, s)
  }

  /** The first `n` items all check out. */
  ghost predicate RelationsFit(x: Reading, t: Tables, document: int, items: seq<FoundRelation>, n: int)
    requires n <= |items|
  {
    forall j :: 0 <= j < n ==> RelationFits(x, t, document, items[j])
  }

  ghost predicate JoinsAt(x: Reading, t: Tables, document: int, items: seq<FoundRelation>, r: RelationId, k: int) {
    0 <= k < |items| && RelationsFit(x, t, document, items, k) && Joins(x, t, document, items[k], r)
  }

  ghost predicate ProvesAt(x: Reading, t: Tables, document: int, run: int, items: seq<FoundRelation>, key: EvidenceId, k: int) {
    && 0 <= k < |items| && RelationsFit(x, t, document, items, k)
    && exists r, c, s :: Proves(x, t, document, items[k], r, c, s) && key == EvidenceId(Consolidation(run, s.quote), c, None, Some(r))
  }

  /** What an item comes to: its relation, and the key and quote of its evidence if the whole item checks out. */
  datatype Claim = Claim(relation: Option<RelationId>, key: Option<EvidenceId>, span: Span)

  ghost function ClaimOf(x: Reading, t: Tables, document: int, run: int, item: FoundRelation): Claim {
    var source := Known(x, t, document, item.source, item.sourceKind);
    var target := Known(x, t, document, item.target, item.targetKind);
    if source.None? || target.None? || source == target then Claim(None, None, Span("", 0, 0))
    else
      var r := RelationId(source.value, item.kind, target.value);
      match Checked(x, t, document, item.chunk, item.quote)
      case None => Claim(Some(r), None, Span("", 0, 0))
      case Some(s) => Claim(Some(r), Some(EvidenceId(Consolidation(run, s.quote), item.chunk, None, Some(r))), s)
  }

  ghost function Claims(x: Reading, t: Tables, document: int, run: int, items: seq<FoundRelation>): (claims: seq<Claim>)
    ensures |claims| == |items| && forall k :: 0 <= k < |items| ==> claims[k] == ClaimOf(x, t, document, run, items[k])
  {
    seq(|items|, k requires 0 <= k < |items| => ClaimOf(x, t, document, run, items[k]))
  }

  function Put(t: Tables, c: Claim): Progress {
    if c.relation.None? then Progress(t, false)
    else
      var t' := t.(relations := t.relations + {c.relation.value});
      if c.key.None? then Progress(t', false) else Progress(AddEvidence(t', c.key.value, c.span), true)
  }

  function PutAll(t: Tables, claims: seq<Claim>): Progress {
    if claims == [] then Progress(t, true)
    else
      var n := |claims| - 1;
      var p := PutAll(t, claims[..n]);
      if p.ok then Put(p.t, claims[n]) else p
  }

  ghost predicate Keyed(claims: seq<Claim>, n: int)
    requires n <= |claims|
  {
    forall j :: 0 <= j < n ==> claims[j].relation.Some? && claims[j].key.Some?
  }

  ghost predicate ClaimsAt(claims: seq<Claim>, r: RelationId, k: int) {
    0 <= k < |claims| && Keyed(claims, k) && claims[k].relation == Some(r)
  }

  ghost predicate KeysAt(claims: seq<Claim>, key: EvidenceId, k: int) {
    0 <= k < |claims| && Keyed(claims, k) && claims[k].relation.Some? && claims[k].key == Some(key)
  }

  /** Nothing but relations and evidence differs, and old evidence is as it was. */
  ghost predicate OnlyRelations(t: Tables, t': Tables) {
    && t'.chunks == t.chunks && t'.runs == t.runs && t'.entities == t.entities
    && t'.aliases == t.aliases && t'.aliasEvidence == t.aliasEvidence && t'.merges == t.merges
    && forall key :: key in t.evidence ==> key in t'.evidence && t'.evidence[key] == t.evidence[key]
  }

  lemma PutTells(t: Tables, c: Claim, r: RelationId, key: EvidenceId)
    ensures var p := Put(t, c);
            && OnlyRelations(t, p.t) && (p.ok <==> c.relation.Some? && c.key.Some?)
            && (r in p.t.relations <==> r in t.relations || c.relation == Some(r))
            && (key in p.t.evidence <==> key in t.evidence || (c.relation.Some? && c.key == Some(key)))
  {
  }

  lemma KeyedNext(claims: seq<Claim>, n: nat)
    requires n == |claims| - 1
    ensures Keyed(claims, n) <==> Keyed(claims[..n], n)
    ensures Keyed(claims, n + 1) <==> Keyed(claims, n) && claims[n].relation.Some? && claims[n].key.Some?
  {
    forall j | 0 <= j < n
      ensures claims[..n][j] == claims[j]
    {
    }
  }

  lemma AtPrefix(claims: seq<Claim>, r: RelationId, key: EvidenceId, k: int, n: nat)
    requires n == |claims| - 1 && k < n
    ensures ClaimsAt(claims, r, k) <==> ClaimsAt(claims[..n], r, k)
    ensures KeysAt(claims, key, k) <==> KeysAt(claims[..n], key, k)
  {
    if 0 <= k {
      assert claims[..n][k] == claims[k];
      assert forall j :: 0 <= j < k ==> claims[..n][j] == claims[j];
    }
  }

  ghost predicate SomeClaims(claims: seq<Claim>, r: RelationId) {
    exists k :: ClaimsAt(claims, r, k)
  }

  ghost predicate SomeKeys(claims: seq<Claim>, key: EvidenceId) {
    exists k :: KeysAt(claims, key, k)
  }

  lemma SomeNext(claims: seq<Claim>, r: RelationId, key: EvidenceId, n: nat)
    requires n == |claims| - 1
    ensures SomeClaims(claims, r) <==> SomeClaims(claims[..n], r) || ClaimsAt(claims, r, n)
    ensures SomeKeys(claims, key) <==> SomeKeys(claims[..n], key) || KeysAt(claims, key, n)
  {
    if k :| ClaimsAt(claims, r, k) {
      if k < n {
        AtPrefix(claims, r, key, k, n);
      }
    }
    if k :| ClaimsAt(claims[..n], r, k) {
      AtPrefix(claims, r, key, k, n);
    }
    if k :| KeysAt(claims, key, k) {
      if k < n {
        AtPrefix(claims, r, key, k, n);
      }
    }
    if k :| KeysAt(claims[..n], key, k) {
      AtPrefix(claims, r, key, k, n);
    }
  }

  lemma {:induction false} PutAllTells(t: Tables, claims: seq<Claim>, r: RelationId, key: EvidenceId)
    ensures var p := PutAll(t, claims);
            && OnlyRelations(t, p.t) && (p.ok <==> Keyed(claims, |claims|))
            && (r in p.t.relations <==> r in t.relations || SomeClaims(claims, r))
            && (key in p.t.evidence <==> key in t.evidence || SomeKeys(claims, key))
  {
    if claims != [] {
      var n := |claims| - 1;
      var p := PutAll(t, claims[..n]);
      PutAllTells(t, claims[..n], r, key);
      KeyedNext(claims, n);
      SomeNext(claims, r, key, n);
      if p.ok {
        PutTells(p.t, claims[n], r, key);
      }
    }
  }

  lemma ClaimIs(x: Reading, t: Tables, document: int, run: int, item: FoundRelation, r: RelationId, key: EvidenceId)
    ensures var claim := ClaimOf(x, t, document, run, item);
            && (claim.relation == Some(r) <==> Joins(x, t, document, item, r))
            && (claim.relation.Some? && claim.key == Some(key)
                <==> exists r, c, s :: Proves(x, t, document, item, r, c, s) && key == EvidenceId(Consolidation(run, s.quote), c, None, Some(r)))
  {
    var claim := ClaimOf(x, t, document, run, item);
    if claim.key == Some(key) && claim.relation.Some? {
      assert Proves(x, t, document, item, claim.relation.value, item.chunk, claim.span);
    }
  }

  lemma ClaimFits(x: Reading, t: Tables, document: int, run: int, item: FoundRelation)
    ensures var claim := ClaimOf(x, t, document, run, item);
            claim.relation.Some? && claim.key.Some? <==> RelationFits(x, t, document, item)
  {
    var claim := ClaimOf(x, t, document, run, item);
    if claim.relation.Some? && claim.key.Some? {
      assert Proves(x, t, document, item, claim.relation.value, item.chunk, claim.span);
    }
  }

  lemma AddIsPut(x: Reading, t0: Tables, t: Tables, document: int, run: int, item: FoundRelation)
    requires t.chunks == t0.chunks && t.runs == t0.runs
    ensures AddFoundRelation(x, t0, t, document, run, item) == Put(t, ClaimOf(x, t0, document, run, item))
  {
    assert Checked(x, t, document, item.chunk, item.quote) == Checked(x, t0, document, item.chunk, item.quote);
  }

  lemma {:induction false} AddIsPutAll(x: Reading, t: Tables, document: int, run: int, items: seq<FoundRelation>)
    ensures AddFoundRelations(x, t, document, run, items) == PutAll(t, Claims(x, t, document, run, items))
  {
    if items != [] {
      var n, claims := |items| - 1, Claims(x, t, document, run, items);
      AddIsPutAll(x, t, document, run, items[..n]);
      assert claims[..n] == Claims(x, t, document, run, items[..n]);
      PutAllKeeps(t, claims[..n]);
      AddIsPut(x, t, PutAll(t, claims[..n]).t, document, run, items[n]);
    }
  }

  lemma {:induction false} PutAllKeeps(t: Tables, claims: seq<Claim>)
    ensures PutAll(t, claims).t.chunks == t.chunks && PutAll(t, claims).t.runs == t.runs
  {
    if claims != [] {
      PutAllKeeps(t, claims[..|claims| - 1]);
    }
  }

  lemma FitIsKeyed(x: Reading, t: Tables, document: int, run: int, items: seq<FoundRelation>, n: int)
    requires n <= |items|
    ensures RelationsFit(x, t, document, items, n) <==> Keyed(Claims(x, t, document, run, items), n)
  {
    var claims := Claims(x, t, document, run, items);
    forall j | 0 <= j < n
      ensures claims[j].relation.Some? && claims[j].key.Some? <==> RelationFits(x, t, document, items[j])
    {
      ClaimFits(x, t, document, run, items[j]);
    }
  }

  lemma AtIs(x: Reading, t: Tables, document: int, run: int, items: seq<FoundRelation>, r: RelationId, key: EvidenceId, k: int)
    ensures JoinsAt(x, t, document, items, r, k) <==> ClaimsAt(Claims(x, t, document, run, items), r, k)
    ensures ProvesAt(x, t, document, run, items, key, k) <==> KeysAt(Claims(x, t, document, run, items), key, k)
  {
    if 0 <= k < |items| {
      FitIsKeyed(x, t, document, run, items, k);
      ClaimIs(x, t, document, run, items[k], r, key);
    }
  }

  /** The relations of a consolidation all go in exactly when each joins two known entities of the document and quotes
      an extracted chunk of it.  A relation is added exactly when an item that is reached joins it, evidence exactly
      when such an item checks out, and nothing else changes. */
  lemma RelationsTell(x: Reading, t: Tables, document: int, run: int, items: seq<FoundRelation>, r: RelationId, key: EvidenceId)
    ensures var p := AddFoundRelations(x, t, document, run, items);
            && OnlyRelations(t, p.t) && (p.ok <==> RelationsFit(x, t, document, items, |items|))
            && (r in p.t.relations <==> r in t.relations || exists k :: JoinsAt(x, t, document, items, r, k))
            && (key in p.t.evidence <==> key in t.evidence || exists k :: ProvesAt(x, t, document, run, items, key, k))
  {
    var claims := Claims(x, t, document, run, items);
    AddIsPutAll(x, t, document, run, items);
    PutAllTells(t, claims, r, key);
    FitIsKeyed(x, t, document, run, items, |items|);
    forall k
      ensures JoinsAt(x, t, document, items, r, k) <==> ClaimsAt(claims, r, k)
      ensures ProvesAt(x, t, document, run, items, key, k) <==> KeysAt(claims, key, k)
    {
      AtIs(x, t, document, run, items, r, key, k);
    }
  }

  // ---------- Aliases ----------

  /** What an alias item comes to: its entity; whether it is that entity's own name; the alias; and the key and quote of
      its evidence, if this checks out. */
  datatype Naming = Naming(entity: Option<EntityId>, own: bool, alias: AliasId, key: Option<EvidenceId>, span: Span)

  ghost function NamingOf(x: Reading, t: Tables, document: int, run: int, a: FoundAlias): Naming {
    var e := Known(x, t, document, a.canonicalName, a.kind);
    var alias := AliasId(x.norm(a.alias), a.kind);
    if e.None? then Naming(None, false, alias, None, Span("", 0, 0))
    else
      var own := x.norm(a.alias) == e.value.name;
      match Checked(x, t, document, a.chunk, a.quote)
      case None => Naming(e, own, alias, None, Span("", 0, 0))
      case Some(s) => Naming(e, own, alias, Some(EvidenceId(Consolidation(run, s.quote), a.chunk, e, None)), s)
  }

  ghost function Namings(x: Reading, t: Tables, document: int, run: int, items: seq<FoundAlias>): (namings: seq<Naming>)
    ensures |namings| == |items| && forall k :: 0 <= k < |items| ==> namings[k] == NamingOf(x, t, document, run, items[k])
  {
    seq(|items|, k requires 0 <= k < |items| => NamingOf(x, t, document, run, items[k]))
  }

  function Give(t: Tables, c: Naming): Progress {
    if c.entity.None? then Progress(t, false)
    else if c.own then Progress(t, true)
    else if c.alias in t.aliases && t.aliases[c.alias] != c.entity.value then Progress(t, false)
    else
      var t' := t.(aliases := t.aliases[c.alias := c.entity.value]);
      if c.key.None? then Progress(t', false)
      else
        var t'' := AddEvidence(t', c.key.value, c.span);
        Progress(t''.(aliasEvidence := t''.aliasEvidence + {AliasLink(c.alias, c.key.value)}), true)
  }

  function GiveAll(t: Tables, namings: seq<Naming>): Progress {
    if namings == [] then Progress(t, true)
    else
      var n := |namings| - 1;
      var p := GiveAll(t, namings[..n]);
      if p.ok then Give(p.t, namings[n]) else p
  }

  /** The item names `e` by the alias. */
  predicate NamesBy(c: Naming, a: AliasId, e: EntityId) {
    c.entity == Some(e) && !c.own && c.alias == a
  }

  /** The alias of item `k` stands for another entity already, or an item before gives it to another. */
  ghost predicate TakenAt(t: Tables, namings: seq<Naming>, a: AliasId, e: EntityId, k: int)
    requires k <= |namings|
  {
    (a in t.aliases && t.aliases[a] != e) || exists j, d :: 0 <= j < k && NamesBy(namings[j], a, d) && d != e
  }

  ghost predicate Fits(t: Tables, namings: seq<Naming>, k: int)
    requires 0 <= k < |namings|
  {
    var c := namings[k];
    c.entity.Some? && (c.own || (c.key.Some? && !TakenAt(t, namings, c.alias, c.entity.value, k)))
  }

  ghost predicate AllFit(t: Tables, namings: seq<Naming>, n: int)
    requires n <= |namings|
  {
    forall k {:trigger Fits(t, namings, k)} :: 0 <= k < n ==> Fits(t, namings, k)
  }

  /** Item `k` is reached and gives the entity the alias. */
  ghost predicate GivesAt(t: Tables, namings: seq<Naming>, a: AliasId, e: EntityId, k: int) {
    0 <= k < |namings| && AllFit(t, namings, k) && NamesBy(namings[k], a, e) && !TakenAt(t, namings, a, e, k)
  }

  /** Item `k` is reached, gives its alias, and has evidence with the key. */
  ghost predicate BacksAt(t: Tables, namings: seq<Naming>, key: EvidenceId, k: int) {
    0 <= k < |namings| && AllFit(t, namings, k) && Fits(t, namings, k) && !namings[k].own && namings[k].key == Some(key)
  }

  ghost predicate LinksAt(t: Tables, namings: seq<Naming>, a: AliasId, key: EvidenceId, k: int) {
    BacksAt(t, namings, key, k) && namings[k].alias == a
  }

  ghost predicate SomeGives(t: Tables, namings: seq<Naming>, a: AliasId, e: EntityId) {
    exists k :: GivesAt(t, namings, a, e, k)
  }

  ghost predicate SomeBacks(t: Tables, namings: seq<Naming>, key: EvidenceId) {
    exists k :: BacksAt(t, namings, key, k)
  }

  ghost predicate SomeLinks(t: Tables, namings: seq<Naming>, a: AliasId, key: EvidenceId) {
    exists k :: LinksAt(t, namings, a, key, k)
  }

  /** Nothing but aliases, their links and evidence differs, and what there was of these is as it was. */
  ghost predicate OnlyAliases(t: Tables, t': Tables) {
    && t'.chunks == t.chunks && t'.runs == t.runs && t'.entities == t.entities && t'.relations == t.relations && t'.merges == t.merges
    && (forall a :: a in t.aliases ==> a in t'.aliases && t'.aliases[a] == t.aliases[a])
    && (forall key :: key in t.evidence ==> key in t'.evidence && t'.evidence[key] == t.evidence[key])
  }

  /** The alias stands for the entity. */
  predicate StandsFor(t: Tables, a: AliasId, e: EntityId) {
    a in t.aliases && t.aliases[a] == e
  }

  /** What the item adds when it meets the tables `t`. */
  lemma GiveTells(t: Tables, c: Naming, a: AliasId, e: EntityId, key: EvidenceId)
    ensures var (p, free) := (Give(t, c), c.entity.Some? && !c.own && (c.alias in t.aliases ==> t.aliases[c.alias] == c.entity.value));
            && OnlyAliases(t, p.t) && (p.ok <==> c.entity.Some? && (c.own || (free && c.key.Some?)))
            && (StandsFor(p.t, a, e) <==> StandsFor(t, a, e) || (free && NamesBy(c, a, e)))
            && (AliasLink(a, key) in p.t.aliasEvidence <==> AliasLink(a, key) in t.aliasEvidence || (free && c.alias == a && c.key == Some(key)))
            && (key in p.t.evidence <==> key in t.evidence || (free && c.key == Some(key)))
  {
  }

  lemma TakenPrefix(t: Tables, namings: seq<Naming>, a: AliasId, e: EntityId, k: int, n: nat)
    requires k <= n <= |namings|
    ensures TakenAt(t, namings[..n], a, e, k) <==> TakenAt(t, namings, a, e, k)
  {
    forall j | 0 <= j < n
      ensures namings[..n][j] == namings[j]
    {
    }
    if j, d :| 0 <= j < k && NamesBy(namings[j], a, d) && d != e {
      assert NamesBy(namings[..n][j], a, d);
    }
    if j, d :| 0 <= j < k && NamesBy(namings[..n][j], a, d) && d != e {
      assert NamesBy(namings[j], a, d);
    }
  }

  lemma FitsPrefix(t: Tables, namings: seq<Naming>, k: int, n: nat)
    requires 0 <= k < n <= |namings|
    ensures Fits(t, namings[..n], k) <==> Fits(t, namings, k)
  {
    var c := namings[k];
    assert namings[..n][k] == c;
    if c.entity.Some? {
      TakenPrefix(t, namings, c.alias, c.entity.value, k, n);
    }
  }

  lemma AllFitPrefix(t: Tables, namings: seq<Naming>, k: int, n: nat)
    requires k <= n <= |namings|
    ensures AllFit(t, namings[..n], k) <==> AllFit(t, namings, k)
  {
    forall j | 0 <= j < k
      ensures Fits(t, namings[..n], j) <==> Fits(t, namings, j)
    {
      FitsPrefix(t, namings, j, n);
    }
  }

  lemma GivesPrefix(t: Tables, namings: seq<Naming>, a: AliasId, e: EntityId, k: int, n: nat)
    requires k < n <= |namings|
    ensures GivesAt(t, namings[..n], a, e, k) <==> GivesAt(t, namings, a, e, k)
  {
    if 0 <= k {
      AllFitPrefix(t, namings, k, n);
      TakenPrefix(t, namings, a, e, k, n);
      assert namings[..n][k] == namings[k];
    }
  }

  lemma BacksPrefix(t: Tables, namings: seq<Naming>, key: EvidenceId, k: int, n: nat)
    requires k < n <= |namings|
    ensures BacksAt(t, namings[..n], key, k) <==> BacksAt(t, namings, key, k)
    ensures 0 <= k ==> namings[..n][k] == namings[k]
  {
    if 0 <= k {
      AllFitPrefix(t, namings, k, n);
      FitsPrefix(t, namings, k, n);
    }
  }

  lemma SomeGivesNext(t: Tables, namings: seq<Naming>, a: AliasId, e: EntityId, n: nat)
    requires n == |namings| - 1
    ensures SomeGives(t, namings, a, e) <==> SomeGives(t, namings[..n], a, e) || GivesAt(t, namings, a, e, n)
  {
    if k :| GivesAt(t, namings, a, e, k) {
      if k < n {
        GivesPrefix(t, namings, a, e, k, n);
      }
    }
    if k :| GivesAt(t, namings[..n], a, e, k) {
      GivesPrefix(t, namings, a, e, k, n);
    }
  }

  lemma SomeBacksNext(t: Tables, namings: seq<Naming>, key: EvidenceId, n: nat)
    requires n == |namings| - 1
    ensures SomeBacks(t, namings, key) <==> SomeBacks(t, namings[..n], key) || BacksAt(t, namings, key, n)
  {
    if k :| BacksAt(t, namings, key, k) {
      if k < n {
        BacksPrefix(t, namings, key, k, n);
      }
    }
    if k :| BacksAt(t, namings[..n], key, k) {
      BacksPrefix(t, namings, key, k, n);
    }
  }

  lemma SomeLinksNext(t: Tables, namings: seq<Naming>, a: AliasId, key: EvidenceId, n: nat)
    requires n == |namings| - 1
    ensures SomeLinks(t, namings, a, key) <==> SomeLinks(t, namings[..n], a, key) || LinksAt(t, namings, a, key, n)
  {
    if k :| LinksAt(t, namings, a, key, k) {
      if k < n {
        BacksPrefix(t, namings, key, k, n);
        assert LinksAt(t, namings[..n], a, key, k);
      }
    }
    if k :| LinksAt(t, namings[..n], a, key, k) {
      BacksPrefix(t, namings, key, k, n);
      assert LinksAt(t, namings, a, key, k);
    }
  }

  lemma AllFitNext(t: Tables, namings: seq<Naming>, n: nat)
    requires n == |namings| - 1
    ensures AllFit(t, namings, n + 1) <==> AllFit(t, namings[..n], n) && Fits(t, namings, n)
  {
    AllFitPrefix(t, namings, n, n);
  }

  predicate Another(t: Tables, a: AliasId, e: EntityId) {
    a in t.aliases && t.aliases[a] != e
  }

  lemma GiveTakes(t: Tables, c: Naming, a: AliasId, e: EntityId)
    requires Give(t, c).ok
    ensures Another(Give(t, c).t, a, e) <==> Another(t, a, e) || (c.entity.Some? && NamesBy(c, a, c.entity.value) && c.entity.value != e)
  {
  }

  /** While all goes well an alias is taken exactly when it was at the start or an item has given it away. */
  lemma {:induction false} TakenIff(t: Tables, namings: seq<Naming>, a: AliasId, e: EntityId)
    requires GiveAll(t, namings).ok
    ensures Another(GiveAll(t, namings).t, a, e) <==> TakenAt(t, namings, a, e, |namings|)
  {
    if namings != [] {
      var n := |namings| - 1;
      TakenIff(t, namings[..n], a, e);
      TakenPrefix(t, namings, a, e, n, n);
      GiveTakes(GiveAll(t, namings[..n]).t, namings[n], a, e);
      TakenNext(t, namings, a, e, n);
    }
  }

  lemma TakenNext(t: Tables, namings: seq<Naming>, a: AliasId, e: EntityId, n: nat)
    requires n == |namings| - 1
    ensures TakenAt(t, namings, a, e, n + 1)
       <==> TakenAt(t, namings, a, e, n) || (namings[n].entity.Some? && NamesBy(namings[n], a, namings[n].entity.value) && namings[n].entity.value != e)
  {
    if j, d :| 0 <= j < n + 1 && NamesBy(namings[j], a, d) && d != e {
      assert j < n || namings[n].entity == Some(d);
    }
    if namings[n].entity.Some? && NamesBy(namings[n], a, namings[n].entity.value) && namings[n].entity.value != e {
      assert 0 <= n < n + 1 && NamesBy(namings[n], a, namings[n].entity.value);
    }
  }

  /** The state of the tables for one alias, entity and key after some namings. */
  ghost predicate AliasState(t: Tables, namings: seq<Naming>, p: Progress, a: AliasId, e: EntityId, key: EvidenceId) {
    && OnlyAliases(t, p.t) && (p.ok <==> AllFit(t, namings, |namings|))
    && (StandsFor(p.t, a, e) <==> StandsFor(t, a, e) || SomeGives(t, namings, a, e))
    && (AliasLink(a, key) in p.t.aliasEvidence <==> AliasLink(a, key) in t.aliasEvidence || SomeLinks(t, namings, a, key))
    && (key in p.t.evidence <==> key in t.evidence || SomeBacks(t, namings, key))
  }

  lemma {:induction false} GiveAllTells(t: Tables, namings: seq<Naming>, a: AliasId, e: EntityId, key: EvidenceId)
    ensures AliasState(t, namings, GiveAll(t, namings), a, e, key)
  {
    if namings != [] {
      var n := |namings| - 1;
      var p, c := GiveAll(t, namings[..n]), namings[n];
      GiveAllTells(t, namings[..n], a, e, key);
      AllFitNext(t, namings, n);
      AllFitPrefix(t, namings, n, n);
      SomeGivesNext(t, namings, a, e, n);
      SomeBacksNext(t, namings, key, n);
      SomeLinksNext(t, namings, a, key, n);
      if p.ok {
        if c.entity.Some? {
          TakenIff(t, namings[..n], c.alias, c.entity.value);
          TakenPrefix(t, namings, c.alias, c.entity.value, n, n);
        }
        GiveTells(p.t, c, a, e, key);
        GivesNow(t, namings, p.t, n, a, e, key);
      }
    } else {
      NothingGiven(t, a, e, key);
    }
  }

  lemma NothingGiven(t: Tables, a: AliasId, e: EntityId, key: EvidenceId)
    ensures AliasState(t, [], Progress(t, true), a, e, key)
  {
  }

  /** What the last item does, in terms of the tables it meets. */
  lemma GivesNow(t: Tables, namings: seq<Naming>, now: Tables, n: nat, a: AliasId, e: EntityId, key: EvidenceId)
    requires n == |namings| - 1 && AllFit(t, namings, n)
    requires var c := namings[n]; c.entity.Some? ==> (Another(now, c.alias, c.entity.value) <==> TakenAt(t, namings, c.alias, c.entity.value, n))
    ensures var c := namings[n];
            var free := c.entity.Some? && !c.own && (c.alias in now.aliases ==> now.aliases[c.alias] == c.entity.value);
            && (Fits(t, namings, n) <==> c.entity.Some? && (c.own || (free && c.key.Some?)))
            && (GivesAt(t, namings, a, e, n) <==> free && NamesBy(c, a, e))
            && (BacksAt(t, namings, key, n) <==> free && c.key == Some(key))
            && (LinksAt(t, namings, a, key, n) <==> free && c.alias == a && c.key == Some(key))
  {
  }

  lemma GiveIs(x: Reading, t0: Tables, t: Tables, document: int, run: int, item: FoundAlias)
    requires t.chunks == t0.chunks && t.runs == t0.runs
    ensures AddFoundAlias(x, t0, t, document, run, item) == Give(t, NamingOf(x, t0, document, run, item))
  {
    assert Checked(x, t, document, item.chunk, item.quote) == Checked(x, t0, document, item.chunk, item.quote);
  }

  lemma {:induction false} GiveAllKeeps(t: Tables, namings: seq<Naming>)
    ensures GiveAll(t, namings).t.chunks == t.chunks && GiveAll(t, namings).t.runs == t.runs
  {
    if namings != [] {
      GiveAllKeeps(t, namings[..|namings| - 1]);
    }
  }

  lemma {:induction false} AddIsGiveAll(x: Reading, t0: Tables, t: Tables, document: int, run: int, items: seq<FoundAlias>)
    requires t.chunks == t0.chunks && t.runs == t0.runs
    ensures AddFoundAliases(x, t0, t, document, run, items) == GiveAll(t, Namings(x, t0, document, run, items))
  {
    if items != [] {
      var n, namings := |items| - 1, Namings(x, t0, document, run, items);
      AddIsGiveAll(x, t0, t, document, run, items[..n]);
      assert namings[..n] == Namings(x, t0, document, run, items[..n]);
      GiveAllKeeps(t, namings[..n]);
      GiveIs(x, t0, GiveAll(t, namings[..n]).t, document, run, items[n]);
    }
  }

  /** The aliases of a consolidation, which meet the tables `t` that its relations left of `t0`, all go in exactly when
      each names a known entity of the document by an alias that stands for no other and quotes an extracted chunk,
      or names it by its own name.  An alias is given exactly by an item that is reached and finds it free; evidence
      and links come from those that check out; and nothing else changes. */
  lemma AliasesTell(x: Reading, t0: Tables, t: Tables, document: int, run: int, items: seq<FoundAlias>, a: AliasId, e: EntityId, key: EvidenceId)
    requires t.chunks == t0.chunks && t.runs == t0.runs
    ensures AliasState(t, Namings(x, t0, document, run, items), AddFoundAliases(x, t0, t, document, run, items), a, e, key)
  {
    AddIsGiveAll(x, t0, t, document, run, items);
    GiveAllTells(t, Namings(x, t0, document, run, items), a, e, key);
  }
}
