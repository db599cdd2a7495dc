/** The canonical graph as the write side keeps it (apps/api/app/graph/models.py), within one dataset.

    `stable_id` hashes its parts; a row's id is represented by those parts, so that equal ids mean equal
    parts.  Columns that nothing here depends on (confidence, review state, timestamps) are left out. */
module GraphTables {
  import opened Wrappers

  datatype EntityId = EntityId(name: string, kind: string)

  datatype RelationId = RelationId(source: EntityId, kind: string, target: EntityId)

  /** The run that recorded a piece of evidence: the extraction of its chunk, or a consolidation. */
  datatype Recorder = Extraction | Consolidation(run: int, quote: string)

  datatype EvidenceId = EvidenceId(recorder: Recorder, chunk: int, entity: Option<EntityId>, relation: Option<RelationId>)

  datatype Span = Span(quote: string, start: int, end: int)

  datatype AliasId = AliasId(name: string, kind: string)

  datatype AliasLink = AliasLink(alias: AliasId, evidence: EvidenceId)

  datatype Merge = Merge(id: int, source: EntityId, target: EntityId)

  datatype Chunk = Chunk(document: int, text: string)

  datatype RawEntity = RawEntity(name: string, kind: string)

  datatype RawRelation = RawRelation(source: string, kind: string, target: string,
                                     sourceKind: Option<string>, targetKind: Option<string>, quote: Option<string>)

  datatype Raw = Raw(entities: seq<RawEntity>, relations: seq<RawRelation>)

  datatype RunStatus = Running | Succeeded | Failed

  datatype Run = Run(status: RunStatus, raw: Option<Raw>)

  datatype Tables = Tables(
    chunks: map<int, Chunk>, runs: map<int, Run>,
    entities: set<EntityId>, relations: set<RelationId>, evidence: map<EvidenceId, Span>,
    aliases: map<AliasId, EntityId>, aliasEvidence: set<AliasLink>, merges: set<Merge>)

  /** The evidence row belongs to the document. */
  predicate From(t: Tables, k: EvidenceId, document: int) {
    k.chunk in t.chunks && t.chunks[k.chunk].document == document
  }

  /** Some evidence of the document is about the entity. */
  ghost predicate Cites(t: Tables, document: int, e: EntityId) {
    exists k :: k in t.evidence && From(t, k, document) && k.entity == Some(e)
  }

  // ---------- What the writers maintain ----------

  /** A row's evidence has one subject, which is stored; it quotes its chunk exactly; and evidence for a
      relation comes with evidence for both endpoints from the same document. */
  ghost predicate Sound(t: Tables, k: EvidenceId)
    requires k in t.evidence
  {
    && k.chunk in t.chunks
    && (k.entity.Some? <==> k.relation.None?)
    && Quotes(t.chunks[k.chunk].text, t.evidence[k])
    && (k.entity.Some? ==> k.entity.value in t.entities)
    && (k.relation.Some? ==>
          && k.relation.value in t.relations
          && Cites(t, t.chunks[k.chunk].document, k.relation.value.source)
          && Cites(t, t.chunks[k.chunk].document, k.relation.value.target))
  }

  predicate Quotes(text: string, s: Span) {
    0 <= s.start <= s.end <= |text| && text[s.start..s.end] == s.quote
  }

  ghost predicate Joined(t: Tables, r: RelationId) {
    r.source != r.target && r.source in t.entities && r.target in t.entities
  }

  /** An alias is supported by evidence about the entity that it names. */
  ghost predicate Linked(t: Tables, l: AliasLink) {
    l.alias in t.aliases && l.evidence in t.evidence && l.evidence.entity == Some(t.aliases[l.alias])
  }

  ghost predicate Provenance(t: Tables) {
    && (forall k {:trigger Sound(t, k)} :: k in t.evidence ==> Sound(t, k))
    && (forall r {:trigger Joined(t, r)} :: r in t.relations ==> Joined(t, r))
    && (forall a {:trigger t.aliases[a]} :: a in t.aliases ==> t.aliases[a] in t.entities)
    && (forall l {:trigger Linked(t, l)} :: l in t.aliasEvidence ==> Linked(t, l))
    && (forall m {:trigger m.source} {:trigger m.target} :: m in t.merges ==> m.source in t.entities && m.target in t.entities)
  }
}
