/**
  What building the knowledge graph for a batch of chunks comes to: filter the
  extracted entities, merge them against the store on two levels, map relation
  names to entity ids, and upsert.
*/
module KgMerge {
  import opened Wrappers
  import opened GraphModel

  const CONFIDENCE_MIN := 0.5
  const SIMILARITY_THRESHOLD := 0.92

  datatype ExtractedEntity = ExtractedEntity(name: string, kind: string, description: string, confidence: real)

  datatype ExtractedRelation = ExtractedRelation(
    head: string, tail: string, kind: string, description: string, weight: real)

  datatype Extraction = Extraction(entities: seq<ExtractedEntity>, relations: seq<ExtractedRelation>)

  /** A chunk and what extraction returned for it; None when it was skipped or failed. */
  datatype ChunkInput = ChunkInput(kb: string, doc: string, extraction: Option<Extraction>)

  /** What the builder calls and cannot see into; newId(n) is the n-th id it is handed. */
  datatype Environment = Environment(
    normalize: string -> string,
    embed: string -> seq<real>,
    nearest: (Graph, seq<real>) -> seq<Entity>,
    similarity: (seq<real>, seq<real>) -> real,
    newId: nat -> string)

  /** New ids are distinct and unknown to the graph; near-neighbour hits are entities of the graph searched. */
  ghost predicate Sound(env: Environment, g: Graph, issued: nat) {
    && (forall n :: n >= issued ==> env.newId(n) !in g.nodes)
    && (forall m, n :: 0 <= m < n ==> env.newId(m) != env.newId(n))
    && (forall h, v, i :: 0 <= i < |env.nearest(h, v)| ==> env.nearest(h, v)[i] in h.entities.Values)
  }

  lemma SoundLater(env: Environment, g: Graph, issued: nat, later: nat)
    requires Sound(env, g, issued) && issued <= later
    ensures Sound(env, g, later)
  {
  }

  // -------------------------------------------------------------------- filter

  /** Dictionary insertion: an existing name keeps its place and takes the new value. */
  function PutByName(kept: seq<ExtractedEntity>, e: ExtractedEntity): seq<ExtractedEntity> {
    if kept == [] then [e]
    else if kept[0].name == e.name then [e] + kept[1..]
    else [kept[0]] + PutByName(kept[1..], e)
  }

  function Survivors(es: seq<ExtractedEntity>): seq<ExtractedEntity> {
    if es == [] then []
    else
      var e := es[|es| - 1];
      var kept := Survivors(es[..|es| - 1]);
      if e.confidence >= CONFIDENCE_MIN then PutByName(kept, e) else kept
  }

  predicate HasName(es: seq<ExtractedEntity>, name: string) {
    exists i :: 0 <= i < |es| && es[i].name == name
  }

  function SurvivingRelations(rs: seq<ExtractedRelation>, kept: seq<ExtractedEntity>): seq<ExtractedRelation> {
    if rs == [] then []
    else (if HasName(kept, rs[0].head) && HasName(kept, rs[0].tail) then [rs[0]] else [])
         + SurvivingRelations(rs[1..], kept)
  }

  function FilterLowConfidence(x: Extraction): Extraction {
    var kept := Survivors(x.entities);
    Extraction(kept, SurvivingRelations(x.relations, kept))
  }

  ghost predicate DistinctNames(es: seq<ExtractedEntity>) {
    forall i, j :: 0 <= i < j < |es| ==> es[i].name != es[j].name
  }

  lemma {:induction false} PutByNameSpec(kept: seq<ExtractedEntity>, e: ExtractedEntity)
    requires DistinctNames(kept)
    ensures var put := PutByName(kept, e);
      && DistinctNames(put)
      && (forall x :: x in put <==> x == e || (x in kept && x.name != e.name))
  {
    if kept != [] && kept[0].name != e.name {
      PutByNameSpec(kept[1..], e);
      var put, rest := PutByName(kept, e), PutByName(kept[1..], e);
      assert put == [kept[0]] + rest;
      forall j | 0 <= j < |rest| ensures rest[j].name != kept[0].name {
        assert rest[j] in rest;
      }
      assert forall x :: x in put <==> x == kept[0] || x in rest;
      assert forall x :: x in kept <==> x == kept[0] || x in kept[1..];
    } else if kept != [] {
      assert forall x :: x in kept <==> x == kept[0] || x in kept[1..];
    }
  }

  /** es[i] passes the floor and no later entity of its name does. */
  ghost predicate LastToPass(es: seq<ExtractedEntity>, i: nat)
    requires i < |es|
  {
    && es[i].confidence >= CONFIDENCE_MIN
    && forall j :: i < j < |es| && es[j].name == es[i].name ==> es[j].confidence < CONFIDENCE_MIN
  }

  lemma LastToPassStep(es: seq<ExtractedEntity>, i: nat)
    requires i < |es| - 1
    ensures var n := |es| - 1;
      LastToPass(es, i) <==> LastToPass(es[..n], i) && (es[n].name == es[i].name ==> es[n].confidence < CONFIDENCE_MIN)
  {
  }

  ghost predicate Passes(es: seq<ExtractedEntity>, x: ExtractedEntity) {
    exists i :: 0 <= i < |es| && LastToPass(es, i) && es[i] == x
  }

  lemma PassesStep(es: seq<ExtractedEntity>, x: ExtractedEntity)
    requires es != []
    ensures var e := es[|es| - 1];
      Passes(es, x) <==>
        if e.confidence >= CONFIDENCE_MIN then x == e || (Passes(es[..|es| - 1], x) && x.name != e.name)
        else Passes(es[..|es| - 1], x)
  {
    var n := |es| - 1;
    var e, init := es[n], es[..n];
    if Passes(es, x) {
      var i :| 0 <= i < |es| && LastToPass(es, i) && es[i] == x;
      if i < n {
        LastToPassStep(es, i);
        assert LastToPass(init, i) && init[i] == x;
      }
    }
    if Passes(init, x) {
      var i :| 0 <= i < |init| && LastToPass(init, i) && init[i] == x;
      LastToPassStep(es, i);
      assert es[i] == x;
    }
    if e.confidence >= CONFIDENCE_MIN { assert LastToPass(es, n); }
  }

  /**
    The survivors have distinct names, and they are exactly the entities that
    pass the floor and are the last of their name to do so.
  */
  lemma {:induction false} SurvivorsSpec(es: seq<ExtractedEntity>)
    ensures DistinctNames(Survivors(es)) && forall x :: x in Survivors(es) <==> Passes(es, x)
  {
    if es != [] {
      var n := |es| - 1;
      SurvivorsSpec(es[..n]);
      PutByNameSpec(Survivors(es[..n]), es[n]);
      forall x ensures x in Survivors(es) <==> Passes(es, x) { PassesStep(es, x); }
    }
  }

  /** No surviving relation names an entity that was dropped, and none that could stay was dropped. */
  lemma {:induction false} SurvivingRelationsSpec(rs: seq<ExtractedRelation>, kept: seq<ExtractedEntity>)
    ensures forall r ::
      r in SurvivingRelations(rs, kept) <==> r in rs && HasName(kept, r.head) && HasName(kept, r.tail)
  {
    if rs != [] {
      SurvivingRelationsSpec(rs[1..], kept);
      assert rs == [rs[0]] + rs[1..];
    }
  }

  // -------------------------------------------------------------------- merge

  /** A candidate that level 2 may merge into. */
  ghost predicate Eligible(env: Environment, ext: ExtractedEntity, cand: Entity) {
    var v := env.embed(ext.description);
    && cand.nameNorm != env.normalize(ext.name)
    && cand.vector != []
    && |cand.vector| == |v|
    && env.similarity(v, cand.vector) >= SIMILARITY_THRESHOLD
    && cand.kind == ext.kind
  }

  /** The earliest of the most similar eligible candidates. */
  ghost predicate IsBest(env: Environment, ext: ExtractedEntity, cands: seq<Entity>, i: nat)
    requires i < |cands|
  {
    var v := env.embed(ext.description);
    && Eligible(env, ext, cands[i])
    && (forall j :: 0 <= j < |cands| && Eligible(env, ext, cands[j]) ==>
          env.similarity(v, cands[j].vector) <= env.similarity(v, cands[i].vector))
    && (forall j :: 0 <= j < i && Eligible(env, ext, cands[j]) ==>
          env.similarity(v, cands[j].vector) < env.similarity(v, cands[i].vector))
  }

  function Candidates(env: Environment, g: Graph, ext: ExtractedEntity): seq<Entity> {
    env.nearest(g, env.embed(ext.description))
  }

  /** The candidate that absorbs the extraction at level 2, if any may. */
  ghost function BestOf(env: Environment, g: Graph, ext: ExtractedEntity): Option<Entity> {
    var cands := Candidates(env, g, ext);
    if i :| 0 <= i < |cands| && IsBest(env, ext, cands, i) then Some(cands[i]) else None
  }

  lemma BestIsOne(env: Environment, g: Graph, ext: ExtractedEntity, i: nat)
    requires var cands := Candidates(env, g, ext); i < |cands| && IsBest(env, ext, cands, i)
    ensures BestOf(env, g, ext) == Some(Candidates(env, g, ext)[i])
  {
    var cands := Candidates(env, g, ext);
    assert forall j :: 0 <= j < |cands| && IsBest(env, ext, cands, j) ==> j == i;
  }

  /** The best of the first n candidates, where one of them is eligible. */
  lemma {:induction false} BestAmong(env: Environment, ext: ExtractedEntity, cands: seq<Entity>, n: nat)
    returns (at: nat)
    requires n <= |cands| && exists i :: 0 <= i < n && Eligible(env, ext, cands[i])
    ensures at < n && IsBest(env, ext, cands[..n], at)
  {
    var init, last := cands[..n - 1], cands[n - 1];
    assert cands[..n] == init + [last];
    var v := env.embed(ext.description);
    if exists i :: 0 <= i < n - 1 && Eligible(env, ext, cands[i]) {
      at := BestAmong(env, ext, cands, n - 1);
      if Eligible(env, ext, last) && env.similarity(v, last.vector) > env.similarity(v, init[at].vector) {
        at := n - 1;
      }
    } else {
      at := n - 1;
      assert forall i :: 0 <= i < n - 1 ==> !Eligible(env, ext, cands[i]);
    }
  }

  /** There is a best candidate exactly when some candidate is eligible. */
  lemma BestOfIff(env: Environment, g: Graph, ext: ExtractedEntity)
    ensures var cands := Candidates(env, g, ext);
      BestOf(env, g, ext).Some? <==> exists i :: 0 <= i < |cands| && Eligible(env, ext, cands[i])
    ensures BestOf(env, g, ext).Some? ==> BestOf(env, g, ext).value in Candidates(env, g, ext)
  {
    var cands := Candidates(env, g, ext);
    if exists i :: 0 <= i < |cands| && Eligible(env, ext, cands[i]) {
      var at := BestAmong(env, ext, cands, |cands|);
      assert cands[..|cands|] == cands;
      BestIsOne(env, g, ext, at);
    }
  }

  /** Longest of the two, the stored one on a tie. */
  function Longer(stored: string, inc: string): string {
    if |stored| >= |inc| then stored else inc
  }

  /** The entity an extraction turns into at each of the three levels; a new one has an id of its own. */
  ghost predicate MergesTo(env: Environment, g: Graph, kb: string, doc: string,
                           ext: ExtractedEntity, out: Entity)
  {
    var norm := env.normalize(ext.name);
    if norm in g.entities then
      var e := g.entities[norm];
      out == Entity(e.id, kb, Longer(e.name, ext.name), norm, e.kind, Longer(e.description, ext.description),
                    e.sources + {doc}, Max(e.confidence, ext.confidence), e.vector)
    else
      match BestOf(env, g, ext)
      case Some(c) => out == c.(kb := kb, sources := c.sources + {doc}, confidence := Max(c.confidence, ext.confidence))
      case None =>
        out == Entity(out.id, kb, ext.name, norm, ext.kind, ext.description, {doc}, ext.confidence,
                      env.embed(ext.description))
  }

  ghost predicate Merged(env: Environment, g: Graph, kb: string, doc: string,
                         extracted: seq<ExtractedEntity>, out: seq<Entity>)
  {
    |out| == |extracted| && forall i :: 0 <= i < |out| ==> MergesTo(env, g, kb, doc, extracted[i], out[i])
  }

  lemma MergedMore(env: Environment, g: Graph, kb: string, doc: string,
                   extracted: seq<ExtractedEntity>, i: nat, out: seq<Entity>, e: Entity)
    requires i < |extracted| && Merged(env, g, kb, doc, extracted[..i], out)
    requires MergesTo(env, g, kb, doc, extracted[i], e)
    ensures Merged(env, g, kb, doc, extracted[..i + 1], out + [e])
  {
    forall j | 0 <= j <= i ensures MergesTo(env, g, kb, doc, extracted[..i + 1][j], (out + [e])[j]) {
      if j < i { assert MergesTo(env, g, kb, doc, extracted[..i][j], out[j]); }
    }
  }

  /** What one chunk adds to a batch. */
  datatype Part = Part(entities: seq<Entity>, relations: seq<Relation>)

  /** A chunk's part: its filtered entities merged one by one, its filtered relations mapped to ids. */
  ghost predicate FromChunk(env: Environment, g: Graph, chunk: ChunkInput, part: Part) {
    if chunk.extraction == None then part == Part([], [])
    else
      var kept := FilterLowConfidence(chunk.extraction.value);
      && Merged(env, g, chunk.kb, chunk.doc, kept.entities, part.entities)
      && exists ids, n :: Resolves(g, part.entities, ids)
           && part.relations == Mapped(ids, kept.relations, chunk.kb, chunk.doc, env.newId, n)
  }

  ghost predicate FromChunks(env: Environment, g: Graph, chunks: seq<ChunkInput>, parts: seq<Part>) {
    |parts| == |chunks| && forall c :: 0 <= c < |chunks| ==> FromChunk(env, g, chunks[c], parts[c])
  }

  ghost function Together(parts: seq<Part>): Part {
    if parts == [] then Part([], [])
    else
      var init, last := Together(parts[..|parts| - 1]), parts[|parts| - 1];
      Part(init.entities + last.entities, init.relations + last.relations)
  }

  /** The upsert of a batch: relations only after all entities went through. */
  ghost function Built(g: Graph, all: Part): Outcome {
    var put := UpsertEntities(g, all.entities);
    if put.status == Done then UpsertRelations(put.graph, all.relations) else put
  }

  /** What merging gives up to the store: a stored name with its own id, or a new name with an unused id. */
  ghost predicate StoredOrNew(g: Graph, e: Entity) {
    if e.nameNorm in g.entities then e.id == g.entities[e.nameNorm].id else e.id !in g.nodes
  }

  // ---------------------------------------------------------------- integrity

  ghost predicate IsNew(g: Graph, e: Entity) {
    e.nameNorm !in g.entities
  }

  /** New entities bring unused ids, each its own. */
  ghost predicate FreshBatch(g: Graph, es: seq<Entity>) {
    && (forall i :: 0 <= i < |es| ==> StoredOrNew(g, es[i]))
    && (forall i, j :: 0 <= i < j < |es| && IsNew(g, es[i]) && IsNew(g, es[j]) ==> es[i].id != es[j].id)
  }

  /** No two new entities of the batch share a normalised name. */
  ghost predicate NewNamesDistinct(g: Graph, es: seq<Entity>) {
    forall i, j :: 0 <= i < j < |es| && IsNew(g, es[i]) ==> es[i].nameNorm != es[j].nameNorm
  }

  /** The part of FreshBatch that a failing upsert does not disturb. */
  ghost predicate FreshRest(g: Graph, es: seq<Entity>) {
    && (forall i :: 0 <= i < |es| ==> FreshIfNew(g, es[i]))
    && (forall i, j :: 0 <= i < j < |es| && IsNew(g, es[i]) && IsNew(g, es[j]) ==> es[i].id != es[j].id)
  }

  lemma {:induction false} BatchIntegral(g: Graph, es: seq<Entity>)
    requires Integral(g) && FreshRest(g, es)
    ensures Integral(UpsertEntities(g, es).graph)
    ensures LiveIds(g) <= LiveIds(UpsertEntities(g, es).graph)
    decreases es
  {
    if es != [] {
      assert FreshIfNew(g, es[0]);
      UpsertEntityIntegral(g, es[0]);
      var o := UpsertEntity(g, es[0]);
      if o.status == Done {
        assert FreshRest(o.graph, es[1..]) by {
          forall i | 0 <= i < |es[1..]| ensures FreshIfNew(o.graph, es[1..][i]) {
            assert FreshIfNew(g, es[i + 1]);
          }
        }
        BatchIntegral(o.graph, es[1..]);
      }
    }
  }

  lemma DistinctNamesAreAcceptable(g: Graph, es: seq<Entity>, i: nat)
    requires Integral(g) && FreshBatch(g, es) && NewNamesDistinct(g, es)
    requires i < |es| && AcceptsKb(g, es[i].kb)
    ensures Acceptable(g, es, i)
  {
  }

  lemma AcceptableNamesAreDistinct(g: Graph, es: seq<Entity>, i: nat, j: nat)
    requires Integral(g) && FreshBatch(g, es)
    requires i < j < |es| && IsNew(g, es[i]) && Acceptable(g, es, j)
    ensures es[i].nameNorm != es[j].nameNorm
  {
  }

  /** The batch goes through exactly when every knowledge base is accepted and new names are distinct. */
  lemma BuildCompletesIff(g: Graph, es: seq<Entity>)
    requires Integral(g) && FreshBatch(g, es)
    ensures UpsertEntities(g, es).status == Done
            <==> (forall i :: 0 <= i < |es| ==> AcceptsKb(g, es[i].kb)) && NewNamesDistinct(g, es)
  {
    BatchCompletesIff(g, es);
    if NewNamesDistinct(g, es) {
      forall i | 0 <= i < |es| && AcceptsKb(g, es[i].kb) ensures Acceptable(g, es, i) {
        DistinctNamesAreAcceptable(g, es, i);
      }
    }
    if forall i :: 0 <= i < |es| ==> Acceptable(g, es, i) {
      forall i, j | 0 <= i < j < |es| && IsNew(g, es[i]) ensures es[i].nameNorm != es[j].nameNorm {
        AcceptableNamesAreDistinct(g, es, i, j);
      }
      forall i | 0 <= i < |es| ensures AcceptsKb(g, es[i].kb) {
        assert Acceptable(g, es, i);
      }
    }
  }

  /** After a batch that went through, every id it carried is the id of a live entity. */
  lemma {:induction false} BatchIdsLive(g: Graph, es: seq<Entity>, i: nat)
    requires Integral(g) && FreshRest(g, es) && i < |es|
    requires UpsertEntities(g, es).status == Done
    requires forall j :: 0 <= j < |es| && !IsNew(g, es[j]) ==> es[j].id == g.entities[es[j].nameNorm].id
    requires NewNamesDistinct(g, es)
    ensures es[i].id in LiveIds(UpsertEntities(g, es).graph)
    decreases es
  {
    UpsertEntityIntegral(g, es[0]);
    var g' := UpsertEntity(g, es[0]).graph;
    assert FreshRest(g', es[1..]) by {
      forall j | 0 <= j < |es[1..]| ensures FreshIfNew(g', es[1..][j]) {
        assert FreshIfNew(g, es[j + 1]);
      }
    }
    if i == 0 {
      assert g'.entities[es[0].nameNorm].id == es[0].id;
      BatchIntegral(g', es[1..]);
    } else {
      BatchIdsLive(g', es[1..], i - 1);
    }
  }

  /**
    Referential integrity of a build: whatever the batch, the upserted state is
    integral, the relations of a batch that went through included.
  */
  lemma BuildIntegral(g: Graph, es: seq<Entity>, rs: seq<Relation>)
    requires Integral(g) && FreshBatch(g, es)
    requires AllKnown(g, es, rs)
    ensures Integral(Built(g, Part(es, rs)).graph)
  {
    assert FreshRest(g, es) by {
      forall i | 0 <= i < |es| ensures FreshIfNew(g, es[i]) {
        assert StoredOrNew(g, es[i]);
      }
    }
    BatchIntegral(g, es);
    if UpsertEntities(g, es).status == Done {
      BuildCompletesIff(g, es);
      var g' := UpsertEntities(g, es).graph;
      forall j | 0 <= j < |es| && !IsNew(g, es[j]) ensures es[j].id == g.entities[es[j].nameNorm].id {
        assert StoredOrNew(g, es[j]);
      }
      forall i | 0 <= i < |rs| ensures rs[i].head in LiveIds(g') && rs[i].tail in LiveIds(g') {
        assert EndpointsKnown(g, es, rs[i]);
        forall j | 0 <= j < |es| ensures es[j].id in LiveIds(g') { BatchIdsLive(g, es, j); }
      }
      UpsertRelationsIntegral(g', rs);
    }
  }

  // ------------------------------------------------- the condition over the chunks

  /** A surviving extraction with the knowledge base and document of its chunk. */
  datatype Brought = Brought(kb: string, doc: string, ext: ExtractedEntity)

  function BroughtBy(chunk: ChunkInput): seq<Brought> {
    if chunk.extraction == None then []
    else
      var kept := Survivors(chunk.extraction.value.entities);
      seq(|kept|, i requires 0 <= i < |kept| => Brought(chunk.kb, chunk.doc, kept[i]))
  }

  /** All surviving extractions of a batch of chunks, in order. */
  function AllBrought(chunks: seq<ChunkInput>): seq<Brought> {
    if chunks == [] then [] else AllBrought(chunks[..|chunks| - 1]) + BroughtBy(chunks[|chunks| - 1])
  }

  /** The name is not stored, and no similar candidate may absorb the extraction. */
  ghost predicate Novel(env: Environment, g: Graph, ext: ExtractedEntity) {
    var cands := Candidates(env, g, ext);
    env.normalize(ext.name) !in g.entities && forall i :: 0 <= i < |cands| ==> !Eligible(env, ext, cands[i])
  }

  ghost predicate BroughtAccepted(g: Graph, bs: seq<Brought>) {
    forall i :: 0 <= i < |bs| ==> AcceptsKb(g, bs[i].kb)
  }

  /** Every surviving extraction is of an accepted knowledge base, and no two novel ones share a normalised name. */
  ghost predicate Buildable(env: Environment, g: Graph, bs: seq<Brought>) {
    && BroughtAccepted(g, bs)
    && (forall i, j :: 0 <= i < j < |bs| && Novel(env, g, bs[i].ext) && Novel(env, g, bs[j].ext) ==>
          env.normalize(bs[i].ext.name) != env.normalize(bs[j].ext.name))
  }

  /** The name under which an extraction arrives as new, if it does. */
  ghost function NovelName(env: Environment, g: Graph, ext: ExtractedEntity): Option<string> {
    if Novel(env, g, ext) then Some(env.normalize(ext.name)) else None
  }

  ghost function NewName(g: Graph, e: Entity): Option<string> {
    if IsNew(g, e) then Some(e.nameNorm) else None
  }

  /** A candidate that absorbs an extraction is a stored entity. */
  lemma BestIsStored(env: Environment, g: Graph, ext: ExtractedEntity, issued: nat)
    requires Valid(g) && Sound(env, g, issued) && BestOf(env, g, ext).Some?
    ensures var c := BestOf(env, g, ext).value; c.nameNorm in g.entities && g.entities[c.nameNorm] == c
  {
    BestOfIff(env, g, ext);
    assert BestOf(env, g, ext).value in g.entities.Values;
  }

  /** What an extraction merges to is of its knowledge base, and new, under its own name, exactly when it is novel. */
  lemma MergedIsNew(env: Environment, g: Graph, b: Brought, e: Entity, issued: nat)
    requires Valid(g) && Sound(env, g, issued) && MergesTo(env, g, b.kb, b.doc, b.ext, e)
    ensures e.kb == b.kb && NewName(g, e) == NovelName(env, g, b.ext)
  {
    BestOfIff(env, g, b.ext);
    if BestOf(env, g, b.ext).Some? { BestIsStored(env, g, b.ext, issued); }
  }

  /** Each entity is what the extraction at its place merges to. */
  ghost predicate AllMerged(env: Environment, g: Graph, bs: seq<Brought>, es: seq<Entity>) {
    |es| == |bs| && forall i :: 0 <= i < |es| ==> MergesTo(env, g, bs[i].kb, bs[i].doc, bs[i].ext, es[i])
  }

  lemma PartMerged(env: Environment, g: Graph, chunk: ChunkInput, part: Part)
    requires FromChunk(env, g, chunk, part)
    ensures AllMerged(env, g, BroughtBy(chunk), part.entities)
  {
    if chunk.extraction.Some? {
      assert Merged(env, g, chunk.kb, chunk.doc, FilterLowConfidence(chunk.extraction.value).entities, part.entities);
    }
  }

  lemma AllMergedAppend(env: Environment, g: Graph, bs: seq<Brought>, es: seq<Entity>,
                        more: seq<Brought>, ents: seq<Entity>)
    requires AllMerged(env, g, bs, es) && AllMerged(env, g, more, ents)
    ensures AllMerged(env, g, bs + more, es + ents)
  {
  }

  /** The entities of a batch are what the surviving extractions of its chunks merge to, in order. */
  lemma {:induction false} TogetherMerged(env: Environment, g: Graph, chunks: seq<ChunkInput>, parts: seq<Part>)
    requires FromChunks(env, g, chunks, parts)
    ensures AllMerged(env, g, AllBrought(chunks), Together(parts).entities)
  {
    if chunks != [] {
      var n := |chunks| - 1;
      FromChunksLast(env, g, chunks, parts);
      TogetherMerged(env, g, chunks[..n], parts[..n]);
      PartMerged(env, g, chunks[n], parts[n]);
      AllMergedAppend(env, g, AllBrought(chunks[..n]), Together(parts[..n]).entities,
                      BroughtBy(chunks[n]), parts[n].entities);
    }
  }

  /** Each entity is of the knowledge base, and new or not, as the extraction at its place says. */
  ghost predicate Matches(env: Environment, g: Graph, bs: seq<Brought>, es: seq<Entity>) {
    && |es| == |bs|
    && forall i :: 0 <= i < |es| ==> es[i].kb == bs[i].kb && NewName(g, es[i]) == NovelName(env, g, bs[i].ext)
  }

  lemma MergedMatches(env: Environment, g: Graph, bs: seq<Brought>, es: seq<Entity>, issued: nat)
    requires Valid(g) && Sound(env, g, issued) && AllMerged(env, g, bs, es)
    ensures Matches(env, g, bs, es)
  {
    forall i | 0 <= i < |es| ensures es[i].kb == bs[i].kb && NewName(g, es[i]) == NovelName(env, g, bs[i].ext) {
      MergedIsNew(env, g, bs[i], es[i], issued);
    }
  }

  lemma BuildableIff(env: Environment, g: Graph, bs: seq<Brought>, es: seq<Entity>)
    requires Matches(env, g, bs, es)
    ensures (forall i :: 0 <= i < |es| ==> AcceptsKb(g, es[i].kb)) && NewNamesDistinct(g, es) <==> Buildable(env, g, bs)
  {
    assert NewNamesDistinct(g, es) <==>
      forall i, j :: 0 <= i < j < |es| && NewName(g, es[i]).Some? ==> NewName(g, es[i]) != NewName(g, es[j]);
  }

  /**
    Over the chunks: the entities of a build go through exactly when every surviving
    extraction is of an accepted knowledge base, and no two of those that are
    neither stored nor absorbed by similarity normalise to one name.
  */
  lemma ChunksCompleteIff(env: Environment, g: Graph, chunks: seq<ChunkInput>, parts: seq<Part>, issued: nat)
    requires Integral(g) && Sound(env, g, issued)
    requires FromChunks(env, g, chunks, parts)
    requires FreshBatch(g, Together(parts).entities)
    ensures UpsertEntities(g, Together(parts).entities).status == Done <==> Buildable(env, g, AllBrought(chunks))
  {
    TogetherMerged(env, g, chunks, parts);
    MergedMatches(env, g, AllBrought(chunks), Together(parts).entities, issued);
    BuildCompletesIff(g, Together(parts).entities);
    BuildableIff(env, g, AllBrought(chunks), Together(parts).entities);
  }

  ghost predicate RelationsAccepted(g: Graph, rs: seq<Relation>) {
    forall i :: 0 <= i < |rs| ==> AcceptsKb(g, rs[i].kb)
  }

  lemma BroughtAcceptedSplit(g: Graph, a: seq<Brought>, b: seq<Brought>)
    requires BroughtAccepted(g, a + b)
    ensures BroughtAccepted(g, a) && BroughtAccepted(g, b)
  {
    assert forall i :: 0 <= i < |a| ==> a[i] == (a + b)[i];
    assert forall i :: 0 <= i < |b| ==> b[i] == (a + b)[|a| + i];
  }

  /** A relation that survived the filter comes with surviving entities. */
  lemma RelationsComeWithEntities(x: Extraction)
    requires FilterLowConfidence(x).relations != []
    ensures Survivors(x.entities) != []
  {
    var kept := Survivors(x.entities);
    var rs := SurvivingRelations(x.relations, kept);
    SurvivingRelationsSpec(x.relations, kept);
    assert rs[0] in rs;
  }

  ghost predicate OfKb(rels: seq<Relation>, kb: string) {
    forall i :: 0 <= i < |rels| ==> rels[i].kb == kb
  }

  lemma {:induction false} MappedKb(ids: map<string, string>, rs: seq<ExtractedRelation>, kb: string, doc: string,
                                    newId: nat -> string, issued: nat)
    ensures OfKb(Mapped(ids, rs, kb, doc, newId, issued), kb)
    ensures rs == [] ==> Mapped(ids, rs, kb, doc, newId, issued) == []
    decreases rs
  {
    if rs != [] {
      if rs[0].head in ids && rs[0].tail in ids {
        MappedKb(ids, rs[1..], kb, doc, newId, issued + 1);
      } else {
        MappedKb(ids, rs[1..], kb, doc, newId, issued);
      }
    }
  }

  lemma PartOfKb(env: Environment, g: Graph, chunk: ChunkInput, part: Part)
    requires FromChunk(env, g, chunk, part)
    ensures OfKb(part.relations, chunk.kb)
    ensures part.relations != [] ==> chunk.extraction.Some? && Survivors(chunk.extraction.value.entities) != []
  {
    if chunk.extraction.Some? {
      var kept := FilterLowConfidence(chunk.extraction.value);
      var ids, n: nat :| Resolves(g, part.entities, ids)
        && part.relations == Mapped(ids, kept.relations, chunk.kb, chunk.doc, env.newId, n);
      MappedKb(ids, kept.relations, chunk.kb, chunk.doc, env.newId, n);
      if kept.relations != [] { RelationsComeWithEntities(chunk.extraction.value); }
    }
  }

  lemma PartRelationsAccepted(env: Environment, g: Graph, chunk: ChunkInput, part: Part)
    requires FromChunk(env, g, chunk, part) && BroughtAccepted(g, BroughtBy(chunk))
    ensures RelationsAccepted(g, part.relations)
  {
    PartOfKb(env, g, chunk, part);
    if part.relations != [] {
      assert BroughtBy(chunk)[0].kb == chunk.kb && AcceptsKb(g, chunk.kb);
    }
  }

  lemma FromChunksLast(env: Environment, g: Graph, chunks: seq<ChunkInput>, parts: seq<Part>)
    requires chunks != [] && FromChunks(env, g, chunks, parts)
    ensures var n := |chunks| - 1;
      FromChunks(env, g, chunks[..n], parts[..n]) && FromChunk(env, g, chunks[n], parts[n])
  {
    var n := |chunks| - 1;
    forall b | 0 <= b < n ensures FromChunk(env, g, chunks[..n][b], parts[..n][b]) {
      assert FromChunk(env, g, chunks[b], parts[b]);
    }
  }

  lemma {:induction false} EachAccepted(g: Graph, chunks: seq<ChunkInput>, c: nat)
    requires c < |chunks| && BroughtAccepted(g, AllBrought(chunks))
    ensures BroughtAccepted(g, BroughtBy(chunks[c]))
    decreases chunks
  {
    var n := |chunks| - 1;
    BroughtAcceptedSplit(g, AllBrought(chunks[..n]), BroughtBy(chunks[n]));
    if c < n {
      EachAccepted(g, chunks[..n], c);
      assert chunks[..n][c] == chunks[c];
    }
  }

  lemma {:induction false} RelationsTogether(g: Graph, parts: seq<Part>)
    requires forall c :: 0 <= c < |parts| ==> RelationsAccepted(g, parts[c].relations)
    ensures RelationsAccepted(g, Together(parts).relations)
  {
    if parts != [] { RelationsTogether(g, parts[..|parts| - 1]); }
  }

  /** So where all extractions are of accepted knowledge bases, the relations are too. */
  lemma TogetherAccepted(env: Environment, g: Graph, chunks: seq<ChunkInput>, parts: seq<Part>)
    requires FromChunks(env, g, chunks, parts)
    requires BroughtAccepted(g, AllBrought(chunks))
    ensures RelationsAccepted(g, Together(parts).relations)
  {
    forall c | 0 <= c < |parts| ensures RelationsAccepted(g, parts[c].relations) {
      EachAccepted(g, chunks, c);
      PartRelationsAccepted(env, g, chunks[c], parts[c]);
    }
    RelationsTogether(g, parts);
  }

  lemma {:induction false} AcceptedRelationsComplete(g: Graph, rs: seq<Relation>)
    requires forall i :: 0 <= i < |rs| ==> AcceptsKb(g, rs[i].kb)
    ensures UpsertRelations(g, rs).status == Done
    decreases rs
  {
    if rs != [] { AcceptedRelationsComplete(UpsertRelation(g, rs[0]).graph, rs[1..]); }
  }

  lemma {:induction false} BatchKeepsKb(g: Graph, es: seq<Entity>)
    ensures UpsertEntities(g, es).graph.kb == g.kb
    decreases es
  {
    if es != [] && UpsertEntity(g, es[0]).status == Done { BatchKeepsKb(UpsertEntity(g, es[0]).graph, es[1..]); }
  }

  /** The whole call returns normally exactly when the batch of chunks is buildable. */
  lemma BuildEndsDoneIff(env: Environment, g: Graph, chunks: seq<ChunkInput>, parts: seq<Part>, issued: nat)
    requires Integral(g) && Sound(env, g, issued)
    requires FromChunks(env, g, chunks, parts)
    requires FreshBatch(g, Together(parts).entities)
    ensures Built(g, Together(parts)).status == Done <==> Buildable(env, g, AllBrought(chunks))
  {
    ChunksCompleteIff(env, g, chunks, parts, issued);
    if Buildable(env, g, AllBrought(chunks)) {
      TogetherAccepted(env, g, chunks, parts);
      BatchKeepsKb(g, Together(parts).entities);
      AcceptedRelationsComplete(UpsertEntities(g, Together(parts).entities).graph, Together(parts).relations);
    }
  }

  // ------------------------------------------------- which relations are mapped

  /** A name resolves exactly when a merged entity of the chunk or a stored one is spelled so. */
  lemma NameResolvesIff(g: Graph, ents: seq<Entity>, ids: map<string, string>, name: string)
    requires Resolves(g, ents, ids)
    ensures name in ids <==>
      || (exists i :: 0 <= i < |ents| && ents[i].name == name)
      || (exists k :: k in g.entities && g.entities[k].name == name)
  {
    if LastNamed(ents, name).Some? {
      LastNamedIsMember(ents, name);
    }
    if i :| 0 <= i < |ents| && ents[i].name == name { MemberIsNamed(ents, name, i); }
  }

  lemma {:induction false} MemberIsNamed(ents: seq<Entity>, name: string, i: nat)
    requires i < |ents| && ents[i].name == name
    ensures LastNamed(ents, name).Some?
  {
    var n := |ents| - 1;
    if ents[n].name != name { MemberIsNamed(ents[..n], name, i); }
  }

  /** The spelling that the entity of an extraction ends up with. */
  ghost function MergedName(env: Environment, g: Graph, ext: ExtractedEntity): string {
    var norm := env.normalize(ext.name);
    if norm in g.entities then Longer(g.entities[norm].name, ext.name)
    else match BestOf(env, g, ext)
         case Some(c) => c.name
         case None => ext.name
  }

  /**
    A name that relations use is lost exactly when no surviving extraction of the
    chunk ends up with that spelling, and no stored entity has it.
  */
  lemma SpellingLostIff(env: Environment, g: Graph, chunk: ChunkInput, ents: seq<Entity>, ids: map<string, string>,
                        name: string)
    requires AllMerged(env, g, BroughtBy(chunk), ents) && Resolves(g, ents, ids)
    ensures var bs := BroughtBy(chunk);
      name !in ids <==>
        && (forall i :: 0 <= i < |bs| ==> MergedName(env, g, bs[i].ext) != name)
        && (forall k :: k in g.entities ==> g.entities[k].name != name)
  {
    NameResolvesIff(g, ents, ids, name);
    var bs := BroughtBy(chunk);
    forall i | 0 <= i < |bs| ensures ents[i].name == MergedName(env, g, bs[i].ext) {
      assert MergesTo(env, g, bs[i].kb, bs[i].doc, bs[i].ext, ents[i]);
    }
  }

  // ----------------------------------------------------------------------------

  /** Both endpoints are ids of stored entities or of entities of the batch. */
  ghost predicate EndpointsKnown(g: Graph, es: seq<Entity>, r: Relation) {
    && (r.head in LiveIds(g) || exists i :: 0 <= i < |es| && es[i].id == r.head)
    && (r.tail in LiveIds(g) || exists i :: 0 <= i < |es| && es[i].id == r.tail)
  }

  ghost predicate AllKnown(g: Graph, es: seq<Entity>, rs: seq<Relation>) {
    forall i :: 0 <= i < |rs| ==> EndpointsKnown(g, es, rs[i])
  }

  /** What a batch of chunks comes to: the parts chunk by chunk and together, ids minted in [from, to). */
  ghost predicate Collected(env: Environment, g: Graph, chunks: seq<ChunkInput>, es: seq<Entity>, rs: seq<Relation>,
                            parts: seq<Part>, from: nat, to: nat) {
    && FromChunks(env, g, chunks, parts)
    && Part(es, rs) == Together(parts)
    && Minted(env, g, es, from, to)
    && AllKnown(g, es, rs)
  }

  /** Deleting any documents afterwards, in any order, keeps integrity. */
  lemma {:induction false} DeletionsIntegral(g: Graph, docs: seq<string>)
    requires Integral(g)
    ensures Integral(DeleteDocs(g, docs))
    decreases docs
  {
    if docs != [] {
      DeleteIntegral(g, docs[0]);
      DeletionsIntegral(DeleteByDoc(g, docs[0]), docs[1..]);
    }
  }

  lemma CollectedMore(env: Environment, g: Graph, chunks: seq<ChunkInput>, c: nat, es: seq<Entity>, rs: seq<Relation>,
                      parts: seq<Part>, part: Part, first: nat, from: nat, to: nat)
    requires c < |chunks| && Collected(env, g, chunks[..c], es, rs, parts, first, from)
    requires FromChunk(env, g, chunks[c], part) && AllKnown(g, part.entities, part.relations)
    requires Minted(env, g, es + part.entities, first, to)
    ensures Collected(env, g, chunks[..c + 1], es + part.entities, rs + part.relations, parts + [part], first, to)
  {
    FromChunksMore(env, g, chunks, c, parts, part);
    KnownMore(g, es, rs, part);
    TogetherMore(parts, part);
  }

  lemma FromChunksMore(env: Environment, g: Graph, chunks: seq<ChunkInput>, c: nat, parts: seq<Part>, part: Part)
    requires c < |chunks| && FromChunks(env, g, chunks[..c], parts) && FromChunk(env, g, chunks[c], part)
    ensures FromChunks(env, g, chunks[..c + 1], parts + [part])
  {
    forall b | 0 <= b <= c ensures FromChunk(env, g, chunks[..c + 1][b], (parts + [part])[b]) {
      if b < c { assert FromChunk(env, g, chunks[..c][b], parts[b]); }
    }
  }

  lemma TogetherMore(parts: seq<Part>, p: Part)
    ensures var t := Together(parts);
      Together(parts + [p]) == Part(t.entities + p.entities, t.relations + p.relations)
  {
  }

  /** The id of the last entity of a list that has the given name. */
  function LastNamed(ents: seq<Entity>, name: string): Option<string> {
    if ents == [] then None
    else
      var last := ents[|ents| - 1];
      if last.name == name then Some(last.id) else LastNamed(ents[..|ents| - 1], name)
  }

  ghost predicate StoredAs(g: Graph, name: string, id: string) {
    exists k :: k in g.entities && g.entities[k].name == name && g.entities[k].id == id
  }

  /** A name stands for the last merged entity that has it, else for some stored one, else for nothing. */
  ghost predicate Resolves(g: Graph, ents: seq<Entity>, ids: map<string, string>) {
    && (forall n :: LastNamed(ents, n).Some? ==> n in ids && ids[n] == LastNamed(ents, n).value)
    && (forall n :: n in ids && LastNamed(ents, n).None? ==> StoredAs(g, n, ids[n]))
    && (forall k :: k in g.entities ==> g.entities[k].name in ids)
  }

  lemma {:induction false} LastNamedIsMember(ents: seq<Entity>, name: string)
    requires LastNamed(ents, name).Some?
    ensures exists i :: 0 <= i < |ents| && ents[i].name == name && ents[i].id == LastNamed(ents, name).value
  {
    var n := |ents| - 1;
    if ents[n].name != name {
      LastNamedIsMember(ents[..n], name);
      var i :| 0 <= i < n && ents[..n][i].name == name && ents[..n][i].id == LastNamed(ents, name).value;
      assert ents[i] == ents[..n][i];
    }
  }

  /** Extracted relations with both names resolved, in order, under fresh ids. */
  function Mapped(ids: map<string, string>, rs: seq<ExtractedRelation>, kb: string, doc: string,
                  newId: nat -> string, issued: nat): seq<Relation>
    decreases rs
  {
    if rs == [] then []
    else if rs[0].head in ids && rs[0].tail in ids then
      [Relation(newId(issued), kb, ids[rs[0].head], ids[rs[0].tail],
                rs[0].kind, rs[0].description, rs[0].weight, {doc})]
      + Mapped(ids, rs[1..], kb, doc, newId, issued + 1)
    else Mapped(ids, rs[1..], kb, doc, newId, issued)
  }

  /** Mapping from the i-th relation on, behind those already mapped. */
  lemma MappedNext(ids: map<string, string>, rs: seq<ExtractedRelation>, i: nat, made: seq<Relation>,
                   kb: string, doc: string, newId: nat -> string, issued: nat)
    requires i < |rs|
    ensures made + Mapped(ids, rs[i..], kb, doc, newId, issued)
      == if rs[i].head in ids && rs[i].tail in ids then
           made + [Relation(newId(issued), kb, ids[rs[i].head], ids[rs[i].tail],
                            rs[i].kind, rs[i].description, rs[i].weight, {doc})]
           + Mapped(ids, rs[i + 1..], kb, doc, newId, issued + 1)
         else made + Mapped(ids, rs[i + 1..], kb, doc, newId, issued)
  {
    assert rs[i..][0] == rs[i] && rs[i..][1..] == rs[i + 1..];
  }

  lemma {:induction false} MappedEndpoints(ids: map<string, string>, rs: seq<ExtractedRelation>, kb: string,
                                           doc: string, newId: nat -> string, issued: nat, i: nat)
    requires i < |Mapped(ids, rs, kb, doc, newId, issued)|
    ensures var r := Mapped(ids, rs, kb, doc, newId, issued)[i]; r.head in ids.Values && r.tail in ids.Values
    decreases rs
  {
    if rs[0].head in ids && rs[0].tail in ids {
      if i > 0 { MappedEndpoints(ids, rs[1..], kb, doc, newId, issued + 1, i - 1); }
    } else {
      MappedEndpoints(ids, rs[1..], kb, doc, newId, issued, i);
    }
  }

  lemma ResolvedIdKnown(g: Graph, ents: seq<Entity>, ids: map<string, string>, id: string)
    requires Resolves(g, ents, ids) && id in ids.Values
    ensures id in LiveIds(g) || exists i :: 0 <= i < |ents| && ents[i].id == id
  {
    var n :| n in ids && ids[n] == id;
    if LastNamed(ents, n).Some? {
      LastNamedIsMember(ents, n);
    }
  }

  /** The relations of a chunk join entities that the chunk merged or the store has. */
  lemma MappedKnown(g: Graph, ents: seq<Entity>, ids: map<string, string>, from: seq<ExtractedRelation>,
                    kb: string, doc: string, newId: nat -> string, issued: nat)
    requires Resolves(g, ents, ids)
    ensures var rels := Mapped(ids, from, kb, doc, newId, issued);
      forall i :: 0 <= i < |rels| ==> EndpointsKnown(g, ents, rels[i])
  {
    var rels := Mapped(ids, from, kb, doc, newId, issued);
    forall i | 0 <= i < |rels| ensures EndpointsKnown(g, ents, rels[i]) {
      MappedEndpoints(ids, from, kb, doc, newId, issued, i);
      ResolvedIdKnown(g, ents, ids, rels[i].head);
      ResolvedIdKnown(g, ents, ids, rels[i].tail);
    }
  }

  lemma KnownMore(g: Graph, es: seq<Entity>, rs: seq<Relation>, part: Part)
    requires AllKnown(g, es, rs)
    requires AllKnown(g, part.entities, part.relations)
    ensures AllKnown(g, es + part.entities, rs + part.relations)
  {
    var ents, all := es + part.entities, rs + part.relations;
    forall i | 0 <= i < |es| ensures ents[i] == es[i] {}
    forall i | 0 <= i < |part.entities| ensures ents[|es| + i] == part.entities[i] {}
    forall i | 0 <= i < |all| ensures EndpointsKnown(g, ents, all[i]) {
      if i < |rs| {
        assert EndpointsKnown(g, es, rs[i]);
      } else {
        assert EndpointsKnown(g, part.entities, part.relations[i - |rs|]);
      }
    }
  }

  /** The batch's new entities carry ids minted in [from, to), later entities later ids. */
  ghost predicate Minted(env: Environment, g: Graph, es: seq<Entity>, from: nat, to: nat) {
    && (forall i :: 0 <= i < |es| ==>
          if IsNew(g, es[i]) then exists n :: from <= n < to && es[i].id == env.newId(n)
          else es[i].id == g.entities[es[i].nameNorm].id)
    && (forall i, j :: 0 <= i < j < |es| && IsNew(g, es[i]) && IsNew(g, es[j]) ==> es[i].id != es[j].id)
  }

  lemma MintOne(env: Environment, g: Graph, es: seq<Entity>, from: nat, mid: nat, to: nat, e: Entity)
    requires Sound(env, g, from) && Minted(env, g, es, from, mid) && from <= mid
    requires if IsNew(g, e) then to == mid + 1 && e.id == env.newId(mid)
             else to == mid && e.id == g.entities[e.nameNorm].id
    ensures Minted(env, g, es + [e], from, to)
  {
  }

  lemma MintBatch(env: Environment, g: Graph, es: seq<Entity>, from: nat, mid: nat, ents: seq<Entity>, at: nat, to: nat)
    requires Sound(env, g, from) && from <= mid <= at <= to
    requires Minted(env, g, es, from, mid) && Minted(env, g, ents, mid, at)
    ensures Minted(env, g, es + ents, from, to)
  {
  }

  lemma MintedIsFresh(env: Environment, g: Graph, es: seq<Entity>, from: nat, to: nat)
    requires Sound(env, g, from) && Minted(env, g, es, from, to)
    ensures FreshBatch(g, es)
  {
  }

  // ---------------------------------------------------- ids that a build uses up

  lemma {:induction false} BatchNodes(g: Graph, es: seq<Entity>, id: string)
    requires id in UpsertEntities(g, es).graph.nodes
    ensures id in g.nodes || exists i :: 0 <= i < |es| && IsNew(g, es[i]) && es[i].id == id
    decreases es
  {
    if es != [] && UpsertEntity(g, es[0]).status == Done {
      var g' := UpsertEntity(g, es[0]).graph;
      BatchNodes(g', es[1..], id);
      if i :| 0 <= i < |es[1..]| && IsNew(g', es[1..][i]) && es[1..][i].id == id {
        assert IsNew(g, es[i + 1]) && es[i + 1].id == id;
      } else if id !in g.nodes {
        assert IsNew(g, es[0]) && es[0].id == id;
      }
    }
  }

  lemma {:induction false} RelationNodes(g: Graph, rs: seq<Relation>, id: string)
    requires id in UpsertRelations(g, rs).graph.nodes
    ensures id in g.nodes || exists i :: 0 <= i < |rs| && id in {rs[i].head, rs[i].tail}
    decreases rs
  {
    if rs != [] && UpsertRelation(g, rs[0]).status == Done {
      var g' := UpsertRelation(g, rs[0]).graph;
      RelationNodes(g', rs[1..], id);
      if i :| 0 <= i < |rs[1..]| && id in {rs[1..][i].head, rs[1..][i].tail} {
        assert id in {rs[i + 1].head, rs[i + 1].tail};
      } else if id !in g.nodes {
        assert id in {rs[0].head, rs[0].tail};
      }
    }
  }

  lemma LaterIdUnused(env: Environment, g: Graph, es: seq<Entity>, first: nat, issued: nat, n: nat)
    requires Integral(g) && Sound(env, g, first) && Minted(env, g, es, first, issued) && first <= issued <= n
    ensures env.newId(n) !in g.nodes && env.newId(n) !in LiveIds(g)
    ensures forall i :: 0 <= i < |es| ==> es[i].id != env.newId(n)
  {
    forall i | 0 <= i < |es| ensures es[i].id != env.newId(n) {
      if IsNew(g, es[i]) {
        var m: nat :| first <= m < issued && es[i].id == env.newId(m);
        assert env.newId(m) != env.newId(n);
      } else {
        assert es[i].id in LiveIds(g);
      }
    }
  }

  /** After a build the ids still to come are as fresh as they were. */
  lemma SoundAfter(env: Environment, g: Graph, es: seq<Entity>, rs: seq<Relation>, first: nat, issued: nat)
    requires Integral(g) && Sound(env, g, first) && Minted(env, g, es, first, issued) && first <= issued
    requires AllKnown(g, es, rs)
    ensures Sound(env, Built(g, Part(es, rs)).graph, issued)
  {
    var put, end := UpsertEntities(g, es), Built(g, Part(es, rs)).graph;
    forall n | n >= issued ensures env.newId(n) !in end.nodes {
      LaterIdUnused(env, g, es, first, issued, n);
      var id := env.newId(n);
      if id in end.nodes {
        if put.status == Done {
          RelationNodes(put.graph, rs, id);
          if i :| 0 <= i < |rs| && id in {rs[i].head, rs[i].tail} { assert EndpointsKnown(g, es, rs[i]); }
        }
        BatchNodes(g, es, id);
      }
    }
  }
}
