/** The builder: its loops over chunks, extracted entities, candidates and relations. */
module KgBuilder {
  import opened Wrappers
  import opened GraphModel
  import opened GraphStore
  import opened KgMerge
  import opened KgRebuild

  class KGBuilder {
    const store: NetworkXGraphStore
    const env: Environment
    /** How many ids have been handed out. */
    var issued: nat

    constructor (store: NetworkXGraphStore, env: Environment)
      ensures this.store == store && this.env == env && issued == 0
    {
      this.store, this.env, issued := store, env, 0;
    }

    /** The vector of the stored entity with the given id. */
    method EntityVector(cand: Entity) returns (v: seq<real>)
      requires Integral(store.State()) && cand in store.entities.Values
      ensures v == cand.vector
    {
      var todo := store.entities.Keys;
      while todo != {}
        invariant todo <= store.entities.Keys
        invariant exists k :: k in todo && store.entities[k] == cand
        decreases todo
      {
        var k :| k in todo;
        if store.entities[k].id == cand.id {
          return store.entities[k].vector;
        }
        todo := todo - {k};
      }
      assert false;
    }

    /** Level 2: the candidate to merge into, if any. */
    method FindSimilar(ext: ExtractedEntity) returns (best: Option<Entity>)
      requires Integral(store.State()) && Sound(env, store.State(), issued)
      ensures best == BestOf(env, store.State(), ext)
    {
      var norm := env.normalize(ext.name);
      var v := env.embed(ext.description);
      var cands := env.nearest(store.State(), v);
      var bestSim := 0.0;
      ghost var at: nat := 0;
      best := None;
      for i := 0 to |cands|
        invariant if best.None? then bestSim == 0.0 && forall j :: 0 <= j < i ==> !Eligible(env, ext, cands[j])
          else at < i && cands[at] == best.value && Eligible(env, ext, cands[at])
               && bestSim == env.similarity(v, cands[at].vector)
               && (forall j :: 0 <= j < i && Eligible(env, ext, cands[j]) ==>
                     env.similarity(v, cands[j].vector) <= bestSim)
               && (forall j :: 0 <= j < at && Eligible(env, ext, cands[j]) ==>
                     env.similarity(v, cands[j].vector) < bestSim)
      {
        var cand := cands[i];
        if cand.nameNorm == norm {
          continue;
        }
        var candVec := EntityVector(cand);
        if candVec == [] || |candVec| != |v| {
          continue;
        }
        var sim := env.similarity(v, candVec);
        if sim >= SIMILARITY_THRESHOLD && cand.kind == ext.kind {
          if sim > bestSim {
            best, bestSim, at := Some(cand), sim, i;
          }
        }
      }
      if best.Some? {
        BestIsOne(env, store.State(), ext, at);
      } else {
        BestOfIff(env, store.State(), ext);
      }
    }

    /** One extraction against the store, which stays as it is. */
    method MergeOne(ext: ExtractedEntity, kb: string, doc: string) returns (e: Entity)
      requires Integral(store.State()) && Sound(env, store.State(), issued)
      modifies this`issued
      ensures MergesTo(env, store.State(), kb, doc, ext, e)
      ensures if IsNew(store.State(), e) then issued == old(issued) + 1 && e.id == env.newId(old(issued))
              else issued == old(issued) && e.id == store.State().entities[e.nameNorm].id
    {
      var norm := env.normalize(ext.name);
      if norm in store.entities {
        var existing := store.entities[norm];
        return Entity(existing.id, kb,
                      if |existing.name| >= |ext.name| then existing.name else ext.name,
                      norm, existing.kind,
                      if |existing.description| >= |ext.description| then existing.description else ext.description,
                      existing.sources + {doc}, Max(existing.confidence, ext.confidence), existing.vector);
      }
      var best := FindSimilar(ext);
      if best.Some? {
        e := Entity(best.value.id, kb, best.value.name, best.value.nameNorm, best.value.kind,
                    best.value.description, best.value.sources + {doc},
                    Max(best.value.confidence, ext.confidence), best.value.vector);
      } else {
        e := Entity(env.newId(issued), kb, ext.name, norm, ext.kind, ext.description, {doc},
                    ext.confidence, env.embed(ext.description));
        issued := issued + 1;
      }
    }

    method MergeEntities(extracted: seq<ExtractedEntity>, kb: string, doc: string) returns (out: seq<Entity>)
      requires Integral(store.State()) && Sound(env, store.State(), issued)
      modifies this`issued
      ensures issued >= old(issued) && Sound(env, store.State(), issued)
      ensures Merged(env, store.State(), kb, doc, extracted, out)
      ensures Minted(env, store.State(), out, old(issued), issued)
    {
      out := [];
      for i := 0 to |extracted|
        invariant old(issued) <= issued
        invariant Merged(env, store.State(), kb, doc, extracted[..i], out)
        invariant Minted(env, store.State(), out, old(issued), issued)
      {
        ghost var before := issued;
        var e := MergeOne(extracted[i], kb, doc);
        MintOne(env, store.State(), out, old(issued), before, issued, e);
        MergedMore(env, store.State(), kb, doc, extracted, i, out, e);
        out := out + [e];
      }
      assert extracted[..|extracted|] == extracted;
    }

    /** Ids by name, from the merged entities of a chunk; a later one takes the name over. */
    static method OwnNames(ents: seq<Entity>) returns (nameToId: map<string, string>)
      ensures forall n :: LastNamed(ents, n) == if n in nameToId then Some(nameToId[n]) else None
    {
      nameToId := map[];
      for i := 0 to |ents|
        invariant forall n :: LastNamed(ents[..i], n) == if n in nameToId then Some(nameToId[n]) else None
      {
        nameToId := nameToId[ents[i].name := ents[i].id];
        assert ents[..i + 1][..i] == ents[..i] && ents[..i + 1][i] == ents[i];
      }
      assert ents[..|ents|] == ents;
    }

    /** Stored entities fill in the names that no merged entity has. */
    method NameMap(ents: seq<Entity>) returns (nameToId: map<string, string>)
      ensures Resolves(store.State(), ents, nameToId)
    {
      nameToId := OwnNames(ents);
      ghost var g := store.State();
      var todo := store.entities.Keys;
      while todo != {}
        invariant todo <= store.entities.Keys
        invariant forall n :: LastNamed(ents, n).Some? ==> n in nameToId && nameToId[n] == LastNamed(ents, n).value
        invariant forall n :: n in nameToId && LastNamed(ents, n).None? ==> StoredAs(g, n, nameToId[n])
        invariant forall k :: k in store.entities && k !in todo ==> store.entities[k].name in nameToId
        decreases todo
      {
        var k :| k in todo;
        var ent := store.entities[k];
        if ent.name !in nameToId {
          assert StoredAs(g, ent.name, ent.id);
          nameToId := nameToId[ent.name := ent.id];
        }
        todo := todo - {k};
      }
    }

    /** Relations by entity id under fresh ids; names that resolve to nothing drop their relation. */
    method MapRelations(extracted: Extraction, nameToId: map<string, string>, kb: string, doc: string)
      returns (rels: seq<Relation>)
      modifies this`issued
      ensures issued == old(issued) + |rels|
      ensures rels == Mapped(nameToId, extracted.relations, kb, doc, env.newId, old(issued))
    {
      rels := [];
      for i := 0 to |extracted.relations|
        invariant issued == old(issued) + |rels|
        invariant Mapped(nameToId, extracted.relations, kb, doc, env.newId, old(issued))
               == rels + Mapped(nameToId, extracted.relations[i..], kb, doc, env.newId, issued)
      {
        var rel := extracted.relations[i];
        MappedNext(nameToId, extracted.relations, i, rels, kb, doc, env.newId, issued);
        if rel.head !in nameToId || rel.tail !in nameToId {
          continue;
        }
        rels := rels + [Relation(env.newId(issued), kb, nameToId[rel.head], nameToId[rel.tail],
                                 rel.kind, rel.description, rel.weight, {doc})];
        issued := issued + 1;
      }
    }

    /** Relations of one chunk, names looked up among its merged entities, then among the stored ones. */
    method BuildRelations(extracted: Extraction, ents: seq<Entity>, kb: string, doc: string)
      returns (rels: seq<Relation>, ghost ids: map<string, string>)
      requires Sound(env, store.State(), issued)
      modifies this`issued
      ensures issued == old(issued) + |rels| && Sound(env, store.State(), issued)
      ensures Resolves(store.State(), ents, ids)
      ensures rels == Mapped(ids, extracted.relations, kb, doc, env.newId, old(issued))
    {
      ghost var g, before := store.State(), issued;
      var nameToId := NameMap(ents);
      ids := nameToId;
      rels := MapRelations(extracted, nameToId, kb, doc);
      SoundLater(env, g, before, issued);
    }

    /** Filter, merge and map one chunk. */
    method ChunkPart(chunk: ChunkInput) returns (part: Part)
      requires Integral(store.State()) && Sound(env, store.State(), issued)
      modifies this`issued
      ensures issued >= old(issued) && Sound(env, store.State(), issued)
      ensures FromChunk(env, store.State(), chunk, part)
      ensures exists mid :: old(issued) <= mid <= issued && Minted(env, store.State(), part.entities, old(issued), mid)
      ensures AllKnown(store.State(), part.entities, part.relations)
    {
      if chunk.extraction == None {
        part := Part([], []);
        assert Minted(env, store.State(), part.entities, issued, issued);
        return;
      }
      var extracted := FilterLowConfidence(chunk.extraction.value);
      var ents := MergeEntities(extracted.entities, chunk.kb, chunk.doc);
      ghost var mid := issued;
      var rels, ids := BuildRelations(extracted, ents, chunk.kb, chunk.doc);
      MappedKnown(store.State(), ents, ids, extracted.relations, chunk.kb, chunk.doc, env.newId, mid);
      part := Part(ents, rels);
    }

    /** The collecting loop: the store is only read. */
    method Collect(chunks: seq<ChunkInput>) returns (es: seq<Entity>, rs: seq<Relation>, ghost parts: seq<Part>)
      requires Integral(store.State()) && Sound(env, store.State(), issued)
      modifies this`issued
      ensures FromChunks(env, store.State(), chunks, parts)
      ensures Part(es, rs) == Together(parts)
      ensures issued >= old(issued) && Minted(env, store.State(), es, old(issued), issued)
      ensures FreshBatch(store.State(), es)
      ensures AllKnown(store.State(), es, rs)
    {
      es, rs, parts := [], [], [];
      ghost var g, first := store.State(), issued;
      for c := 0 to |chunks|
        invariant issued >= first && Sound(env, g, issued)
        invariant Collected(env, g, chunks[..c], es, rs, parts, first, issued)
      {
        ghost var from := issued;
        var part := ChunkPart(chunks[c]);
        ghost var mid :| from <= mid <= issued && Minted(env, g, part.entities, from, mid);
        MintBatch(env, g, es, first, from, part.entities, mid, issued);
        CollectedMore(env, g, chunks, c, es, rs, parts, part, first, from, issued);
        es, rs, parts := es + part.entities, rs + part.relations, parts + [part];
      }
      assert chunks[..|chunks|] == chunks;
      MintedIsFresh(env, g, es, first, issued);
    }

    /**
      Extract, filter, merge and upsert a batch. Relations are upserted only
      after every entity went through.
    */
    method BuildForChunks(chunks: seq<ChunkInput>) returns (status: Status, ghost parts: seq<Part>)
      requires Integral(store.State()) && Sound(env, store.State(), issued)
      modifies this`issued, store
      ensures FromChunks(env, old(store.State()), chunks, parts)
      ensures FreshBatch(old(store.State()), Together(parts).entities)
      ensures Outcome(store.State(), status) == Built(old(store.State()), Together(parts))
      ensures status == Done <==> Buildable(env, old(store.State()), AllBrought(chunks))
      ensures store.State() == old(store.State())
        <==> NothingToAdd(env, old(store.State()), AllBrought(chunks), Together(parts).relations)
      ensures status == Done ==> RepeatsAsStated(env, old(store.State()), store.State(), chunks)
      ensures Integral(store.State()) && Sound(env, store.State(), issued)
    {
      ghost var g, first := store.State(), issued;
      var allEntities, allRelations;
      allEntities, allRelations, parts := Collect(chunks);
      BuildIntegral(g, allEntities, allRelations);
      SoundAfter(env, g, allEntities, allRelations, first, issued);
      BuildEndsDoneIff(env, g, chunks, parts, first);
      BuildUnchangedIff(env, g, chunks, parts, first);
      RepeatsStated(env, g, chunks, parts, first);
      status := Done;
      if allEntities != [] {
        status := store.UpsertEntities(allEntities);
        if status != Done {
          return;
        }
      }
      if allRelations != [] {
        status := store.UpsertRelations(allRelations);
      }
    }
  }
}
