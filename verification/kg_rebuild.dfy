/**
  Building again: when a build leaves the graph as it found it, and what a second
  build of the same chunks does to the graph that the first one left.
*/
module KgRebuild {
  import opened Wrappers
  import opened GraphModel
  import opened RelationModel
  import opened KgMerge

  // ------------------------------------------------------------------- entities

  /** The stored entity has everything that the incoming one could add. */
  predicate Absorbs(had: Entity, inc: Entity) {
    && inc.sources <= had.sources && inc.confidence <= had.confidence
    && |inc.description| <= |had.description| && (had.vector != [] || inc.vector == [])
  }

  lemma MergeUnchangedIff(had: Entity, inc: Entity)
    ensures MergeEntity(had, inc) == had <==> Absorbs(had, inc)
  {
    if MergeEntity(had, inc) == had {
      assert inc.sources <= had.sources + inc.sources == had.sources;
      assert Max(had.confidence, inc.confidence) == had.confidence;
    } else if inc.sources <= had.sources {
      assert had.sources + inc.sources == had.sources;
    }
  }

  /** What an entity becomes under upserts: it keeps its spelling and loses nothing. */
  predicate Grown(had: Entity, now: Entity) {
    now.name == had.name && Absorbs(now, had)
  }

  lemma {:induction false} UpsertsGrow(g: Graph, es: seq<Entity>, k: string)
    requires k in g.entities
    ensures var end := UpsertEntities(g, es).graph; k in end.entities && Grown(g.entities[k], end.entities[k])
    decreases es
  {
    if es != [] {
      var o := UpsertEntity(g, es[0]);
      assert Grown(g.entities[k], o.graph.entities[k]);
      if o.status == Done { UpsertsGrow(o.graph, es[1..], k); }
    }
  }

  ghost predicate EntityAbsorbed(g: Graph, e: Entity) {
    e.nameNorm in g.entities && Absorbs(g.entities[e.nameNorm], e)
  }

  /** No entity before es[i], nor es[i] itself, is of a foreign knowledge base. */
  predicate Reached(g: Graph, es: seq<Entity>, i: nat)
    requires i < |es|
  {
    forall j :: 0 <= j <= i ==> AcceptsKb(g, es[j].kb)
  }

  lemma AbsorbsTransitively(a: Entity, b: Entity, c: Entity)
    requires Absorbs(a, b) && Absorbs(b, c)
    ensures Absorbs(a, c)
  {
  }

  /** An entity that is accepted and has something to add changes the table for good. */
  lemma AddsForGood(g: Graph, es: seq<Entity>)
    requires es != [] && AcceptsKb(g, es[0].kb) && !EntityAbsorbed(g, es[0])
    ensures UpsertEntities(g, es).graph.entities != g.entities
  {
    var e, o := es[0], UpsertEntity(g, es[0]);
    var k, end := e.nameNorm, UpsertEntities(g, es).graph;
    if o.status == Done { UpsertsGrow(o.graph, es[1..], k); }
    assert k in end.entities && Absorbs(end.entities[k], o.graph.entities[k]);
    AbsorbsTransitively(end.entities[k], o.graph.entities[k], e);
  }

  /**
    A batch leaves the graph as it is exactly when the store has everything that
    each entity reached could add, whether or not the batch goes through.
  */
  lemma {:induction false} BatchUnchangedIff(g: Graph, es: seq<Entity>)
    requires forall i :: 0 <= i < |es| && es[i].nameNorm in g.entities ==> es[i].id in g.nodes
    ensures var end := UpsertEntities(g, es).graph;
      && (end.entities == g.entities <==> end == g)
      && (end == g <==> forall i :: 0 <= i < |es| && Reached(g, es, i) ==> EntityAbsorbed(g, es[i]))
    decreases es
  {
    if es != [] && AcceptsKb(g, es[0].kb) {
      if EntityAbsorbed(g, es[0]) {
        MergeUnchangedIff(g.entities[es[0].nameNorm], es[0]);
        assert UpsertEntity(g, es[0]) == Outcome(g, Done) by {
          assert g.entities[es[0].nameNorm := g.entities[es[0].nameNorm]] == g.entities;
        }
        BatchUnchangedIff(g, es[1..]);
        ReachedRest(g, es);
      } else {
        AddsForGood(g, es);
        assert Reached(g, es, 0);
      }
    } else {
      assert forall i :: 0 <= i < |es| ==> !Reached(g, es, i);
    }
  }

  lemma ReachedRest(g: Graph, es: seq<Entity>)
    requires es != [] && AcceptsKb(g, es[0].kb) && EntityAbsorbed(g, es[0])
    ensures (forall i :: 0 <= i < |es| && Reached(g, es, i) ==> EntityAbsorbed(g, es[i]))
      <==> (forall i :: 0 <= i < |es[1..]| && Reached(g, es[1..], i) ==> EntityAbsorbed(g, es[1..][i]))
  {
    forall i | 1 <= i < |es| ensures Reached(g, es, i) <==> Reached(g, es[1..], i - 1) {
      assert forall j :: 1 <= j <= i ==> es[j] == es[1..][j - 1];
      assert forall j :: 0 <= j <= i - 1 ==> es[1..][j] == es[j + 1];
    }
    forall i | 0 <= i < |es[1..]|
      ensures es[1..][i] == es[i + 1] && (Reached(g, es[1..], i) <==> Reached(g, es, i + 1)) {}
  }

  // ------------------------------------------------------------------ relations

  /** The stored relation has everything that the incoming one could add. */
  predicate AbsorbsRelation(had: Relation, inc: Relation) {
    inc.sources <= had.sources && inc.weight <= had.weight && |inc.description| <= |had.description|
  }

  lemma MergeRelationUnchangedIff(had: Relation, inc: Relation)
    ensures MergeRelation(had, inc) == had <==> AbsorbsRelation(had, inc)
  {
    MergeViews(had, inc);
    MergeUnchangedIff(View(had), View(inc));
  }

  ghost predicate RelationAbsorbed(g: Graph, r: Relation) {
    r.Key() in g.relations && AbsorbsRelation(g.relations[r.Key()], r)
  }

  lemma {:induction false} RelationsGrow(g: Graph, rs: seq<Relation>, k: RelationKey)
    requires k in g.relations
    ensures var end := UpsertRelations(g, rs).graph;
      k in end.relations && AbsorbsRelation(end.relations[k], g.relations[k])
    decreases rs
  {
    if rs != [] {
      var o := UpsertRelation(g, rs[0]);
      assert AbsorbsRelation(o.graph.relations[k], g.relations[k]);
      if o.status == Done { RelationsGrow(o.graph, rs[1..], k); }
    }
  }

  lemma AddsRelationForGood(g: Graph, rs: seq<Relation>)
    requires rs != [] && AcceptsKb(g, rs[0].kb) && !RelationAbsorbed(g, rs[0])
    ensures UpsertRelations(g, rs).graph.relations != g.relations
  {
    var r, o := rs[0], UpsertRelation(g, rs[0]);
    RelationsGrow(o.graph, rs[1..], r.Key());
    assert AbsorbsRelation(o.graph.relations[r.Key()], r);
    assert AbsorbsRelation(UpsertRelations(g, rs).graph.relations[r.Key()], r);
  }

  /** A batch of relations leaves the graph as it is exactly when the store absorbs every one of them. */
  lemma {:induction false} RelationsUnchangedIff(g: Graph, rs: seq<Relation>)
    requires RelationsAccepted(g, rs)
    ensures UpsertRelations(g, rs).graph == g <==> forall i :: 0 <= i < |rs| ==> RelationAbsorbed(g, rs[i])
    decreases rs
  {
    if rs != [] {
      var r := rs[0];
      if RelationAbsorbed(g, r) {
        MergeRelationUnchangedIff(g.relations[r.Key()], r);
        assert g.relations[r.Key() := g.relations[r.Key()]] == g.relations;
        assert UpsertRelation(g, r) == Outcome(g, Done);
        assert forall i :: 0 <= i < |rs[1..]| ==> rs[1..][i] == rs[i + 1];
        RelationsUnchangedIff(g, rs[1..]);
        assert forall i :: 1 <= i < |rs| ==> rs[i] == rs[1..][i - 1];
      } else {
        AddsRelationForGood(g, rs);
      }
    }
  }

  // -------------------------------------------------------------- a whole build

  /**
    The store has everything that an extraction could add: its stored namesake, or
    the candidate that absorbs it, has its document and at least its confidence,
    and the namesake a description that is no shorter.
  */
  ghost predicate Taken(env: Environment, g: Graph, b: Brought) {
    var norm := env.normalize(b.ext.name);
    if norm in g.entities then
      var e := g.entities[norm];
      b.doc in e.sources && b.ext.confidence <= e.confidence && |b.ext.description| <= |e.description|
    else
      match BestOf(env, g, b.ext)
      case Some(c) => b.doc in c.sources && b.ext.confidence <= c.confidence
      case None => false
  }

  lemma TakenIff(env: Environment, g: Graph, b: Brought, e: Entity, issued: nat)
    requires Valid(g) && Sound(env, g, issued) && MergesTo(env, g, b.kb, b.doc, b.ext, e)
    ensures Taken(env, g, b) <==> EntityAbsorbed(g, e)
  {
    if env.normalize(b.ext.name) !in g.entities && BestOf(env, g, b.ext).Some? {
      BestIsStored(env, g, b.ext, issued);
    }
  }

  predicate BroughtReached(g: Graph, bs: seq<Brought>, i: nat)
    requires i < |bs|
  {
    forall j :: 0 <= j <= i ==> AcceptsKb(g, bs[j].kb)
  }

  /** No surviving extraction that is reached adds anything to the graph. */
  ghost predicate AllTaken(env: Environment, g: Graph, bs: seq<Brought>) {
    forall i :: 0 <= i < |bs| && BroughtReached(g, bs, i) ==> Taken(env, g, bs[i])
  }

  ghost predicate AllRelationsAbsorbed(g: Graph, rs: seq<Relation>) {
    forall i :: 0 <= i < |rs| ==> RelationAbsorbed(g, rs[i])
  }

  /** Neither does any mapped relation, where the build gets that far. */
  ghost predicate NothingToAdd(env: Environment, g: Graph, bs: seq<Brought>, rs: seq<Relation>) {
    AllTaken(env, g, bs) && (Buildable(env, g, bs) ==> AllRelationsAbsorbed(g, rs))
  }

  lemma AllTakenIff(env: Environment, g: Graph, bs: seq<Brought>, es: seq<Entity>, issued: nat)
    requires Valid(g) && Sound(env, g, issued) && AllMerged(env, g, bs, es)
    ensures AllTaken(env, g, bs) <==> forall i :: 0 <= i < |es| && Reached(g, es, i) ==> EntityAbsorbed(g, es[i])
  {
    forall i | 0 <= i < |es|
      ensures es[i].kb == bs[i].kb && (Taken(env, g, bs[i]) <==> EntityAbsorbed(g, es[i]))
    {
      MergedIsNew(env, g, bs[i], es[i], issued);
      TakenIff(env, g, bs[i], es[i], issued);
    }
    forall i | 0 <= i < |es| ensures Reached(g, es, i) <==> BroughtReached(g, bs, i) {}
  }

  lemma KnownIdsHaveNodes(g: Graph, es: seq<Entity>)
    requires Integral(g) && FreshBatch(g, es)
    ensures forall i :: 0 <= i < |es| && es[i].nameNorm in g.entities ==> es[i].id in g.nodes
  {
    forall i | 0 <= i < |es| && es[i].nameNorm in g.entities ensures es[i].id in g.nodes {
      assert StoredOrNew(g, es[i]);
    }
  }

  /**
    Over the chunks: a build, whether or not it goes through, leaves the graph as it
    found it exactly when no surviving extraction and no mapped relation has anything
    to add to what is stored.
  */
  lemma BuildUnchangedIff(env: Environment, g: Graph, chunks: seq<ChunkInput>, parts: seq<Part>, issued: nat)
    requires Integral(g) && Sound(env, g, issued)
    requires FromChunks(env, g, chunks, parts) && FreshBatch(g, Together(parts).entities)
    ensures Built(g, Together(parts)).graph == g
      <==> NothingToAdd(env, g, AllBrought(chunks), Together(parts).relations)
  {
    var bs, es, rs := AllBrought(chunks), Together(parts).entities, Together(parts).relations;
    TogetherMerged(env, g, chunks, parts);
    AllTakenIff(env, g, bs, es, issued);
    KnownIdsHaveNodes(g, es);
    BatchUnchangedIff(g, es);
    ChunksCompleteIff(env, g, chunks, parts, issued);
    var put := UpsertEntities(g, es);
    if put.status == Done {
      UpsertRelationsKeepEntities(put.graph, rs);
      if put.graph == g {
        TogetherAccepted(env, g, chunks, parts);
        RelationsUnchangedIff(g, rs);
      }
    }
  }

  // ----------------------------------------------------------------- repetition

  /** A batch that went through stores what each of its entities brought. */
  lemma {:induction false} BatchContains(g: Graph, es: seq<Entity>, i: nat)
    requires i < |es| && UpsertEntities(g, es).status == Done
    ensures EntityAbsorbed(UpsertEntities(g, es).graph, es[i])
    decreases es
  {
    var g' := UpsertEntity(g, es[0]).graph;
    if i > 0 {
      BatchContains(g', es[1..], i - 1);
    } else {
      var k := es[0].nameNorm;
      assert Absorbs(g'.entities[k], es[0]);
      UpsertsGrow(g', es[1..], k);
      AbsorbsTransitively(UpsertEntities(g', es[1..]).graph.entities[k], g'.entities[k], es[0]);
    }
  }

  /** Neither the name is stored nor is the extraction novel: a similar candidate absorbs it. */
  ghost predicate BySimilarity(env: Environment, g: Graph, b: Brought) {
    env.normalize(b.ext.name) !in g.entities && BestOf(env, g, b.ext).Some?
  }

  /** After a build that went through, an extraction that was stored or became new has nothing left to add. */
  lemma SettledIsTaken(env: Environment, g: Graph, g': Graph, b: Brought, e: Entity)
    requires MergesTo(env, g, b.kb, b.doc, b.ext, e) && !BySimilarity(env, g, b)
    requires EntityAbsorbed(g', e)
    ensures Taken(env, g', b)
  {
    assert b.doc in e.sources && b.ext.confidence <= e.confidence && |b.ext.description| <= |e.description|;
  }

  /** What similarity absorbed in the first build has, in the second, nothing to add either. */
  ghost predicate SimilarTaken(env: Environment, g: Graph, g': Graph, bs: seq<Brought>) {
    forall i :: 0 <= i < |bs| && BySimilarity(env, g, bs[i]) ==> Taken(env, g', bs[i])
  }

  /** Nor do the relations mapped in the second, where it gets that far. */
  ghost predicate NothingLeft(env: Environment, g: Graph, g': Graph, bs: seq<Brought>, rs: seq<Relation>) {
    SimilarTaken(env, g, g', bs) && (Buildable(env, g', bs) ==> AllRelationsAbsorbed(g', rs))
  }

  /**
    Building the same chunks again after a build that went through: the graph stays
    as the first build left it exactly when each extraction that similarity absorbed
    the first time now finds a namesake or a candidate that lacks nothing of it, and
    the relations mapped the second time, if they are reached, are stored with
    everything they could add.
  */
  lemma RepetitionUnchangedIff(env: Environment, g: Graph, chunks: seq<ChunkInput>, parts: seq<Part>, issued: nat,
                               again: seq<Part>, later: nat)
    requires Integral(g) && Sound(env, g, issued)
    requires FromChunks(env, g, chunks, parts) && FreshBatch(g, Together(parts).entities)
    requires Built(g, Together(parts)).status == Done
    requires var g' := Built(g, Together(parts)).graph;
      && Integral(g') && Sound(env, g', later)
      && FromChunks(env, g', chunks, again) && FreshBatch(g', Together(again).entities)
    ensures var g', bs := Built(g, Together(parts)).graph, AllBrought(chunks);
      Built(g', Together(again)).graph == g'
      <==> NothingLeft(env, g, g', bs, Together(again).relations)
  {
    var g', bs, es := Built(g, Together(parts)).graph, AllBrought(chunks), Together(parts).entities;
    BuildUnchangedIff(env, g', chunks, again, later);
    BuildEndsDoneIff(env, g, chunks, parts, issued);
    TogetherMerged(env, g, chunks, parts);
    var put := UpsertEntities(g, es);
    UpsertRelationsKeepEntities(put.graph, Together(parts).relations);
    forall i | 0 <= i < |bs| && !BySimilarity(env, g, bs[i]) ensures Taken(env, g', bs[i]) {
      BatchContains(g, es, i);
      SettledIsTaken(env, g, g', bs[i], es[i]);
    }
    BuiltKeepsKb(g, Together(parts));
    assert forall i :: 0 <= i < |bs| ==> BroughtReached(g', bs, i);
  }

  /** What any further build of the same chunks does to the graph g' that a build of g left. */
  ghost predicate RepeatsAsStated(env: Environment, g: Graph, g': Graph, chunks: seq<ChunkInput>) {
    var bs := AllBrought(chunks);
    forall again, later ::
      Sound(env, g', later) && FromChunks(env, g', chunks, again) && FreshBatch(g', Together(again).entities) ==>
        (Built(g', Together(again)).graph == g' <==> NothingLeft(env, g, g', bs, Together(again).relations))
  }

  lemma RepeatsStated(env: Environment, g: Graph, chunks: seq<ChunkInput>, parts: seq<Part>, issued: nat)
    requires Integral(g) && Sound(env, g, issued)
    requires FromChunks(env, g, chunks, parts) && FreshBatch(g, Together(parts).entities)
    requires Integral(Built(g, Together(parts)).graph)
    ensures var o := Built(g, Together(parts)); o.status == Done ==> RepeatsAsStated(env, g, o.graph, chunks)
  {
    var g', bs := Built(g, Together(parts)).graph, AllBrought(chunks);
    if Built(g, Together(parts)).status == Done {
      forall again, later |
        Sound(env, g', later) && FromChunks(env, g', chunks, again) && FreshBatch(g', Together(again).entities)
        ensures Built(g', Together(again)).graph == g' <==> NothingLeft(env, g, g', bs, Together(again).relations)
      {
        RepetitionUnchangedIff(env, g, chunks, parts, issued, again, later);
      }
    }
  }

  lemma {:induction false} RelationsKeepKb(g: Graph, rs: seq<Relation>)
    ensures UpsertRelations(g, rs).graph.kb == g.kb
    decreases rs
  {
    if rs != [] && UpsertRelation(g, rs[0]).status == Done { RelationsKeepKb(UpsertRelation(g, rs[0]).graph, rs[1..]); }
  }

  lemma BuiltKeepsKb(g: Graph, all: Part)
    ensures Built(g, all).graph.kb == g.kb
  {
    BatchKeepsKb(g, all.entities);
    RelationsKeepKb(UpsertEntities(g, all.entities).graph, all.relations);
  }

  // ------------------------------------------------------------ failing inputs

  /** The chunk of one document in which one entity was found. */
  function Lone(kb: string, doc: string, ext: ExtractedEntity): ChunkInput {
    ChunkInput(kb, doc, Some(Extraction([ext], [])))
  }

  lemma LoneBrings(kb: string, doc: string, ext: ExtractedEntity)
    requires ext.confidence >= CONFIDENCE_MIN
    ensures BroughtBy(Lone(kb, doc, ext)) == [Brought(kb, doc, ext)]
  {
    assert [ext][..0] == [];
    assert Survivors([ext]) == PutByName([], ext) == [ext];
  }

  function Twice(kb: string, d1: string, d2: string, ext: ExtractedEntity): seq<ChunkInput> {
    [Lone(kb, d1, ext), Lone(kb, d2, ext)]
  }

  lemma TwiceBrings(kb: string, d1: string, d2: string, ext: ExtractedEntity)
    requires ext.confidence >= CONFIDENCE_MIN
    ensures AllBrought(Twice(kb, d1, d2, ext)) == [Brought(kb, d1, ext), Brought(kb, d2, ext)]
  {
    var c1, c2 := Lone(kb, d1, ext), Lone(kb, d2, ext);
    LoneBrings(kb, d1, ext);
    LoneBrings(kb, d2, ext);
    assert [c1, c2][..1] == [c1] && [c1][..0] == [];
    assert AllBrought([c1]) == [] + BroughtBy(c1);
  }

  /**
    Two chunks that bring one novel entity: the upsert of what they merge to raises,
    and the graph it leaves lets the same chunks through on the next call.
  */
  lemma SameNewNameTwice(env: Environment, g: Graph, kb: string, d1: string, d2: string, ext: ExtractedEntity,
                         e1: Entity, e2: Entity)
    requires ext.confidence >= CONFIDENCE_MIN && Novel(env, g, ext) && AcceptsKb(g, kb)
    requires MergesTo(env, g, kb, d1, ext, e1) && MergesTo(env, g, kb, d2, ext, e2)
    requires e1.id != e2.id && e2.id !in g.nodes
    ensures var bs := AllBrought(Twice(kb, d1, d2, ext));
      && !Buildable(env, g, bs)
      && UpsertEntities(g, [e1, e2]).status == MissingNode
      && Buildable(env, UpsertEntities(g, [e1, e2]).graph, bs)
  {
    TwiceBrings(kb, d1, d2, ext);
    var bs := [Brought(kb, d1, ext), Brought(kb, d2, ext)];
    assert Novel(env, g, bs[0].ext) && Novel(env, g, bs[1].ext);
    var o := UpsertEntity(g, e1);
    assert [e1, e2][1..] == [e2];
    assert e1.nameNorm in UpsertEntity(o.graph, e2).graph.entities;
    assert UpsertEntities(g, [e1, e2]) == UpsertEntity(o.graph, e2);
  }

  function Found(name: string): ExtractedEntity { ExtractedEntity(name, "t", "", 1.0) }

  /** Two entities and a relation between them. */
  function Linked(): Extraction {
    Extraction([Found("a"), Found("b")], [ExtractedRelation("a", "b", "r", "", 1.0)])
  }

  /** Two chunks that both bring them. */
  function LinkedTwice(kb: string, d1: string, d2: string): seq<ChunkInput> {
    [ChunkInput(kb, d1, Some(Linked())), ChunkInput(kb, d2, Some(Linked()))]
  }

  function Empty(kb: string): Graph { Graph(kb, map[], map[], {}, {}) }

  lemma LinkedSurvives()
    ensures FilterLowConfidence(Linked()) == Linked()
  {
    var es := [Found("a"), Found("b")];
    assert es[..1] == [Found("a")] && [Found("a")][..0] == [];
    assert Survivors([Found("a")]) == PutByName([], Found("a")) == [Found("a")];
    assert [Found("a")][1..] == [] && PutByName([], Found("b")) == [Found("b")];
    assert Survivors(es) == PutByName([Found("a")], Found("b")) == [Found("a")] + [Found("b")] == es;
    assert es[0].name == "a" && es[1].name == "b";
    var rs := [ExtractedRelation("a", "b", "r", "", 1.0)];
    assert rs[1..] == [] && SurvivingRelations(rs, es) == [rs[0]] + [];
  }

  lemma LinkedBrings(kb: string, d1: string, d2: string)
    ensures AllBrought(LinkedTwice(kb, d1, d2))
      == [Brought(kb, d1, Found("a")), Brought(kb, d1, Found("b")),
          Brought(kb, d2, Found("a")), Brought(kb, d2, Found("b"))]
  {
    LinkedSurvives();
    var cs := LinkedTwice(kb, d1, d2);
    assert cs[..1] == [cs[0]] && [cs[0]][..0] == [];
    assert BroughtBy(cs[0]) == [Brought(kb, d1, Found("a")), Brought(kb, d1, Found("b"))];
    assert BroughtBy(cs[1]) == [Brought(kb, d2, Found("a")), Brought(kb, d2, Found("b"))];
    assert AllBrought([cs[0]]) == [] + BroughtBy(cs[0]);
  }

  lemma NothingStored(env: Environment, kb: string, name: string, issued: nat)
    requires Sound(env, Empty(kb), issued)
    ensures Novel(env, Empty(kb), Found(name)) && BestOf(env, Empty(kb), Found(name)) == None
  {
    var cands := Candidates(env, Empty(kb), Found(name));
    assert forall i :: 0 <= i < |cands| ==> cands[i] in Empty(kb).entities.Values;
  }

  /** The upsert of two new entities first, whatever follows, leaves both stored under their own spellings. */
  lemma FirstTwoLand(g: Graph, es: seq<Entity>)
    requires |es| >= 2 && AcceptsKb(g, es[0].kb) && AcceptsKb(g, es[1].kb)
    requires es[0].nameNorm !in g.entities && es[1].nameNorm !in g.entities && es[0].nameNorm != es[1].nameNorm
    ensures var end := UpsertEntities(g, es).graph;
      && es[0].nameNorm in end.entities && end.entities[es[0].nameNorm].name == es[0].name
      && es[1].nameNorm in end.entities && end.entities[es[1].nameNorm].name == es[1].name
  {
    var one := UpsertEntity(g, es[0]).graph;
    var two := UpsertEntity(one, es[1]).graph;
    assert es[1..][0] == es[1] && es[1..][1..] == es[2..];
    assert UpsertEntities(g, es).graph == UpsertEntities(two, es[2..]).graph;
    UpsertsGrow(two, es[2..], es[0].nameNorm);
    UpsertsGrow(two, es[2..], es[1].nameNorm);
  }

  /** Both names of the linked entities are stored as they are spelled, without any relation. */
  ghost predicate BothStored(env: Environment, g: Graph, kb: string) {
    && g.kb == kb && g.relations == map[]
    && forall name :: name in {"a", "b"} ==>
         env.normalize(name) in g.entities && g.entities[env.normalize(name)].name == name
  }

  /** What the first call leaves: it raises, with both entities stored and no relation. */
  lemma FirstCall(env: Environment, kb: string, d1: string, d2: string, parts: seq<Part>, issued: nat)
    requires env.normalize("a") != env.normalize("b") && Sound(env, Empty(kb), issued)
    requires FromChunks(env, Empty(kb), LinkedTwice(kb, d1, d2), parts)
    requires FreshBatch(Empty(kb), Together(parts).entities)
    ensures var o := Built(Empty(kb), Together(parts));
      o.status != Done && BothStored(env, o.graph, kb)
  {
    var g, es, bs := Empty(kb), Together(parts).entities, AllBrought(LinkedTwice(kb, d1, d2));
    LinkedBrings(kb, d1, d2);
    NothingStored(env, kb, "a", issued);
    NothingStored(env, kb, "b", issued);
    assert Novel(env, g, bs[0].ext) && Novel(env, g, bs[2].ext);
    BuildEndsDoneIff(env, g, LinkedTwice(kb, d1, d2), parts, issued);
    ChunksCompleteIff(env, g, LinkedTwice(kb, d1, d2), parts, issued);
    TogetherMerged(env, g, LinkedTwice(kb, d1, d2), parts);
    assert MergesTo(env, g, kb, d1, Found("a"), es[0]) && MergesTo(env, g, kb, d1, Found("b"), es[1]);
    FirstTwoLand(g, es);
    UpsertEntitiesKeepRelations(g, es);
    BatchKeepsKb(g, es);
  }

  /** What the second call maps: the relation resolves, as both names are stored as they are spelled. */
  lemma SecondMaps(env: Environment, g: Graph, chunk: ChunkInput, part: Part)
    requires FromChunk(env, g, chunk, part) && chunk.extraction == Some(Linked())
    requires BothStored(env, g, chunk.kb)
    ensures part.relations != []
  {
    LinkedSurvives();
    var ids, n: nat :| Resolves(g, part.entities, ids)
      && part.relations == Mapped(ids, Linked().relations, chunk.kb, chunk.doc, env.newId, n);
    assert "a" in {"a", "b"} && "b" in {"a", "b"};
    assert "a" in ids && "b" in ids;
  }

  lemma SecondBuildable(env: Environment, g: Graph, kb: string, d1: string, d2: string)
    requires BothStored(env, g, kb)
    ensures Buildable(env, g, AllBrought(LinkedTwice(kb, d1, d2)))
  {
    LinkedBrings(kb, d1, d2);
    assert "a" in {"a", "b"} && "b" in {"a", "b"};
  }

  lemma LastRelations(parts: seq<Part>)
    requires parts != [] && parts[|parts| - 1].relations != []
    ensures Together(parts).relations != []
  {
  }

  lemma SecondCall(env: Environment, g: Graph, kb: string, d1: string, d2: string, again: seq<Part>, later: nat)
    requires Integral(g) && Sound(env, g, later) && BothStored(env, g, kb)
    requires FromChunks(env, g, LinkedTwice(kb, d1, d2), again) && FreshBatch(g, Together(again).entities)
    ensures Built(g, Together(again)).status == Done && Built(g, Together(again)).graph != g
  {
    var chunks, rs := LinkedTwice(kb, d1, d2), Together(again).relations;
    SecondBuildable(env, g, kb, d1, d2);
    BuildEndsDoneIff(env, g, chunks, again, later);
    BuildUnchangedIff(env, g, chunks, again, later);
    assert FromChunk(env, g, chunks[1], again[1]);
    SecondMaps(env, g, chunks[1], again[1]);
    LastRelations(again);
    assert !RelationAbsorbed(g, rs[0]);
  }

  /**
    The failing input: two chunks that bring the same two new entities with a relation
    between them, built on an empty graph. The first call raises before it reaches the
    relation, the second goes through and stores it, so repeated calls do not produce
    the same graph.
  */
  lemma SecondCallAddsRelation(env: Environment, kb: string, d1: string, d2: string,
                               parts: seq<Part>, issued: nat, again: seq<Part>, later: nat)
    requires env.normalize("a") != env.normalize("b") && Sound(env, Empty(kb), issued)
    requires FromChunks(env, Empty(kb), LinkedTwice(kb, d1, d2), parts)
    requires FreshBatch(Empty(kb), Together(parts).entities)
    requires var g := Built(Empty(kb), Together(parts)).graph;
      && Integral(g) && Sound(env, g, later)
      && FromChunks(env, g, LinkedTwice(kb, d1, d2), again) && FreshBatch(g, Together(again).entities)
    ensures Built(Empty(kb), Together(parts)).status != Done
    ensures var g := Built(Empty(kb), Together(parts)).graph;
      Built(g, Together(again)).status == Done && Built(g, Together(again)).graph != g
  {
    FirstCall(env, kb, d1, d2, parts, issued);
    SecondCall(env, Built(Empty(kb), Together(parts)).graph, kb, d1, d2, again, later);
  }
}
