/**
  The relation table of the graph store: which documents vouch for which relation
  over whole runs, and what merging keeps of everything upserted for one triple.
*/
module RelationModel {
  import opened Wrappers
  import opened GraphModel

  // ------------------------------------ refinement to (triple, document) pairs

  /** Which document mentions which triple. */
  ghost function Mentions(g: Graph): set<(RelationKey, string)> {
    set k, d | k in g.relations && d in g.relations[k].sources :: (k, d)
  }

  ghost function BatchMentions(batch: seq<Relation>): set<(RelationKey, string)> {
    set i, d | 0 <= i < |batch| && d in batch[i].sources :: (batch[i].Key(), d)
  }

  /** The relations of a batch before the first of a foreign knowledge base. */
  function Accepted(g: Graph, batch: seq<Relation>): seq<Relation> {
    if batch == [] || !AcceptsKb(g, batch[0].kb) then [] else [batch[0]] + Accepted(g, batch[1..])
  }

  /**
    The plain machine: which document mentions which name, which id stands for
    which name, and which document mentions which triple.
  */
  datatype Plain = Plain(
    pairs: set<(string, string)>, ids: map<string, string>, mentions: set<(RelationKey, string)>)

  /** The names that this document alone vouches for. */
  ghost function Orphans(p: Plain, doc: string): set<string> {
    set n | n in p.ids && (n, doc) in p.pairs && forall d :: (n, d) in p.pairs ==> d == doc
  }

  ghost function DyingIds(p: Plain, doc: string): set<string> {
    set n | n in Orphans(p, doc) :: p.ids[n]
  }

  /** A name keeps the first id it was given. */
  function PutId(ids: map<string, string>, e: Entity): map<string, string> {
    if e.nameNorm in ids then ids else ids[e.nameNorm := e.id]
  }

  function PutIds(ids: map<string, string>, es: seq<Entity>): map<string, string>
    decreases es
  {
    if es == [] then ids else PutIds(PutId(ids, es[0]), es[1..])
  }

  /**
    Upserts add pairs; a deletion takes the pairs of its document, the names it
    alone vouched for, and all pairs of triples that lose an endpoint with them.
  */
  ghost function PlainStep(p: Plain, op: Op): Plain {
    match op
    case PutEntities(es) => p.(pairs := p.pairs + BatchPairs(es), ids := PutIds(p.ids, es))
    case PutRelations(rs) => p.(mentions := p.mentions + BatchMentions(rs))
    case DeleteDoc(doc) =>
      var dying := DyingIds(p, doc);
      Plain((set x | x in p.pairs && x.1 != doc),
            p.ids - Orphans(p, doc),
            (set x | x in p.mentions && x.1 != doc && x.0.head !in dying && x.0.tail !in dying))
  }

  ghost function PlainRun(p: Plain, ops: seq<Op>): Plain
    decreases ops
  {
    if ops == [] then p else PlainRun(PlainStep(p, ops[0]), ops[1..])
  }

  /** The operation cut down to what it wrote before any error. */
  function Effective(g: Graph, op: Op): Op {
    match op
    case PutEntities(es) => PutEntities(Landed(g, es))
    case PutRelations(rs) => PutRelations(Accepted(g, rs))
    case DeleteDoc(_) => op
  }

  function EffectiveRun(g: Graph, ops: seq<Op>): seq<Op>
    decreases ops
  {
    if ops == [] then [] else [Effective(g, ops[0])] + EffectiveRun(Apply(g, ops[0]), ops[1..])
  }

  function IdsOf(g: Graph): map<string, string> { map k | k in g.entities :: g.entities[k].id }

  ghost function PlainOf(g: Graph): Plain { Plain(Pairs(g), IdsOf(g), Mentions(g)) }

  /** The names that die with a document in the graph are those it alone vouches for in the plain machine. */
  lemma OrphansDie(g: Graph, k: string, doc: string)
    ensures k in Orphans(PlainOf(g), doc) <==> k in g.entities && LastReference(g.entities[k].sources, doc)
  {
    var p := PlainOf(g);
    if k in g.entities {
      var sources := g.entities[k].sources;
      assert forall d :: (k, d) in p.pairs <==> d in sources;
      if LastReference(sources, doc) {
        assert sources == (sources - {doc}) + {doc} == {doc};
      }
      if k in Orphans(p, doc) {
        forall d | d in sources ensures d == doc { assert (k, d) in p.pairs; }
        assert sources - {doc} == {};
      }
    }
  }

  lemma DyingIdsDie(g: Graph, doc: string)
    ensures DyingIds(PlainOf(g), doc) == DeadIds(g, doc)
  {
    var p := PlainOf(g);
    forall id ensures id in DyingIds(p, doc) <==> id in DeadIds(g, doc) {
      if id in DyingIds(p, doc) {
        var k :| k in Orphans(p, doc) && p.ids[k] == id;
        OrphansDie(g, k, doc);
      }
      if id in DeadIds(g, doc) {
        var k :| k in g.entities && LastReference(g.entities[k].sources, doc) && g.entities[k].id == id;
        OrphansDie(g, k, doc);
      }
    }
  }

  /** The entity filed under this name, and only its document, is what keeps the id alive. */
  ghost predicate OnlyVouchedBy(g: Graph, k: string, id: string, doc: string) {
    k in g.entities && g.entities[k].id == id && forall d :: (k, d) in Pairs(g) <==> d == doc
  }

  /** An id dies with a document exactly when that document alone vouches for an entity of that id. */
  lemma DiesWith(g: Graph, id: string, doc: string)
    ensures id in DeadIds(g, doc) <==> exists k :: OnlyVouchedBy(g, k, id, doc)
  {
    var p := PlainOf(g);
    DyingIdsDie(g, doc);
    if id in DeadIds(g, doc) {
      var k :| k in Orphans(p, doc) && p.ids[k] == id;
      assert OnlyVouchedBy(g, k, id, doc);
    }
    if k :| OnlyVouchedBy(g, k, id, doc) {
      assert k in Orphans(p, doc);
    }
  }

  lemma UpsertRelationMentions(g: Graph, r: Relation)
    requires AcceptsKb(g, r.kb)
    ensures Mentions(UpsertRelation(g, r).graph) == Mentions(g) + BatchMentions([r])
  {
    var g' := UpsertRelation(g, r).graph;
    forall p ensures p in Mentions(g') <==> p in Mentions(g) + BatchMentions([r]) {
      assert p in BatchMentions([r]) <==> p.0 == r.Key() && p.1 in r.sources by {
        if p.0 == r.Key() && p.1 in r.sources { assert [r][0] == r; }
      }
    }
  }

  lemma BatchMentionsCons(r: Relation, rest: seq<Relation>)
    ensures BatchMentions([r] + rest) == BatchMentions([r]) + BatchMentions(rest)
  {
    var all := [r] + rest;
    forall p ensures p in BatchMentions(all) <==> p in BatchMentions([r]) + BatchMentions(rest) {
      if p in BatchMentions(all) {
        var i, d :| 0 <= i < |all| && d in all[i].sources && p == (all[i].Key(), d);
        if i == 0 { assert [r][0] == r; } else { assert rest[i - 1] == all[i]; }
      }
      if p in BatchMentions([r]) { assert all[0] == r; }
      if p in BatchMentions(rest) {
        var i, d :| 0 <= i < |rest| && d in rest[i].sources && p == (rest[i].Key(), d);
        assert all[i + 1] == rest[i];
      }
    }
  }

  lemma {:induction false} UpsertRelationsMentions(g: Graph, batch: seq<Relation>)
    ensures Mentions(UpsertRelations(g, batch).graph) == Mentions(g) + BatchMentions(Accepted(g, batch))
    decreases batch
  {
    if batch != [] && AcceptsKb(g, batch[0].kb) {
      var g' := UpsertRelation(g, batch[0]).graph;
      UpsertRelationMentions(g, batch[0]);
      UpsertRelationsMentions(g', batch[1..]);
      SameKbAccepts(g, g', batch[1..]);
      BatchMentionsCons(batch[0], Accepted(g, batch[1..]));
    }
  }

  lemma {:induction false} SameKbAccepts(g: Graph, g': Graph, batch: seq<Relation>)
    requires g.kb == g'.kb
    ensures Accepted(g, batch) == Accepted(g', batch)
  {
    if batch != [] { SameKbAccepts(g, g', batch[1..]); }
  }

  lemma DeleteMentions(g: Graph, doc: string)
    ensures Mentions(DeleteByDoc(g, doc)) == PlainStep(PlainOf(g), DeleteDoc(doc)).mentions
  {
    var g' := DeleteByDoc(g, doc);
    DyingIdsDie(g, doc);
    forall p ensures p in Mentions(g') <==> p in PlainStep(PlainOf(g), DeleteDoc(doc)).mentions {
      if p in Mentions(g) && p.1 != doc {
        assert p.1 in g.relations[p.0].sources - {doc};
      }
    }
  }

  lemma {:induction false} UpsertEntitiesKeepRelations(g: Graph, batch: seq<Entity>)
    ensures UpsertEntities(g, batch).graph.relations == g.relations
    decreases batch
  {
    if batch != [] && UpsertEntity(g, batch[0]).status == Done {
      UpsertEntitiesKeepRelations(UpsertEntity(g, batch[0]).graph, batch[1..]);
    }
  }

  lemma UpsertEntityIds(g: Graph, e: Entity)
    requires AcceptsKb(g, e.kb)
    ensures IdsOf(UpsertEntity(g, e).graph) == PutId(IdsOf(g), e)
  {
  }

  lemma {:induction false} UpsertEntitiesIds(g: Graph, batch: seq<Entity>)
    ensures IdsOf(UpsertEntities(g, batch).graph) == PutIds(IdsOf(g), Landed(g, batch))
    decreases batch
  {
    if batch != [] && AcceptsKb(g, batch[0].kb) {
      var o, e := UpsertEntity(g, batch[0]), batch[0];
      UpsertEntityIds(g, e);
      if o.status == Done {
        UpsertEntitiesIds(o.graph, batch[1..]);
        assert ([e] + Landed(o.graph, batch[1..]))[1..] == Landed(o.graph, batch[1..]);
      } else {
        assert Landed(g, batch) == [e] && [e][1..] == [];
      }
    }
  }

  lemma DeleteIds(g: Graph, doc: string)
    ensures IdsOf(DeleteByDoc(g, doc)) == IdsOf(g) - Orphans(PlainOf(g), doc)
  {
    forall k | k in g.entities { OrphansDie(g, k, doc); }
  }

  lemma StepRefines(g: Graph, op: Op)
    ensures PlainOf(Apply(g, op)) == PlainStep(PlainOf(g), Effective(g, op))
  {
    match op
    case PutEntities(es) =>
      UpsertEntitiesPairs(g, es);
      UpsertEntitiesIds(g, es);
      UpsertEntitiesKeepRelations(g, es);
    case PutRelations(rs) =>
      UpsertRelationsKeepEntities(g, rs);
      UpsertRelationsMentions(g, rs);
    case DeleteDoc(doc) =>
      DeletePairs(g, doc);
      DeleteIds(g, doc);
      DeleteMentions(g, doc);
  }

  /**
    Entities, ids and relations together refine the plain machine over every run,
    the cascade of deleted entities included: which endpoints die is read off the
    plain pairs and ids alone.
  */
  lemma {:induction false} RunRefinesMentions(g: Graph, ops: seq<Op>)
    ensures PlainOf(Run(g, ops)) == PlainRun(PlainOf(g), EffectiveRun(g, ops))
    decreases ops
  {
    if ops != [] {
      StepRefines(g, ops[0]);
      RunRefinesMentions(Apply(g, ops[0]), ops[1..]);
      var effective := EffectiveRun(g, ops);
      assert effective[0] == Effective(g, ops[0]) && effective[1..] == EffectiveRun(Apply(g, ops[0]), ops[1..]);
    }
  }

  // ------------------------------------------------------ what merging preserves

  /** A relation seen as the entity record that merges the same way: triple as identity, weight as confidence. */
  function View(r: Relation): Entity {
    Entity(r.id, r.kb, r.head, r.tail, r.kind, r.description, r.sources, r.weight, [])
  }

  function LookupView(g: Graph, k: RelationKey): Option<Entity> {
    if k in g.relations then Some(View(g.relations[k])) else None
  }

  /** Everything a batch holds for one triple, in order. */
  function Given(rs: seq<Relation>, k: RelationKey): seq<Entity> {
    if rs == [] then []
    else (if rs[0].Key() == k then [View(rs[0])] else []) + Given(rs[1..], k)
  }

  lemma MergeViews(had: Relation, inc: Relation)
    ensures View(MergeRelation(had, inc)) == MergeEntity(View(had), View(inc))
  {
  }

  lemma {:induction false} BatchAbsorbsRelations(g: Graph, rs: seq<Relation>, k: RelationKey)
    requires UpsertRelations(g, rs).status == Done
    ensures LookupView(UpsertRelations(g, rs).graph, k) == Absorb(LookupView(g, k), Given(rs, k))
    decreases rs
  {
    if rs != [] {
      var r, g' := rs[0], UpsertRelation(g, rs[0]).graph;
      BatchAbsorbsRelations(g', rs[1..], k);
      if r.Key() == k {
        var rest := Given(rs[1..], k);
        assert ([View(r)] + rest)[1..] == rest;
        if k in g.relations { MergeViews(g.relations[k], r); }
      } else {
        assert LookupView(g', k) == LookupView(g, k);
        assert Given(rs, k) == Given(rs[1..], k);
      }
    }
  }

  /**
    A completed batch stores, for every triple, the first relation's identity,
    the highest weight, the earliest of the longest descriptions and the documents
    of all it was given for that triple.
  */
  lemma RelationBatchDistils(g: Graph, rs: seq<Relation>, k: RelationKey)
    requires UpsertRelations(g, rs).status == Done
    ensures
      var end := UpsertRelations(g, rs).graph;
      var history := History(LookupView(g, k), Given(rs, k));
      if k in end.relations then Distils(View(end.relations[k]), history) else history == []
  {
    BatchAbsorbsRelations(g, rs, k);
    HistoryDistils(LookupView(g, k), Given(rs, k));
  }
}
