/**
  The state of the knowledge-graph store and the meaning of its three updates:
  entities keyed by normalised name and reference-counted by the documents that
  mention them, relations keyed by (head, tail, type), and a multigraph.
*/
module GraphModel {
  import opened Wrappers

  datatype Entity = Entity(
    id: string, kb: string, name: string, nameNorm: string, kind: string,
    description: string, sources: set<string>, confidence: real, vector: seq<real>)

  datatype RelationKey = RelationKey(head: string, tail: string, kind: string)

  datatype Relation = Relation(
    id: string, kb: string, head: string, tail: string, kind: string,
    description: string, weight: real, sources: set<string>)
  {
    function Key(): RelationKey { RelationKey(head, tail, kind) }
  }

  /** A directed multigraph edge; the key is the id of the relation that added it. */
  datatype Edge = Edge(head: string, tail: string, key: string)

  datatype Graph = Graph(
    kb: string,
    entities: map<string, Entity>,
    relations: map<RelationKey, Relation>,
    nodes: set<string>,
    edges: set<Edge>)

  /** How an upsert ends: normally, with a contract error, or with a KeyError on a missing node. */
  datatype Status = Done | ForeignKb | MissingNode

  datatype Outcome = Outcome(graph: Graph, status: Status)

  predicate AcceptsKb(g: Graph, kb: string) {
    kb == "" || kb == g.kb
  }

  function Max(a: real, b: real): real { if a >= b then a else b }

  // ---------------------------------------------------------------- updates

  function MergeEntity(had: Entity, inc: Entity): Entity {
    had.(sources := had.sources + inc.sources,
         confidence := Max(had.confidence, inc.confidence),
         description := if |inc.description| > |had.description| then inc.description else had.description,
         vector := if had.vector == [] && inc.vector != [] then inc.vector else had.vector)
  }

  function UpsertEntity(g: Graph, e: Entity): Outcome {
    if !AcceptsKb(g, e.kb) then Outcome(g, ForeignKb)
    else if e.nameNorm !in g.entities then
      Outcome(g.(entities := g.entities[e.nameNorm := e], nodes := g.nodes + {e.id}), Done)
    else
      var merged := MergeEntity(g.entities[e.nameNorm], e);
      Outcome(g.(entities := g.entities[e.nameNorm := merged]),
              if e.id in g.nodes then Done else MissingNode)
  }

  /** A batch stops at the first error and keeps what it has already written. */
  function UpsertEntities(g: Graph, batch: seq<Entity>): Outcome
    decreases batch
  {
    if batch == [] then Outcome(g, Done)
    else
      var o := UpsertEntity(g, batch[0]);
      if o.status != Done then o else UpsertEntities(o.graph, batch[1..])
  }

  function MergeRelation(had: Relation, inc: Relation): Relation {
    had.(sources := had.sources + inc.sources,
         weight := Max(had.weight, inc.weight),
         description := if |inc.description| > |had.description| then inc.description else had.description)
  }

  function UpsertRelation(g: Graph, r: Relation): Outcome {
    if !AcceptsKb(g, r.kb) then Outcome(g, ForeignKb)
    else if r.Key() !in g.relations then
      Outcome(g.(relations := g.relations[r.Key() := r],
                 nodes := g.nodes + {r.head, r.tail},
                 edges := g.edges + {Edge(r.head, r.tail, r.id)}), Done)
    else
      Outcome(g.(relations := g.relations[r.Key() := MergeRelation(g.relations[r.Key()], r)]), Done)
  }

  function UpsertRelations(g: Graph, batch: seq<Relation>): Outcome
    decreases batch
  {
    if batch == [] then Outcome(g, Done)
    else
      var o := UpsertRelation(g, batch[0]);
      if o.status != Done then o else UpsertRelations(o.graph, batch[1..])
  }

  /** Dropping doc empties a reference set that it was in. */
  predicate LastReference(sources: set<string>, doc: string) {
    doc in sources && sources - {doc} == {}
  }

  /** Ids of the entities whose only reference is doc. */
  function DeadIds(g: Graph, doc: string): set<string> {
    set k | k in g.entities && LastReference(g.entities[k].sources, doc) :: g.entities[k].id
  }

  function DeleteByDoc(g: Graph, doc: string): Graph {
    var dead := DeadIds(g, doc);
    Graph(
      g.kb,
      map k | k in g.entities && !LastReference(g.entities[k].sources, doc) ::
        g.entities[k].(sources := g.entities[k].sources - {doc}),
      map k | k in g.relations && k.head !in dead && k.tail !in dead
              && !LastReference(g.relations[k].sources, doc) ::
        g.relations[k].(sources := g.relations[k].sources - {doc}),
      g.nodes - dead,
      set e | e in g.edges && e.head !in dead && e.tail !in dead)
  }

  // ------------------------------------------------------------------- runs

  datatype Op =
    | PutEntities(entities: seq<Entity>)
    | PutRelations(relations: seq<Relation>)
    | DeleteDoc(doc: string)

  /** One call on the store; a call that raises leaves what it wrote. */
  function Apply(g: Graph, op: Op): Graph {
    match op
    case PutEntities(es) => UpsertEntities(g, es).graph
    case PutRelations(rs) => UpsertRelations(g, rs).graph
    case DeleteDoc(doc) => DeleteByDoc(g, doc)
  }

  function Run(g: Graph, ops: seq<Op>): Graph
    decreases ops
  {
    if ops == [] then g else Run(Apply(g, ops[0]), ops[1..])
  }

  // ----------------------------------------------------- structural validity

  /** Both dictionaries file every value under its own key, and edges join nodes. */
  ghost predicate Valid(g: Graph) {
    && (forall k :: k in g.entities ==> g.entities[k].nameNorm == k)
    && (forall k :: k in g.relations ==> g.relations[k].Key() == k)
    && (forall e :: e in g.edges ==> e.head in g.nodes && e.tail in g.nodes)
  }

  lemma UpsertEntitiesValid(g: Graph, batch: seq<Entity>)
    requires Valid(g)
    ensures Valid(UpsertEntities(g, batch).graph)
    decreases batch
  {
    if batch != [] && UpsertEntity(g, batch[0]).status == Done {
      UpsertEntitiesValid(UpsertEntity(g, batch[0]).graph, batch[1..]);
    }
  }

  lemma UpsertRelationsValid(g: Graph, batch: seq<Relation>)
    requires Valid(g)
    ensures Valid(UpsertRelations(g, batch).graph)
    decreases batch
  {
    if batch != [] && UpsertRelation(g, batch[0]).status == Done {
      UpsertRelationsValid(UpsertRelation(g, batch[0]).graph, batch[1..]);
    }
  }

  // ------------------------------------- refinement to (name, document) pairs

  /** The reference table: which document mentions which normalised name. */
  ghost function Pairs(g: Graph): set<(string, string)> {
    set k, d | k in g.entities && d in g.entities[k].sources :: (k, d)
  }

  ghost function BatchPairs(batch: seq<Entity>): set<(string, string)> {
    set i, d | 0 <= i < |batch| && d in batch[i].sources :: (batch[i].nameNorm, d)
  }

  /** The entities of a batch whose table effect happened before any error. */
  function Landed(g: Graph, batch: seq<Entity>): seq<Entity>
    decreases batch
  {
    if batch == [] then []
    else
      var o := UpsertEntity(g, batch[0]);
      match o.status
      case ForeignKb => []
      case MissingNode => [batch[0]]
      case Done => [batch[0]] + Landed(o.graph, batch[1..])
  }

  lemma {:induction false} LandedIsPrefix(g: Graph, batch: seq<Entity>)
    ensures Landed(g, batch) <= batch
    ensures UpsertEntities(g, batch).status == Done ==> Landed(g, batch) == batch
    decreases batch
  {
    if batch != [] {
      assert batch == [batch[0]] + batch[1..];
      if UpsertEntity(g, batch[0]).status == Done {
        LandedIsPrefix(UpsertEntity(g, batch[0]).graph, batch[1..]);
      }
    }
  }

  /** The plain machine: a set of pairs that upserts grow and deletions shrink. */
  ghost function PairStep(pairs: set<(string, string)>, op: Op): set<(string, string)> {
    match op
    case PutEntities(es) => pairs + BatchPairs(es)
    case PutRelations(_) => pairs
    case DeleteDoc(doc) => set p | p in pairs && p.1 != doc
  }

  ghost function PairRun(pairs: set<(string, string)>, ops: seq<Op>): set<(string, string)>
    decreases ops
  {
    if ops == [] then pairs else PairRun(PairStep(pairs, ops[0]), ops[1..])
  }

  function LandedOp(g: Graph, op: Op): Op {
    match op
    case PutEntities(es) => PutEntities(Landed(g, es))
    case _ => op
  }

  /** The run with every batch cut down to what it wrote. */
  function LandedRun(g: Graph, ops: seq<Op>): seq<Op>
    decreases ops
  {
    if ops == [] then [] else [LandedOp(g, ops[0])] + LandedRun(Apply(g, ops[0]), ops[1..])
  }

  lemma UpsertEntityPairs(g: Graph, e: Entity)
    requires AcceptsKb(g, e.kb)
    ensures Pairs(UpsertEntity(g, e).graph) == Pairs(g) + BatchPairs([e])
  {
    var g' := UpsertEntity(g, e).graph;
    forall p ensures p in Pairs(g') <==> p in Pairs(g) + BatchPairs([e]) {
      assert p in BatchPairs([e]) <==> p.0 == e.nameNorm && p.1 in e.sources by {
        if p.0 == e.nameNorm && p.1 in e.sources { assert [e][0] == e; }
      }
    }
  }

  lemma {:induction false} UpsertEntitiesPairs(g: Graph, batch: seq<Entity>)
    ensures Pairs(UpsertEntities(g, batch).graph) == Pairs(g) + BatchPairs(Landed(g, batch))
    decreases batch
  {
    if batch != [] && AcceptsKb(g, batch[0].kb) {
      var o := UpsertEntity(g, batch[0]);
      UpsertEntityPairs(g, batch[0]);
      if o.status == Done {
        var rest := Landed(o.graph, batch[1..]);
        UpsertEntitiesPairs(o.graph, batch[1..]);
        BatchPairsCons(batch[0], rest);
      }
    }
  }

  lemma BatchPairsCons(e: Entity, rest: seq<Entity>)
    ensures BatchPairs([e] + rest) == BatchPairs([e]) + BatchPairs(rest)
  {
    var all := [e] + rest;
    forall p ensures p in BatchPairs(all) <==> p in BatchPairs([e]) + BatchPairs(rest) {
      if p in BatchPairs(all) {
        var i, d :| 0 <= i < |all| && d in all[i].sources && p == (all[i].nameNorm, d);
        if i == 0 { assert [e][0] == e; } else { assert rest[i - 1] == all[i]; }
      }
      if p in BatchPairs([e]) { assert all[0] == e; }
      if p in BatchPairs(rest) {
        var i, d :| 0 <= i < |rest| && d in rest[i].sources && p == (rest[i].nameNorm, d);
        assert all[i + 1] == rest[i];
      }
    }
  }

  lemma UpsertRelationsKeepEntities(g: Graph, batch: seq<Relation>)
    ensures UpsertRelations(g, batch).graph.entities == g.entities
    decreases batch
  {
  }

  lemma DeletePairs(g: Graph, doc: string)
    ensures Pairs(DeleteByDoc(g, doc)) == set p | p in Pairs(g) && p.1 != doc
  {
    var g' := DeleteByDoc(g, doc);
    forall p ensures p in Pairs(g') <==> p in Pairs(g) && p.1 != doc {
      if p in Pairs(g) && p.1 != doc {
        assert p.1 in g.entities[p.0].sources - {doc};
      }
    }
  }

  lemma ApplyPairs(g: Graph, op: Op)
    ensures Pairs(Apply(g, op)) == PairStep(Pairs(g), LandedOp(g, op))
  {
    match op
    case PutEntities(es) => UpsertEntitiesPairs(g, es);
    case PutRelations(rs) => UpsertRelationsKeepEntities(g, rs);
    case DeleteDoc(doc) => DeletePairs(g, doc);
  }

  /**
    The entity table refines the plain set of pairs over every run: whatever mix
    of upserts and deletions is applied, and wherever batches fail, the reference
    lists hold exactly the pairs that the plain machine holds.
  */
  lemma {:induction false} RunRefinesPairs(g: Graph, ops: seq<Op>)
    ensures Pairs(Run(g, ops)) == PairRun(Pairs(g), LandedRun(g, ops))
    decreases ops
  {
    if ops != [] {
      var g' := Apply(g, ops[0]);
      ApplyPairs(g, ops[0]);
      RunRefinesPairs(g', ops[1..]);
      var landed := LandedRun(g, ops);
      assert landed[0] == LandedOp(g, ops[0]) && landed[1..] == LandedRun(g', ops[1..]);
    }
  }

  /** No stored entity has an empty reference list. */
  ghost predicate Referenced(g: Graph) {
    forall k :: k in g.entities ==> g.entities[k].sources != {}
  }

  predicate Sourced(op: Op) {
    op.PutEntities? ==> forall i :: 0 <= i < |op.entities| ==> op.entities[i].sources != {}
  }

  lemma {:induction false} UpsertEntitiesReferenced(g: Graph, batch: seq<Entity>)
    requires Referenced(g) && Sourced(PutEntities(batch))
    ensures Referenced(UpsertEntities(g, batch).graph)
    decreases batch
  {
    if batch != [] {
      var o := UpsertEntity(g, batch[0]);
      assert batch[0].sources != {};
      assert Referenced(o.graph) by {
        forall k | k in o.graph.entities ensures o.graph.entities[k].sources != {} {
          if k == batch[0].nameNorm && k in g.entities {
            var d :| d in g.entities[k].sources;
            assert o.status != ForeignKb ==> d in o.graph.entities[k].sources;
          }
        }
      }
      if o.status == Done {
        assert forall i :: 0 <= i < |batch[1..]| ==> batch[1..][i] == batch[i + 1];
        UpsertEntitiesReferenced(o.graph, batch[1..]);
      }
    }
  }

  /**
    When every upserted entity names at least one document, an entity is stored
    exactly while some document references it, and its reference list is exactly
    the documents paired with its name.
  */
  lemma {:induction false} EntityLivesWhileReferenced(g: Graph, ops: seq<Op>)
    requires Referenced(g)
    requires forall i :: 0 <= i < |ops| ==> Sourced(ops[i])
    ensures
      var end := Run(g, ops);
      var pairs := PairRun(Pairs(g), LandedRun(g, ops));
      && (forall k :: k in end.entities <==> exists d :: (k, d) in pairs)
      && (forall k :: k in end.entities ==> forall d :: d in end.entities[k].sources <==> (k, d) in pairs)
  {
    RunReferenced(g, ops);
    RunRefinesPairs(g, ops);
    var end := Run(g, ops);
    forall k | k in end.entities ensures exists d :: (k, d) in Pairs(end) {
      var d :| d in end.entities[k].sources;
      assert (k, d) in Pairs(end);
    }
  }

  lemma {:induction false} RunReferenced(g: Graph, ops: seq<Op>)
    requires Referenced(g)
    requires forall i :: 0 <= i < |ops| ==> Sourced(ops[i])
    ensures Referenced(Run(g, ops))
    decreases ops
  {
    if ops != [] {
      assert Sourced(ops[0]);
      match ops[0] {
        case PutEntities(es) => UpsertEntitiesReferenced(g, es);
        case PutRelations(rs) => UpsertRelationsKeepEntities(g, rs);
        case DeleteDoc(doc) =>
      }
      assert forall i :: 0 <= i < |ops[1..]| ==> ops[1..][i] == ops[i + 1];
      RunReferenced(Apply(g, ops[0]), ops[1..]);
    }
  }

  /**
    The other side of the same coin: an entity stored with an empty reference
    list has no pair, and no sequence of document deletions ever removes it.
  */
  lemma {:induction false} UnsourcedEntityIsNeverDeleted(g: Graph, k: string, docs: seq<string>)
    requires k in g.entities && g.entities[k].sources == {}
    ensures k in DeleteDocs(g, docs).entities && forall d :: (k, d) !in Pairs(DeleteDocs(g, docs))
    decreases docs
  {
    if docs != [] {
      UnsourcedEntityIsNeverDeleted(DeleteByDoc(g, docs[0]), k, docs[1..]);
    }
  }

  /** An entity is stored exactly if some document is paired with its name. */
  ghost predicate StoredIffPaired(g: Graph, pairs: set<(string, string)>) {
    forall k :: k in g.entities <==> exists d :: (k, d) in pairs
  }

  /** Among what an operation writes, every name that the store lacks comes with a source list that is not empty. */
  ghost predicate LandsReferenced(g: Graph, op: Op) {
    op.PutEntities? ==>
      var landed := Landed(g, op.entities);
      forall k :: Brings(landed, k) && k !in g.entities ==> Vouched(landed, k)
  }

  ghost predicate Brings(es: seq<Entity>, k: string) {
    exists i :: 0 <= i < |es| && es[i].nameNorm == k
  }

  ghost predicate Vouched(es: seq<Entity>, k: string) {
    exists i :: 0 <= i < |es| && es[i].nameNorm == k && es[i].sources != {}
  }

  lemma BringsMore(e: Entity, rest: seq<Entity>, k: string)
    ensures Brings([e] + rest, k) <==> e.nameNorm == k || Brings(rest, k)
  {
    var all := [e] + rest;
    assert all[0] == e && all[1..] == rest;
    if i :| 0 <= i < |rest| && rest[i].nameNorm == k { assert all[i + 1].nameNorm == k; }
    if i :| 0 <= i < |all| && all[i].nameNorm == k { assert i > 0 ==> rest[i - 1].nameNorm == k; }
  }

  /** The names stored after a batch are those stored before it and those it writes. */
  lemma {:induction false} LandedNames(g: Graph, es: seq<Entity>, k: string)
    ensures k in UpsertEntities(g, es).graph.entities <==> k in g.entities || Brings(Landed(g, es), k)
    decreases es
  {
    if es != [] {
      var o := UpsertEntity(g, es[0]);
      if o.status == Done {
        LandedNames(o.graph, es[1..], k);
        BringsMore(es[0], Landed(o.graph, es[1..]), k);
      } else if o.status == MissingNode {
        BringsMore(es[0], [], k);
      }
    }
  }

  lemma VouchedIff(es: seq<Entity>, k: string)
    ensures Vouched(es, k) <==> exists d :: (k, d) in BatchPairs(es)
  {
    if i :| 0 <= i < |es| && es[i].nameNorm == k && es[i].sources != {} {
      var d :| d in es[i].sources;
      assert (k, d) in BatchPairs(es);
    }
  }

  lemma StepReferencedIff(g: Graph, op: Op)
    requires StoredIffPaired(g, Pairs(g))
    ensures StoredIffPaired(Apply(g, op), Pairs(Apply(g, op))) <==> LandsReferenced(g, op)
  {
    match op
    case PutRelations(rs) => UpsertRelationsKeepEntities(g, rs);
    case DeleteDoc(doc) => DeletionKeepsPaired(g, doc);
    case PutEntities(es) =>
      forall k { BatchPaired(g, es, k); }
  }

  lemma BatchPaired(g: Graph, es: seq<Entity>, k: string)
    requires StoredIffPaired(g, Pairs(g))
    ensures var end, landed := UpsertEntities(g, es).graph, Landed(g, es);
      && (k in end.entities <==> k in g.entities || Brings(landed, k))
      && ((exists d :: (k, d) in Pairs(end)) <==> k in g.entities || Vouched(landed, k))
      && (Vouched(landed, k) ==> Brings(landed, k))
  {
    UpsertEntitiesPairs(g, es);
    VouchedIff(Landed(g, es), k);
    LandedNames(g, es, k);
  }

  lemma DeletionKeepsPaired(g: Graph, doc: string)
    requires StoredIffPaired(g, Pairs(g))
    ensures StoredIffPaired(DeleteByDoc(g, doc), Pairs(DeleteByDoc(g, doc)))
  {
    var end := DeleteByDoc(g, doc);
    DeletePairs(g, doc);
    forall k | k in end.entities ensures exists d :: (k, d) in Pairs(end) {
      var d' :| (k, d') in Pairs(g);
      assert g.entities[k].sources - {doc} != {} by {
        assert d' in g.entities[k].sources && (d' == doc || d' in g.entities[k].sources - {doc});
      }
      var d :| d in g.entities[k].sources - {doc};
      assert (k, d) in Pairs(end);
    }
  }

  lemma {:induction false} RunLast(g: Graph, ops: seq<Op>, n: nat)
    requires n < |ops|
    ensures Run(g, ops[..n + 1]) == Apply(Run(g, ops[..n]), ops[n])
    decreases n
  {
    if n > 0 {
      RunLast(Apply(g, ops[0]), ops[1..], n - 1);
      assert ops[..n + 1][1..] == ops[1..][..n] && ops[..n][1..] == ops[1..][..n - 1];
    } else {
      assert ops[..1][1..] == [] && ops[..0] == [];
    }
  }

  /**
    Exactly when the table of entities follows the plain pairs all along a run: no
    operation writes a name that the store lacks with empty source lists alone.
  */
  lemma {:induction false} StoredIffPairedIff(g: Graph, ops: seq<Op>)
    requires StoredIffPaired(g, Pairs(g))
    ensures (forall n :: 0 <= n <= |ops| ==>
               StoredIffPaired(Run(g, ops[..n]), PairRun(Pairs(g), LandedRun(g, ops[..n]))))
      <==> forall n :: 0 <= n < |ops| ==> LandsReferenced(Run(g, ops[..n]), ops[n])
  {
    forall n | 0 <= n <= |ops|
      ensures Pairs(Run(g, ops[..n])) == PairRun(Pairs(g), LandedRun(g, ops[..n]))
    {
      RunRefinesPairs(g, ops[..n]);
    }
    if forall n :: 0 <= n <= |ops| ==> StoredIffPaired(Run(g, ops[..n]), PairRun(Pairs(g), LandedRun(g, ops[..n]))) {
      forall n | 0 <= n < |ops| ensures LandsReferenced(Run(g, ops[..n]), ops[n]) {
        RunLast(g, ops, n);
        StepReferencedIff(Run(g, ops[..n]), ops[n]);
      }
    }
    if forall n :: 0 <= n < |ops| ==> LandsReferenced(Run(g, ops[..n]), ops[n]) {
      forall n | 0 <= n <= |ops| ensures StoredIffPaired(Run(g, ops[..n]), Pairs(Run(g, ops[..n]))) {
        RunStaysPaired(g, ops, n);
      }
    }
  }

  lemma {:induction false} RunStaysPaired(g: Graph, ops: seq<Op>, n: nat)
    requires StoredIffPaired(g, Pairs(g)) && n <= |ops|
    requires forall i :: 0 <= i < |ops| ==> LandsReferenced(Run(g, ops[..i]), ops[i])
    ensures StoredIffPaired(Run(g, ops[..n]), Pairs(Run(g, ops[..n])))
    decreases n
  {
    if n > 0 {
      RunStaysPaired(g, ops, n - 1);
      RunLast(g, ops, n - 1);
      StepReferencedIff(Run(g, ops[..n - 1]), ops[n - 1]);
    }
  }

  // ------------------------------------------------- deletions do not interfere

  function DeleteDocs(g: Graph, docs: seq<string>): Graph
    decreases docs
  {
    if docs == [] then g else DeleteDocs(DeleteByDoc(g, docs[0]), docs[1..])
  }

  /** A reference set that was not empty and is covered by the deleted documents. */
  predicate Orphaned(sources: set<string>, docs: set<string>) {
    sources != {} && sources <= docs
  }

  ghost function OrphanIds(g: Graph, docs: set<string>): set<string> {
    set k | k in g.entities && Orphaned(g.entities[k].sources, docs) :: g.entities[k].id
  }

  /** Deleting a whole set of documents in one simultaneous step. */
  ghost function DeleteAtOnce(g: Graph, docs: set<string>): Graph {
    var dead := OrphanIds(g, docs);
    Graph(
      g.kb,
      map k | k in g.entities && !Orphaned(g.entities[k].sources, docs) ::
        g.entities[k].(sources := g.entities[k].sources - docs),
      map k | k in g.relations && k.head !in dead && k.tail !in dead
              && !Orphaned(g.relations[k].sources, docs) ::
        g.relations[k].(sources := g.relations[k].sources - docs),
      g.nodes - dead,
      set e | e in g.edges && e.head !in dead && e.tail !in dead)
  }

  lemma OrphanStep(sources: set<string>, docs: set<string>, doc: string)
    ensures Orphaned(sources, docs + {doc})
            <==> Orphaned(sources, docs) || LastReference(sources - docs, doc)
    ensures sources - docs - {doc} == sources - (docs + {doc})
  {
  }

  lemma OrphanIdsStep(g: Graph, docs: set<string>, doc: string)
    ensures OrphanIds(g, docs + {doc}) == OrphanIds(g, docs) + DeadIds(DeleteAtOnce(g, docs), doc)
  {
    var h := DeleteAtOnce(g, docs);
    forall k | k in g.entities
      ensures Orphaned(g.entities[k].sources, docs + {doc})
              <==> Orphaned(g.entities[k].sources, docs)
                   || (k in h.entities && LastReference(h.entities[k].sources, doc))
    {
      OrphanStep(g.entities[k].sources, docs, doc);
    }
    forall id ensures id in OrphanIds(g, docs + {doc})
                      <==> id in OrphanIds(g, docs) + DeadIds(h, doc) {
      if id in OrphanIds(g, docs) {
        var k :| k in g.entities && Orphaned(g.entities[k].sources, docs) && g.entities[k].id == id;
        assert Orphaned(g.entities[k].sources, docs + {doc});
      }
    }
  }

  lemma EntitiesAtOnceStep(g: Graph, docs: set<string>, doc: string)
    ensures DeleteByDoc(DeleteAtOnce(g, docs), doc).entities == DeleteAtOnce(g, docs + {doc}).entities
  {
    forall k | k in g.entities { OrphanStep(g.entities[k].sources, docs, doc); }
  }

  lemma RelationAtOnceStep(g: Graph, docs: set<string>, doc: string, k: RelationKey)
    requires OrphanIds(g, docs + {doc}) == OrphanIds(g, docs) + DeadIds(DeleteAtOnce(g, docs), doc)
    ensures var step, all := DeleteByDoc(DeleteAtOnce(g, docs), doc).relations, DeleteAtOnce(g, docs + {doc}).relations;
      (k in step <==> k in all) && (k in step ==> step[k] == all[k])
  {
    if k in g.relations { OrphanStep(g.relations[k].sources, docs, doc); }
  }

  lemma RelationsAtOnceStep(g: Graph, docs: set<string>, doc: string)
    requires OrphanIds(g, docs + {doc}) == OrphanIds(g, docs) + DeadIds(DeleteAtOnce(g, docs), doc)
    ensures DeleteByDoc(DeleteAtOnce(g, docs), doc).relations == DeleteAtOnce(g, docs + {doc}).relations
  {
    forall k: RelationKey { RelationAtOnceStep(g, docs, doc, k); }
  }

  lemma DeleteAtOnceStep(g: Graph, docs: set<string>, doc: string)
    ensures DeleteByDoc(DeleteAtOnce(g, docs), doc) == DeleteAtOnce(g, docs + {doc})
  {
    var h := DeleteAtOnce(g, docs);
    var step := DeleteByDoc(h, doc);
    var all := DeleteAtOnce(g, docs + {doc});
    OrphanIdsStep(g, docs, doc);
    EntitiesAtOnceStep(g, docs, doc);
    RelationsAtOnceStep(g, docs, doc);
    assert step.nodes == all.nodes;
    assert step.edges == all.edges;
  }

  /**
    Deleting documents one after another has the effect of deleting them all at
    once on every container, graph included. So deletions commute, and deleting
    a document twice is deleting it once.
  */
  lemma {:induction false} DeletionsAreOrderFree(g: Graph, docs: seq<string>)
    ensures DeleteDocs(g, docs) == DeleteAtOnce(g, SetOf(docs))
  {
    DeleteNothing(g);
    DeleteDocsFrom(g, {}, docs);
    assert {} + SetOf(docs) == SetOf(docs);
  }

  lemma DeleteNothing(g: Graph)
    ensures DeleteAtOnce(g, {}) == g
  {
    var h := DeleteAtOnce(g, {});
    assert OrphanIds(g, {}) == {};
    assert forall s: set<string> :: s - {} == s;
    assert h.entities == g.entities;
    assert h.relations == g.relations;
    assert h.edges == g.edges;
  }

  lemma {:induction false} DeleteDocsFrom(g: Graph, gone: set<string>, docs: seq<string>)
    ensures DeleteDocs(DeleteAtOnce(g, gone), docs) == DeleteAtOnce(g, gone + SetOf(docs))
    decreases docs
  {
    if docs == [] {
      assert gone + SetOf(docs) == gone;
    } else {
      DeleteAtOnceStep(g, gone, docs[0]);
      DeleteDocsFrom(g, gone + {docs[0]}, docs[1..]);
      assert docs == [docs[0]] + docs[1..];
      assert gone + {docs[0]} + SetOf(docs[1..]) == gone + SetOf(docs);
    }
  }

  // ------------------------------------------------------ referential integrity

  ghost function LiveIds(g: Graph): set<string> {
    set k | k in g.entities :: g.entities[k].id
  }

  /** Every relation joins two live entities and owns an edge of the graph. */
  ghost predicate Integral(g: Graph) {
    && Valid(g)
    && (forall k :: k in g.entities ==> g.entities[k].id in g.nodes)
    && (forall k, k' :: k in g.entities && k' in g.entities && g.entities[k].id == g.entities[k'].id ==> k == k')
    && (forall k :: k in g.relations ==> RelationSound(g, k))
  }

  /** Both endpoints are live, and the relation's own edge joins them. */
  ghost predicate RelationSound(g: Graph, k: RelationKey)
    requires k in g.relations
  {
    && k.head in LiveIds(g) && k.tail in LiveIds(g)
    && Edge(k.head, k.tail, g.relations[k].id) in g.edges
  }

  /** An entity of a new name brings an id that no live entity uses. */
  ghost predicate FreshIfNew(g: Graph, e: Entity) {
    e.nameNorm !in g.entities ==> e.id !in LiveIds(g)
  }

  /** More edges and no live id less leave a relation sound. */
  lemma RelationStaysSound(g: Graph, h: Graph, k: RelationKey)
    requires k in g.relations && k in h.relations && RelationSound(g, k)
    requires LiveIds(g) <= LiveIds(h) && g.edges <= h.edges && h.relations[k].id == g.relations[k].id
    ensures RelationSound(h, k)
  {
  }

  lemma UpsertEntityLive(g: Graph, e: Entity)
    ensures LiveIds(g) <= LiveIds(UpsertEntity(g, e).graph)
  {
    var g' := UpsertEntity(g, e).graph;
    forall id | id in LiveIds(g) ensures id in LiveIds(g') {
      var k :| k in g.entities && g.entities[k].id == id;
      assert k in g'.entities && g'.entities[k].id == id;
    }
  }

  lemma UpsertEntityIntegral(g: Graph, e: Entity)
    requires Integral(g) && FreshIfNew(g, e)
    ensures Integral(UpsertEntity(g, e).graph)
    ensures LiveIds(g) <= LiveIds(UpsertEntity(g, e).graph)
  {
    var h := UpsertEntity(g, e).graph;
    UpsertEntityLive(g, e);
    assert h.relations == g.relations && h.edges == g.edges && g.nodes <= h.nodes;
    assert Valid(h);
    forall k | k in h.relations ensures RelationSound(h, k) { RelationStaysSound(g, h, k); }
  }

  lemma NewRelationIntegral(g: Graph, r: Relation)
    requires Integral(g) && r.head in LiveIds(g) && r.tail in LiveIds(g)
    requires AcceptsKb(g, r.kb) && r.Key() !in g.relations
    ensures Integral(UpsertRelation(g, r).graph)
  {
    var h := UpsertRelation(g, r).graph;
    forall k | k in g.relations ensures RelationSound(h, k) { RelationStaysSound(g, h, k); }
    assert LiveIds(h) == LiveIds(g);
    assert RelationSound(h, r.Key());
  }

  lemma MergedRelationIntegral(g: Graph, r: Relation)
    requires Integral(g) && AcceptsKb(g, r.kb) && r.Key() in g.relations
    ensures Integral(UpsertRelation(g, r).graph)
  {
    var h := UpsertRelation(g, r).graph;
    forall k | k in g.relations ensures RelationSound(h, k) { RelationStaysSound(g, h, k); }
  }

  lemma UpsertRelationIntegral(g: Graph, r: Relation)
    requires Integral(g) && r.head in LiveIds(g) && r.tail in LiveIds(g)
    ensures Integral(UpsertRelation(g, r).graph)
  {
    if AcceptsKb(g, r.kb) {
      if r.Key() in g.relations { MergedRelationIntegral(g, r); } else { NewRelationIntegral(g, r); }
    }
  }

  lemma {:induction false} UpsertRelationsIntegral(g: Graph, batch: seq<Relation>)
    requires Integral(g)
    requires forall i :: 0 <= i < |batch| ==> batch[i].head in LiveIds(g) && batch[i].tail in LiveIds(g)
    ensures Integral(UpsertRelations(g, batch).graph)
    decreases batch
  {
    if batch != [] {
      UpsertRelationIntegral(g, batch[0]);
      var g' := UpsertRelation(g, batch[0]).graph;
      assert LiveIds(g') == LiveIds(g);
      UpsertRelationsIntegral(g', batch[1..]);
    }
  }

  /** With ids unique, the ids that stay live are those that do not die. */
  lemma LiveAfterDelete(g: Graph, doc: string)
    requires Integral(g)
    ensures LiveIds(DeleteByDoc(g, doc)) == LiveIds(g) - DeadIds(g, doc)
  {
    var g' := DeleteByDoc(g, doc);
    forall id ensures id in LiveIds(g') <==> id in LiveIds(g) - DeadIds(g, doc) {
      if id in LiveIds(g) - DeadIds(g, doc) {
        var k :| k in g.entities && g.entities[k].id == id;
        assert k in g'.entities && g'.entities[k].id == id;
      }
      if id in LiveIds(g') {
        var k :| k in g'.entities && g'.entities[k].id == id;
        assert g.entities[k].id == id;
      }
    }
  }

  lemma EndpointsAfterDelete(g: Graph, doc: string, k: RelationKey)
    requires Integral(g) && k in DeleteByDoc(g, doc).relations
    ensures RelationSound(DeleteByDoc(g, doc), k)
  {
    LiveAfterDelete(g, doc);
    assert RelationSound(g, k);
  }

  lemma NodesAfterDelete(g: Graph, doc: string)
    requires Integral(g)
    ensures var g' := DeleteByDoc(g, doc);
      Valid(g') && forall k :: k in g'.entities ==> g'.entities[k].id in g'.nodes
  {
  }

  /** The cascade keeps every surviving relation's endpoints and edge. */
  lemma DeleteIntegral(g: Graph, doc: string)
    requires Integral(g)
    ensures Integral(DeleteByDoc(g, doc))
    ensures LiveIds(DeleteByDoc(g, doc)) == LiveIds(g) - DeadIds(g, doc)
  {
    LiveAfterDelete(g, doc);
    NodesAfterDelete(g, doc);
    forall k | k in DeleteByDoc(g, doc).relations { EndpointsAfterDelete(g, doc, k); }
  }

  function EdgeOf(k: RelationKey, r: Relation): Edge { Edge(k.head, k.tail, r.id) }

  /**
    When a deletion drops a relation, its edge stays exactly if neither endpoint
    dies: then it was the relation's own last reference that went.
  */
  lemma DroppedEdgeStaysIff(g: Graph, doc: string, k: RelationKey)
    requires Integral(g) && k in g.relations && k !in DeleteByDoc(g, doc).relations
    ensures var e := EdgeOf(k, g.relations[k]);
      && (e in DeleteByDoc(g, doc).edges <==> k.head !in DeadIds(g, doc) && k.tail !in DeadIds(g, doc))
      && (e in DeleteByDoc(g, doc).edges ==> LastReference(g.relations[k].sources, doc))
  {
  }

  /** Two entities that documents d and e mention, and a relation that only d mentions. */
  function Example(): Graph {
    Graph("",
      map["a" := Entity("1", "", "a", "a", "t", "", {"d", "e"}, 1.0, []),
          "b" := Entity("2", "", "b", "b", "t", "", {"d", "e"}, 1.0, [])],
      map[RelationKey("1", "2", "t") := Relation("3", "", "1", "2", "t", "", 1.0, {"d"})],
      {"1", "2"},
      {Edge("1", "2", "3")})
  }

  lemma ExampleIntegral()
    ensures Integral(Example())
  {
    var g := Example();
    assert "a" in g.entities && "b" in g.entities;
    assert "1" in LiveIds(g) && "2" in LiveIds(g);
  }

  /** An edge that outlives its relation: in the example, deleting d drops the relation and leaves its edge. */
  lemma EdgeOutlivesRelation()
    ensures var g, k := Example(), RelationKey("1", "2", "t");
      && Integral(g) && k in g.relations && k !in DeleteByDoc(g, "d").relations
      && EdgeOf(k, g.relations[k]) in DeleteByDoc(g, "d").edges
  {
    ExampleIntegral();
    assert {"d", "e"} - {"d"} == {"e"} && {"d"} - {"d"} == {};
    assert DeadIds(Example(), "d") == {};
  }

  // ------------------------------------------------------ what merging preserves

  /** r has the identity of the first entity of its history. */
  ghost predicate SameIdentity(r: Entity, h: Entity) {
    r.id == h.id && r.kb == h.kb && r.name == h.name && r.nameNorm == h.nameNorm && r.kind == h.kind
  }

  ghost predicate HighestConfidence(r: Entity, history: seq<Entity>) {
    && (forall i :: 0 <= i < |history| ==> history[i].confidence <= r.confidence)
    && (exists i :: 0 <= i < |history| && history[i].confidence == r.confidence)
  }

  ghost predicate LongestDescription(r: Entity, history: seq<Entity>) {
    exists i :: 0 <= i < |history| && history[i].description == r.description
      && (forall j :: 0 <= j < |history| ==> |history[j].description| <= |r.description|)
      && (forall j :: 0 <= j < i ==> |history[j].description| < |r.description|)
  }

  ghost predicate EarliestVector(r: Entity, history: seq<Entity>) {
    if r.vector == [] then forall i :: 0 <= i < |history| ==> history[i].vector == []
    else exists i :: 0 <= i < |history| && history[i].vector == r.vector
           && forall j :: 0 <= j < i ==> history[j].vector == []
  }

  ghost predicate AllSources(r: Entity, history: seq<Entity>) {
    forall d :: d in r.sources <==> exists i :: 0 <= i < |history| && d in history[i].sources
  }

  /**
    What a stored entity owes to everything upserted under its name, oldest
    first: identity from the first, the highest confidence, the earliest of the
    longest descriptions, the earliest non-empty vector, all the documents.
  */
  ghost predicate Distils(r: Entity, history: seq<Entity>) {
    && history != []
    && SameIdentity(r, history[0])
    && HighestConfidence(r, history)
    && LongestDescription(r, history)
    && EarliestVector(r, history)
    && AllSources(r, history)
  }

  /** The entities of a batch that carry the name k, in order. */
  function Named(es: seq<Entity>, k: string): seq<Entity> {
    if es == [] then []
    else (if es[0].nameNorm == k then [es[0]] else []) + Named(es[1..], k)
  }

  function Lookup(g: Graph, k: string): Option<Entity> {
    if k in g.entities then Some(g.entities[k]) else None
  }

  function Absorb(stored: Option<Entity>, es: seq<Entity>): Option<Entity>
    decreases es
  {
    if es == [] then stored
    else Absorb(Some(if stored == None then es[0] else MergeEntity(stored.value, es[0])), es[1..])
  }

  lemma ConfidenceMore(r: Entity, h: seq<Entity>, e: Entity)
    requires HighestConfidence(r, h)
    ensures HighestConfidence(MergeEntity(r, e), h + [e])
  {
    var i :| 0 <= i < |h| && h[i].confidence == r.confidence;
    var h' := h + [e];
    assert h'[i] == h[i] && h'[|h|] == e;
  }

  lemma DescriptionMore(r: Entity, h: seq<Entity>, e: Entity)
    requires LongestDescription(r, h)
    ensures LongestDescription(MergeEntity(r, e), h + [e])
  {
    var i :| 0 <= i < |h| && h[i].description == r.description
      && (forall j :: 0 <= j < |h| ==> |h[j].description| <= |r.description|)
      && (forall j :: 0 <= j < i ==> |h[j].description| < |r.description|);
    var h' := h + [e];
    assert h'[i] == h[i] && h'[|h|] == e;
  }

  lemma VectorMore(r: Entity, h: seq<Entity>, e: Entity)
    requires EarliestVector(r, h)
    ensures EarliestVector(MergeEntity(r, e), h + [e])
  {
    var h' := h + [e];
    assert h'[|h|] == e;
    if r.vector != [] {
      var i :| 0 <= i < |h| && h[i].vector == r.vector && forall j :: 0 <= j < i ==> h[j].vector == [];
      assert h'[i] == h[i];
    }
  }

  lemma SourcesMore(r: Entity, h: seq<Entity>, e: Entity)
    requires AllSources(r, h)
    ensures AllSources(MergeEntity(r, e), h + [e])
  {
    var m, h' := MergeEntity(r, e), h + [e];
    forall d ensures d in m.sources <==> exists i :: 0 <= i < |h'| && d in h'[i].sources {
      if d in r.sources {
        var i :| 0 <= i < |h| && d in h[i].sources;
        assert d in h'[i].sources;
      }
      if d in e.sources { assert d in h'[|h|].sources; }
    }
  }

  lemma DistilsMore(r: Entity, h: seq<Entity>, e: Entity, h': seq<Entity>)
    requires Distils(r, h) && h' == h + [e]
    ensures Distils(MergeEntity(r, e), h')
  {
    ConfidenceMore(r, h, e);
    DescriptionMore(r, h, e);
    VectorMore(r, h, e);
    SourcesMore(r, h, e);
  }

  lemma Regroup<T>(a: seq<T>, b: seq<T>)
    ensures b == [] ==> a + b == a
    ensures b != [] ==> a + b == (a + [b[0]]) + b[1..]
  {
  }

  lemma {:induction false} AbsorbDistils(r: Entity, history: seq<Entity>, es: seq<Entity>, all: seq<Entity>)
    requires Distils(r, history) && all == history + es
    ensures Absorb(Some(r), es).Some? && Distils(Absorb(Some(r), es).value, all)
    decreases es
  {
    Regroup(history, es);
    if es != [] {
      var history' := history + [es[0]];
      DistilsMore(r, history, es[0], history');
      AbsorbDistils(MergeEntity(r, es[0]), history', es[1..], all);
    }
  }

  lemma {:induction false} BatchAbsorbs(g: Graph, es: seq<Entity>, k: string)
    requires UpsertEntities(g, es).status == Done
    ensures Lookup(UpsertEntities(g, es).graph, k) == Absorb(Lookup(g, k), Named(es, k))
    decreases es
  {
    if es != [] {
      var g' := UpsertEntity(g, es[0]).graph;
      BatchAbsorbs(g', es[1..], k);
      if es[0].nameNorm == k {
        var rest := Named(es[1..], k);
        assert ([es[0]] + rest)[1..] == rest;
      } else {
        assert Named(es, k) == Named(es[1..], k);
      }
    }
  }

  /** What one name was given so far, the stored entity first. */
  function History(stored: Option<Entity>, es: seq<Entity>): seq<Entity> {
    (if stored.Some? then [stored.value] else []) + es
  }

  lemma FirstDistils(first: Entity)
    ensures Distils(first, [first])
  {
    assert SameIdentity(first, [first][0]) && HighestConfidence(first, [first]);
    assert LongestDescription(first, [first]) && EarliestVector(first, [first]) && AllSources(first, [first]);
  }

  lemma HistoryDistils(stored: Option<Entity>, es: seq<Entity>)
    ensures match Absorb(stored, es)
            case Some(r) => Distils(r, History(stored, es))
            case None => History(stored, es) == []
  {
    if stored.Some? {
      FirstDistils(stored.value);
      AbsorbDistils(stored.value, [stored.value], es, History(stored, es));
    } else if es != [] {
      FirstDistils(es[0]);
      assert History(stored, es) == [es[0]] + es[1..];
      AbsorbDistils(es[0], [es[0]], es[1..], History(stored, es));
    }
  }

  /** A completed batch stores, under every name, the distillate of all it was given for that name. */
  lemma BatchDistils(g: Graph, es: seq<Entity>, k: string)
    requires UpsertEntities(g, es).status == Done
    ensures
      var end := UpsertEntities(g, es).graph;
      var history := History(Lookup(g, k), Named(es, k));
      if k in end.entities then Distils(end.entities[k], history) else history == []
  {
    BatchAbsorbs(g, es, k);
    HistoryDistils(Lookup(g, k), Named(es, k));
  }

  // -------------------------------------------------------- what a batch leaves

  /** Whether es[i] finds its name stored, by the store or by an earlier entity of the batch. */
  ghost predicate KnownAt(g: Graph, es: seq<Entity>, i: nat)
    requires i < |es|
  {
    es[i].nameNorm in g.entities || exists j :: 0 <= j < i && es[j].nameNorm == es[i].nameNorm
  }

  /** Whether es[i] is the first of the batch to bring a name the store lacks. */
  ghost predicate FirstAt(g: Graph, es: seq<Entity>, i: nat)
    requires i < |es|
  {
    !KnownAt(g, es, i)
  }

  /** Whether a node named id exists when es[i] is processed. */
  ghost predicate NodeAt(g: Graph, es: seq<Entity>, i: nat, id: string)
    requires i <= |es|
  {
    id in g.nodes || exists j :: 0 <= j < i && FirstAt(g, es, j) && es[j].id == id
  }

  /** The guard that decides es[i]: its knowledge base is accepted, and a known name has its node. */
  ghost predicate Acceptable(g: Graph, es: seq<Entity>, i: nat)
    requires i < |es|
  {
    AcceptsKb(g, es[i].kb) && (KnownAt(g, es, i) ==> NodeAt(g, es, i, es[i].id))
  }

  lemma AcceptableStep(g: Graph, es: seq<Entity>, i: nat)
    requires 0 < i < |es|
    requires UpsertEntity(g, es[0]).status == Done
    ensures var g' := UpsertEntity(g, es[0]).graph;
            Acceptable(g, es, i) <==> Acceptable(g', es[1..], i - 1)
  {
  }

  /**
    A batch completes exactly when every entity is of an accepted knowledge base
    and every entity of a known name carries the id of a node that exists by then.
  */
  lemma {:induction false} BatchCompletesIff(g: Graph, es: seq<Entity>)
    ensures UpsertEntities(g, es).status == Done <==> forall i :: 0 <= i < |es| ==> Acceptable(g, es, i)
    decreases es
  {
    if es != [] {
      var o := UpsertEntity(g, es[0]);
      assert o.status == Done <==> Acceptable(g, es, 0);
      if o.status == Done {
        BatchCompletesIff(o.graph, es[1..]);
        forall i | 0 < i < |es|
          ensures Acceptable(g, es, i) <==> Acceptable(o.graph, es[1..], i - 1)
        {
          AcceptableStep(g, es, i);
        }
        if forall i :: 0 <= i < |es| ==> Acceptable(g, es, i) {
          forall i | 0 <= i < |es[1..]| ensures Acceptable(o.graph, es[1..], i) {
            assert Acceptable(g, es, i + 1);
          }
        }
        if forall i :: 0 <= i < |es[1..]| ==> Acceptable(o.graph, es[1..], i) {
          forall i | 0 <= i < |es| ensures Acceptable(g, es, i) {
            if i > 0 { assert Acceptable(o.graph, es[1..], i - 1); }
          }
        }
      }
    }
  }
}
