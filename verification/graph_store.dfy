/** The in-memory graph store: three containers updated in place. */
module GraphStore {
  import opened Wrappers
  import opened GraphModel
  import opened Reachability

  /** The entity table when all but the names in todo have been looked at. */
  ghost function Dropped(was: map<string, Entity>, todo: set<string>, doc: string): map<string, Entity> {
    map k | k in was && (k in todo || !LastReference(was[k].sources, doc)) ::
      if k in todo then was[k] else was[k].(sources := was[k].sources - {doc})
  }

  /** The ids found dead by then. */
  ghost function DeadSoFar(was: map<string, Entity>, todo: set<string>, doc: string): set<string> {
    set k | k in was && k !in todo && LastReference(was[k].sources, doc) :: was[k].id
  }

  lemma DropStart(was: map<string, Entity>, doc: string)
    ensures Dropped(was, was.Keys, doc) == was && DeadSoFar(was, was.Keys, doc) == {}
  {
  }

  lemma DropEnd(was: map<string, Entity>, doc: string)
    ensures forall g: Graph :: g.entities == was ==>
      Dropped(was, {}, doc) == DeleteByDoc(g, doc).entities && DeadSoFar(was, {}, doc) == DeadIds(g, doc)
  {
    forall g: Graph | g.entities == was
      ensures Dropped(was, {}, doc) == DeleteByDoc(g, doc).entities && DeadSoFar(was, {}, doc) == DeadIds(g, doc)
    {
      assert Dropped(was, {}, doc) == DeleteByDoc(g, doc).entities;
    }
  }

  lemma DropStep(was: map<string, Entity>, todo: set<string>, doc: string, k: string)
    requires k in todo && todo <= was.Keys
    ensures k in Dropped(was, todo, doc) && Dropped(was, todo, doc)[k] == was[k]
    ensures var now := Dropped(was, todo, doc);
      Dropped(was, todo - {k}, doc)
      == if LastReference(was[k].sources, doc) then now - {k} else now[k := was[k].(sources := was[k].sources - {doc})]
    ensures DeadSoFar(was, todo - {k}, doc)
      == DeadSoFar(was, todo, doc) + if LastReference(was[k].sources, doc) then {was[k].id} else {}
  {
  }

  class NetworkXGraphStore {
    const kbId: string
    var entities: map<string, Entity>
    var relations: map<RelationKey, Relation>
    var nodes: set<string>
    var edges: set<Edge>

    function State(): Graph
      reads this
    {
      Graph(kbId, entities, relations, nodes, edges)
    }

    constructor (kbId: string)
      ensures State() == Graph(kbId, map[], map[], {}, {}) && Integral(State())
    {
      this.kbId := kbId;
      entities, relations, nodes, edges := map[], map[], {}, {};
    }

    method UpsertEntities(batch: seq<Entity>) returns (status: Status)
      requires Valid(State())
      modifies this
      ensures Outcome(State(), status) == GraphModel.UpsertEntities(old(State()), batch)
      ensures Valid(State())
    {
      UpsertEntitiesValid(State(), batch);
      for i := 0 to |batch|
        invariant GraphModel.UpsertEntities(State(), batch[i..]) == GraphModel.UpsertEntities(old(State()), batch)
      {
        var entity := batch[i];
        assert batch[i..][0] == entity && batch[i..][1..] == batch[i + 1..];
        if entity.kb != "" && entity.kb != kbId {
          return ForeignKb;
        }
        var key := entity.nameNorm;
        if key !in entities {
          entities := entities[key := entity];
          nodes := nodes + {entity.id};
        } else {
          var merged := entities[key];
          merged := merged.(sources := merged.sources + entity.sources);
          merged := merged.(confidence := Max(merged.confidence, entity.confidence));
          if |entity.description| > |merged.description| {
            merged := merged.(description := entity.description);
          }
          if merged.vector == [] && entity.vector != [] {
            merged := merged.(vector := entity.vector);
          }
          entities := entities[key := merged];
          if entity.id !in nodes {
            return MissingNode;
          }
        }
      }
      status := Done;
    }

    method UpsertRelations(batch: seq<Relation>) returns (status: Status)
      requires Valid(State())
      modifies this
      ensures Outcome(State(), status) == GraphModel.UpsertRelations(old(State()), batch)
      ensures Valid(State())
    {
      UpsertRelationsValid(State(), batch);
      for i := 0 to |batch|
        invariant GraphModel.UpsertRelations(State(), batch[i..]) == GraphModel.UpsertRelations(old(State()), batch)
      {
        var relation := batch[i];
        assert batch[i..][0] == relation && batch[i..][1..] == batch[i + 1..];
        if relation.kb != "" && relation.kb != kbId {
          return ForeignKb;
        }
        var key := RelationKey(relation.head, relation.tail, relation.kind);
        if key !in relations {
          relations := relations[key := relation];
          nodes := nodes + {relation.head, relation.tail};
          edges := edges + {Edge(relation.head, relation.tail, relation.id)};
        } else {
          var merged := relations[key];
          merged := merged.(sources := merged.sources + relation.sources);
          merged := merged.(weight := Max(merged.weight, relation.weight));
          if |relation.description| > |merged.description| {
            merged := merged.(description := relation.description);
          }
          relations := relations[key := merged];
        }
      }
      status := Done;
    }

    method DeleteByDoc(doc: string)
      requires Valid(State())
      modifies this
      ensures State() == GraphModel.DeleteByDoc(old(State()), doc)
      ensures Valid(State())
    {
      ghost var was := State();
      ghost var target := GraphModel.DeleteByDoc(was, doc);
      var removed := DropEntities(doc);
      var todo := removed;
      while todo != {}
        invariant todo <= removed
        invariant kbId == was.kb && entities == target.entities && relations == was.relations
        invariant nodes == was.nodes - (removed - todo)
        invariant edges == set e | e in was.edges && e.head !in removed - todo && e.tail !in removed - todo
        decreases todo
      {
        var node :| node in todo;
        if node in nodes {
          nodes := nodes - {node};
          edges := set e | e in edges && e.head != node && e.tail != node;
        }
        todo := todo - {node};
        assert removed - todo == removed - (todo + {node}) + {node};
      }
      DropRelations(doc, removed);
      assert removed - {} == removed;
    }

    /** First loop of a deletion: drop the reference everywhere, collect the ids that lost their last one. */
    method DropEntities(doc: string) returns (removed: set<string>)
      requires Valid(State())
      modifies this`entities
      ensures entities == GraphModel.DeleteByDoc(old(State()), doc).entities
      ensures removed == DeadIds(old(State()), doc)
    {
      ghost var was := entities;
      removed := {};
      var todo := entities.Keys;
      DropStart(was, doc);
      while todo != {}
        invariant todo <= was.Keys
        invariant entities == Dropped(was, todo, doc) && removed == DeadSoFar(was, todo, doc)
        decreases todo
      {
        var k :| k in todo;
        var entity := entities[k];
        DropStep(was, todo, doc, k);
        if doc in entity.sources {
          entity := entity.(sources := entity.sources - {doc});
          entities := entities[k := entity];
          if entity.sources == {} {
            removed := removed + {entity.id};
            entities := entities - {entity.nameNorm};
          }
        } else {
          assert entity.sources - {doc} == entity.sources;
        }
        todo := todo - {k};
      }
      DropEnd(was, doc);
    }

    /** Last loop of a deletion: cascade over dead endpoints, drop the reference from the other relations. */
    method DropRelations(doc: string, removed: set<string>)
      requires Valid(State())
      modifies this`relations
      ensures relations == map k | k in old(relations) && k.head !in removed && k.tail !in removed
                             && !LastReference(old(relations)[k].sources, doc) ::
                             old(relations)[k].(sources := old(relations)[k].sources - {doc})
    {
      ghost var was := relations;
      var todo := relations.Keys;
      while todo != {}
        invariant todo <= was.Keys && todo <= relations.Keys <= was.Keys
        invariant forall k :: k in todo ==> relations[k] == was[k]
        invariant forall k :: k in was && k !in todo ==>
          if k.head in removed || k.tail in removed || LastReference(was[k].sources, doc) then k !in relations
          else k in relations && relations[k] == was[k].(sources := was[k].sources - {doc})
        decreases todo
      {
        var k :| k in todo;
        var relation := relations[k];
        if relation.head in removed || relation.tail in removed {
          relations := relations - {RelationKey(relation.head, relation.tail, relation.kind)};
        } else if doc in relation.sources {
          relation := relation.(sources := relation.sources - {doc});
          relations := relations[k := relation];
          if relation.sources == {} {
            relations := relations - {RelationKey(relation.head, relation.tail, relation.kind)};
          }
        } else {
          assert relation.sources - {doc} == relation.sources;
        }
        todo := todo - {k};
      }
    }

    /** The bounded breadth-first search behind Neighbors: the visited nodes and their depths. */
    method Explore(seeds: seq<string>, hops: int, limit: int) returns (visited: map<string, nat>)
      requires Valid(State())
      ensures Explored(State(), SetOf(seeds), hops, limit, visited)
    {
      ghost var g, s := State(), SetOf(seeds);
      var queue := SeedItems(seeds);
      ghost var seedsLeft: nat := |seeds|;
      visited := map[];
      SearchStart(g, seeds, hops);
      while queue != []
        invariant Searching(g, s, hops, visited, queue, seedsLeft)
        invariant DistancePrefix(g, s, visited)
        invariant if limit <= 0 then visited == map[] && seedsLeft == |queue| else |visited| < limit
        decreases seedsLeft, g.nodes - visited.Keys, |queue|
      {
        var (node, depth) := queue[0];
        ghost var was, whole, left := visited, queue, seedsLeft;
        queue := queue[1..];
        if depth > 0 && node in visited {
          SkipStep(g, s, hops, was, whole, left);
          continue;
        }
        if depth > 0 {
          LayerInGraph(g, s, depth);
          SizeStep(visited, node, depth);
          visited := visited[node := depth];
          assert node in g.nodes - was.Keys;
        } else {
          seedsLeft := seedsLeft - 1;
        }
        if node !in nodes {
          SkipMissingSeed(g, s, hops, was, whole, left);
          continue;
        }
        if depth < hops {
          queue := QueueNeighbours(Neighbours(State(), node), visited, depth, queue);
        }
        ExpandStep(g, s, hops, was, whole, left, visited, queue);
        if |visited| >= limit {
          return;
        }
      }
      SearchDone(g, s, hops, visited);
    }

    /** Appends the unvisited neighbours, in any order. */
    static method QueueNeighbours(nbrs: set<string>, visited: map<string, nat>, depth: nat, before: seq<Item>)
      returns (after: seq<Item>)
      ensures Appended(nbrs, visited, depth, before, after)
    {
      after := before;
      var todo := nbrs;
      while todo != {}
        invariant todo <= nbrs
        invariant Appended(nbrs - todo, visited, depth, before, after)
        decreases todo
      {
        var n :| n in todo;
        ghost var was := after;
        if n !in visited {
          after := after + [(n, depth + 1)];
        }
        todo := todo - {n};
        forall m | m in nbrs - todo && m !in visited
          ensures exists i :: |before| <= i < |after| && after[i] == (m, depth + 1)
        {
          if m == n {
            assert after[|was|] == (m, depth + 1);
          } else {
            var i :| |before| <= i < |was| && was[i] == (m, depth + 1);
            assert after[i] == (m, depth + 1);
          }
        }
      }
      assert nbrs - {} == nbrs;
    }

    /** The stored entities filed by id. */
    method ById() returns (byId: map<string, Entity>)
      ensures byId.Keys == LiveIds(State())
      ensures forall id :: id in byId ==> byId[id] in entities.Values && byId[id].id == id
    {
      byId := map[];
      var todo := entities.Keys;
      while todo != {}
        invariant todo <= entities.Keys
        invariant byId.Keys == set k | k in entities && k !in todo :: entities[k].id
        invariant forall id :: id in byId ==> byId[id] in entities.Values && byId[id].id == id
        decreases todo
      {
        var k :| k in todo;
        byId := byId[entities[k].id := entities[k]];
        todo := todo - {k};
      }
    }

    /**
      The subgraph around the seeds: the stored entities among the seeds and the
      visited nodes, and the relations with both ends among them.
    */
    method Neighbors(seeds: seq<string>, hops: int, limit: int)
      returns (visited: map<string, nat>, found: map<string, Entity>, joined: map<RelationKey, Relation>)
      requires Valid(State())
      ensures Explored(State(), SetOf(seeds), hops, limit, visited)
      ensures var ids := SetOf(seeds) + visited.Keys;
        && found.Keys == LiveIds(State()) * ids
        && (forall id :: id in found ==> found[id] in entities.Values && found[id].id == id)
        && joined == map k | k in relations && k.head in ids && k.tail in ids :: relations[k]
    {
      visited := Explore(seeds, hops, limit);
      var ids := SetOf(seeds) + visited.Keys;
      var byId := ById();
      found := map id | id in ids && id in byId :: byId[id];
      joined := map k | k in relations && k.head in ids && k.tail in ids :: relations[k];
    }
  }
}
