/**
  Walks in the undirected view of the graph, and the invariants of the
  breadth-first search that expands a set of seed entities.
*/
module Reachability {
  import opened Wrappers
  import opened GraphModel

  function Neighbours(g: Graph, u: string): set<string> {
    (set e | e in g.edges && e.head == u :: e.tail) + (set e | e in g.edges && e.tail == u :: e.head)
  }

  /** The nodes that a walk of exactly k edges reaches from a seed that is in the graph. */
  ghost function Layer(g: Graph, seeds: set<string>, k: nat): set<string> {
    if k == 0 then seeds * g.nodes
    else set u, v | u in Layer(g, seeds, k - 1) && v in Neighbours(g, u) :: v
  }

  /** k is the least positive length of a walk from an in-graph seed to v. */
  ghost predicate Nearest(g: Graph, seeds: set<string>, v: string, k: nat) {
    k >= 1 && v in Layer(g, seeds, k) && forall j :: 1 <= j < k ==> v !in Layer(g, seeds, j)
  }

  ghost predicate IsWalk(g: Graph, seeds: set<string>, p: seq<string>) {
    && p != []
    && p[0] in seeds * g.nodes
    && forall i :: 0 < i < |p| ==> p[i] in Neighbours(g, p[i - 1])
  }

  /** Layers are walks: the recursive sets are what paths written out node by node reach. */
  lemma {:induction false} LayerIsWalks(g: Graph, seeds: set<string>, v: string, k: nat)
    ensures v in Layer(g, seeds, k) <==> exists p :: IsWalk(g, seeds, p) && |p| == k + 1 && p[k] == v
  {
    if v in Layer(g, seeds, k) {
      var p := WalkTo(g, seeds, v, k);
    }
    forall p | IsWalk(g, seeds, p) && |p| == k + 1 && p[k] == v
      ensures v in Layer(g, seeds, k)
    {
      WalkEndsInLayer(g, seeds, p);
    }
  }

  lemma {:induction false} WalkTo(g: Graph, seeds: set<string>, v: string, k: nat) returns (p: seq<string>)
    requires v in Layer(g, seeds, k)
    ensures IsWalk(g, seeds, p) && |p| == k + 1 && p[k] == v
    decreases k
  {
    if k == 0 {
      p := [v];
    } else {
      var u :| u in Layer(g, seeds, k - 1) && v in Neighbours(g, u);
      var q := WalkTo(g, seeds, u, k - 1);
      p := q + [v];
    }
  }

  lemma {:induction false} WalkEndsInLayer(g: Graph, seeds: set<string>, p: seq<string>)
    requires IsWalk(g, seeds, p)
    ensures p[|p| - 1] in Layer(g, seeds, |p| - 1)
    decreases |p|
  {
    if |p| > 1 {
      var q := p[..|p| - 1];
      WalkEndsInLayer(g, seeds, q);
      assert q[|q| - 1] == p[|p| - 2];
    }
  }

  lemma LayerInGraph(g: Graph, seeds: set<string>, k: nat)
    requires Valid(g)
    ensures Layer(g, seeds, k) <= g.nodes
  {
  }

  // ------------------------------------------------ invariants of the search

  type Item = (string, nat)

  /** Depths never fall along the queue and span at most two levels; the seeds come first. */
  ghost predicate Ordered(queue: seq<Item>, seedsLeft: nat) {
    && seedsLeft <= |queue|
    && (forall i, j :: 0 <= i < j < |queue| ==> queue[i].1 <= queue[j].1)
    && (forall i :: 0 <= i < |queue| ==> queue[i].1 <= queue[0].1 + 1)
    && (forall i :: 0 <= i < |queue| ==> (queue[i].1 == 0 <==> i < seedsLeft))
  }

  ghost predicate Queued(g: Graph, seeds: set<string>, hops: int, queue: seq<Item>) {
    forall i :: 0 <= i < |queue| ==>
      if queue[i].1 == 0 then queue[i].0 in seeds
      else queue[i].1 <= hops && queue[i].0 in Layer(g, seeds, queue[i].1)
  }

  ghost predicate Visited(g: Graph, seeds: set<string>, hops: int, visited: map<string, nat>) {
    forall v :: v in visited ==> visited[v] <= hops && Nearest(g, seeds, v, visited[v])
  }

  /** No visited depth exceeds a depth still queued. */
  ghost predicate Behind(visited: map<string, nat>, queue: seq<Item>) {
    forall v, i :: v in visited && 0 <= i < |queue| ==> visited[v] <= queue[i].1
  }

  /** Everything nearer than a visited node is visited. */
  ghost predicate DistancePrefix(g: Graph, seeds: set<string>, visited: map<string, nat>) {
    forall v, k, m :: v in visited && 1 <= k < visited[v] && m in Layer(g, seeds, k) ==> m in visited
  }

  ghost predicate Covered(visited: map<string, nat>, queue: seq<Item>, v: string, depth: nat) {
    || (v in visited && visited[v] <= depth)
    || exists i :: 0 <= i < |queue| && queue[i].0 == v && 1 <= queue[i].1 <= depth
  }

  /** u has been popped at the given depth and its neighbours have been looked at. */
  ghost predicate Expanded(g: Graph, seeds: set<string>, visited: map<string, nat>, queue: seq<Item>,
                           u: string, depth: nat)
  {
    if depth == 0 then u in seeds * g.nodes && forall i :: 0 <= i < |queue| ==> queue[i] != (u, 0)
    else u in visited && visited[u] == depth
  }

  ghost predicate Closed(g: Graph, seeds: set<string>, hops: int, visited: map<string, nat>, queue: seq<Item>) {
    forall u, depth: nat, v ::
      Expanded(g, seeds, visited, queue, u, depth) && depth < hops && v in Neighbours(g, u)
      ==> Covered(visited, queue, v, depth + 1)
  }

  ghost predicate Searching(g: Graph, seeds: set<string>, hops: int, visited: map<string, nat>,
                            queue: seq<Item>, seedsLeft: nat)
  {
    && Ordered(queue, seedsLeft)
    && Queued(g, seeds, hops, queue)
    && Visited(g, seeds, hops, visited)
    && Behind(visited, queue)
    && Closed(g, seeds, hops, visited, queue)
  }

  /** Every layer nearer than the whole queue has been visited, no later than its own distance. */
  lemma {:induction false} LayersDone(g: Graph, seeds: set<string>, hops: int, visited: map<string, nat>,
                                      queue: seq<Item>, seedsLeft: nat, depth: nat, k: nat)
    requires Searching(g, seeds, hops, visited, queue, seedsLeft)
    requires forall i :: 0 <= i < |queue| ==> depth <= queue[i].1
    requires 1 <= k < depth && k <= hops
    ensures forall v :: v in Layer(g, seeds, k) ==> v in visited && visited[v] <= k
    decreases k
  {
    if k > 1 {
      LayersDone(g, seeds, hops, visited, queue, seedsLeft, depth, k - 1);
    }
    forall v | v in Layer(g, seeds, k) ensures v in visited && visited[v] <= k {
      var u :| u in Layer(g, seeds, k - 1) && v in Neighbours(g, u);
      var at := if k == 1 then 0 else visited[u];
      assert Expanded(g, seeds, visited, queue, u, at);
      assert Covered(visited, queue, v, at + 1);
    }
  }

  /** Popping an item whose node is already visited keeps the search invariant. */
  lemma SkipStep(g: Graph, seeds: set<string>, hops: int, visited: map<string, nat>,
                 queue: seq<Item>, seedsLeft: nat)
    requires Searching(g, seeds, hops, visited, queue, seedsLeft)
    requires queue != [] && queue[0].1 > 0 && queue[0].0 in visited
    ensures Searching(g, seeds, hops, visited, queue[1..], seedsLeft)
  {
    PopOrdered(queue, seedsLeft);
    var rest := queue[1..];
    forall u, depth: nat, v | Expanded(g, seeds, visited, rest, u, depth) && depth < hops && v in Neighbours(g, u)
      ensures Covered(visited, rest, v, depth + 1)
    {
      if depth == 0 {
        forall i | 0 <= i < |queue| ensures queue[i] != (u, 0) {
          if i > 0 { assert queue[i] == rest[i - 1]; }
        }
      }
      assert Expanded(g, seeds, visited, queue, u, depth);
      CoverRest(visited, queue, v, depth + 1);
    }
  }

  /** Popping a seed that is not in the graph keeps the search invariant. */
  lemma SkipMissingSeed(g: Graph, seeds: set<string>, hops: int, visited: map<string, nat>,
                        queue: seq<Item>, seedsLeft: nat)
    requires Searching(g, seeds, hops, visited, queue, seedsLeft)
    requires queue != [] && queue[0].1 == 0 && queue[0].0 !in g.nodes
    ensures Searching(g, seeds, hops, visited, queue[1..], seedsLeft - 1)
  {
    PopOrdered(queue, seedsLeft);
    var rest := queue[1..];
    forall u, depth: nat, v | Expanded(g, seeds, visited, rest, u, depth) && depth < hops && v in Neighbours(g, u)
      ensures Covered(visited, rest, v, depth + 1)
    {
      if depth == 0 {
        forall i | 0 <= i < |queue| ensures queue[i] != (u, 0) {
          if i > 0 { assert queue[i] == rest[i - 1]; }
        }
      }
      assert Expanded(g, seeds, visited, queue, u, depth);
      CoverStep(visited, queue, visited, rest, v, depth + 1);
    }
  }

  lemma PopOrdered(queue: seq<Item>, seedsLeft: nat)
    requires queue != [] && Ordered(queue, seedsLeft)
    ensures Ordered(queue[1..], if queue[0].1 == 0 then seedsLeft - 1 else seedsLeft)
  {
  }

  lemma CoverRest(visited: map<string, nat>, queue: seq<Item>, v: string, depth: nat)
    requires queue != [] && Covered(visited, queue, v, depth)
    requires queue[0].0 in visited && visited[queue[0].0] <= queue[0].1
    ensures Covered(visited, queue[1..], v, depth)
  {
  }

  /** What queueing the unvisited neighbours of a popped node at depth d appends. */
  ghost predicate Appended(nbrs: set<string>, visited: map<string, nat>, d: nat,
                           before: seq<Item>, after: seq<Item>)
  {
    && before <= after
    && (forall i :: |before| <= i < |after| ==>
          after[i].1 == d + 1 && after[i].0 in nbrs && after[i].0 !in visited)
    && (forall n :: n in nbrs && n !in visited ==> exists i :: |before| <= i < |after| && after[i] == (n, d + 1))
  }

  /**
    Popping node at depth d, marking it when d > 0, and queueing its unvisited
    neighbours when d < hops.
  */
  ghost predicate Expands(g: Graph, hops: int, visited: map<string, nat>, queue: seq<Item>,
                          visited': map<string, nat>, queue': seq<Item>)
  {
    && queue != []
    && var (node, d) := queue[0];
    && node in g.nodes
    && (d > 0 ==> node !in visited)
    && visited' == (if d > 0 then visited[node := d] else visited)
    && (if d < hops then Appended(Neighbours(g, node), visited', d, queue[1..], queue')
        else queue' == queue[1..])
  }

  lemma ExpandOrdered(g: Graph, seeds: set<string>, hops: int, visited: map<string, nat>,
                      queue: seq<Item>, seedsLeft: nat, visited': map<string, nat>, queue': seq<Item>)
    requires Ordered(queue, seedsLeft) && Behind(visited, queue)
    requires Expands(g, hops, visited, queue, visited', queue')
    ensures Ordered(queue', if queue[0].1 == 0 then seedsLeft - 1 else seedsLeft)
    ensures Behind(visited', queue')
  {
    PopOrdered(queue, seedsLeft);
    var rest := queue[1..];
    assert forall i :: 0 <= i < |rest| ==> rest[i] == queue[i + 1] && queue'[i] == rest[i];
  }

  lemma ExpandQueued(g: Graph, seeds: set<string>, hops: int, visited: map<string, nat>,
                     queue: seq<Item>, visited': map<string, nat>, queue': seq<Item>)
    requires Queued(g, seeds, hops, queue)
    requires Expands(g, hops, visited, queue, visited', queue')
    ensures Queued(g, seeds, hops, queue')
  {
  }

  lemma ExpandVisited(g: Graph, seeds: set<string>, hops: int, visited: map<string, nat>,
                      queue: seq<Item>, seedsLeft: nat, visited': map<string, nat>, queue': seq<Item>)
    requires Searching(g, seeds, hops, visited, queue, seedsLeft)
    requires Expands(g, hops, visited, queue, visited', queue')
    ensures Visited(g, seeds, hops, visited')
    ensures DistancePrefix(g, seeds, visited) ==> DistancePrefix(g, seeds, visited')
  {
    var (node, d) := queue[0];
    if d > 0 {
      forall k | 1 <= k < d ensures forall v :: v in Layer(g, seeds, k) ==> v in visited {
        LayersDone(g, seeds, hops, visited, queue, seedsLeft, d, k);
      }
      assert Nearest(g, seeds, node, d);
    }
  }

  lemma ExpandClosed(g: Graph, seeds: set<string>, hops: int, visited: map<string, nat>,
                     queue: seq<Item>, visited': map<string, nat>, queue': seq<Item>)
    requires Closed(g, seeds, hops, visited, queue) && Behind(visited, queue)
    requires Expands(g, hops, visited, queue, visited', queue')
    ensures Closed(g, seeds, hops, visited', queue')
  {
    var (node, d) := queue[0];
    var rest := queue[1..];
    assert rest <= queue';
    forall u, depth: nat, v | Expanded(g, seeds, visited', queue', u, depth) && depth < hops && v in Neighbours(g, u)
      ensures Covered(visited', queue', v, depth + 1)
    {
      if u == node && depth == d {
        if v !in visited' {
          assert exists i :: |rest| <= i < |queue'| && queue'[i] == (v, d + 1);
        }
      } else {
        if depth == 0 {
          forall i | 0 <= i < |queue| ensures queue[i] != (u, 0) {
            if i > 0 { assert queue[i] == rest[i - 1] == queue'[i - 1]; }
          }
        }
        assert Expanded(g, seeds, visited, queue, u, depth);
        CoverStep(visited, queue, visited', queue', v, depth + 1);
      }
    }
  }

  /** Expanding the head of the queue keeps the whole search invariant. */
  lemma ExpandStep(g: Graph, seeds: set<string>, hops: int, visited: map<string, nat>,
                   queue: seq<Item>, seedsLeft: nat, visited': map<string, nat>, queue': seq<Item>)
    requires Searching(g, seeds, hops, visited, queue, seedsLeft)
    requires Expands(g, hops, visited, queue, visited', queue')
    ensures Searching(g, seeds, hops, visited', queue', if queue[0].1 == 0 then seedsLeft - 1 else seedsLeft)
    ensures DistancePrefix(g, seeds, visited) ==> DistancePrefix(g, seeds, visited')
  {
    ExpandOrdered(g, seeds, hops, visited, queue, seedsLeft, visited', queue');
    ExpandQueued(g, seeds, hops, visited, queue, visited', queue');
    ExpandVisited(g, seeds, hops, visited, queue, seedsLeft, visited', queue');
    ExpandClosed(g, seeds, hops, visited, queue, visited', queue');
  }

  lemma CoverStep(visited: map<string, nat>, queue: seq<Item>,
                  visited': map<string, nat>, queue': seq<Item>, v: string, depth: nat)
    requires queue != [] && Covered(visited, queue, v, depth)
    requires queue[1..] <= queue'
    requires forall n :: n in visited ==> n in visited' && visited'[n] == visited[n]
    requires queue[0].1 > 0 ==> queue[0].0 in visited' && visited'[queue[0].0] == queue[0].1
    ensures Covered(visited', queue', v, depth)
  {
  }

  // ----------------------------------------------------- start and end of it

  function SeedItems(seeds: seq<string>): seq<Item> {
    seq(|seeds|, i requires 0 <= i < |seeds| => (seeds[i], 0))
  }

  lemma SearchStart(g: Graph, seeds: seq<string>, hops: int)
    ensures Searching(g, SetOf(seeds), hops, map[], SeedItems(seeds), |seeds|)
    ensures DistancePrefix(g, SetOf(seeds), map[])
  {
    var s, queue := SetOf(seeds), SeedItems(seeds);
    forall u, depth: nat ensures !Expanded(g, s, map[], queue, u, depth) {
      if u in s {
        var i :| 0 <= i < |seeds| && seeds[i] == u;
        assert queue[i] == (u, 0);
      }
    }
  }

  /** Every node that a walk of 1 to hops edges reaches has been visited. */
  ghost predicate Complete(g: Graph, seeds: set<string>, hops: int, visited: map<string, nat>) {
    forall v, k :: 1 <= k <= hops && v in Layer(g, seeds, k) ==> v in visited
  }

  lemma SearchDone(g: Graph, seeds: set<string>, hops: int, visited: map<string, nat>)
    requires Searching(g, seeds, hops, visited, [], 0)
    ensures Complete(g, seeds, hops, visited)
  {
    forall k | 1 <= k <= hops ensures forall v :: v in Layer(g, seeds, k) ==> v in visited {
      LayersDone(g, seeds, hops, visited, [], 0, k + 1, k);
    }
  }

  /**
    The search's promise: recorded depths are least walk lengths of at most hops
    edges, no node nearer than a visited one is missed, at most limit nodes are
    visited, and none within reach is missed when the limit is not hit.
  */
  ghost predicate Explored(g: Graph, seeds: set<string>, hops: int, limit: int, visited: map<string, nat>) {
    && Visited(g, seeds, hops, visited)
    && DistancePrefix(g, seeds, visited)
    && |visited| <= (if limit < 0 then 0 else limit)
    && (|visited| < limit ==> Complete(g, seeds, hops, visited))
  }

  /** What the promise says, spelled out: without the cutoff, exactly the nodes within reach. */
  lemma ExploredIsReachable(g: Graph, seeds: set<string>, hops: int, limit: int, visited: map<string, nat>, v: string)
    requires Explored(g, seeds, hops, limit, visited) && |visited| < limit
    ensures v in visited <==>
      exists k, p :: 1 <= k <= hops && IsWalk(g, seeds, p) && |p| == k + 1 && p[k] == v
  {
    if v in visited {
      LayerIsWalks(g, seeds, v, visited[v]);
    }
    forall k, p | 1 <= k <= hops && IsWalk(g, seeds, p) && |p| == k + 1 && p[k] == v
      ensures v in visited
    {
      LayerIsWalks(g, seeds, v, k);
    }
  }

  /** The recorded depth is the length of a shortest non-empty walk. */
  lemma ExploredDepthIsLeast(g: Graph, seeds: set<string>, hops: int, limit: int, visited: map<string, nat>, v: string)
    requires Explored(g, seeds, hops, limit, visited) && v in visited
    ensures exists p :: IsWalk(g, seeds, p) && |p| == visited[v] + 1 && p[visited[v]] == v
    ensures forall p :: IsWalk(g, seeds, p) && |p| >= 2 && p[|p| - 1] == v ==> visited[v] <= |p| - 1
  {
    LayerIsWalks(g, seeds, v, visited[v]);
    forall p | IsWalk(g, seeds, p) && |p| >= 2 && p[|p| - 1] == v
      ensures visited[v] <= |p| - 1
    {
      WalkEndsInLayer(g, seeds, p);
    }
  }

  /** Marking a new node makes the visited map one larger. */
  lemma SizeStep(was: map<string, nat>, node: string, d: nat)
    requires node !in was
    ensures |was[node := d]| == |was| + 1
  {
  }
}
