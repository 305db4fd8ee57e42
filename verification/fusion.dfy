/** Fusing the hit lists of several retrieval routes into one scored list. */
module Fusion {
  import opened Wrappers

  datatype Chunk = Chunk(id: string, text: string)

  datatype Scored = Scored(chunk: Chunk, score: real, source: string)

  datatype Route = Route(name: string, hits: seq<Scored>)

  datatype Hit = Hit(chunk: Chunk, score: real, sources: set<string>)

  /** A chunk seen on a route, and the amount this adds to its raw score. */
  datatype Share = Share(chunk: Chunk, source: string, amount: real)

  function WeightOf(weights: map<string, real>, route: string): real {
    if route in weights then weights[route] else 0.0
  }

  // --------------------------------------------- what each strategy makes of a route

  /** No rank from 1 to n meets the zero of k + rank. */
  predicate Ranks(n: nat, k: int) { k >= 0 || n < -k }

  function Quotient(a: real, b: real): real
    requires b != 0.0
  {
    a / b
  }

  function Reciprocal(w: real, k: int, rank: int): real
    requires k + rank != 0
  {
    Quotient(w, (k + rank) as real)
  }

  /** Reciprocal rank: the hit at position i has rank i + 1. */
  function RrfShares(hits: seq<Scored>, w: real, k: int): seq<Share>
    requires Ranks(|hits|, k)
  {
    seq(|hits|, i requires 0 <= i < |hits| => Share(hits[i].chunk, hits[i].source, Reciprocal(w, k, i + 1)))
  }

  function Scores(hits: seq<Scored>): seq<real> {
    seq(|hits|, i requires 0 <= i < |hits| => hits[i].score)
  }

  function MinOf(xs: seq<real>): (m: real)
    requires xs != []
    ensures m in xs && forall i :: 0 <= i < |xs| ==> m <= xs[i]
  {
    if |xs| == 1 then xs[0]
    else
      var rest := MinOf(xs[1..]);
      assert forall i :: 0 <= i < |xs[1..]| ==> xs[i + 1] == xs[1..][i];
      assert xs == [xs[0]] + xs[1..];
      if xs[0] <= rest then xs[0] else rest
  }

  function MaxOf(xs: seq<real>): (m: real)
    requires xs != []
    ensures m in xs && forall i :: 0 <= i < |xs| ==> xs[i] <= m
  {
    if |xs| == 1 then xs[0]
    else
      var rest := MaxOf(xs[1..]);
      assert forall i :: 0 <= i < |xs[1..]| ==> xs[i + 1] == xs[1..][i];
      assert xs == [xs[0]] + xs[1..];
      if xs[0] >= rest then xs[0] else rest
  }

  /** The spread of the values, or one when they are all alike. */
  function Spread(xs: seq<real>): (r: real)
    requires xs != []
    ensures r > 0.0
  {
    if MaxOf(xs) - MinOf(xs) == 0.0 then 1.0 else MaxOf(xs) - MinOf(xs)
  }

  function Scaled(xs: seq<real>, x: real): real
    requires xs != []
  {
    Quotient(x - MinOf(xs), Spread(xs))
  }

  /** Weighted rank: scores are scaled to [0, 1] within the route. */
  function WeightedShares(hits: seq<Scored>, w: real): seq<Share> {
    seq(|hits|, i requires 0 <= i < |hits| =>
      Share(hits[i].chunk, hits[i].source, Weighed(w, Scores(hits), hits[i].score)))
  }

  function Weighed(w: real, scores: seq<real>, score: real): real
    requires scores != []
  {
    w * Scaled(scores, score)
  }

  // -------------------------------------------------------------- adding shares up

  function Raw(shares: seq<Share>, id: string): real {
    if shares == [] then 0.0
    else Raw(shares[..|shares| - 1], id)
         + if shares[|shares| - 1].chunk.id == id then shares[|shares| - 1].amount else 0.0
  }

  ghost predicate Seen(shares: seq<Share>, id: string) {
    exists i :: 0 <= i < |shares| && shares[i].chunk.id == id
  }

  /** Distinct chunk ids in the order in which they first occur. */
  function FirstSeen(shares: seq<Share>): seq<string> {
    if shares == [] then []
    else
      var before, id := FirstSeen(shares[..|shares| - 1]), shares[|shares| - 1].chunk.id;
      if id in before then before else before + [id]
  }

  ghost predicate SourcesAre(shares: seq<Share>, id: string, sources: set<string>) {
    forall s :: s in sources <==> exists i :: 0 <= i < |shares| && shares[i].chunk.id == id && shares[i].source == s
  }

  ghost predicate LastChunk(shares: seq<Share>, id: string, c: Chunk) {
    exists i :: 0 <= i < |shares| && shares[i].chunk == c && c.id == id
      && forall j :: i < j < |shares| ==> shares[j].chunk.id != id
  }

  lemma {:induction false} FirstSeenSpec(shares: seq<Share>)
    ensures forall i, j :: 0 <= i < j < |FirstSeen(shares)| ==> FirstSeen(shares)[i] != FirstSeen(shares)[j]
    ensures forall id :: id in FirstSeen(shares) <==> Seen(shares, id)
  {
    if shares != [] {
      var init, last := shares[..|shares| - 1], shares[|shares| - 1];
      FirstSeenSpec(init);
      forall id ensures id in FirstSeen(shares) <==> Seen(shares, id) {
        if Seen(shares, id) && id != last.chunk.id {
          var i :| 0 <= i < |shares| && shares[i].chunk.id == id;
          assert init[i].chunk.id == id;
        }
        if Seen(init, id) {
          var i :| 0 <= i < |init| && init[i].chunk.id == id;
          assert shares[i].chunk.id == id;
        }
      }
    }
  }

  lemma {:induction false} RawSplit(a: seq<Share>, b: seq<Share>, id: string)
    ensures Raw(a + b, id) == Raw(a, id) + Raw(b, id)
  {
    if b == [] {
      assert a + b == a;
    } else {
      var init := b[..|b| - 1];
      assert (a + b)[..|a + b| - 1] == a + init;
      RawSplit(a, init, id);
    }
  }

  lemma RawMore(shares: seq<Share>, s: Share, id: string)
    ensures Raw(shares + [s], id) == Raw(shares, id) + if s.chunk.id == id then s.amount else 0.0
  {
  }

  /** The fusion loops' dictionaries; order is the insertion order of the scores. */
  datatype Tally = Tally(
    order: seq<string>, scores: map<string, real>, sources: map<string, set<string>>, chunks: map<string, Chunk>)

  const BLANK := Tally([], map[], map[], map[])

  function AddTo(t: Tally, s: Share): Tally {
    var id := s.chunk.id;
    Tally(if id in t.scores then t.order else t.order + [id],
          t.scores[id := (if id in t.scores then t.scores[id] else 0.0) + s.amount],
          t.sources[id := (if id in t.sources then t.sources[id] else {}) + {s.source}],
          t.chunks[id := s.chunk])
  }

  /** The dictionaries hold what the shares add up to. */
  ghost predicate Holds(t: Tally, shares: seq<Share>) {
    && t.order == FirstSeen(shares)
    && t.scores.Keys == t.sources.Keys == t.chunks.Keys == SetOf(t.order)
    && forall id :: id in t.scores ==> HoldsFor(t, shares, id)
  }

  ghost predicate HoldsFor(t: Tally, shares: seq<Share>, id: string)
    requires id in t.scores && id in t.sources && id in t.chunks
  {
    t.scores[id] == Raw(shares, id) && SourcesAre(shares, id, t.sources[id]) && LastChunk(shares, id, t.chunks[id])
  }

  lemma AddHoldsFor(t: Tally, shares: seq<Share>, s: Share, x: string)
    requires Holds(t, shares) && x in AddTo(t, s).scores
    ensures x in AddTo(t, s).sources && x in AddTo(t, s).chunks && HoldsFor(AddTo(t, s), shares + [s], x)
  {
    RawMore(shares, s, x);
    if x in t.scores {
      assert HoldsFor(t, shares, x);
      SourcesMore(shares, s, x, t.sources[x]);
      if x != s.chunk.id { LastChunkMore(shares, s, x, t.chunks[x]); }
    } else {
      FirstSeenSpec(shares);
      NotSeenIsZero(shares, x);
      SourcesMore(shares, s, x, {});
    }
    if x == s.chunk.id {
      assert (shares + [s])[|shares|] == s;
    }
  }

  lemma AddKeys(t: Tally, shares: seq<Share>, s: Share)
    requires t.order == FirstSeen(shares) && t.scores.Keys == t.sources.Keys == t.chunks.Keys == SetOf(t.order)
    ensures var t' := AddTo(t, s);
      t'.order == FirstSeen(shares + [s]) && t'.scores.Keys == t'.sources.Keys == t'.chunks.Keys == SetOf(t'.order)
  {
  }

  /** What the loops have in their dictionaries after more shares. */
  function AddAll(t: Tally, shares: seq<Share>): Tally
    decreases shares
  {
    if shares == [] then t else AddAll(AddTo(t, shares[0]), shares[1..])
  }

  function TallyOf(shares: seq<Share>): Tally { AddAll(BLANK, shares) }

  lemma {:induction false} AddAllSplit(t: Tally, a: seq<Share>, b: seq<Share>)
    ensures AddAll(t, a + b) == AddAll(AddAll(t, a), b)
    decreases a
  {
    if a == [] {
      assert a + b == b;
    } else {
      assert (a + b)[0] == a[0] && (a + b)[1..] == a[1..] + b;
      AddAllSplit(AddTo(t, a[0]), a[1..], b);
    }
  }

  lemma {:induction false} TallyHolds(shares: seq<Share>)
    ensures Holds(TallyOf(shares), shares)
    decreases |shares|
  {
    if shares != [] {
      var init, last := shares[..|shares| - 1], shares[|shares| - 1];
      TallyHolds(init);
      assert shares == init + [last];
      AddAllSplit(BLANK, init, [last]);
      assert AddAll(TallyOf(init), [last]) == AddTo(TallyOf(init), last);
      AddKeys(TallyOf(init), init, last);
      forall x | x in TallyOf(shares).scores { AddHoldsFor(TallyOf(init), init, last, x); }
    }
  }

  function Values(t: Tally): seq<real>
    requires t.scores.Keys == SetOf(t.order)
  {
    seq(|t.order|, i requires 0 <= i < |t.order| => assert t.order[i] in SetOf(t.order); t.scores[t.order[i]])
  }

  /** The closing comprehension: min-max scaled scores in insertion order. */
  function RankedOf(t: Tally): seq<Hit>
    requires t.scores.Keys == t.sources.Keys == t.chunks.Keys == SetOf(t.order)
  {
    seq(|t.order|, i requires 0 <= i < |t.order| =>
      var id := t.order[i];
      assert id in SetOf(t.order);
      Hit(t.chunks[id], Scaled(Values(t), t.scores[id]), t.sources[id]))
  }

  lemma RankedIsFused(shares: seq<Share>)
    ensures Holds(TallyOf(shares), shares)
    ensures Fused(shares, RankedOf(TallyOf(shares)))
  {
    TallyHolds(shares);
    var t := TallyOf(shares);
    var hits := RankedOf(t);
    forall i | 0 <= i < |t.order| ensures HoldsFor(t, shares, t.order[i]) {
      assert t.order[i] in SetOf(t.order);
    }
    if t.order != [] {
      assert Values(t) == RawsOf(shares);
      forall i | 0 <= i < |hits|
        ensures hits[i].chunk.id == FirstSeen(shares)[i] && HitIs(shares, RawsOf(shares), hits[i])
      {
        assert HoldsFor(t, shares, t.order[i]);
      }
    }
  }

  class Board {
    var order: seq<string>
    var scores: map<string, real>
    var sources: map<string, set<string>>
    var chunks: map<string, Chunk>

    function State(): Tally
      reads this
    {
      Tally(order, scores, sources, chunks)
    }

    constructor ()
      ensures State() == BLANK
    {
      order, scores, sources, chunks := [], map[], map[], map[];
    }

    method Add(s: Share)
      modifies this
      ensures State() == AddTo(old(State()), s)
    {
      var id := s.chunk.id;
      if id !in scores {
        order := order + [id];
      }
      scores := scores[id := (if id in scores then scores[id] else 0.0) + s.amount];
      if id !in sources {
        sources := sources[id := {}];
      }
      sources := sources[id := sources[id] + {s.source}];
      chunks := chunks[id := s.chunk];
    }

    method Ranked() returns (hits: seq<Hit>)
      requires scores.Keys == sources.Keys == chunks.Keys == SetOf(order)
      ensures hits == RankedOf(State())
    {
      var vals := ScoreList();
      hits := [];
      ghost var target := RankedOf(State());
      for i := 0 to |order|
        invariant hits == target[..i]
      {
        var id := order[i];
        assert id in SetOf(order);
        hits := hits + [Hit(chunks[id], Scaled(vals, scores[id]), sources[id])];
      }
    }

    method ScoreList() returns (vals: seq<real>)
      requires scores.Keys == SetOf(order)
      ensures vals == Values(State())
    {
      vals := [];
      for i := 0 to |order|
        invariant vals == Values(State())[..i]
      {
        assert order[i] in SetOf(order);
        vals := vals + [scores[order[i]]];
      }
    }
  }

  function RawsOf(shares: seq<Share>): seq<real> {
    seq(|FirstSeen(shares)|, i requires 0 <= i < |FirstSeen(shares)| => Raw(shares, FirstSeen(shares)[i]))
  }

  ghost predicate HitIs(shares: seq<Share>, raws: seq<real>, h: Hit)
    requires raws != []
  {
    && h.score == Scaled(raws, Raw(shares, h.chunk.id))
    && SourcesAre(shares, h.chunk.id, h.sources)
    && LastChunk(shares, h.chunk.id, h.chunk)
  }

  /** One hit per chunk id in first-seen order, with its latest chunk, exact sources and scaled raw score. */
  ghost predicate Fused(shares: seq<Share>, hits: seq<Hit>) {
    && |hits| == |FirstSeen(shares)|
    && forall i :: 0 <= i < |hits| ==>
         hits[i].chunk.id == FirstSeen(shares)[i] && HitIs(shares, RawsOf(shares), hits[i])
  }

  lemma {:induction false} NotSeenIsZero(shares: seq<Share>, id: string)
    requires !Seen(shares, id)
    ensures Raw(shares, id) == 0.0
    ensures SourcesAre(shares, id, {})
  {
    if shares != [] {
      var init := shares[..|shares| - 1];
      forall i | 0 <= i < |init| ensures init[i].chunk.id != id {
        assert shares[i].chunk.id != id;
      }
      NotSeenIsZero(init, id);
    }
  }

  lemma SourcesMore(shares: seq<Share>, s: Share, id: string, sources: set<string>)
    requires SourcesAre(shares, id, sources)
    ensures SourcesAre(shares + [s], id, if s.chunk.id == id then sources + {s.source} else sources)
  {
    var all := shares + [s];
    assert forall i :: 0 <= i < |shares| ==> all[i] == shares[i];
    assert all[|shares|] == s;
    forall x | x in sources
      ensures exists i :: 0 <= i < |all| && all[i].chunk.id == id && all[i].source == x
    {
      var i :| 0 <= i < |shares| && shares[i].chunk.id == id && shares[i].source == x;
      assert all[i].chunk.id == id;
    }
  }

  lemma LastChunkMore(shares: seq<Share>, s: Share, id: string, c: Chunk)
    requires LastChunk(shares, id, c) && s.chunk.id != id
    ensures LastChunk(shares + [s], id, c)
  {
    var i :| 0 <= i < |shares| && shares[i].chunk == c && c.id == id
      && forall j :: i < j < |shares| ==> shares[j].chunk.id != id;
    assert (shares + [s])[i] == shares[i];
  }

  // -------------------------------------------------------------- the two strategies

  /** No rank hits the zero of k + rank. */
  predicate Divisible(routes: seq<Route>, k: int) {
    forall r :: 0 <= r < |routes| ==> Ranks(|routes[r].hits|, k)
  }

  function AllRrf(routes: seq<Route>, weights: map<string, real>, k: int): seq<Share>
    requires Divisible(routes, k)
  {
    if routes == [] then []
    else
      var last := routes[|routes| - 1];
      AllRrf(routes[..|routes| - 1], weights, k) + RrfShares(last.hits, WeightOf(weights, last.name), k)
  }

  function AllWeighted(routes: seq<Route>, weights: map<string, real>): seq<Share> {
    if routes == [] then []
    else
      var last := routes[|routes| - 1];
      AllWeighted(routes[..|routes| - 1], weights) + WeightedShares(last.hits, WeightOf(weights, last.name))
  }

  /** The inner loop on one route; false when it divides by zero. */
  method AddRrfRoute(board: Board, hits: seq<Scored>, w: real, k: int) returns (ok: bool)
    modifies board
    ensures ok <==> Ranks(|hits|, k)
    ensures ok ==> board.State() == AddAll(old(board.State()), RrfShares(hits, w, k))
  {
    ghost var own := if Ranks(|hits|, k) then RrfShares(hits, w, k) else [];
    for i := 0 to |hits|
      invariant Ranks(i, k)
      invariant Ranks(|hits|, k) ==> AddAll(board.State(), own[i..]) == AddAll(old(board.State()), own)
    {
      var rank := i + 1;
      if k + rank == 0 {
        return false;
      }
      var share := Share(hits[i].chunk, hits[i].source, Reciprocal(w, k, rank));
      board.Add(share);
      if Ranks(|hits|, k) {
        assert own[i..][0] == share && own[i..][1..] == own[i + 1..];
      }
    }
    ok := true;
  }

  lemma AllRrfMore(routes: seq<Route>, weights: map<string, real>, k: int, r: nat)
    requires r < |routes| && Divisible(routes[..r], k) && Ranks(|routes[r].hits|, k)
    ensures Divisible(routes[..r + 1], k)
    ensures AllRrf(routes[..r + 1], weights, k)
      == AllRrf(routes[..r], weights, k) + RrfShares(routes[r].hits, WeightOf(weights, routes[r].name), k)
  {
    assert routes[..r + 1][..r] == routes[..r] && routes[..r + 1][r] == routes[r];
  }

  /** None stands for the division by zero that a negative k can run into. */
  method RrfFuse(routes: seq<Route>, weights: map<string, real>, k: int) returns (hits: Option<seq<Hit>>)
    ensures hits.Some? <==> Divisible(routes, k)
    ensures hits.Some? ==> Fused(AllRrf(routes, weights, k), hits.value)
  {
    var board := new Board();
    for r := 0 to |routes|
      invariant Divisible(routes[..r], k)
      invariant board.State() == TallyOf(AllRrf(routes[..r], weights, k))
    {
      var route := routes[r];
      var ok := AddRrfRoute(board, route.hits, WeightOf(weights, route.name), k);
      if !ok {
        assert !Ranks(|routes[r].hits|, k);
        return None;
      }
      AllRrfMore(routes, weights, k, r);
      AddAllSplit(BLANK, AllRrf(routes[..r], weights, k), RrfShares(route.hits, WeightOf(weights, route.name), k));
    }
    assert routes[..|routes|] == routes;
    RankedIsFused(AllRrf(routes, weights, k));
    var ranked := board.Ranked();
    hits := Some(ranked);
  }

  lemma AddAllNext(t: Tally, shares: seq<Share>, i: nat)
    requires i < |shares|
    ensures AddAll(t, shares[i..]) == AddAll(AddTo(t, shares[i]), shares[i + 1..])
  {
    assert shares[i..][0] == shares[i] && shares[i..][1..] == shares[i + 1..];
  }

  method AddWeightedRoute(board: Board, hits: seq<Scored>, w: real)
    modifies board
    ensures board.State() == AddAll(old(board.State()), WeightedShares(hits, w))
  {
    ghost var own := WeightedShares(hits, w);
    for i := 0 to |hits|
      invariant AddAll(board.State(), own[i..]) == AddAll(old(board.State()), own)
    {
      AddAllNext(board.State(), own, i);
      board.Add(Share(hits[i].chunk, hits[i].source, Weighed(w, Scores(hits), hits[i].score)));
    }
  }

  method WeightedFuse(routes: seq<Route>, weights: map<string, real>) returns (hits: seq<Hit>)
    ensures Fused(AllWeighted(routes, weights), hits)
  {
    var board := new Board();
    for r := 0 to |routes|
      invariant board.State() == TallyOf(AllWeighted(routes[..r], weights))
    {
      var route := routes[r];
      AddWeightedRoute(board, route.hits, WeightOf(weights, route.name));
      AddAllSplit(BLANK, AllWeighted(routes[..r], weights), WeightedShares(route.hits, WeightOf(weights, route.name)));
      assert routes[..r + 1][..r] == routes[..r] && routes[..r + 1][r] == route;
    }
    assert routes[..|routes|] == routes;
    RankedIsFused(AllWeighted(routes, weights));
    hits := board.Ranked();
  }

  // ---------------------------------------------------------- scaled scores

  lemma ScaledMonotone(xs: seq<real>, a: real, b: real)
    requires xs != []
    ensures Scaled(xs, a) <= Scaled(xs, b) <==> a <= b
  {
    var lo, r := MinOf(xs), Spread(xs);
    QuotientOrder(a - lo, b - lo, r);
  }

  lemma QuotientOrder(a: real, b: real, r: real)
    requires r > 0.0
    ensures Quotient(a, r) <= Quotient(b, r) <==> a <= b
  {
  }

  lemma QuotientEnds(r: real)
    requires r > 0.0
    ensures Quotient(0.0, r) == 0.0 && Quotient(r, r) == 1.0
  {
  }

  /**
    On any fusion, scaled scores lie in [0, 1] and order the hits as their raw
    scores do.
  */
  lemma FusedScores(shares: seq<Share>, hits: seq<Hit>, i: nat, j: nat)
    requires Fused(shares, hits) && i < |hits| && j < |hits|
    ensures 0.0 <= hits[i].score <= 1.0
    ensures hits[i].score <= hits[j].score <==> Raw(shares, hits[i].chunk.id) <= Raw(shares, hits[j].chunk.id)
  {
    var raws := RawsOf(shares);
    FusedScore(shares, hits, i);
    FusedScore(shares, hits, j);
    ScaledMonotone(raws, raws[i], raws[j]);
    ScaledRange(raws, raws[i]);
  }

  lemma FusedScore(shares: seq<Share>, hits: seq<Hit>, i: nat)
    requires Fused(shares, hits) && i < |hits|
    ensures RawsOf(shares) != [] && |RawsOf(shares)| == |hits|
    ensures RawsOf(shares)[i] == Raw(shares, hits[i].chunk.id)
    ensures hits[i].score == Scaled(RawsOf(shares), RawsOf(shares)[i])
  {
  }

  lemma QuotientRange(a: real, r: real)
    requires 0.0 <= a <= r && r > 0.0
    ensures 0.0 <= Quotient(a, r) <= 1.0
  {
  }

  lemma MinMax(xs: seq<real>, x: real)
    requires xs != [] && x in xs
    ensures MinOf(xs) <= x <= MaxOf(xs)
    ensures 0.0 <= x - MinOf(xs) <= Spread(xs)
  {
  }

  lemma ScaledRange(xs: seq<real>, x: real)
    requires xs != [] && x in xs
    ensures 0.0 <= Scaled(xs, x) <= 1.0
  {
    MinMax(xs, x);
    QuotientRange(x - MinOf(xs), Spread(xs));
  }

  lemma ScaledExtremes(xs: seq<real>)
    requires xs != [] && MinOf(xs) < MaxOf(xs)
    ensures Scaled(xs, MinOf(xs)) == 0.0 && Scaled(xs, MaxOf(xs)) == 1.0
  {
    QuotientEnds(Spread(xs));
  }

  /** When raw scores differ, some hit scores 0 and some hit scores 1. */
  lemma FusedExtremes(shares: seq<Share>, hits: seq<Hit>, i: nat, j: nat) returns (a: nat, b: nat)
    requires Fused(shares, hits) && i < |hits| && j < |hits|
    requires Raw(shares, hits[i].chunk.id) < Raw(shares, hits[j].chunk.id)
    ensures a < |hits| && hits[a].score == 0.0
    ensures b < |hits| && hits[b].score == 1.0
  {
    var raws := RawsOf(shares);
    FusedScore(shares, hits, i);
    FusedScore(shares, hits, j);
    var lo :| 0 <= lo < |raws| && raws[lo] == MinOf(raws);
    var hi :| 0 <= hi < |raws| && raws[hi] == MaxOf(raws);
    a, b := lo, hi;
    FusedScore(shares, hits, a);
    FusedScore(shares, hits, b);
    MinMax(raws, raws[i]);
    MinMax(raws, raws[j]);
    ScaledExtremes(raws);
  }

  // ------------------------------------------------------- reciprocal rank, in the large

  /** What one route adds to a chunk: weight over k + rank, summed over its occurrences. */
  ghost function RouteShare(hits: seq<Scored>, w: real, k: int, id: string): real
    requires Ranks(|hits|, k)
  {
    if hits == [] then 0.0
    else
      var n := |hits| - 1;
      RouteShare(hits[..n], w, k, id) + if hits[n].chunk.id == id then Reciprocal(w, k, n + 1) else 0.0
  }

  ghost function TotalShare(routes: seq<Route>, weights: map<string, real>, k: int, id: string): real
    requires Divisible(routes, k)
  {
    if routes == [] then 0.0
    else RouteShare(routes[0].hits, WeightOf(weights, routes[0].name), k, id) + TotalShare(routes[1..], weights, k, id)
  }

  lemma {:induction false} RouteRaw(hits: seq<Scored>, w: real, k: int, id: string)
    requires Ranks(|hits|, k)
    ensures Raw(RrfShares(hits, w, k), id) == RouteShare(hits, w, k, id)
  {
    if hits != [] {
      var n := |hits| - 1;
      RouteRaw(hits[..n], w, k, id);
      assert RrfShares(hits, w, k)[..n] == RrfShares(hits[..n], w, k);
    }
  }

  lemma {:induction false} TotalMore(routes: seq<Route>, weights: map<string, real>, k: int, id: string)
    requires Divisible(routes, k) && routes != []
    ensures var n := |routes| - 1;
      TotalShare(routes, weights, k, id)
      == TotalShare(routes[..n], weights, k, id) + RouteShare(routes[n].hits, WeightOf(weights, routes[n].name), k, id)
  {
    var n := |routes| - 1;
    if n > 0 {
      TotalMore(routes[1..], weights, k, id);
      assert routes[1..][..n - 1] == routes[..n][1..];
    }
  }

  /** A chunk's raw score is the sum over all its occurrences, on any route, of weight over k + rank. */
  lemma {:induction false} RawIsTotal(routes: seq<Route>, weights: map<string, real>, k: int, id: string)
    requires Divisible(routes, k)
    ensures Raw(AllRrf(routes, weights, k), id) == TotalShare(routes, weights, k, id)
  {
    if routes != [] {
      var n := |routes| - 1;
      RawIsTotal(routes[..n], weights, k, id);
      var shares := RrfShares(routes[n].hits, WeightOf(weights, routes[n].name), k);
      RawSplit(AllRrf(routes[..n], weights, k), shares, id);
      RouteRaw(routes[n].hits, WeightOf(weights, routes[n].name), k, id);
      TotalMore(routes, weights, k, id);
    }
  }

  lemma {:induction false} TotalDrop(routes: seq<Route>, weights: map<string, real>, k: int, id: string, i: nat)
    requires Divisible(routes, k) && i < |routes|
    ensures Divisible(routes[..i] + routes[i + 1..], k)
    ensures TotalShare(routes, weights, k, id)
      == RouteShare(routes[i].hits, WeightOf(weights, routes[i].name), k, id)
         + TotalShare(routes[..i] + routes[i + 1..], weights, k, id)
  {
    var rest := routes[..i] + routes[i + 1..];
    if i == 0 {
      assert rest == routes[1..];
    } else {
      TotalDrop(routes[1..], weights, k, id, i - 1);
      assert rest[0] == routes[0] && rest[1..] == routes[1..][..i - 1] + routes[1..][i..];
    }
  }

  /** The order in which routes are fused does not change any raw score. */
  lemma {:induction false} TotalOrderIrrelevant(a: seq<Route>, b: seq<Route>, weights: map<string, real>, k: int,
                                                id: string)
    requires multiset(a) == multiset(b) && Divisible(a, k) && Divisible(b, k)
    ensures TotalShare(a, weights, k, id) == TotalShare(b, weights, k, id)
    decreases a
  {
    if a == [] {
      assert |b| == |multiset(b)| == 0;
    } else {
      var i := Find(a, b);
      TotalDrop(b, weights, k, id, i);
      TotalOrderIrrelevant(a[1..], b[..i] + b[i + 1..], weights, k, id);
    }
  }

  lemma WithoutAt<T>(s: seq<T>, i: nat)
    requires i < |s|
    ensures multiset(s[..i] + s[i + 1..]) == multiset(s) - multiset{s[i]}
  {
    assert s == s[..i] + [s[i]] + s[i + 1..];
  }

  lemma WithoutHead<T>(s: seq<T>)
    requires s != []
    ensures multiset(s[1..]) == multiset(s) - multiset{s[0]}
  {
    assert s == [s[0]] + s[1..];
  }

  lemma PositionOf<T>(s: seq<T>, x: T) returns (i: nat)
    requires x in multiset(s)
    ensures i < |s| && s[i] == x
  {
    assert x in s;
    i :| 0 <= i < |s| && s[i] == x;
  }

  /** Where b has the head of a, and that taking both out leaves the same multiset. */
  lemma Find(a: seq<Route>, b: seq<Route>) returns (i: nat)
    requires a != [] && multiset(a) == multiset(b)
    ensures i < |b| && b[i] == a[0]
    ensures multiset(a[1..]) == multiset(b[..i] + b[i + 1..])
  {
    var head := a[0];
    assert head in multiset(a);
    i := PositionOf(b, head);
    WithoutHead(a);
    WithoutAt(b, i);
  }

  /** The order in which routes are fused does not change any raw score. */
  lemma RouteOrderIrrelevant(a: seq<Route>, b: seq<Route>, weights: map<string, real>, k: int, id: string)
    requires multiset(a) == multiset(b) && Divisible(a, k) && Divisible(b, k)
    ensures Raw(AllRrf(a, weights, k), id) == Raw(AllRrf(b, weights, k), id)
  {
    RawIsTotal(a, weights, k, id);
    RawIsTotal(b, weights, k, id);
    TotalOrderIrrelevant(a, b, weights, k, id);
  }

  /** Two neighbours of a route change places. */
  function SwappedUp(hits: seq<Scored>, i: nat): seq<Scored>
    requires 0 < i < |hits|
  {
    hits[..i - 1] + [hits[i], hits[i - 1]] + hits[i + 1..]
  }

  /** The hit at position i moves up to position j; those it passes move down by one. */
  function MovedUp(hits: seq<Scored>, i: nat, j: nat): seq<Scored>
    requires j <= i < |hits|
    decreases i - j
  {
    if i == j then hits else MovedUp(SwappedUp(hits, i), i - 1, j)
  }

  lemma {:induction false} MovedUpIs(hits: seq<Scored>, i: nat, j: nat)
    requires j <= i < |hits|
    ensures MovedUp(hits, i, j) == hits[..j] + [hits[i]] + hits[j..i] + hits[i + 1..]
    decreases i - j
  {
    if i > j {
      var s := SwappedUp(hits, i);
      MovedUpIs(s, i - 1, j);
      assert s[..j] == hits[..j] && s[i - 1] == hits[i];
      assert s[j..i - 1] == hits[j..i - 1] && s[i..] == [hits[i - 1]] + hits[i + 1..];
      assert hits[j..i] == hits[j..i - 1] + [hits[i - 1]];
    }
  }

  /** A swap raises the share of the hit that moves up, or leaves it when both are the same chunk. */
  lemma {:induction false} SwapNotLower(hits: seq<Scored>, i: nat, w: real, k: nat)
    requires 0 < i < |hits| && w >= 0.0
    ensures var id := hits[i].chunk.id;
      RouteShare(SwappedUp(hits, i), w, k, id) >= RouteShare(hits, w, k, id)
    decreases |hits|
  {
    var n, id, s := |hits| - 1, hits[i].chunk.id, SwappedUp(hits, i);
    if i < n {
      SwapNotLower(hits[..n], i, w, k);
      assert s[..n] == SwappedUp(hits[..n], i) && s[n] == hits[n];
    } else {
      assert s[..n][..n - 1] == hits[..n][..n - 1] && s[n] == hits[n - 1] && s[..n][n - 1] == hits[n];
      SmallerDivisor(w, (k + n) as real, (k + (n + 1)) as real);
    }
  }

  lemma {:induction false} MoveNotLower(hits: seq<Scored>, i: nat, j: nat, w: real, k: nat)
    requires j <= i < |hits| && w >= 0.0
    ensures |MovedUp(hits, i, j)| == |hits|
    ensures RouteShare(MovedUp(hits, i, j), w, k, hits[i].chunk.id) >= RouteShare(hits, w, k, hits[i].chunk.id)
    decreases i - j
  {
    if i > j {
      var s := SwappedUp(hits, i);
      SwapNotLower(hits, i, w, k);
      assert s[i - 1] == hits[i] && |s| == |hits|;
      MoveNotLower(s, i - 1, j, w, k);
    }
  }

  /**
    Moving an occurrence of a chunk to a better rank of one route never lowers the
    chunk's raw score, for weights that are not negative, even when it passes other
    occurrences of the same chunk.
  */
  lemma BetterRankNotLower(routes: seq<Route>, weights: map<string, real>, k: nat, r: nat, i: nat, j: nat)
    requires r < |routes| && j <= i < |routes[r].hits|
    requires WeightOf(weights, routes[r].name) >= 0.0
    ensures var hits, id := routes[r].hits, routes[r].hits[i].chunk.id;
      var better := routes[r := Route(routes[r].name, hits[..j] + [hits[i]] + hits[j..i] + hits[i + 1..])];
      Raw(AllRrf(better, weights, k), id) >= Raw(AllRrf(routes, weights, k), id)
  {
    var hits, id := routes[r].hits, routes[r].hits[i].chunk.id;
    MovedUpIs(hits, i, j);
    var better := routes[r := Route(routes[r].name, MovedUp(hits, i, j))];
    RawIsTotal(routes, weights, k, id);
    RawIsTotal(better, weights, k, id);
    TotalDrop(routes, weights, k, id, r);
    TotalDrop(better, weights, k, id, r);
    assert routes[..r] + routes[r + 1..] == better[..r] + better[r + 1..];
    MoveNotLower(hits, i, j, WeightOf(weights, routes[r].name), k);
  }

  lemma SmallerDivisor(w: real, a: real, b: real)
    requires w >= 0.0 && 0.0 < a <= b
    ensures Quotient(w, a) >= Quotient(w, b)
  {
  }
}
