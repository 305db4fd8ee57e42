/**
  The resilient model router: retries per target, one circuit breaker for all
  targets, fallback along the target list, and the daily budget gate.
*/
module Router {
  import opened Wrappers
  import opened Circuit

  /** What one provider call comes to; LlmFailed carries whether its error is marked retryable. */
  datatype Outcome =
    | Replied(text: string, cost: real)
    | TimedOut
    | RateLimited
    | LlmFailed(retryable: bool)
    | Unparsable

  // ------------------------------------------------------------------ one target

  /** How the retry loop on a target ends, after how many calls; pastLoop: by the raise behind the loop. */
  datatype Verdict =
    | Answered(text: string, cost: real, calls: nat)
    | Exhausted(calls: nat, pastLoop: bool)
    | Raised(calls: nat)

  function Attempt(outcomes: nat -> Outcome, attempt: nat, maxRetries: nat): Verdict
    decreases maxRetries + 1 - attempt
  {
    if attempt > maxRetries then Exhausted(attempt, true)
    else
      match outcomes(attempt)
      case Replied(text, cost) => Answered(text, cost, attempt + 1)
      case Unparsable =>
        if attempt >= 1 then Raised(attempt + 1) else Attempt(outcomes, attempt + 1, maxRetries)
      case LlmFailed(false) => Raised(attempt + 1)
      case _ =>
        if attempt == maxRetries then Exhausted(attempt + 1, false) else Attempt(outcomes, attempt + 1, maxRetries)
  }

  /** The outcome of call a ends the loop early: an answer, a fatal error, or a parse error past the first call. */
  ghost predicate EndsLoop(outcomes: nat -> Outcome, a: nat) {
    outcomes(a).Replied? || outcomes(a) == LlmFailed(false) || (outcomes(a).Unparsable? && a >= 1)
  }

  /**
    The loop makes at most maxRetries + 1 calls. It ends at the first call that
    ends it early, with that call's answer or error; if there is none within the
    allowance it is exhausted after all of them.
  */
  lemma {:induction false} RetrySpec(outcomes: nat -> Outcome, attempt: nat, maxRetries: nat)
    requires attempt <= maxRetries
    ensures var v := Attempt(outcomes, attempt, maxRetries);
      && attempt < v.calls <= maxRetries + 1
      && (forall a :: attempt <= a < v.calls - 1 ==> !EndsLoop(outcomes, a))
      && match v
         case Answered(text, cost, n) => outcomes(n - 1) == Replied(text, cost)
         case Raised(n) => EndsLoop(outcomes, n - 1) && !outcomes(n - 1).Replied?
         case Exhausted(n, _) => n == maxRetries + 1 && !EndsLoop(outcomes, n - 1)
    decreases maxRetries - attempt
  {
    if !EndsLoop(outcomes, attempt) && attempt < maxRetries {
      RetrySpec(outcomes, attempt + 1, maxRetries);
    }
  }

  /** A loop past its first call ends inside: the last call allowed either ends it or exhausts it. */
  lemma {:induction false} EndsInside(outcomes: nat -> Outcome, attempt: nat, maxRetries: nat)
    requires 1 <= attempt <= maxRetries
    ensures var v := Attempt(outcomes, attempt, maxRetries); !(v.Exhausted? && v.pastLoop)
    decreases maxRetries - attempt
  {
    if !EndsLoop(outcomes, attempt) && attempt < maxRetries { EndsInside(outcomes, attempt + 1, maxRetries); }
  }

  /**
    The raise behind the loop, which the program marks as unreachable, is reached
    exactly when no retry is allowed and the one reply does not parse.
  */
  lemma PastLoopIff(outcomes: nat -> Outcome, maxRetries: nat)
    ensures var v := Attempt(outcomes, 0, maxRetries);
      v.Exhausted? && v.pastLoop <==> maxRetries == 0 && outcomes(0).Unparsable?
  {
    if maxRetries > 0 && !EndsLoop(outcomes, 0) { EndsInside(outcomes, 1, maxRetries); }
  }

  // --------------------------------------------------------------- all the targets

  /** Clock readings and provider outcomes met while one target is tried. */
  datatype Trial = Trial(queried: real, outcomes: nat -> Outcome, finished: real, pruned: real, tripped: real)

  datatype Mark = Mark(key: Key, event: Event)

  datatype ChatResult =
    | Reply(text: string, cost: real, from: Key)
    | CircuitOpen(key: Key)      // code 6002
    | AllFailed                  // code 6001
    | BudgetReached              // code 1004

  datatype Journey = Journey(result: ChatResult, trace: seq<Mark>)

  function EventsOf(trace: seq<Mark>, key: Key): seq<Event> {
    if trace == [] then []
    else EventsOf(trace[..|trace| - 1], key)
         + if trace[|trace| - 1].key == key then [trace[|trace| - 1].event] else []
  }

  /** The state of a key after the marks made so far. */
  function Now(cfg: Config, start: Key -> KeyState, trace: seq<Mark>, key: Key): KeyState {
    Run(cfg, start(key), EventsOf(trace, key))
  }

  function Travel(cfg: Config, start: Key -> KeyState, maxRetries: nat,
                  targets: seq<Key>, trials: seq<Trial>, trace: seq<Mark>): Journey
    requires |targets| == |trials|
    decreases |targets|
  {
    if targets == [] then Journey(AllFailed, trace)
    else
      var key, trial := targets[0], trials[0];
      var asked := trace + [Mark(key, Query(trial.queried))];
      if Refuses(cfg, Now(cfg, start, trace, key), trial.queried) then Journey(CircuitOpen(key), asked)
      else
        match Attempt(trial.outcomes, 0, maxRetries)
        case Answered(text, cost, _) =>
          Journey(Reply(text, cost, key), asked + [Mark(key, Good(trial.finished))])
        case _ =>
          Travel(cfg, start, maxRetries, targets[1..], trials[1..], asked + [FailureMark(key, trial)])
  }

  function FailureMark(key: Key, trial: Trial): Mark {
    Mark(key, Bad(trial.finished, trial.pruned, trial.tripped))
  }

  /** The marks left when the first n targets have failed: one query and one failure each. */
  function FailTrace(targets: seq<Key>, trials: seq<Trial>, n: nat): seq<Mark>
    requires n <= |targets| == |trials|
  {
    if n == 0 then []
    else FailTrace(targets, trials, n - 1)
         + [Mark(targets[n - 1], Query(trials[n - 1].queried)), FailureMark(targets[n - 1], trials[n - 1])]
  }

  /** Target i is refused once all before it have failed. */
  ghost predicate RefusedAt(cfg: Config, start: Key -> KeyState, targets: seq<Key>, trials: seq<Trial>, i: nat)
    requires i < |targets| == |trials|
  {
    Refuses(cfg, Now(cfg, start, FailTrace(targets, trials, i), targets[i]), trials[i].queried)
  }

  ghost predicate AnswersAt(trials: seq<Trial>, maxRetries: nat, i: nat)
    requires i < |trials|
  {
    Attempt(trials[i].outcomes, 0, maxRetries).Answered?
  }

  /** The journey stops at target n: the first that is refused or answers, or past the last. */
  ghost predicate StopsAt(cfg: Config, start: Key -> KeyState, maxRetries: nat,
                          targets: seq<Key>, trials: seq<Trial>, n: nat)
    requires |targets| == |trials|
  {
    && n <= |targets|
    && (forall i :: 0 <= i < n ==> !RefusedAt(cfg, start, targets, trials, i) && !AnswersAt(trials, maxRetries, i))
    && (n < |targets| ==> RefusedAt(cfg, start, targets, trials, n) || AnswersAt(trials, maxRetries, n))
  }

  lemma {:induction false} TravelFrom(cfg: Config, start: Key -> KeyState, maxRetries: nat,
                                      targets: seq<Key>, trials: seq<Trial>, i: nat) returns (n: nat)
    requires i <= |targets| == |trials|
    requires forall j :: 0 <= j < i ==> !RefusedAt(cfg, start, targets, trials, j) && !AnswersAt(trials, maxRetries, j)
    ensures StopsAt(cfg, start, maxRetries, targets, trials, n)
    ensures
      var journey := Travel(cfg, start, maxRetries, targets[i..], trials[i..], FailTrace(targets, trials, i));
      journey == Expected(cfg, start, maxRetries, targets, trials, n)
    decreases |targets| - i
  {
    if i == |targets| || RefusedAt(cfg, start, targets, trials, i) || AnswersAt(trials, maxRetries, i) {
      n := i;
    } else {
      n := TravelFrom(cfg, start, maxRetries, targets, trials, i + 1);
      var trace := FailTrace(targets, trials, i);
      var asked := trace + [Mark(targets[i], Query(trials[i].queried))];
      assert asked + [FailureMark(targets[i], trials[i])] == FailTrace(targets, trials, i + 1);
      assert targets[i..][1..] == targets[i + 1..] && trials[i..][1..] == trials[i + 1..];
    }
  }

  /** What a call comes to when its journey stops at target n. */
  function Expected(cfg: Config, start: Key -> KeyState, maxRetries: nat,
                    targets: seq<Key>, trials: seq<Trial>, n: nat): Journey
    requires n <= |targets| == |trials|
  {
    var trace := FailTrace(targets, trials, n);
    if n == |targets| then Journey(AllFailed, trace)
    else
      var key, trial := targets[n], trials[n];
      var asked := trace + [Mark(key, Query(trial.queried))];
      if Refuses(cfg, Now(cfg, start, trace, key), trial.queried) then Journey(CircuitOpen(key), asked)
      else
        match Attempt(trial.outcomes, 0, maxRetries)
        case Answered(text, cost, _) =>
          Journey(Reply(text, cost, key), asked + [Mark(key, Good(trial.finished))])
        case _ => Journey(AllFailed, asked)
  }

  /**
    A call answers with the first target whose retry loop succeeds, unless an
    open target comes first, which ends it with 6002; with neither it ends with
    6001. Every target before the end is marked with exactly one query and one
    failure, and nothing else is marked but the end itself.
  */
  lemma FirstSuccessOrOpen(cfg: Config, start: Key -> KeyState, maxRetries: nat,
                           targets: seq<Key>, trials: seq<Trial>) returns (n: nat)
    requires |targets| == |trials|
    ensures StopsAt(cfg, start, maxRetries, targets, trials, n)
    ensures var journey := Travel(cfg, start, maxRetries, targets, trials, []);
      && (journey.result == AllFailed <==> n == |targets|)
      && (journey.result.CircuitOpen? <==> n < |targets| && RefusedAt(cfg, start, targets, trials, n))
      && (journey.result.Reply? <==>
            n < |targets| && !RefusedAt(cfg, start, targets, trials, n) && AnswersAt(trials, maxRetries, n))
      && (journey.result.Reply? ==>
            var v := Attempt(trials[n].outcomes, 0, maxRetries);
            journey.result == Reply(v.text, v.cost, targets[n]))
      && journey.trace == FailTrace(targets, trials, n)
         + (if n == |targets| then []
            else [Mark(targets[n], Query(trials[n].queried))]
                 + if journey.result.Reply? then [Mark(targets[n], Good(trials[n].finished))] else [])
  {
    n := TravelFrom(cfg, start, maxRetries, targets, trials, 0);
    assert targets[0..] == targets && trials[0..] == trials;
  }

  // --------------------------------------------------------------------- budget

  datatype CostRecord = CostRecord(kb: string, cost: real)

  function Spend(records: seq<CostRecord>, kb: string): real {
    if records == [] then 0.0
    else Spend(records[..|records| - 1], kb)
         + if records[|records| - 1].kb == kb then records[|records| - 1].cost else 0.0
  }

  predicate WithinBudget(caps: map<string, real>, records: seq<CostRecord>, kb: string) {
    kb in caps ==> Spend(records, kb) < caps[kb]
  }

  /** A sequential call: the records it leaves, given what it would cost if it got an answer. */
  function Charged(caps: map<string, real>, records: seq<CostRecord>, kb: string, cost: Option<real>): seq<CostRecord> {
    if WithinBudget(caps, records, kb) && cost.Some? then records + [CostRecord(kb, cost.value)] else records
  }

  datatype Demand = Demand(kb: string, cost: Option<real>)

  function ChargedAll(caps: map<string, real>, records: seq<CostRecord>, demands: seq<Demand>): seq<CostRecord>
    decreases demands
  {
    if demands == [] then records
    else ChargedAll(caps, Charged(caps, records, demands[0].kb, demands[0].cost), demands[1..])
  }

  lemma SpendMore(records: seq<CostRecord>, r: CostRecord, kb: string)
    ensures Spend(records + [r], kb) == Spend(records, kb) + if r.kb == kb then r.cost else 0.0
  {
    assert (records + [r])[..|records|] == records;
  }

  lemma ChargedBounded(caps: map<string, real>, records: seq<CostRecord>, d: Demand, kb: string, dearest: real)
    requires kb in caps && Spend(records, kb) < caps[kb] + dearest
    requires d.kb == kb && d.cost.Some? ==> d.cost.value <= dearest
    ensures Spend(Charged(caps, records, d.kb, d.cost), kb) < caps[kb] + dearest
  {
    if WithinBudget(caps, records, d.kb) && d.cost.Some? {
      SpendMore(records, CostRecord(d.kb, d.cost.value), kb);
    }
  }

  /** However many sequential calls are made, a knowledge base overspends its cap by less than its dearest call. */
  lemma {:induction false} SpendBounded(caps: map<string, real>, records: seq<CostRecord>, demands: seq<Demand>,
                                        kb: string, dearest: real)
    requires kb in caps && Spend(records, kb) < caps[kb] + dearest
    requires forall i :: 0 <= i < |demands| && demands[i].kb == kb && demands[i].cost.Some? ==>
      demands[i].cost.value <= dearest
    ensures Spend(ChargedAll(caps, records, demands), kb) < caps[kb] + dearest
    decreases demands
  {
    if demands != [] {
      var d := demands[0];
      ChargedBounded(caps, records, d, kb, dearest);
      SpendBounded(caps, Charged(caps, records, d.kb, d.cost), demands[1..], kb, dearest);
    }
  }

  // ------------------------------------------------------------------ strategies

  /** The positions at which is_open said no. */
  function Passing(refusals: seq<bool>): (pool: seq<nat>)
    ensures forall i :: 0 <= i < |pool| ==> pool[i] < |refusals| && !refusals[pool[i]]
    ensures forall i, j :: 0 <= i < j < |pool| ==> pool[i] < pool[j]
    ensures forall i :: 0 <= i < |refusals| && !refusals[i] ==> i in pool
  {
    if refusals == [] then []
    else
      var n := |refusals| - 1;
      var before := Passing(refusals[..n]);
      if refusals[n] then before else before + [n]
  }

  function Looks(candidates: seq<Key>, queried: seq<real>, n: nat): seq<Mark>
    requires n <= |candidates| <= |queried|
  {
    if n == 0 then [] else Looks(candidates, queried, n - 1) + [Mark(candidates[n - 1], Query(queried[n - 1]))]
  }

  /** What is_open answers to the i-th candidate when all before it have been asked. */
  ghost predicate RefusesAt(cfg: Config, start: Key -> KeyState, candidates: seq<Key>, queried: seq<real>, i: nat)
    requires i < |candidates| <= |queried|
  {
    Refuses(cfg, Now(cfg, start, Looks(candidates, queried, i), candidates[i]), queried[i])
  }

  /** The answers when the candidates are asked once each, in order. */
  ghost predicate Asked(cfg: Config, start: Key -> KeyState, candidates: seq<Key>, queried: seq<real>,
                        refusals: seq<bool>)
    requires |refusals| <= |candidates| <= |queried|
  {
    forall i :: 0 <= i < |refusals| ==> refusals[i] == RefusesAt(cfg, start, candidates, queried, i)
  }

  lemma AskedMore(cfg: Config, start: Key -> KeyState, candidates: seq<Key>, queried: seq<real>,
                  refusals: seq<bool>, refused: bool)
    requires |refusals| < |candidates| <= |queried| && Asked(cfg, start, candidates, queried, refusals)
    requires refused == RefusesAt(cfg, start, candidates, queried, |refusals|)
    ensures Asked(cfg, start, candidates, queried, refusals + [refused])
  {
  }

  function WeightOf(weights: map<Key, real>, key: Key): real {
    var w := if key in weights then weights[key] else 1.0;
    if w > 0.0 then w else 0.0
  }

  function WeightUpTo(candidates: seq<Key>, weights: map<Key, real>, pool: seq<nat>, n: nat): real
    requires n <= |pool| && forall i :: 0 <= i < |pool| ==> pool[i] < |candidates|
  {
    if n == 0 then 0.0
    else WeightUpTo(candidates, weights, pool, n - 1) + WeightOf(weights, candidates[pool[n - 1]])
  }

  lemma {:induction false} WeightGrows(candidates: seq<Key>, weights: map<Key, real>, pool: seq<nat>, m: nat, n: nat)
    requires m <= n <= |pool| && forall i :: 0 <= i < |pool| ==> pool[i] < |candidates|
    ensures WeightUpTo(candidates, weights, pool, m) <= WeightUpTo(candidates, weights, pool, n)
  {
    if m < n { WeightGrows(candidates, weights, pool, m, n - 1); }
  }

  /** The pool with one member moved to the front. */
  function FrontLoaded(pool: seq<nat>, c: nat): seq<nat>
    requires c < |pool|
  {
    [pool[c]] + pool[..c] + pool[c + 1..]
  }

  /** c is where the draw falls when the pool's weights are laid end to end. */
  ghost predicate DrawnAt(candidates: seq<Key>, weights: map<Key, real>, pool: seq<nat>, draw: real, c: nat)
    requires forall i :: 0 <= i < |pool| ==> pool[i] < |candidates|
  {
    && c < |pool|
    && draw <= WeightUpTo(candidates, weights, pool, c + 1)
    && forall b :: 1 <= b <= c ==> WeightUpTo(candidates, weights, pool, b) < draw
  }

  /** The weighted order: the drawn member first, unless there is nothing to draw from or no weight at all. */
  ghost predicate DrawnFirst(candidates: seq<Key>, weights: map<Key, real>, pool: seq<nat>, draw: real, picks: seq<nat>)
    requires forall i :: 0 <= i < |pool| ==> pool[i] < |candidates|
  {
    var total := WeightUpTo(candidates, weights, pool, |pool|);
    if total <= 0.0 || draw > total then picks == pool
    else exists c :: DrawnAt(candidates, weights, pool, draw, c) && picks == FrontLoaded(pool, c)
  }

  /** A positive draw never falls on a candidate of weight zero. */
  lemma DrawnHasWeight(candidates: seq<Key>, weights: map<Key, real>, pool: seq<nat>, draw: real, c: nat)
    requires forall i :: 0 <= i < |pool| ==> pool[i] < |candidates|
    requires DrawnAt(candidates, weights, pool, draw, c) && draw > 0.0
    ensures WeightOf(weights, candidates[pool[c]]) > 0.0
  {
    if c > 0 { assert WeightUpTo(candidates, weights, pool, c) < draw; }
  }

  /** Dearer, or as dear and later in the candidate list; an unpriced candidate is dearest. */
  predicate Before(candidates: seq<Key>, prices: map<Key, real>, i: nat, j: nat)
    requires i < |candidates| && j < |candidates|
  {
    var a, b := candidates[i], candidates[j];
    if a in prices && b in prices then prices[a] < prices[b] || (prices[a] == prices[b] && i < j)
    else if a in prices then true
    else if b in prices then false
    else i < j
  }

  /** Sorted by price, ties in candidate order. */
  ghost predicate Cheapest(candidates: seq<Key>, prices: map<Key, real>, picks: seq<nat>) {
    && (forall i :: 0 <= i < |picks| ==> picks[i] < |candidates|)
    && (forall i, j :: 0 <= i < j < |picks| ==> Before(candidates, prices, picks[i], picks[j]))
  }

  // ------------------------------------------------- strategies and open targets

  ghost predicate Distinct<T>(xs: seq<T>) {
    forall i, j :: 0 <= i < j < |xs| ==> xs[i] != xs[j]
  }

  function Chosen(candidates: seq<Key>, picks: seq<nat>): seq<Key>
    requires forall i :: 0 <= i < |picks| ==> picks[i] < |candidates|
  {
    seq(|picks|, i requires 0 <= i < |picks| => candidates[picks[i]])
  }

  /** A query that is let through leaves the key other than open. */
  lemma LetThrough(cfg: Config, k: KeyState, t: real)
    requires !Refuses(cfg, k, t)
    ensures Step(cfg, k, Query(t)).status != Open
  {
  }

  lemma LooksNext(cfg: Config, start: Key -> KeyState, candidates: seq<Key>, queried: seq<real>, n: nat, key: Key)
    requires 0 < n <= |candidates| <= |queried|
    ensures Now(cfg, start, Looks(candidates, queried, n), key)
      == var was := Now(cfg, start, Looks(candidates, queried, n - 1), key);
         if key == candidates[n - 1] then Step(cfg, was, Query(queried[n - 1])) else was
  {
    MarkOne(cfg, start, Looks(candidates, queried, n - 1), Mark(candidates[n - 1], Query(queried[n - 1])), key);
  }

  /** A candidate that was let through stays other than open while only others are asked. */
  lemma {:induction false} PassedIsNotOpen(cfg: Config, start: Key -> KeyState, candidates: seq<Key>,
                                           queried: seq<real>, i: nat, n: nat)
    requires i < n <= |candidates| <= |queried| && Distinct(candidates)
    requires !RefusesAt(cfg, start, candidates, queried, i)
    ensures Now(cfg, start, Looks(candidates, queried, n), candidates[i]).status != Open
    decreases n
  {
    LooksNext(cfg, start, candidates, queried, n, candidates[i]);
    if i < n - 1 {
      PassedIsNotOpen(cfg, start, candidates, queried, i, n - 1);
    } else {
      LetThrough(cfg, Now(cfg, start, Looks(candidates, queried, i), candidates[i]), queried[i]);
    }
  }

  /** Keys that the trace does not mention are where they started. */
  lemma {:induction false} FailTraceOthers(targets: seq<Key>, trials: seq<Trial>, n: nat, key: Key)
    requires n <= |targets| == |trials| && key !in targets[..n]
    ensures EventsOf(FailTrace(targets, trials, n), key) == []
  {
    if n > 0 {
      assert targets[..n][..n - 1] == targets[..n - 1] && targets[..n][n - 1] == targets[n - 1];
      FailTraceOthers(targets, trials, n - 1, key);
      var was := FailTrace(targets, trials, n - 1);
      var q, f := Mark(targets[n - 1], Query(trials[n - 1].queried)), FailureMark(targets[n - 1], trials[n - 1]);
      var asked := was + [q];
      assert was + [q, f] == asked + [f];
      assert asked[..|was|] == was && (asked + [f])[..|asked|] == asked;
      assert EventsOf(asked, key) == [] + [] == [];
    }
  }

  /** With distinct targets, none of them open, no call ends with 6002. */
  lemma NoneOpenNoneRefused(cfg: Config, start: Key -> KeyState, maxRetries: nat, targets: seq<Key>, trials: seq<Trial>)
    requires |targets| == |trials| && Distinct(targets)
    requires forall i :: 0 <= i < |targets| ==> start(targets[i]).status != Open
    ensures var r := Travel(cfg, start, maxRetries, targets, trials, []).result; r.Reply? || r == AllFailed
    ensures targets == [] ==> Travel(cfg, start, maxRetries, targets, trials, []).result == AllFailed
  {
    var n := FirstSuccessOrOpen(cfg, start, maxRetries, targets, trials);
    if n < |targets| {
      FailTraceOthers(targets, trials, n, targets[n]);
      assert Now(cfg, start, FailTrace(targets, trials, n), targets[n]) == start(targets[n]);
    }
  }

  /**
    The weighted and the least-cost strategy ask the breaker before the call does:
    with distinct candidates and picks among those let through, a sequential call
    never ends with 6002, and it ends with 6001 when every candidate was refused.
  */
  lemma StrategyAvoidsOpen(cfg: Config, start: Key -> KeyState, after: Key -> KeyState, maxRetries: nat,
                           candidates: seq<Key>, queried: seq<real>, refusals: seq<bool>, picks: seq<nat>,
                           trials: seq<Trial>)
    requires |candidates| == |queried| == |refusals| && Distinct(candidates)
    requires Asked(cfg, start, candidates, queried, refusals)
    requires forall k :: after(k) == Now(cfg, start, Looks(candidates, queried, |candidates|), k)
    requires Distinct(picks) && |picks| == |trials|
    requires forall i :: i in picks <==> i in Passing(refusals)
    ensures forall i :: 0 <= i < |picks| ==> picks[i] < |candidates|
    ensures var r := Travel(cfg, after, maxRetries, Chosen(candidates, picks), trials, []).result;
      && (r.Reply? || r == AllFailed)
      && ((forall i :: 0 <= i < |refusals| ==> refusals[i]) ==> r == AllFailed)
  {
    forall i | 0 <= i < |picks| ensures picks[i] < |candidates| && !refusals[picks[i]] {
      assert picks[i] in picks;
    }
    var targets := Chosen(candidates, picks);
    forall i | 0 <= i < |targets| ensures after(targets[i]).status != Open {
      PassedIsNotOpen(cfg, start, candidates, queried, picks[i], |candidates|);
    }
    NoneOpenNoneRefused(cfg, after, maxRetries, targets, trials);
    if (forall i :: 0 <= i < |refusals| ==> refusals[i]) && picks != [] { assert !refusals[picks[0]]; }
  }

  lemma FrontLoadedSame(pool: seq<nat>, c: nat)
    requires c < |pool| && Distinct(pool)
    ensures Distinct(FrontLoaded(pool, c)) && forall i :: i in FrontLoaded(pool, c) <==> i in pool
  {
    assert pool == pool[..c] + [pool[c]] + pool[c + 1..];
  }

  /** Both strategies pick each candidate let through exactly once. */
  lemma DrawnPicksPool(candidates: seq<Key>, weights: map<Key, real>, pool: seq<nat>, draw: real, picks: seq<nat>)
    requires forall i :: 0 <= i < |pool| ==> pool[i] < |candidates|
    requires forall i, j :: 0 <= i < j < |pool| ==> pool[i] < pool[j]
    requires DrawnFirst(candidates, weights, pool, draw, picks)
    ensures Distinct(picks) && forall i :: i in picks <==> i in pool
  {
    if picks != pool {
      var c: nat :| DrawnAt(candidates, weights, pool, draw, c) && picks == FrontLoaded(pool, c);
      FrontLoadedSame(pool, c);
    }
  }

  /** A pick put between those that sort before it and one that does not keeps the order. */
  lemma InsertedCheapest(candidates: seq<Key>, prices: map<Key, real>, picks: seq<nat>, pick: nat, at: nat)
    requires pick < |candidates| && pick !in picks && Cheapest(candidates, prices, picks) && at <= |picks|
    requires forall j :: 0 <= j < at ==> Before(candidates, prices, picks[j], pick)
    requires at < |picks| ==> !Before(candidates, prices, picks[at], pick)
    ensures Cheapest(candidates, prices, picks[..at] + [pick] + picks[at..])
  {
    var all := picks[..at] + [pick] + picks[at..];
    forall j | at <= j < |picks| ensures Before(candidates, prices, pick, picks[j]) {
      assert picks[at] in picks;
      if j > at { assert Before(candidates, prices, picks[at], picks[j]); }
    }
    forall i, j | 0 <= i < j < |all| ensures Before(candidates, prices, all[i], all[j]) {
      if i != at && j != at {
        var i', j' := if i < at then i else i - 1, if j < at then j else j - 1;
        assert all[i] == picks[i'] && all[j] == picks[j'];
      }
    }
  }

  lemma CheapestDistinct(candidates: seq<Key>, prices: map<Key, real>, picks: seq<nat>)
    requires Cheapest(candidates, prices, picks)
    ensures Distinct(picks)
  {
    forall i, j | 0 <= i < j < |picks| ensures picks[i] != picks[j] {
      assert Before(candidates, prices, picks[i], picks[j]);
    }
  }

  datatype Strategy = Weighted(weights: map<Key, real>, draw: real) | LeastCost(prices: map<Key, real>)

  class ResilientRouter {
    const breaker: CircuitBreaker
    const maxRetries: nat
    var records: seq<CostRecord>
    var caps: map<string, real>

    ghost predicate Valid()
      reads this, breaker
    {
      breaker.Valid()
    }

    constructor (breaker: CircuitBreaker, maxRetries: nat, caps: map<string, real>)
      requires breaker.Valid()
      ensures Valid() && this.breaker == breaker && this.maxRetries == maxRetries
      ensures this.caps == caps && records == []
    {
      this.breaker, this.maxRetries, this.caps, records := breaker, maxRetries, caps, [];
    }

    /** is_open, with the mark it leaves. */
    method Ask(key: Key, t: real, ghost start: Key -> KeyState, ghost trace: seq<Mark>) returns (refused: bool)
      requires Valid() && Marked(breaker, start, trace)
      modifies breaker
      ensures Valid() && Marked(breaker, start, trace + [Mark(key, Query(t))])
      ensures refused == Refuses(breaker.cfg, Now(breaker.cfg, start, trace, key), t)
    {
      MarkMore(breaker.cfg, start, trace, Mark(key, Query(t)));
      refused := breaker.IsOpen(key, t);
    }

    /** record_success, with the mark it leaves. */
    method NoteSuccess(key: Key, t: real, ghost start: Key -> KeyState, ghost trace: seq<Mark>)
      requires Valid() && Marked(breaker, start, trace)
      modifies breaker
      ensures Valid() && Marked(breaker, start, trace + [Mark(key, Good(t))])
    {
      MarkMore(breaker.cfg, start, trace, Mark(key, Good(t)));
      breaker.RecordSuccess(key, t);
    }

    /** record_failure, with the mark it leaves. */
    method NoteFailure(key: Key, trial: Trial, ghost start: Key -> KeyState, ghost trace: seq<Mark>)
      requires Valid() && Marked(breaker, start, trace)
      modifies breaker
      ensures Valid() && Marked(breaker, start, trace + [FailureMark(key, trial)])
    {
      MarkMore(breaker.cfg, start, trace, FailureMark(key, trial));
      breaker.RecordFailure(key, trial.finished, trial.pruned, trial.tripped);
    }

    /** The retry loop on one target; a success is marked and accounted before it returns. */
    method CallWithRetry(kb: string, key: Key, trial: Trial, ghost start: Key -> KeyState, ghost trace: seq<Mark>)
      returns (v: Verdict)
      requires Valid() && Marked(breaker, start, trace)
      modifies breaker, this`records
      ensures Valid() && v == Attempt(trial.outcomes, 0, maxRetries)
      ensures Marked(breaker, start, if v.Answered? then trace + [Mark(key, Good(trial.finished))] else trace)
      ensures records == old(records) + if v.Answered? then [CostRecord(kb, v.cost)] else []
    {
      for attempt := 0 to maxRetries + 1
        invariant Valid() && Marked(breaker, start, trace)
        invariant records == old(records)
        invariant Attempt(trial.outcomes, attempt, maxRetries) == Attempt(trial.outcomes, 0, maxRetries)
      {
        var outcome := trial.outcomes(attempt);
        match outcome {
          case Replied(text, cost) =>
            NoteSuccess(key, trial.finished, start, trace);
            records := records + [CostRecord(kb, cost)];
            return Answered(text, cost, attempt + 1);
          case Unparsable =>
            if attempt >= 1 {
              return Raised(attempt + 1);
            }
          case LlmFailed(false) =>
            return Raised(attempt + 1);
          case _ =>
            if attempt == maxRetries {
              return Exhausted(attempt + 1, false);
            }
        }
      }
      v := Exhausted(maxRetries + 1, true);
    }

    /** The fallback loop over the ordered targets. */
    method TryTargets(kb: string, targets: seq<Key>, trials: seq<Trial>) returns (result: ChatResult)
      requires Valid() && |targets| == |trials|
      modifies breaker, this`records
      ensures Valid()
      ensures var journey := Travel(breaker.cfg, old(breaker.View()), maxRetries, targets, trials, []);
        result == journey.result && Marked(breaker, old(breaker.View()), journey.trace)
      ensures records == old(records) + if result.Reply? then [CostRecord(kb, result.cost)] else []
    {
      ghost var start, trace := breaker.View(), [];
      for i := 0 to |targets|
        invariant Valid() && records == old(records)
        invariant Marked(breaker, start, trace)
        invariant Travel(breaker.cfg, start, maxRetries, targets[i..], trials[i..], trace)
               == Travel(breaker.cfg, start, maxRetries, targets, trials, [])
      {
        assert targets[i..][0] == targets[i] && targets[i..][1..] == targets[i + 1..];
        assert trials[i..][0] == trials[i] && trials[i..][1..] == trials[i + 1..];
        var key := targets[i];
        var refused := Ask(key, trials[i].queried, start, trace);
        if refused {
          return CircuitOpen(key);
        }
        trace := trace + [Mark(key, Query(trials[i].queried))];
        var v := CallWithRetry(kb, key, trials[i], start, trace);
        if v.Answered? {
          return Reply(v.text, v.cost, key);
        }
        NoteFailure(key, trials[i], start, trace);
        trace := trace + [FailureMark(key, trials[i])];
      }
      result := AllFailed;
    }

    /** Sum of the recorded costs of a knowledge base. */
    method SumDailyCost(kb: string) returns (sum: real)
      ensures sum == Spend(records, kb)
    {
      sum := 0.0;
      for i := 0 to |records|
        invariant sum == Spend(records[..i], kb)
      {
        assert records[..i + 1][..i] == records[..i] && records[..i + 1][i] == records[i];
        if records[i].kb == kb {
          sum := sum + records[i].cost;
        }
      }
      assert records[..|records|] == records;
    }

    /** One call without a cache: the budget gate, then the targets in order. */
    method Chat(kb: string, targets: seq<Key>, trials: seq<Trial>) returns (result: ChatResult)
      requires Valid() && |targets| == |trials|
      modifies breaker, this`records
      ensures Valid()
      ensures var journey := Travel(breaker.cfg, old(breaker.View()), maxRetries, targets, trials, []);
        if WithinBudget(caps, old(records), kb) then
          result == journey.result && Marked(breaker, old(breaker.View()), journey.trace)
        else result == BudgetReached && forall k :: breaker.At(k) == old(breaker.At(k))
      ensures records
        == Charged(caps, old(records), kb, if result.Reply? then Some(result.cost) else None)
    {
      if kb in caps {
        var daily := SumDailyCost(kb);
        if daily >= caps[kb] {
          return BudgetReached;
        }
      }
      result := TryTargets(kb, targets, trials);
    }

    /** Looks at every candidate once; the breaker may let a rested one through as half-open. */
    method AskAll(candidates: seq<Key>, queried: seq<real>) returns (refusals: seq<bool>)
      requires Valid() && |candidates| == |queried|
      modifies breaker
      ensures Valid() && Marked(breaker, old(breaker.View()), Looks(candidates, queried, |candidates|))
      ensures |refusals| == |candidates| && Asked(breaker.cfg, old(breaker.View()), candidates, queried, refusals)
    {
      ghost var start := breaker.View();
      refusals := [];
      for i := 0 to |candidates|
        invariant Valid() && Marked(breaker, start, Looks(candidates, queried, i))
        invariant |refusals| == i && Asked(breaker.cfg, start, candidates, queried, refusals)
      {
        ghost var trace := Looks(candidates, queried, i);
        var refused := Ask(candidates[i], queried[i], start, trace);
        assert Looks(candidates, queried, i + 1) == trace + [Mark(candidates[i], Query(queried[i]))];
        AskedMore(breaker.cfg, start, candidates, queried, refusals, refused);
        refusals := refusals + [refused];
      }
    }

    /** The candidates that may be called, by position. */
    static method Filter(refusals: seq<bool>) returns (pool: seq<nat>)
      ensures pool == Passing(refusals)
    {
      pool := [];
      for i := 0 to |refusals|
        invariant pool == Passing(refusals[..i])
      {
        assert refusals[..i + 1][..i] == refusals[..i];
        if !refusals[i] {
          pool := pool + [i];
        }
      }
      assert refusals[..|refusals|] == refusals;
    }

    /** Weighted random choice first, the rest of the pool behind it in order. */
    method WeightedTargets(candidates: seq<Key>, weights: map<Key, real>, queried: seq<real>, draw: real)
      returns (picks: seq<nat>, refusals: seq<bool>)
      requires Valid() && |candidates| == |queried|
      modifies breaker
      ensures Valid() && Marked(breaker, old(breaker.View()), Looks(candidates, queried, |candidates|))
      ensures |refusals| == |candidates| && Asked(breaker.cfg, old(breaker.View()), candidates, queried, refusals)
      ensures DrawnFirst(candidates, weights, Passing(refusals), draw, picks)
    {
      refusals := AskAll(candidates, queried);
      var pool := Filter(refusals);
      picks := Draw(candidates, weights, pool, draw);
    }

    static method Draw(candidates: seq<Key>, weights: map<Key, real>, pool: seq<nat>, draw: real)
      returns (picks: seq<nat>)
      requires forall i :: 0 <= i < |pool| ==> pool[i] < |candidates|
      ensures DrawnFirst(candidates, weights, pool, draw, picks)
    {
      if pool == [] {
        return [];
      }
      var total := 0.0;
      for i := 0 to |pool|
        invariant total == WeightUpTo(candidates, weights, pool, i)
      {
        total := total + WeightOf(weights, candidates[pool[i]]);
      }
      if total <= 0.0 {
        return pool;
      }
      var acc := 0.0;
      for c := 0 to |pool|
        invariant acc == WeightUpTo(candidates, weights, pool, c)
        invariant forall b :: 1 <= b <= c ==> WeightUpTo(candidates, weights, pool, b) < draw
      {
        acc := acc + WeightOf(weights, candidates[pool[c]]);
        if draw <= acc {
          assert DrawnAt(candidates, weights, pool, draw, c);
          WeightGrows(candidates, weights, pool, c + 1, |pool|);
          return FrontLoaded(pool, c);
        }
      }
      picks := pool;
    }

    /** The pool from cheapest to dearest, ties in candidate order. */
    method LeastCostTargets(candidates: seq<Key>, prices: map<Key, real>, queried: seq<real>)
      returns (picks: seq<nat>, refusals: seq<bool>)
      requires Valid() && |candidates| == |queried|
      modifies breaker
      ensures Valid() && Marked(breaker, old(breaker.View()), Looks(candidates, queried, |candidates|))
      ensures |refusals| == |candidates| && Asked(breaker.cfg, old(breaker.View()), candidates, queried, refusals)
      ensures Cheapest(candidates, prices, picks)
      ensures forall i :: i in picks <==> i in Passing(refusals)
    {
      refusals := AskAll(candidates, queried);
      var pool := Filter(refusals);
      picks := SortByPrice(candidates, prices, pool);
    }

    /** The target order of a strategy that looks at the candidates first. */
    method PickBy(strategy: Strategy, candidates: seq<Key>, queried: seq<real>)
      returns (picks: seq<nat>, refusals: seq<bool>)
      requires Valid() && |candidates| == |queried|
      modifies breaker
      ensures Valid() && Marked(breaker, old(breaker.View()), Looks(candidates, queried, |candidates|))
      ensures |refusals| == |candidates| && Asked(breaker.cfg, old(breaker.View()), candidates, queried, refusals)
      ensures Distinct(picks) && forall i :: i in picks <==> i in Passing(refusals)
    {
      if strategy.Weighted? {
        picks, refusals := WeightedTargets(candidates, strategy.weights, queried, strategy.draw);
        DrawnPicksPool(candidates, strategy.weights, Passing(refusals), strategy.draw, picks);
      } else {
        picks, refusals := LeastCostTargets(candidates, strategy.prices, queried);
        CheapestDistinct(candidates, strategy.prices, picks);
      }
    }

    /** The targets of such a strategy, tried in order; trials says what the i-th target meets. */
    method TryBy(kb: string, strategy: Strategy, candidates: seq<Key>, queried: seq<real>, trials: nat -> Trial)
      returns (result: ChatResult)
      requires Valid() && |candidates| == |queried|
      modifies breaker, this`records
      ensures Valid()
      ensures Distinct(candidates) ==> result.Reply? || result == AllFailed
      ensures records == old(records) + if result.Reply? then [CostRecord(kb, result.cost)] else []
    {
      ghost var start := breaker.View();
      var picks, refusals := PickBy(strategy, candidates, queried);
      forall i | 0 <= i < |picks| ensures picks[i] < |candidates| { assert picks[i] in Passing(refusals); }
      var targets := Chosen(candidates, picks);
      var tries := seq(|picks|, i requires 0 <= i < |picks| => trials(i));
      ghost var after := breaker.View();
      assert forall k :: after(k) == Now(breaker.cfg, start, Looks(candidates, queried, |candidates|), k);
      result := TryTargets(kb, targets, tries);
      if Distinct(candidates) {
        StrategyAvoidsOpen(breaker.cfg, start, after, maxRetries, candidates, queried, refusals, picks, tries);
      }
    }

    /** One call by such a strategy: the budget gate, the pick, the targets. */
    method ChatBy(kb: string, strategy: Strategy, candidates: seq<Key>, queried: seq<real>, trials: nat -> Trial)
      returns (result: ChatResult)
      requires Valid() && |candidates| == |queried|
      modifies breaker, this`records
      ensures Valid()
      ensures !WithinBudget(caps, old(records), kb) ==> result == BudgetReached
      ensures WithinBudget(caps, old(records), kb) && Distinct(candidates) ==> result.Reply? || result == AllFailed
      ensures records == Charged(caps, old(records), kb, if result.Reply? then Some(result.cost) else None)
    {
      if kb in caps {
        var daily := SumDailyCost(kb);
        if daily >= caps[kb] {
          return BudgetReached;
        }
      }
      result := TryBy(kb, strategy, candidates, queried, trials);
    }

    static method SortByPrice(candidates: seq<Key>, prices: map<Key, real>, pool: seq<nat>) returns (picks: seq<nat>)
      requires forall i :: 0 <= i < |pool| ==> pool[i] < |candidates|
      requires forall i, j :: 0 <= i < j < |pool| ==> pool[i] < pool[j]
      ensures Cheapest(candidates, prices, picks)
      ensures forall i :: i in picks <==> i in pool
    {
      picks := [];
      for n := 0 to |pool|
        invariant Cheapest(candidates, prices, picks)
        invariant forall i :: i in picks <==> i in pool[..n]
      {
        assert pool[n] !in pool[..n];
        picks := Insert(candidates, prices, picks, pool[n]);
        assert pool[..n + 1] == pool[..n] + [pool[n]];
      }
      assert pool[..|pool|] == pool;
    }

    /** Insertion behind everything that sorts before the new pick. */
    static method Insert(candidates: seq<Key>, prices: map<Key, real>, picks: seq<nat>, pick: nat)
      returns (picks': seq<nat>)
      requires pick < |candidates| && pick !in picks && Cheapest(candidates, prices, picks)
      ensures Cheapest(candidates, prices, picks')
      ensures forall i :: i in picks' <==> i == pick || i in picks
    {
      var at := 0;
      while at < |picks| && Before(candidates, prices, picks[at], pick)
        invariant 0 <= at <= |picks|
        invariant forall j :: 0 <= j < at ==> Before(candidates, prices, picks[j], pick)
      {
        at := at + 1;
      }
      picks' := picks[..at] + [pick] + picks[at..];
      InsertedCheapest(candidates, prices, picks, pick, at);
      assert picks == picks[..at] + picks[at..];
    }
  }

  /** The breaker is where the marks made since start have brought it. */
  ghost predicate Marked(breaker: CircuitBreaker, start: Key -> KeyState, trace: seq<Mark>)
    reads breaker
  {
    forall k :: breaker.At(k) == Now(breaker.cfg, start, trace, k)
  }

  /** One more mark is one more step of its key, and of no other. */
  lemma MarkOne(cfg: Config, start: Key -> KeyState, trace: seq<Mark>, m: Mark, k: Key)
    ensures Now(cfg, start, trace + [m], k)
            == if k == m.key then Step(cfg, Now(cfg, start, trace, k), m.event) else Now(cfg, start, trace, k)
  {
    assert (trace + [m])[..|trace|] == trace;
    var was := EventsOf(trace, k);
    if k == m.key {
      RunLast(cfg, start(k), was + [m.event]);
      assert (was + [m.event])[..|was|] == was;
      assert EventsOf(trace + [m], k) == was + [m.event];
    } else {
      assert EventsOf(trace + [m], k) == was + [] == was;
    }
  }

  lemma MarkMore(cfg: Config, start: Key -> KeyState, trace: seq<Mark>, m: Mark)
    ensures Now(cfg, start, trace + [m], m.key) == Step(cfg, Now(cfg, start, trace, m.key), m.event)
    ensures forall k :: k != m.key ==> Now(cfg, start, trace + [m], k) == Now(cfg, start, trace, k)
  {
    MarkOne(cfg, start, trace, m, m.key);
    forall k | k != m.key { MarkOne(cfg, start, trace, m, k); }
  }
}
