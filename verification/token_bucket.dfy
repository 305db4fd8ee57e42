/**
  Token-bucket rate limiting over real time: the in-process bucket and the
  record that the two Redis scripts rewrite.
*/
module TokenBucket {
  import opened Wrappers

  datatype Limits = Limits(rate: real, capacity: real)
  {
    ghost predicate Valid() { rate > 0.0 && capacity > 0.0 }
  }

  /** Allowed stands for returning None, Wait for returning the seconds to wait. */
  datatype Decision = Allowed | Wait(seconds: real)

  /** Tokens that trickle in over a span of time. */
  function Earned(l: Limits, seconds: real): real { seconds * l.rate }

  function Min(a: real, b: real): real { if a <= b then a else b }

  function Max(a: real, b: real): real { if a >= b then a else b }

  // -------------------------------------------------------- in-process bucket

  datatype Bucket = Bucket(tokens: real, last: real)

  function Refill(l: Limits, b: Bucket, now: real): Bucket {
    Bucket(Min(l.capacity, b.tokens + Earned(l, now - b.last)), now)
  }

  function Acquire(l: Limits, b: Bucket, amount: real, now: real): (Bucket, Decision)
    requires l.rate != 0.0
  {
    var r := Refill(l, b, now);
    if r.tokens >= amount then (r.(tokens := r.tokens - amount), Allowed)
    else (r, Wait((amount - r.tokens) / l.rate))
  }

  function AddTokens(l: Limits, b: Bucket, count: real, now: real): Bucket {
    var r := Refill(l, b, now);
    r.(tokens := Max(0.0, r.tokens - count))
  }

  ghost predicate Within(l: Limits, b: Bucket) {
    0.0 <= b.tokens <= l.capacity
  }

  /** One call on a key: a request for tokens, or a back-fill of tokens consumed elsewhere. */
  datatype Op = Request(key: string, amount: real, now: real) | Consumed(key: string, amount: real, now: real)

  ghost predicate Sorted(ops: seq<Op>) {
    && (forall i :: 0 <= i < |ops| ==> ops[i].amount >= 0.0)
    && (forall i, j :: 0 <= i < j < |ops| ==> ops[i].now <= ops[j].now)
  }

  function Opened(l: Limits, b: Option<Bucket>, now: real): Bucket {
    if b.Some? then b.value else Bucket(l.capacity, now)
  }

  function StepKey(l: Limits, b: Option<Bucket>, op: Op): (Bucket, Option<Decision>)
    requires l.rate != 0.0
  {
    var bucket := Opened(l, b, op.now);
    match op
    case Request(_, amount, now) => var (b', d) := Acquire(l, bucket, amount, now); (b', Some(d))
    case Consumed(_, amount, now) => (AddTokens(l, bucket, amount, now), None)
  }

  function Decisions(l: Limits, b: Option<Bucket>, ops: seq<Op>): seq<Option<Decision>>
    requires l.rate != 0.0
    decreases ops
  {
    if ops == [] then []
    else var (b', d) := StepKey(l, b, ops[0]); [d] + Decisions(l, Some(b'), ops[1..])
  }

  lemma EarnedMonotone(l: Limits, a: real, b: real)
    requires l.Valid() && a <= b
    ensures Earned(l, a) <= Earned(l, b)
    ensures a < b ==> Earned(l, a) < Earned(l, b)
    ensures 0.0 <= a ==> 0.0 <= Earned(l, a)
  {
  }

  lemma EarnedSplit(l: Limits, a: real, b: real, c: real)
    requires l.Valid() && a <= b <= c
    ensures Earned(l, b - a) + Earned(l, c - b) == Earned(l, c - a)
    ensures 0.0 <= Earned(l, c - b) <= Earned(l, c - a)
  {
  }

  lemma RefillWithin(l: Limits, b: Bucket, now: real)
    requires l.Valid() && Within(l, b) && now >= b.last
    ensures Within(l, Refill(l, b, now))
    ensures b.tokens <= Refill(l, b, now).tokens <= b.tokens + Earned(l, now - b.last)
  {
    EarnedMonotone(l, 0.0, now - b.last);
  }

  lemma StepWithin(l: Limits, b: Option<Bucket>, op: Op)
    requires l.Valid() && op.amount >= 0.0
    requires b.Some? ==> Within(l, b.value) && op.now >= b.value.last
    ensures Within(l, StepKey(l, b, op).0) && StepKey(l, b, op).0.last == op.now
  {
    RefillWithin(l, Opened(l, b, op.now), op.now);
  }

  // ------------------------------------------------------------ the admission bound

  /** What one call took out of the bucket, and the level it left. */
  datatype Payment = Payment(now: real, paid: real, level: real)

  /** An admitted request takes its amount, a denied one nothing, a back-fill what there is up to its amount. */
  function Paid(l: Limits, b: Option<Bucket>, op: Op): real
    requires l.rate != 0.0
  {
    match op
    case Request(_, amount, _) => if StepKey(l, b, op).1 == Some(Allowed) then amount else 0.0
    case Consumed(_, amount, now) => Min(amount, Refill(l, Opened(l, b, now), now).tokens)
  }

  function Payments(l: Limits, b: Option<Bucket>, ops: seq<Op>): seq<Payment>
    requires l.rate != 0.0
    decreases ops
  {
    if ops == [] then []
    else
      var b' := StepKey(l, b, ops[0]).0;
      [Payment(ops[0].now, Paid(l, b, ops[0]), b'.tokens)] + Payments(l, Some(b'), ops[1..])
  }

  function PaidIn(ps: seq<Payment>, t1: real, t2: real): real {
    if ps == [] then 0.0
    else (if t1 <= ps[0].now <= t2 then ps[0].paid else 0.0) + PaidIn(ps[1..], t1, t2)
  }

  /** Tokens admitted or charged at times in [t1, t2] while ops run from b. */
  function Admitted(l: Limits, b: Option<Bucket>, ops: seq<Op>, t1: real, t2: real): real
    requires l.rate != 0.0
  {
    PaidIn(Payments(l, b, ops), t1, t2)
  }

  ghost predicate Starts(l: Limits, b: Option<Bucket>, ops: seq<Op>) {
    && Sorted(ops)
    && (b.Some? ==> Within(l, b.value) && forall i :: 0 <= i < |ops| ==> b.value.last <= ops[i].now)
  }

  lemma StartsRest(l: Limits, b: Option<Bucket>, ops: seq<Op>)
    requires l.Valid() && Starts(l, b, ops) && ops != []
    ensures Starts(l, Some(StepKey(l, b, ops[0]).0), ops[1..])
  {
    StepWithin(l, b, ops[0]);
  }

  /** What is paid and what is left are together the level before and the refill since, cut to the capacity. */
  ghost predicate Covers(l: Limits, level: real, last: real, p: Payment) {
    && p.now >= last && p.paid >= 0.0 && p.level >= 0.0
    && p.level + p.paid == Min(l.capacity, level + Earned(l, p.now - last))
  }

  ghost predicate Ledger(l: Limits, level: real, last: real, ps: seq<Payment>)
    decreases ps
  {
    ps != [] ==> Covers(l, level, last, ps[0]) && Ledger(l, ps[0].level, ps[0].now, ps[1..])
  }

  lemma StepCovers(l: Limits, b: Bucket, op: Op)
    requires l.Valid() && op.amount >= 0.0 && Within(l, b) && op.now >= b.last
    ensures Covers(l, b.tokens, b.last, Payment(op.now, Paid(l, Some(b), op), StepKey(l, Some(b), op).0.tokens))
  {
    StepWithin(l, Some(b), op);
    RefillWithin(l, b, op.now);
  }

  /** Conservation: every call of a run takes and leaves exactly what was there and trickled in, cut to the capacity. */
  lemma {:induction false} PaymentsLedger(l: Limits, b: Bucket, ops: seq<Op>)
    requires l.Valid() && Starts(l, Some(b), ops)
    ensures Ledger(l, b.tokens, b.last, Payments(l, Some(b), ops))
    decreases ops
  {
    if ops != [] {
      StepCovers(l, b, ops[0]);
      StepWithin(l, Some(b), ops[0]);
      StartsRest(l, Some(b), ops);
      PaymentsLedger(l, StepKey(l, Some(b), ops[0]).0, ops[1..]);
    }
  }

  /** Inside the window, what is paid comes from the level at hand and the refill since. */
  lemma {:induction false} LedgerInside(l: Limits, level: real, last: real, ps: seq<Payment>, t1: real, t2: real)
    requires l.Valid() && Ledger(l, level, last, ps) && level >= 0.0 && t1 <= last
    ensures last <= t2 ==> PaidIn(ps, t1, t2) <= level + Earned(l, t2 - last)
    ensures last > t2 ==> PaidIn(ps, t1, t2) <= 0.0
    decreases ps
  {
    if ps == [] {
      if last <= t2 { EarnedMonotone(l, 0.0, t2 - last); }
    } else {
      LedgerInside(l, ps[0].level, ps[0].now, ps[1..], t1, t2);
      if ps[0].now <= t2 {
        EarnedSplit(l, last, ps[0].now, t2);
      } else if last <= t2 {
        EarnedMonotone(l, 0.0, t2 - last);
      }
    }
  }

  lemma {:induction false} LedgerBound(l: Limits, level: real, last: real, ps: seq<Payment>, t1: real, t2: real)
    requires l.Valid() && Ledger(l, level, last, ps) && t1 <= t2
    ensures PaidIn(ps, t1, t2) <= l.capacity + Earned(l, t2 - t1)
    decreases ps
  {
    EarnedMonotone(l, 0.0, t2 - t1);
    if ps != [] {
      var now := ps[0].now;
      if now < t1 {
        LedgerBound(l, ps[0].level, now, ps[1..], t1, t2);
      } else {
        LedgerInside(l, ps[0].level, now, ps[1..], t1, t2);
        if now <= t2 { EarnedSplit(l, t1, now, t2); }
      }
    }
  }

  /** Over any run and window, the tokens admitted and charged are at most the capacity plus the window's refill. */
  lemma AdmissionBound(l: Limits, b: Option<Bucket>, ops: seq<Op>, t1: real, t2: real)
    requires l.Valid() && Starts(l, b, ops) && t1 <= t2
    ensures Admitted(l, b, ops, t1, t2) <= l.capacity + Earned(l, t2 - t1)
  {
    EarnedMonotone(l, 0.0, t2 - t1);
    if ops != [] {
      var from := Opened(l, b, ops[0].now);
      assert StepKey(l, b, ops[0]) == StepKey(l, Some(from), ops[0]);
      assert Payments(l, b, ops) == Payments(l, Some(from), ops);
      PaymentsLedger(l, from, ops);
      LedgerBound(l, from.tokens, from.last, Payments(l, b, ops), t1, t2);
    }
  }

  /** On every run the level stays between zero and the capacity. */
  lemma {:induction false} LevelWithinCapacity(l: Limits, b: Option<Bucket>, ops: seq<Op>)
    requires l.Valid() && Starts(l, b, ops) && ops != []
    ensures Within(l, After(l, b, ops).value)
    decreases ops
  {
    StepWithin(l, b, ops[0]);
    StartsRest(l, b, ops);
    if |ops| > 1 {
      LevelWithinCapacity(l, Some(StepKey(l, b, ops[0]).0), ops[1..]);
    }
  }

  function After(l: Limits, b: Option<Bucket>, ops: seq<Op>): (r: Option<Bucket>)
    requires l.rate != 0.0
    ensures ops != [] ==> r.Some?
    decreases ops
  {
    if ops == [] then b else After(l, Some(StepKey(l, b, ops[0]).0), ops[1..])
  }

  // -------------------------------------------------------------- the wait is tight

  /**
    After a denial with wait w, and no other traffic on the key, the same request
    is admitted at exactly the times from now + w on, provided that it fits the
    capacity; a larger request is never admitted.
  */
  lemma WaitIsTight(l: Limits, b: Bucket, amount: real, now: real, retry: real)
    requires l.Valid() && Within(l, b) && b.last <= now <= retry
    requires Acquire(l, b, amount, now).1.Wait?
    ensures var (b', d) := Acquire(l, b, amount, now);
      && d.seconds > 0.0
      && (Acquire(l, b', amount, retry).1 == Allowed <==> amount <= l.capacity && retry >= now + d.seconds)
  {
  }

  // --------------------------------------------------------------- Redis record

  /** The hash stored under a key and the time at which Redis drops it. */
  datatype Record = Record(tokens: real, ts: real, expires: real)

  function Ceil(x: real): int { -((-x).Floor) }

  function LifeTime(l: Limits): real
    requires l.rate != 0.0
  {
    (Ceil(l.capacity / l.rate) + 1) as real
  }

  /** What HMGET finds: nothing once the key has expired. */
  function Found(r: Option<Record>, now: real): Option<Record> {
    if r.Some? && now < r.value.expires then r else None
  }

  /** The level that both scripts compute before they branch. */
  function Current(l: Limits, r: Option<Record>, now: real): real {
    var found := Found(r, now);
    var current := if found.Some? then found.value.tokens else l.capacity;
    var last := if found.Some? then found.value.ts else now;
    Min(l.capacity, current + Earned(l, Max(0.0, now - last)))
  }

  function Written(l: Limits, tokens: real, now: real): Record
    requires l.rate != 0.0
  {
    Record(tokens, now, now + LifeTime(l))
  }

  function StepScript(l: Limits, r: Option<Record>, op: Op): (Record, Option<Decision>)
    requires l.rate != 0.0
  {
    var current := Current(l, r, op.now);
    match op
    case Request(_, amount, now) =>
      if current >= amount then (Written(l, current - amount, now), Some(Allowed))
      else (Written(l, current, now), Some(Wait((amount - current) / l.rate)))
    case Consumed(_, count, now) => (Written(l, Max(0.0, current - count), now), None)
  }

  function ScriptDecisions(l: Limits, r: Option<Record>, ops: seq<Op>): seq<Option<Decision>>
    requires l.rate != 0.0
    decreases ops
  {
    if ops == [] then []
    else var (r', d) := StepScript(l, r, ops[0]); [d] + ScriptDecisions(l, Some(r'), ops[1..])
  }

  /** The record mirrors the bucket, whether or not Redis has dropped it since. */
  ghost predicate Mirrors(l: Limits, b: Option<Bucket>, r: Option<Record>)
    requires l.rate != 0.0
  {
    match b
    case None => r == None
    case Some(k) => Within(l, k) && r == Some(Record(k.tokens, k.last, k.last + LifeTime(l)))
  }

  /** A record old enough to be dropped would have refilled to the capacity anyway. */
  lemma ExpiryUnobservable(l: Limits, b: Bucket, now: real)
    requires l.Valid() && Within(l, b) && now >= b.last + LifeTime(l)
    ensures Refill(l, b, now).tokens == l.capacity
  {
  }

  lemma CurrentAgrees(l: Limits, b: Option<Bucket>, r: Option<Record>, now: real)
    requires l.Valid() && Mirrors(l, b, r)
    requires b.Some? ==> now >= b.value.last
    ensures Current(l, r, now) == Refill(l, Opened(l, b, now), now).tokens
  {
  }

  lemma StepAgrees(l: Limits, b: Option<Bucket>, r: Option<Record>, op: Op)
    requires l.Valid() && op.amount >= 0.0 && Mirrors(l, b, r)
    requires b.Some? ==> op.now >= b.value.last
    ensures StepKey(l, b, op).1 == StepScript(l, r, op).1
    ensures Mirrors(l, Some(StepKey(l, b, op).0), Some(StepScript(l, r, op).0))
  {
    StepWithin(l, b, op);
    CurrentAgrees(l, b, r, op.now);
  }

  /**
    Under a clock that does not go back, the Redis scripts take the decisions of
    the in-process bucket on every run, waits included, key expiry included.
  */
  lemma {:induction false} ScriptRefinesBucket(l: Limits, b: Option<Bucket>, r: Option<Record>, ops: seq<Op>)
    requires l.Valid() && Starts(l, b, ops) && Mirrors(l, b, r)
    ensures ScriptDecisions(l, r, ops) == Decisions(l, b, ops)
    decreases ops
  {
    if ops != [] {
      StepAgrees(l, b, r, ops[0]);
      StartsRest(l, b, ops);
      ScriptRefinesBucket(l, Some(StepKey(l, b, ops[0]).0), Some(StepScript(l, r, ops[0]).0), ops[1..]);
    }
  }

  // ------------------------------------------------------- keys do not interfere

  function LookUp<T>(m: map<string, T>, key: string): Option<T> {
    if key in m then Some(m[key]) else None
  }

  function StepAll(l: Limits, m: map<string, Bucket>, op: Op): map<string, Bucket>
    requires l.rate != 0.0
  {
    m[op.key := StepKey(l, LookUp(m, op.key), op).0]
  }

  function RunAll(l: Limits, m: map<string, Bucket>, ops: seq<Op>): map<string, Bucket>
    requires l.rate != 0.0
    decreases ops
  {
    if ops == [] then m else RunAll(l, StepAll(l, m, ops[0]), ops[1..])
  }

  function OpsOf(ops: seq<Op>, key: string): seq<Op> {
    if ops == [] then []
    else (if ops[0].key == key then [ops[0]] else []) + OpsOf(ops[1..], key)
  }

  /** What a key's bucket goes through in a run over many keys is the run of its own calls. */
  lemma {:induction false} KeysAreIndependent(l: Limits, m: map<string, Bucket>, ops: seq<Op>, key: string)
    requires l.rate != 0.0
    ensures LookUp(RunAll(l, m, ops), key) == After(l, LookUp(m, key), OpsOf(ops, key))
    decreases ops
  {
    if ops != [] {
      KeysAreIndependent(l, StepAll(l, m, ops[0]), ops[1..], key);
      if ops[0].key == key {
        assert OpsOf(ops, key)[1..] == OpsOf(ops[1..], key);
      } else {
        assert OpsOf(ops, key) == OpsOf(ops[1..], key);
      }
    }
  }

  // ------------------------------------------------------------------ the classes

  class InProcessBucket {
    const limits: Limits
    var tokens: real
    var lastRefill: real

    function State(): Bucket
      reads this
    {
      Bucket(tokens, lastRefill)
    }

    constructor (limits: Limits, now: real)
      ensures this.limits == limits && State() == Bucket(limits.capacity, now)
    {
      this.limits, tokens, lastRefill := limits, limits.capacity, now;
    }

    method RefillAt(now: real)
      modifies this
      ensures State() == Refill(limits, old(State()), now)
    {
      var elapsed := now - lastRefill;
      tokens := Min(limits.capacity, tokens + elapsed * limits.rate);
      lastRefill := now;
    }

    method AcquireAt(amount: real, now: real) returns (d: Decision)
      requires limits.rate != 0.0
      modifies this
      ensures (State(), d) == Acquire(limits, old(State()), amount, now)
    {
      RefillAt(now);
      if tokens >= amount {
        tokens := tokens - amount;
        return Allowed;
      }
      var deficit := amount - tokens;
      d := Wait(deficit / limits.rate);
    }

    method AddTokensAt(count: real, now: real)
      modifies this
      ensures State() == AddTokens(limits, old(State()), count, now)
    {
      RefillAt(now);
      tokens := Max(0.0, tokens - count);
    }
  }

  class InProcessRateLimiter {
    const limits: Limits
    var buckets: map<string, InProcessBucket>

    /** One bucket object per key, none shared. */
    ghost predicate Valid()
      reads this, buckets.Values
    {
      && limits.rate != 0.0
      && (forall k :: k in buckets ==> buckets[k].limits == limits)
      && (forall k, k' :: k in buckets && k' in buckets && k != k' ==> buckets[k] != buckets[k'])
    }

    ghost function Levels(): map<string, Bucket>
      reads this, buckets.Values
    {
      map k | k in buckets :: buckets[k].State()
    }

    constructor (limits: Limits)
      requires limits.rate != 0.0
      ensures Valid() && this.limits == limits && Levels() == map[]
    {
      this.limits, buckets := limits, map[];
    }

    /** The bucket of a key, created full on first use. */
    method BucketOf(key: string, now: real) returns (b: InProcessBucket)
      requires Valid()
      modifies this`buckets
      ensures Valid() && key in buckets && buckets[key] == b
      ensures fresh(buckets.Values - old(buckets.Values))
      ensures forall k :: k in old(buckets) ==> k in buckets && buckets[k] == old(buckets)[k]
      ensures Levels() == old(Levels())[key := Opened(limits, LookUp(old(Levels()), key), now)]
    {
      if key !in buckets {
        var created := new InProcessBucket(limits, now);
        buckets := buckets[key := created];
      }
      b := buckets[key];
    }

    method AcquireAt(key: string, amount: real, now: real) returns (d: Decision)
      requires Valid()
      modifies this`buckets, buckets.Values
      ensures Valid() && fresh(buckets.Values - old(buckets.Values))
      ensures Levels() == StepAll(limits, old(Levels()), Request(key, amount, now))
      ensures Some(d) == StepKey(limits, LookUp(old(Levels()), key), Request(key, amount, now)).1
    {
      var bucket := BucketOf(key, now);
      assert bucket.State() == Levels()[key] == Opened(limits, LookUp(old(Levels()), key), now);
      d := bucket.AcquireAt(amount, now);
    }

    method AddTokensAt(key: string, count: real, now: real)
      requires Valid()
      modifies this`buckets, buckets.Values
      ensures Valid() && fresh(buckets.Values - old(buckets.Values))
      ensures Levels() == StepAll(limits, old(Levels()), Consumed(key, count, now))
    {
      var bucket := BucketOf(key, now);
      bucket.AddTokensAt(count, now);
    }
  }

  /** The Redis side: both scripts read, recompute and rewrite one hash. */
  class RedisBuckets {
    var hashes: map<string, Record>

    constructor ()
      ensures hashes == map[]
    {
      hashes := map[];
    }

    /** The opening lines that both scripts share. */
    method Level(l: Limits, key: string, now: real) returns (current: real)
      ensures current == Current(l, LookUp(hashes, key), now)
    {
      current := l.capacity;
      var lastTs := now;
      if key in hashes && now < hashes[key].expires {
        current := hashes[key].tokens;
        lastTs := hashes[key].ts;
      }
      var elapsed := Max(0.0, now - lastTs);
      current := Min(l.capacity, current + elapsed * l.rate);
    }

    method AcquireScript(l: Limits, key: string, amount: real, now: real) returns (d: Decision)
      requires l.rate != 0.0
      modifies this
      ensures hashes == old(hashes)[key := StepScript(l, LookUp(old(hashes), key), Request(key, amount, now)).0]
      ensures Some(d) == StepScript(l, LookUp(old(hashes), key), Request(key, amount, now)).1
    {
      var current := Level(l, key, now);
      if current >= amount {
        current := current - amount;
        hashes := hashes[key := Written(l, current, now)];
        d := Allowed;
      } else {
        var needed := amount - current;
        var wait := needed / l.rate;
        hashes := hashes[key := Written(l, current, now)];
        d := Wait(wait);
      }
    }

    method AddScript(l: Limits, key: string, add: real, now: real) returns (level: real)
      requires l.rate != 0.0
      modifies this
      ensures hashes == old(hashes)[key := StepScript(l, LookUp(old(hashes), key), Consumed(key, add, now)).0]
      ensures level == hashes[key].tokens
    {
      var current := Level(l, key, now);
      current := Max(0.0, current - add);
      hashes := hashes[key := Written(l, current, now)];
      level := current;
    }
  }
}
