/**
  The exact tier of the semantic cache: string keys that carry the epoch of
  their knowledge base, invalidation by raising the epoch, and lookups and
  stores whose steps interleave.
*/
module EpochCache {
  import opened Wrappers
  import opened Decimal

  // ------------------------------------------------------------------ key strings

  function Prefix(ns: string, kb: string): string { ns + ":" + kb + ":" }

  function FullKey(ns: string, kb: string, epoch: nat, key: string): string {
    ns + ":" + kb + ":" + Dec(epoch) + ":" + key
  }

  predicate ColonFree(s: string) { ':' !in s }

  predicate StartsWith(s: string, p: string) { p <= s }

  lemma DecColonFree(n: nat)
    ensures ColonFree(Dec(n)) && Dec(n) != ""
  {
    DecDigits(n);
  }

  /** What follows the last colon is determined, and so is what comes before it. */
  lemma SplitAtLastColon(a: string, x: string, b: string, y: string)
    requires a + ":" + x == b + ":" + y && ColonFree(x) && ColonFree(y)
    ensures a == b && x == y
  {
    var s, t := a + ":" + x, b + ":" + y;
    assert s[|a|] == ':' && forall i :: |a| < i < |s| ==> s[i] == x[i - |a| - 1] != ':';
    assert t[|b|] == ':' && forall i :: |b| < i < |t| ==> t[i] == y[i - |b| - 1] != ':';
    assert |a| == |b|;
    assert s[..|a|] == a && t[..|b|] == b;
    assert s[|a| + 1..] == x && t[|b| + 1..] == y;
  }

  /** Two entries share a key only if they agree on knowledge base, epoch and digest. */
  lemma FullKeyInjective(ns: string, kb: string, epoch: nat, key: string, kb': string, epoch': nat, key': string)
    requires FullKey(ns, kb, epoch, key) == FullKey(ns, kb', epoch', key')
    requires ColonFree(key) && ColonFree(key')
    ensures kb == kb' && epoch == epoch' && key == key'
  {
    DecColonFree(epoch);
    DecColonFree(epoch');
    SplitAtLastColon(ns + ":" + kb + ":" + Dec(epoch), key, ns + ":" + kb' + ":" + Dec(epoch'), key');
    SplitAtLastColon(ns + ":" + kb, Dec(epoch), ns + ":" + kb', Dec(epoch'));
    DecInjective(epoch, epoch');
    assert (ns + ":" + kb)[|ns| + 1..] == kb && (ns + ":" + kb')[|ns| + 1..] == kb';
  }

  /** Which keys a prefix scan for p picks up. */
  ghost predicate Scanned(p: string, kb: string, epoch: nat) {
    StartsWith(kb + ":", p + ":") || p == kb + ":" + Dec(epoch)
  }

  lemma ScanPicksUp(p: string, kb: string, epoch: nat, key: string)
    requires Scanned(p, kb, epoch)
    ensures StartsWith(kb + ":" + Dec(epoch) + ":" + key, p + ":")
  {
  }

  lemma ScanPicksOnly(p: string, kb: string, epoch: nat, key: string)
    requires ColonFree(key) && StartsWith(kb + ":" + Dec(epoch) + ":" + key, p + ":")
    ensures Scanned(p, kb, epoch)
  {
    var d := Dec(epoch);
    var s := kb + ":" + d + ":" + key;
    DecColonFree(epoch);
    assert s[|p|] == (p + ":")[|p|] == ':';
    assert forall i :: |kb| < i <= |kb| + |d| ==> s[i] == d[i - |kb| - 1] != ':';
    assert forall i :: |kb| + |d| + 1 < i < |s| ==> s[i] == key[i - |kb| - |d| - 2] != ':';
    if |p| <= |kb| {
      assert (kb + ":")[..|p| + 1] == s[..|p| + 1] == p + ":";
    } else {
      assert |p| == |kb| + |d| + 1;
      assert p == s[..|p|] == kb + ":" + d;
    }
  }

  lemma DropCommon(a: string, s: string, p: string)
    ensures StartsWith(a + s, a + p) <==> StartsWith(s, p)
  {
    assert (a + s)[|a|..] == s;
    if StartsWith(a + s, a + p) {
      assert a + p == (a + s)[..|a| + |p|];
      assert p == (a + p)[|a|..] == s[..|p|];
    }
    if StartsWith(s, p) {
      assert s == p + s[|p|..];
      assert a + s == (a + p) + s[|p|..];
    }
  }

  lemma PrefixScan(ns: string, p: string, kb: string, epoch: nat, key: string)
    requires ColonFree(key)
    ensures StartsWith(FullKey(ns, kb, epoch, key), Prefix(ns, p)) <==> Scanned(p, kb, epoch)
  {
    var s := kb + ":" + Dec(epoch) + ":" + key;
    assert FullKey(ns, kb, epoch, key) == (ns + ":") + s;
    assert Prefix(ns, p) == (ns + ":") + (p + ":");
    DropCommon(ns + ":", s, p + ":");
    if Scanned(p, kb, epoch) { ScanPicksUp(p, kb, epoch, key); }
    if StartsWith(s, p + ":") { ScanPicksOnly(p, kb, epoch, key); }
  }

  // ------------------------------------------------------------------- the cache

  datatype Entry = Entry(expires: real, value: string)

  datatype Cache = Cache(entries: map<string, Entry>, epochs: map<string, nat>)

  function EpochOf(c: Cache, kb: string): nat { if kb in c.epochs then c.epochs[kb] else 1 }

  function Hit(c: Cache, full: string, now: real): Option<string> {
    if full in c.entries && now <= c.entries[full].expires then Some(c.entries[full].value) else None
  }

  /** A look drops the entry it finds expired. */
  function AfterGet(c: Cache, full: string, now: real): Cache {
    if full in c.entries && now > c.entries[full].expires then c.(entries := c.entries - {full}) else c
  }

  function AfterSet(c: Cache, full: string, value: string, expires: real): Cache {
    c.(entries := c.entries[full := Entry(expires, value)])
  }

  /** Stale keys: in the scan of the knowledge base, but not under its new epoch. */
  predicate Stale(ns: string, kb: string, epoch: nat, full: string) {
    StartsWith(full, Prefix(ns, kb)) && !StartsWith(full, Prefix(ns, kb) + Dec(epoch) + ":")
  }

  function AfterInvalidate(ns: string, c: Cache, kb: string): Cache {
    var epoch := EpochOf(c, kb) + 1;
    Cache(map f | f in c.entries && !Stale(ns, kb, epoch, f) :: c.entries[f], c.epochs[kb := epoch])
  }

  /**
    Exactly which entries an invalidation of kb drops: those of a knowledge base
    whose id the scan of kb picks up, unless the scan of the new epoch does too.
  */
  lemma DroppedIff(ns: string, kb: string, epoch: nat, kb': string, epoch': nat, key: string)
    requires ColonFree(key)
    ensures Stale(ns, kb, epoch, FullKey(ns, kb', epoch', key))
            <==> Scanned(kb, kb', epoch') && !Scanned(kb + ":" + Dec(epoch), kb', epoch')
  {
    PrefixScan(ns, kb, kb', epoch', key);
    PrefixScan(ns, kb + ":" + Dec(epoch), kb', epoch', key);
    assert Prefix(ns, kb) + Dec(epoch) + ":" == Prefix(ns, kb + ":" + Dec(epoch));
  }

  /** With colon-free ids, an invalidation drops its own knowledge base's entries from other epochs, and no others. */
  lemma ColonFreeDrops(ns: string, kb: string, epoch: nat, kb': string, epoch': nat, key: string)
    requires ColonFree(key) && ColonFree(kb) && ColonFree(kb')
    ensures Stale(ns, kb, epoch, FullKey(ns, kb', epoch', key)) <==> kb == kb' && epoch != epoch'
  {
    DroppedIff(ns, kb, epoch, kb', epoch', key);
    ScanColonFree(kb, kb', epoch');
    var p := kb + ":" + Dec(epoch);
    DecColonFree(epoch);
    assert (p + ":")[|kb|] == ':' && |p + ":"| > |kb| + 1;
    assert forall i :: 0 <= i < |kb'| ==> (kb' + ":")[i] == kb'[i] != ':';
    if p == kb' + ":" + Dec(epoch') {
      DecColonFree(epoch);
      DecColonFree(epoch');
      SplitAtLastColon(kb, Dec(epoch), kb', Dec(epoch'));
      DecInjective(epoch, epoch');
    }
  }

  lemma ScanColonFree(p: string, kb: string, epoch: nat)
    requires ColonFree(p) && ColonFree(kb)
    ensures Scanned(p, kb, epoch) <==> p == kb
  {
    if StartsWith(kb + ":", p + ":") {
      assert forall i :: 0 <= i < |kb| ==> (kb + ":")[i] == kb[i] != ':';
      assert (p + ":")[|p|] == ':' == (kb + ":")[|p|];
      assert |p| == |kb|;
      assert p == (p + ":")[..|p|] == (kb + ":")[..|p|] == kb;
    }
    assert (kb + ":" + Dec(epoch))[|kb|] == ':';
  }

  /** A colon in an id breaks the isolation: invalidating "a" drops what "a:b" has stored. */
  lemma ColonIdLosesEntries(ns: string, epoch: nat, key: string)
    requires ColonFree(key) && epoch >= 2
    ensures Stale(ns, "a", epoch, FullKey(ns, "a:b", 1, key))
  {
    DroppedIff(ns, "a", epoch, "a:b", 1, key);
    DecDigits(epoch);
    var p := "a" + ":" + Dec(epoch);
    assert p[2] == Dec(epoch)[0] && (p + ":")[2] == p[2];
    assert ("a:b" + ":")[2] == 'b' && ("a:b" + ":" + Dec(1))[2] == 'b';
    assert "a:b" + ":" == ("a" + ":") + "b:";
  }

  lemma {:induction false} DecDigits(n: nat)
    ensures Dec(n) != "" && '0' <= Dec(n)[0] <= '9'
  {
    if n >= 10 { DecDigits(n / 10); }
  }

  // ------------------------------------------------------------ interleaved steps

  /** What the program fixes: the namespace, and the digest that turns a text into a key. */
  datatype Setup = Setup(ns: string, digest: string -> string)

  ghost predicate Sound(u: Setup) {
    forall t :: ColonFree(u.digest(t))
  }

  /** Lookups and stores read the epoch in one step and touch the entry in a later one. */
  datatype Event =
    | BeginLookup(id: nat, kb: string, text: string)
    | EndLookup(id: nat, now: real)
    | BeginStore(id: nat, kb: string, text: string, answer: string)
    | EndStore(id: nat, expires: real)
    | Invalidate(kb: string)

  /** What a suspended lookup or store remembers; began is the index of its epoch-reading step. */
  datatype Suspended = Suspended(kb: string, text: string, answer: string, epoch: nat, began: nat)

  /** time counts steps; writer says for each full key which store wrote its entry, by the index of its first step. */
  datatype World = World(
    cache: Cache, lookups: map<nat, Suspended>, stores: map<nat, Suspended>, writer: map<string, nat>, time: nat)

  const START := World(Cache(map[], map[]), map[], map[], map[], 0)

  function KeyFor(u: Setup, s: Suspended): string { FullKey(u.ns, s.kb, s.epoch, u.digest(s.text)) }

  function Step(u: Setup, w: World, e: Event): World {
    var w1 := w.(time := w.time + 1);
    match e
    case BeginLookup(id, kb, text) =>
      w1.(lookups := w.lookups[id := Suspended(kb, text, "", EpochOf(w.cache, kb), w.time)])
    case EndLookup(id, now) =>
      if id !in w.lookups then w1
      else w1.(cache := AfterGet(w.cache, KeyFor(u, w.lookups[id]), now), lookups := w.lookups - {id})
    case BeginStore(id, kb, text, answer) =>
      w1.(stores := w.stores[id := Suspended(kb, text, answer, EpochOf(w.cache, kb), w.time)])
    case EndStore(id, expires) =>
      if id !in w.stores then w1
      else
        var full := KeyFor(u, w.stores[id]);
        w1.(cache := AfterSet(w.cache, full, w.stores[id].answer, expires),
            stores := w.stores - {id}, writer := w.writer[full := w.stores[id].began])
    case Invalidate(kb) => w1.(cache := AfterInvalidate(u.ns, w.cache, kb))
  }

  function Run(u: Setup, events: seq<Event>): World {
    if events == [] then START else Step(u, Run(u, events[..|events| - 1]), events[|events| - 1])
  }

  /** The answer that a suspended lookup would return at the given time. */
  function Answer(u: Setup, w: World, id: nat, now: real): Option<string> {
    if id in w.lookups then Hit(w.cache, KeyFor(u, w.lookups[id]), now) else None
  }

  // ------------------------------------------------------------------ no stale answer

  /** The epoch of kb after a run: one more than its invalidations. */
  function EpochAfter(events: seq<Event>, kb: string): nat {
    if events == [] then 1
    else EpochAfter(events[..|events| - 1], kb) + if events[|events| - 1] == Invalidate(kb) then 1 else 0
  }

  lemma {:induction false} EpochGrows(events: seq<Event>, kb: string, m: nat, n: nat)
    requires m <= n <= |events|
    ensures EpochAfter(events[..m], kb) <= EpochAfter(events[..n], kb)
    ensures (exists i :: m <= i < n && events[i] == Invalidate(kb)) ==>
      EpochAfter(events[..m], kb) < EpochAfter(events[..n], kb)
  {
    if m < n {
      EpochGrows(events, kb, m, n - 1);
      assert events[..n][..n - 1] == events[..n - 1] && events[..n][n - 1] == events[n - 1];
    }
  }

  ghost predicate LookupBegun(events: seq<Event>, id: nat, s: Suspended) {
    && s.began < |events|
    && events[s.began] == BeginLookup(id, s.kb, s.text)
    && s.epoch == EpochAfter(events[..s.began], s.kb)
  }

  ghost predicate StoreBegun(events: seq<Event>, id: nat, s: Suspended) {
    && s.began < |events|
    && events[s.began] == BeginStore(id, s.kb, s.text, s.answer)
    && s.epoch == EpochAfter(events[..s.began], s.kb)
  }

  /** The store that began at step b has ended, and its entry expires at the given time. */
  ghost predicate Ended(events: seq<Event>, b: nat, expires: real) {
    exists c :: b < c < |events| && events[b].BeginStore? && events[c] == EndStore(events[b].id, expires)
  }

  /** The entry was written by the store that began at step b. */
  ghost predicate WrittenBy(u: Setup, events: seq<Event>, full: string, entry: Entry, b: nat) {
    && b < |events|
    && events[b].BeginStore?
    && entry.value == events[b].answer
    && Ended(events, b, entry.expires)
    && full == FullKey(u.ns, events[b].kb, EpochAfter(events[..b], events[b].kb), u.digest(events[b].text))
  }

  ghost predicate EpochsExplained(events: seq<Event>, w: World) {
    w.time == |events| && forall kb :: EpochOf(w.cache, kb) == EpochAfter(events, kb)
  }

  ghost predicate SuspendedExplained(events: seq<Event>, w: World) {
    && (forall id :: id in w.lookups ==> LookupBegun(events, id, w.lookups[id]))
    && (forall id :: id in w.stores ==> StoreBegun(events, id, w.stores[id]))
  }

  ghost predicate EntriesExplained(u: Setup, events: seq<Event>, w: World) {
    forall f :: f in w.cache.entries ==>
      f in w.writer && WrittenBy(u, events, f, w.cache.entries[f], w.writer[f])
  }

  ghost predicate Explained(u: Setup, events: seq<Event>, w: World) {
    EpochsExplained(events, w) && SuspendedExplained(events, w) && EntriesExplained(u, events, w)
  }

  /** What a longer run still explains. */
  lemma BegunMore(events: seq<Event>, e: Event, id: nat, s: Suspended)
    ensures LookupBegun(events, id, s) ==> LookupBegun(events + [e], id, s)
    ensures StoreBegun(events, id, s) ==> StoreBegun(events + [e], id, s)
  {
    if s.began < |events| {
      assert (events + [e])[..s.began] == events[..s.began];
    }
  }

  lemma WrittenMore(u: Setup, events: seq<Event>, e: Event, f: string, entry: Entry, b: nat)
    requires WrittenBy(u, events, f, entry, b)
    ensures WrittenBy(u, events + [e], f, entry, b)
  {
    assert (events + [e])[..b] == events[..b];
    var c :| b < c < |events| && events[c] == EndStore(events[b].id, entry.expires);
    assert (events + [e])[c] == events[c];
  }

  lemma WrittenNow(u: Setup, events: seq<Event>, id: nat, s: Suspended, expires: real)
    requires StoreBegun(events, id, s)
    ensures WrittenBy(u, events + [EndStore(id, expires)], KeyFor(u, s), Entry(expires, s.answer), s.began)
  {
    var all := events + [EndStore(id, expires)];
    assert all[..s.began] == events[..s.began];
    assert all[|events|] == EndStore(id, expires);
  }

  lemma EpochsStep(u: Setup, events: seq<Event>, w: World, e: Event)
    requires EpochsExplained(events, w)
    ensures EpochsExplained(events + [e], Step(u, w, e))
  {
  }

  lemma SuspendedStep(u: Setup, events: seq<Event>, w: World, e: Event)
    requires EpochsExplained(events, w) && SuspendedExplained(events, w)
    ensures SuspendedExplained(events + [e], Step(u, w, e))
  {
    var all, w' := events + [e], Step(u, w, e);
    assert all[..|events|] == events && all[|events|] == e;
    forall id | id in w'.lookups ensures LookupBegun(all, id, w'.lookups[id]) {
      if id in w.lookups { BegunMore(events, e, id, w.lookups[id]); }
    }
    forall id | id in w'.stores ensures StoreBegun(all, id, w'.stores[id]) {
      if id in w.stores { BegunMore(events, e, id, w.stores[id]); }
    }
  }

  lemma EntriesStep(u: Setup, events: seq<Event>, w: World, e: Event)
    requires SuspendedExplained(events, w) && EntriesExplained(u, events, w)
    ensures EntriesExplained(u, events + [e], Step(u, w, e))
  {
    var all, w' := events + [e], Step(u, w, e);
    forall f | f in w'.cache.entries
      ensures f in w'.writer && WrittenBy(u, all, f, w'.cache.entries[f], w'.writer[f])
    {
      if e.EndStore? && e.id in w.stores && f == KeyFor(u, w.stores[e.id]) {
        WrittenNow(u, events, e.id, w.stores[e.id], e.expires);
      } else {
        WrittenMore(u, events, e, f, w.cache.entries[f], w.writer[f]);
      }
    }
  }

  lemma {:induction false} RunExplained(u: Setup, events: seq<Event>)
    ensures Explained(u, events, Run(u, events))
  {
    if events != [] {
      var n := |events| - 1;
      RunExplained(u, events[..n]);
      assert events == events[..n] + [events[n]];
      EpochsStep(u, events[..n], Run(u, events[..n]), events[n]);
      SuspendedStep(u, events[..n], Run(u, events[..n]), events[n]);
      EntriesStep(u, events[..n], Run(u, events[..n]), events[n]);
    }
  }

  /**
    Under every interleaving: an answer that a lookup gets was given by a store
    of the same knowledge base and digest that has ended and not expired, and that
    store too read its epoch after every invalidation that the lookup read its
    epoch after.
  */
  lemma NoStaleAnswer(u: Setup, events: seq<Event>, id: nat, now: real) returns (b: nat, c: nat)
    requires Sound(u)
    requires Answer(u, Run(u, events), id, now).Some?
    ensures var lookup := Run(u, events).lookups[id];
      && b < c < |events| && events[b].BeginStore? && events[c].EndStore?
      && events[c].id == events[b].id && now <= events[c].expires
      && events[b].kb == lookup.kb && u.digest(events[b].text) == u.digest(lookup.text)
      && Answer(u, Run(u, events), id, now) == Some(events[b].answer)
      && lookup.began < |events| && events[lookup.began] == BeginLookup(id, lookup.kb, lookup.text)
      && forall j :: 0 <= j < lookup.began && events[j] == Invalidate(lookup.kb) ==> j < b
  {
    var w := Run(u, events);
    RunExplained(u, events);
    var lookup := w.lookups[id];
    var full := KeyFor(u, lookup);
    b := w.writer[full];
    assert LookupBegun(events, id, lookup) && WrittenBy(u, events, full, w.cache.entries[full], b);
    c :| b < c < |events| && events[c] == EndStore(events[b].id, w.cache.entries[full].expires);
    FullKeyInjective(u.ns, lookup.kb, lookup.epoch, u.digest(lookup.text),
                     events[b].kb, EpochAfter(events[..b], events[b].kb), u.digest(events[b].text));
    forall j | 0 <= j < lookup.began && events[j] == Invalidate(lookup.kb) ensures j < b {
      if b <= j { EpochGrows(events, lookup.kb, b, lookup.began); }
    }
  }

  /**
    A finished store is seen by every later lookup of its text, until expiry, as long as
    nothing invalidates its knowledge base.
  */
  lemma {:induction false} StoredIsFound(u: Setup, events: seq<Event>, s: nat, expires: real, later: seq<Event>,
                                         id: nat, text: string, now: real)
    requires Sound(u) && s in Run(u, events).stores
    requires var store := Run(u, events).stores[s];
      && ColonFree(store.kb) && store.epoch == EpochAfter(events, store.kb) && now <= expires
      && Undisturbed(u, Run(u, events + [EndStore(s, expires)]), later, KeyFor(u, store), store.kb, now)
    ensures var store := Run(u, events).stores[s];
      var seen := events + [EndStore(s, expires)] + later + [BeginLookup(id, store.kb, store.text)];
      Answer(u, Run(u, seen), id, now) == Some(store.answer)
  {
    var w := Run(u, events);
    var store := w.stores[s];
    var stored := events + [EndStore(s, expires)];
    assert stored[..|events|] == events;
    RunExplained(u, events);
    var full := KeyFor(u, store);
    assert EpochAfter(stored, store.kb) == store.epoch;
    KeptWhileUndisturbed(u, stored, later, full, store.kb, store.epoch, u.digest(store.text), now);
    var all := stored + later;
    var seen := all + [BeginLookup(id, store.kb, store.text)];
    assert seen[..|all|] == all && seen[|all|] == BeginLookup(id, store.kb, store.text);
    RunExplained(u, all);
  }

  /** Nothing in the run rewrites the entry, invalidates its knowledge base, or looks at it past the given time. */
  ghost predicate Undisturbed(u: Setup, w: World, later: seq<Event>, full: string, kb: string, until: real)
    decreases later
  {
    later == [] ||
    (&& later[0] != Invalidate(kb)
     && (later[0].Invalidate? ==> ColonFree(later[0].kb))
     && (later[0].EndStore? && later[0].id in w.stores ==> KeyFor(u, w.stores[later[0].id]) != full)
     && (later[0].EndLookup? ==> later[0].now <= until)
     && Undisturbed(u, Step(u, w, later[0]), later[1..], full, kb, until))
  }

  lemma {:induction false} KeptWhileUndisturbed(u: Setup, events: seq<Event>, later: seq<Event>, full: string,
                                                kb: string, epoch: nat, key: string, until: real)
    requires Undisturbed(u, Run(u, events), later, full, kb, until)
    requires full == FullKey(u.ns, kb, epoch, key) && ColonFree(kb) && ColonFree(key)
    requires Hit(Run(u, events).cache, full, until).Some?
    ensures Hit(Run(u, events + later).cache, full, until) == Hit(Run(u, events).cache, full, until)
    ensures EpochAfter(events + later, kb) == EpochAfter(events, kb)
    decreases later
  {
    if later == [] {
      assert events + later == events;
    } else {
      var w, e := Run(u, events), later[0];
      var next := events + [e];
      assert next[..|events|] == events && next[|events|] == e;
      if e.Invalidate? {
        ColonFreeDrops(u.ns, e.kb, EpochOf(w.cache, e.kb) + 1, kb, epoch, key);
      }
      assert Hit(Run(u, next).cache, full, until) == Hit(w.cache, full, until);
      KeptWhileUndisturbed(u, next, later[1..], full, kb, epoch, key, until);
      assert next + later[1..] == events + later;
    }
  }

  // ------------------------------------------------------------------- the classes

  class InMemoryExactCache {
    const ns: string
    const ttl: real
    var entries: map<string, Entry>
    var epochs: map<string, nat>

    function State(): Cache
      reads this
    {
      Cache(entries, epochs)
    }

    constructor (ns: string, ttl: real)
      ensures State() == Cache(map[], map[]) && this.ns == ns && this.ttl == ttl
    {
      this.ns, this.ttl, entries, epochs := ns, ttl, map[], map[];
    }

    method Get(key: string, kb: string, epoch: nat, now: real) returns (hit: Option<string>)
      modifies this`entries
      ensures hit == Hit(old(State()), FullKey(ns, kb, epoch, key), now)
      ensures State() == AfterGet(old(State()), FullKey(ns, kb, epoch, key), now)
    {
      var full := FullKey(ns, kb, epoch, key);
      if full !in entries {
        return None;
      }
      var entry := entries[full];
      if now > entry.expires {
        entries := entries - {full};
        return None;
      }
      hit := Some(entry.value);
    }

    method Set(key: string, value: string, kb: string, epoch: nat, ttl: Option<real>, now: real)
      modifies this`entries
      ensures State() == AfterSet(old(State()), FullKey(ns, kb, epoch, key), value,
                                  now + if ttl.Some? then ttl.value else this.ttl)
    {
      var full := FullKey(ns, kb, epoch, key);
      var effective := if ttl.Some? then ttl.value else this.ttl;
      entries := entries[full := Entry(now + effective, value)];
    }

    method GetEpoch(kb: string) returns (epoch: nat)
      ensures epoch == EpochOf(State(), kb)
    {
      epoch := if kb in epochs then epochs[kb] else 1;
    }

    method InvalidateKb(kb: string)
      modifies this
      ensures State() == AfterInvalidate(ns, old(State()), kb)
    {
      var newEpoch := (if kb in epochs then epochs[kb] else 1) + 1;
      epochs := epochs[kb := newEpoch];
      var prefix := ns + ":" + kb + ":";
      var curPrefix := prefix + Dec(newEpoch) + ":";
      var stale := set k | k in entries && prefix <= k && !(curPrefix <= k);
      ghost var all := entries;
      while stale != {}
        invariant epochs == old(epochs)[kb := newEpoch]
        invariant stale <= entries.Keys <= all.Keys
        invariant forall k :: k in entries ==> entries[k] == all[k]
        invariant forall k :: k in all ==> (k in entries <==> k in stale || !Stale(ns, kb, newEpoch, k))
        invariant forall k :: k in stale ==> Stale(ns, kb, newEpoch, k)
        decreases stale
      {
        var k :| k in stale;
        entries := entries - {k};
        stale := stale - {k};
      }
      assert entries == AfterInvalidate(ns, old(State()), kb).entries;
    }
  }

  /** The cache object whose suspended calls are explicit: each method is one step between two awaits. */
  class SemanticCache {
    const exact: InMemoryExactCache
    const digest: string -> string
    const ttl: real
    var lookups: map<nat, Suspended>
    var stores: map<nat, Suspended>
    ghost var writer: map<string, nat>
    var time: nat

    ghost function State(): World
      reads this, exact
    {
      World(exact.State(), lookups, stores, writer, time)
    }

    function TheSetup(): Setup { Setup(exact.ns, digest) }

    constructor (exact: InMemoryExactCache, digest: string -> string, ttl: real)
      requires exact.State() == Cache(map[], map[])
      ensures State() == START && this.exact == exact && this.digest == digest && this.ttl == ttl
    {
      this.exact, this.digest, this.ttl := exact, digest, ttl;
      lookups, stores, writer, time := map[], map[], map[], 0;
    }

    method LookupReadsEpoch(id: nat, kb: string, text: string)
      modifies this
      ensures State() == Step(TheSetup(), old(State()), BeginLookup(id, kb, text))
    {
      var epoch := exact.GetEpoch(kb);
      lookups := lookups[id := Suspended(kb, text, "", epoch, time)];
      time := time + 1;
    }

    method LookupGets(id: nat, now: real) returns (hit: Option<string>)
      modifies this, exact
      ensures hit == Answer(TheSetup(), old(State()), id, now)
      ensures State() == Step(TheSetup(), old(State()), EndLookup(id, now))
    {
      hit := None;
      if id in lookups {
        var s := lookups[id];
        hit := exact.Get(digest(s.text), s.kb, s.epoch, now);
        lookups := lookups - {id};
      }
      time := time + 1;
    }

    method StoreReadsEpoch(id: nat, kb: string, text: string, answer: string)
      modifies this
      ensures State() == Step(TheSetup(), old(State()), BeginStore(id, kb, text, answer))
    {
      var epoch := exact.GetEpoch(kb);
      stores := stores[id := Suspended(kb, text, answer, epoch, time)];
      time := time + 1;
    }

    method StoreSets(id: nat, now: real)
      modifies this, exact
      ensures State() == Step(TheSetup(), old(State()), EndStore(id, now + ttl))
    {
      if id in stores {
        var s := stores[id];
        exact.Set(digest(s.text), s.answer, s.kb, s.epoch, Some(ttl), now);
        writer := writer[KeyFor(TheSetup(), s) := s.began];
        stores := stores - {id};
      }
      time := time + 1;
    }

    method InvalidateKb(kb: string)
      modifies this, exact
      ensures State() == Step(TheSetup(), old(State()), Invalidate(kb))
    {
      exact.InvalidateKb(kb);
      time := time + 1;
    }
  }
}
