/** The circuit breaker: one state and one sliding window of samples per (provider, model). */
module Circuit {
  import opened Wrappers

  datatype Config = Config(window: real, failureRate: real, minSamples: int, openFor: real)
  {
    predicate Valid() { window > 0.0 && minSamples >= 1 && openFor > 0.0 }
  }

  datatype Status = Closed | Open | HalfOpen

  datatype Sample = Sample(second: int, ok: bool)

  /** Everything the breaker knows about one key. */
  datatype KeyState = KeyState(status: Status, samples: seq<Sample>, openedAt: Option<real>)

  const FRESH := KeyState(Closed, [], None)

  /** Drop samples from the head while they are older than the cutoff. */
  function Pruned(samples: seq<Sample>, cutoff: int): seq<Sample> {
    if samples != [] && samples[0].second < cutoff then Pruned(samples[1..], cutoff) else samples
  }

  function Failures(samples: seq<Sample>): nat {
    if samples == [] then 0 else (if samples[0].ok then 0 else 1) + Failures(samples[1..])
  }

  function Cutoff(cfg: Config, t: real): int { t.Floor - cfg.window.Floor }

  function Appended(cfg: Config, k: KeyState, ok: bool, t: real): KeyState {
    k.(samples := Pruned(k.samples + [Sample(t.Floor, ok)], Cutoff(cfg, t)))
  }

  /** The window trips the breaker: enough samples, and a failure share at or above the rate. */
  predicate Trips(cfg: Config, window: seq<Sample>) {
    && |window| >= cfg.minSamples
    && |window| > 0
    && Failures(window) as real / |window| as real >= cfg.failureRate
  }

  function MaybeOpened(cfg: Config, k: KeyState, t: real, tOpen: real): KeyState {
    var window := Pruned(k.samples, Cutoff(cfg, t));
    if Trips(cfg, window) then KeyState(Open, window, Some(tOpen)) else k.(samples := window)
  }

  /**
    A call on the breaker with the clock readings it takes: recording a failure
    reads the clock when it appends, when it prunes and when it opens.
  */
  datatype Event = Query(t: real) | Good(t: real) | Bad(t: real, tPrune: real, tOpen: real)

  function Step(cfg: Config, k: KeyState, e: Event): KeyState {
    match e
    case Query(t) =>
      if k.status == Open && k.openedAt.Some? && t - k.openedAt.value >= cfg.openFor then k.(status := HalfOpen) else k
    case Good(t) => Appended(cfg, if k.status == HalfOpen then k.(status := Closed) else k, true, t)
    case Bad(t, tPrune, tOpen) => MaybeOpened(cfg, Appended(cfg, k, false, t), tPrune, tOpen)
  }

  /** The answer of is_open: true means fail fast. */
  predicate Refuses(cfg: Config, k: KeyState, t: real) {
    k.status == Open && !(k.openedAt.Some? && t - k.openedAt.value >= cfg.openFor)
  }

  function Run(cfg: Config, k: KeyState, events: seq<Event>): KeyState
    decreases events
  {
    if events == [] then k else Run(cfg, Step(cfg, k, events[0]), events[1..])
  }

  function Ends(e: Event): real { if e.Bad? then e.tOpen else e.t }

  /** The clock never goes back, within a call or between calls. */
  ghost predicate Forward(events: seq<Event>) {
    && (forall i :: 0 <= i < |events| && events[i].Bad? ==>
          events[i].t <= events[i].tPrune <= events[i].tOpen)
    && (forall i, j :: 0 <= i < j < |events| ==> Ends(events[i]) <= events[j].t)
  }

  // ------------------------------------------------ the deque is the filtered history

  function Recorded(e: Event): seq<Sample> {
    match e
    case Query(_) => []
    case Good(t) => [Sample(t.Floor, true)]
    case Bad(t, _, _) => [Sample(t.Floor, false)]
  }

  /** Every sample ever recorded. */
  function History(events: seq<Event>): seq<Sample> {
    if events == [] then []
    else History(events[..|events| - 1]) + Recorded(events[|events| - 1])
  }

  function Since(samples: seq<Sample>, cutoff: int): seq<Sample> {
    if samples == [] then []
    else
      Since(samples[..|samples| - 1], cutoff)
      + if samples[|samples| - 1].second >= cutoff then [samples[|samples| - 1]] else []
  }

  ghost predicate Ascending(samples: seq<Sample>) {
    forall i, j :: 0 <= i < j < |samples| ==> samples[i].second <= samples[j].second
  }

  lemma {:induction false} SinceMembers(samples: seq<Sample>, cutoff: int)
    ensures forall x :: x in Since(samples, cutoff) <==> x in samples && x.second >= cutoff
    ensures Ascending(samples) ==> Ascending(Since(samples, cutoff))
  {
    if samples != [] {
      var init, last := samples[..|samples| - 1], samples[|samples| - 1];
      SinceMembers(init, cutoff);
      assert samples == init + [last];
      if Ascending(samples) {
        var kept := Since(init, cutoff);
        forall i | 0 <= i < |kept| ensures kept[i].second <= last.second {
          assert kept[i] in init;
        }
      }
    }
  }

  lemma {:induction false} SinceAll(samples: seq<Sample>, cutoff: int)
    requires forall i :: 0 <= i < |samples| ==> samples[i].second >= cutoff
    ensures Since(samples, cutoff) == samples
  {
    if samples != [] {
      SinceAll(samples[..|samples| - 1], cutoff);
      assert samples == samples[..|samples| - 1] + [samples[|samples| - 1]];
    }
  }

  lemma {:induction false} SinceTail(samples: seq<Sample>, cutoff: int)
    requires samples != [] && samples[0].second < cutoff
    ensures Since(samples, cutoff) == Since(samples[1..], cutoff)
  {
    if |samples| > 1 {
      var init := samples[..|samples| - 1];
      SinceTail(init, cutoff);
      assert samples[1..][..|samples| - 2] == init[1..];
    }
  }

  /** On an ascending deque, dropping from the head is filtering. */
  lemma {:induction false} PrunedIsFilter(samples: seq<Sample>, cutoff: int)
    requires Ascending(samples)
    ensures Pruned(samples, cutoff) == Since(samples, cutoff)
  {
    if samples != [] && samples[0].second < cutoff {
      SinceTail(samples, cutoff);
      PrunedIsFilter(samples[1..], cutoff);
    } else {
      SinceAll(samples, cutoff);
    }
  }

  lemma {:induction false} SinceTwice(samples: seq<Sample>, first: int, second: int)
    requires first <= second
    ensures Since(Since(samples, first), second) == Since(samples, second)
  {
    if samples != [] {
      var init, last := samples[..|samples| - 1], samples[|samples| - 1];
      SinceTwice(init, first, second);
      var kept := Since(init, first);
      if last.second >= first {
        assert (kept + [last])[..|kept|] == kept;
      } else {
        assert Since(samples, first) == kept && Since(samples, second) == Since(init, second);
      }
    }
  }

  /** The cutoff that an event's last prune leaves behind. */
  function NextCut(cfg: Config, cut: int, e: Event): int {
    match e
    case Query(_) => cut
    case Good(t) => Cutoff(cfg, t)
    case Bad(_, tPrune, _) => Cutoff(cfg, tPrune)
  }

  /** The cutoff of the last prune of a run; of no account before anything is recorded. */
  function LastCut(cfg: Config, events: seq<Event>): int {
    if events == [] then 0 else NextCut(cfg, LastCut(cfg, events[..|events| - 1]), events[|events| - 1])
  }

  /** The key's samples are the history since this cutoff, and later prunes do not undercut it. */
  ghost predicate Tracks(cfg: Config, k: KeyState, history: seq<Sample>, cut: int, now: real) {
    && Ascending(history)
    && (forall i :: 0 <= i < |history| ==> history[i].second <= now.Floor)
    && (history != [] ==> cut <= Cutoff(cfg, now))
    && k.samples == Since(history, cut)
  }

  lemma FloorMonotone(a: real, b: real)
    requires a <= b
    ensures a.Floor <= b.Floor
  {
  }

  lemma PruneTracks(cfg: Config, k: KeyState, history: seq<Sample>, cut: int, before: real, now: real)
    requires Tracks(cfg, k, history, cut, before) && before <= now
    ensures Tracks(cfg, k.(samples := Pruned(k.samples, Cutoff(cfg, now))), history, Cutoff(cfg, now), now)
  {
    FloorMonotone(before, now);
    SinceMembers(history, cut);
    PrunedIsFilter(k.samples, Cutoff(cfg, now));
    if history != [] { SinceTwice(history, cut, Cutoff(cfg, now)); }
  }

  lemma AppendTracks(cfg: Config, k: KeyState, history: seq<Sample>, cut: int, before: real, now: real, ok: bool)
    requires cfg.Valid() && Tracks(cfg, k, history, cut, before) && before <= now
    ensures Tracks(cfg, Appended(cfg, k, ok, now), history + [Sample(now.Floor, ok)], Cutoff(cfg, now), now)
  {
    FloorMonotone(before, now);
    var sample := Sample(now.Floor, ok);
    var all := history + [sample];
    assert all[..|history|] == history && all[|history|] == sample;
    var c := if history == [] then Cutoff(cfg, now) else cut;
    assert Since(history, c) == k.samples;
    assert Since(all, c) == k.samples + [sample];
    PruneTracks(cfg, k.(samples := k.samples + [sample]), all, c, now, now);
  }

  lemma FailureTracks(cfg: Config, k: KeyState, history: seq<Sample>, cut: int, before: real,
                      t: real, tPrune: real, tOpen: real)
    requires cfg.Valid() && Tracks(cfg, k, history, cut, before) && before <= t <= tPrune <= tOpen
    ensures Tracks(cfg, MaybeOpened(cfg, Appended(cfg, k, false, t), tPrune, tOpen),
                   history + [Sample(t.Floor, false)], Cutoff(cfg, tPrune), tOpen)
  {
    AppendTracks(cfg, k, history, cut, before, t, false);
    PruneTracks(cfg, Appended(cfg, k, false, t), history + [Sample(t.Floor, false)], Cutoff(cfg, t), t, tPrune);
    FloorMonotone(tPrune, tOpen);
  }

  lemma StepTracks(cfg: Config, k: KeyState, history: seq<Sample>, cut: int, before: real, e: Event)
    requires cfg.Valid() && Tracks(cfg, k, history, cut, before) && before <= e.t
    requires e.Bad? ==> e.t <= e.tPrune <= e.tOpen
    ensures Tracks(cfg, Step(cfg, k, e), history + Recorded(e), NextCut(cfg, cut, e), Ends(e))
  {
    match e
    case Query(t) =>
      assert history + Recorded(e) == history;
      FloorMonotone(before, t);
    case Good(t) =>
      var closed := if k.status == HalfOpen then k.(status := Closed) else k;
      assert Tracks(cfg, closed, history, cut, before);
      AppendTracks(cfg, closed, history, cut, before, t, true);
    case Bad(t, tPrune, tOpen) => FailureTracks(cfg, k, history, cut, before, t, tPrune, tOpen);
  }

  lemma {:induction false} RunTracksAt(cfg: Config, events: seq<Event>, now: real)
    requires cfg.Valid() && Forward(events)
    requires forall i :: 0 <= i < |events| ==> Ends(events[i]) <= now
    ensures Tracks(cfg, Run(cfg, FRESH, events), History(events), LastCut(cfg, events),
                   if events == [] then now else Ends(events[|events| - 1]))
  {
    if events != [] {
      var n := |events| - 1;
      RunTracksAt(cfg, events[..n], events[n].t);
      RunLast(cfg, FRESH, events);
      var before := if n == 0 then events[n].t else Ends(events[n - 1]);
      assert before <= events[n].t;
      StepTracks(cfg, Run(cfg, FRESH, events[..n]), History(events[..n]), LastCut(cfg, events[..n]), before, events[n]);
    }
  }

  /**
    On every run the head-pruned deque is the full sample history filtered to
    exactly the window of the last prune.
  */
  lemma RunTracks(cfg: Config, events: seq<Event>)
    requires cfg.Valid() && Forward(events)
    ensures Run(cfg, FRESH, events).samples == Since(History(events), LastCut(cfg, events))
  {
    if events != [] {
      var end := Ends(events[|events| - 1]);
      forall i | 0 <= i < |events| ensures Ends(events[i]) <= end {
        assert events[i].t <= Ends(events[i]);
        assert events[|events| - 1].t <= end;
      }
      RunTracksAt(cfg, events, end);
    }
  }

  lemma {:induction false} RunLast(cfg: Config, k: KeyState, events: seq<Event>)
    requires events != []
    ensures Run(cfg, k, events) == Step(cfg, Run(cfg, k, events[..|events| - 1]), events[|events| - 1])
    decreases events
  {
    if |events| > 1 {
      RunLast(cfg, Step(cfg, k, events[0]), events[1..]);
      assert events[1..][..|events| - 2] == events[..|events| - 1][1..];
    } else {
      assert events == [events[0]];
    }
  }

  /**
    On every run that ends in a recorded failure, the key is open exactly when
    it already was, or the whole sample history cut down to the window has
    enough samples and a failure share at or above the rate.
  */
  lemma FailureOpensIff(cfg: Config, events: seq<Event>, failure: Event)
    requires cfg.Valid() && failure.Bad? && Forward(events + [failure])
    ensures var window := Since(History(events + [failure]), Cutoff(cfg, failure.tPrune));
      var was, k := Run(cfg, FRESH, events), Run(cfg, FRESH, events + [failure]);
      && (k.status == Open <==> was.status == Open || Trips(cfg, window))
      && (Trips(cfg, window) ==> k.openedAt == Some(failure.tOpen))
      && (!Trips(cfg, window) ==> k.status == was.status && k.openedAt == was.openedAt)
  {
    var all := events + [failure];
    RunLast(cfg, FRESH, all);
    assert all[..|events|] == events && all[|events|] == failure;
    RunTracks(cfg, all);
  }

  // --------------------------------------------------------------- open is open

  /** Open keys know when they opened. */
  ghost predicate Sound(k: KeyState) {
    k.status == Open ==> k.openedAt.Some?
  }

  lemma {:induction false} RunSound(cfg: Config, k: KeyState, events: seq<Event>)
    requires Sound(k)
    ensures Sound(Run(cfg, k, events))
    decreases events
  {
    if events != [] { RunSound(cfg, Step(cfg, k, events[0]), events[1..]); }
  }

  /**
    A key that is open since trip or later refuses every query before
    trip + openFor, whatever is recorded in between.
  */
  lemma {:induction false} OpenRefuses(cfg: Config, k: KeyState, trip: real, events: seq<Event>, i: nat)
    requires cfg.Valid() && k.status == Open && k.openedAt.Some? && k.openedAt.value >= trip
    requires Forward(events) && forall j :: 0 <= j < |events| ==> events[j].t >= trip
    requires i < |events| && events[i].Query? && events[i].t < trip + cfg.openFor
    ensures Refuses(cfg, Run(cfg, k, events[..i]), events[i].t)
    decreases i
  {
    if i > 0 {
      var k' := Step(cfg, k, events[0]);
      assert Ends(events[0]) <= events[i].t;
      assert k'.status == Open && k'.openedAt.Some? && k'.openedAt.value >= trip;
      OpenRefuses(cfg, k', trip, events[1..], i - 1);
      assert events[..i][1..] == events[1..][..i - 1];
    }
  }

  /**
    An open key is closed again only by a success recorded in half-open state,
    which it entered by a query made openFor after it had opened.
  */
  lemma {:induction false} ClosesThroughHalfOpen(cfg: Config, k: KeyState, events: seq<Event>)
    requires Sound(k) && k.status == Open && Run(cfg, k, events).status == Closed
    ensures exists i, j ::
      && 0 <= i < j < |events| && Enters(cfg, k, events, i)
      && Run(cfg, k, events[..j]).status == HalfOpen && events[j].Good?
    decreases events
  {
    var k' := Step(cfg, k, events[0]);
    assert events[..1][1..] == [];
    assert events[..0] == [];
    if k'.status == Open {
      ClosesThroughHalfOpen(cfg, k', events[1..]);
      var i, j :| 0 <= i < j < |events[1..]| && Enters(cfg, k', events[1..], i)
        && Run(cfg, k', events[1..][..j]).status == HalfOpen && events[1..][j].Good?;
      assert events[..i + 1][1..] == events[1..][..i];
      assert events[..j + 1][1..] == events[1..][..j];
      assert Enters(cfg, k, events, i + 1);
      assert Run(cfg, k, events[..j + 1]).status == HalfOpen && events[j + 1].Good?;
    } else {
      assert Enters(cfg, k, events, 0);
      var j := FirstClose(cfg, k', events[1..]);
      assert events[..j + 1][1..] == events[1..][..j];
      assert Run(cfg, k, events[..j + 1]).status == HalfOpen && events[j + 1].Good?;
    }
  }

  /** The i-th event is the query that turns an open key half-open. */
  ghost predicate Enters(cfg: Config, k: KeyState, events: seq<Event>, i: nat)
    requires i < |events|
  {
    var at := Run(cfg, k, events[..i]);
    && at.status == Open && at.openedAt.Some?
    && events[i].Query? && events[i].t >= at.openedAt.value + cfg.openFor
  }

  /** From any state but closed, the closing event is a success in half-open state. */
  lemma {:induction false} FirstClose(cfg: Config, k: KeyState, events: seq<Event>) returns (j: nat)
    requires k.status != Closed && Run(cfg, k, events).status == Closed
    ensures j < |events| && Run(cfg, k, events[..j]).status == HalfOpen && events[j].Good?
    decreases events
  {
    var k' := Step(cfg, k, events[0]);
    if k'.status == Closed {
      j := 0;
      assert events[..0] == [];
    } else {
      j := FirstClose(cfg, k', events[1..]);
      assert events[..j + 1][1..] == events[1..][..j];
      j := j + 1;
    }
  }

  /** Half-open is not a single probe: until something is recorded, every query is let through. */
  lemma {:induction false} HalfOpenLetsAllThrough(cfg: Config, k: KeyState, queries: seq<Event>, i: nat)
    requires k.status == HalfOpen && forall j :: 0 <= j < |queries| ==> queries[j].Query?
    requires i < |queries|
    ensures !Refuses(cfg, Run(cfg, k, queries[..i]), queries[i].t)
    ensures Run(cfg, k, queries).status == HalfOpen
    decreases queries
  {
    assert Step(cfg, k, queries[0]) == k;
    if i > 0 {
      assert queries[..i][1..] == queries[1..][..i - 1];
      HalfOpenLetsAllThrough(cfg, k, queries[1..], i - 1);
    } else if |queries| > 1 {
      HalfOpenLetsAllThrough(cfg, k, queries[1..], 0);
    }
  }

  // ------------------------------------------------------------------ the class

  datatype Key = Key(provider: string, model: string)

  function Entry(status: map<Key, Status>, buckets: map<Key, seq<Sample>>, openedAt: map<Key, real>, key: Key): KeyState
  {
    KeyState(if key in status then status[key] else Closed,
             if key in buckets then buckets[key] else [],
             if key in openedAt then Some(openedAt[key]) else None)
  }

  class CircuitBreaker {
    const cfg: Config
    var status: map<Key, Status>
    var buckets: map<Key, seq<Sample>>
    var openedAt: map<Key, real>

    /** What is known about one key, absent entries read as the code reads them. */
    function At(key: Key): KeyState
      reads this
    {
      Entry(status, buckets, openedAt, key)
    }

    /** What is known about every key at this moment. */
    ghost function View(): Key -> KeyState
      reads this
    {
      var s, b, o := status, buckets, openedAt;
      key => Entry(s, b, o, key)
    }

    ghost predicate Valid()
      reads this
    {
      cfg.Valid() && forall key :: key in status && status[key] == Open ==> key in openedAt
    }

    constructor (cfg: Config)
      requires cfg.Valid()
      ensures Valid() && this.cfg == cfg && forall key :: At(key) == FRESH
    {
      this.cfg, status, buckets, openedAt := cfg, map[], map[], map[];
    }

    method IsOpen(key: Key, now: real) returns (refused: bool)
      requires Valid()
      modifies this`status
      ensures Valid()
      ensures refused == Refuses(cfg, old(At(key)), now)
      ensures At(key) == Step(cfg, old(At(key)), Query(now))
      ensures forall k :: k != key ==> At(k) == old(At(k))
    {
      var state := if key in status then status[key] else Closed;
      if state == Open {
        if now - openedAt[key] >= cfg.openFor {
          status := status[key := HalfOpen];
          return false;
        }
        return true;
      }
      refused := false;
    }

    method RecordSuccess(key: Key, now: real)
      requires Valid()
      modifies this`status, this`buckets
      ensures Valid()
      ensures At(key) == Step(cfg, old(At(key)), Good(now))
      ensures forall k :: k != key ==> At(k) == old(At(k))
    {
      if key in status && status[key] == HalfOpen {
        status := status[key := Closed];
      }
      Append(key, true, now);
    }

    method RecordFailure(key: Key, now: real, tPrune: real, tOpen: real)
      requires Valid()
      modifies this
      ensures Valid()
      ensures At(key) == Step(cfg, old(At(key)), Bad(now, tPrune, tOpen))
      ensures forall k :: k != key ==> At(k) == old(At(k))
    {
      Append(key, false, now);
      MaybeOpen(key, tPrune, tOpen);
    }

    method Append(key: Key, ok: bool, t: real)
      requires Valid()
      modifies this`buckets
      ensures At(key) == Appended(cfg, old(At(key)), ok, t)
      ensures forall k :: k != key ==> At(k) == old(At(k))
    {
      var now := t.Floor;
      buckets := buckets[key := (if key in buckets then buckets[key] else []) + [Sample(now, ok)]];
      Prune(key, now);
    }

    method Prune(key: Key, now: int)
      modifies this`buckets
      ensures key in buckets
      ensures At(key) == old(At(key)).(samples := Pruned(old(At(key)).samples, now - cfg.window.Floor))
      ensures forall k :: k != key ==> At(k) == old(At(k))
    {
      var cutoff := now - cfg.window.Floor;
      var bucket := if key in buckets then buckets[key] else [];
      while bucket != [] && bucket[0].second < cutoff
        invariant Pruned(bucket, cutoff) == Pruned(old(At(key)).samples, cutoff)
      {
        bucket := bucket[1..];
      }
      buckets := buckets[key := bucket];
    }

    method MaybeOpen(key: Key, t: real, tOpen: real)
      requires Valid()
      modifies this
      ensures Valid()
      ensures At(key) == MaybeOpened(cfg, old(At(key)), t, tOpen)
      ensures forall k :: k != key ==> At(k) == old(At(k))
    {
      Prune(key, t.Floor);
      var window := buckets[key];
      if |window| < cfg.minSamples {
        return;
      }
      var failures := CountFailures(window);
      if failures as real / |window| as real >= cfg.failureRate {
        status := status[key := Open];
        openedAt := openedAt[key := tOpen];
      }
    }

    static method CountFailures(window: seq<Sample>) returns (n: nat)
      ensures n == Failures(window)
    {
      n := 0;
      for i := 0 to |window|
        invariant n + Failures(window[i..]) == Failures(window)
      {
        assert window[i..][1..] == window[i + 1..];
        if !window[i].ok {
          n := n + 1;
        }
      }
    }
  }
}
