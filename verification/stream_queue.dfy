/**
  The Redis Streams ingestion queue: append-only streams read through one
  consumer group, with a pending list, acknowledgements and a dead-letter stream.
*/
module StreamQueue {
  import opened Wrappers

  /** Where a dead-lettered copy came from. */
  datatype Ref = Ref(stream: string, id: nat)

  /** A stream entry; an empty task stands for a missing task_id field. */
  datatype Entry = Entry(task: string, origin: Option<Ref>)

  /**
    The position of an entry in the log is its id. Entries from cursor on have
    not been read; pending maps the read but unacknowledged ones to how often
    they have been delivered.
  */
  datatype Stream = Stream(log: seq<Entry>, cursor: nat, pending: map<nat, nat>, acked: set<nat>)

  const NEW_STREAM := Stream([], 0, map[], {})

  /** inFlight: read and not yet handled; returned: handed to a consumer that returned normally. */
  datatype Group = Group(dlq: string, streams: map<string, Stream>, inFlight: set<Ref>, returned: set<Ref>)

  /** How one handling goes: the consumer, then each server call that may fail. */
  datatype Handling = Handling(succeeds: bool, acks: bool, peeks: bool, copies: bool, acksCopy: bool)

  datatype Event =
    | Add(stream: string, task: string)
    | Read(stream: string)
    | Handle(ref: Ref, how: Handling)
    /** another client of the group claims a pending entry, which counts as a delivery */
    | Claim(ref: Ref)

  const RETRY_BUDGET := 3

  function StreamOf(g: Group, name: string): Stream {
    if name in g.streams then g.streams[name] else NEW_STREAM
  }

  function AppendTo(g: Group, name: string, e: Entry): Group {
    var s := StreamOf(g, name);
    g.(streams := g.streams[name := s.(log := s.log + [e])])
  }

  function Ack(g: Group, r: Ref): Group {
    var s := StreamOf(g, r.stream);
    if r.id !in s.pending then g
    else g.(streams := g.streams[r.stream := s.(pending := s.pending - {r.id}, acked := s.acked + {r.id})])
  }

  function Pending(g: Group, r: Ref): bool { r.id in StreamOf(g, r.stream).pending }

  function Acked(g: Group, r: Ref): bool { r.id in StreamOf(g, r.stream).acked }

  function Exists(g: Group, r: Ref): bool { r.id < |StreamOf(g, r.stream).log| }

  function TaskAt(g: Group, r: Ref): string
    requires Exists(g, r)
  {
    StreamOf(g, r.stream).log[r.id].task
  }

  function Deliveries(g: Group, r: Ref): nat {
    if Pending(g, r) then StreamOf(g, r.stream).pending[r.id] else 1
  }

  function RetryOrDlq(g: Group, r: Ref, how: Handling): Group
    requires Exists(g, r)
  {
    var deliveries := if how.peeks then Deliveries(g, r) else 1;
    if deliveries >= RETRY_BUDGET && how.copies then
      var copied := AppendTo(g, g.dlq, Entry(TaskAt(g, r), Some(r)));
      if how.acksCopy then Ack(copied, r) else copied
    else g
  }

  function HandleEntry(g: Group, r: Ref, how: Handling): Group
    requires Exists(g, r)
  {
    var h := g.(inFlight := g.inFlight - {r});
    if TaskAt(g, r) == "" then if how.acks then Ack(h, r) else h
    else if how.succeeds then
      var done := h.(returned := h.returned + {r});
      if how.acks then Ack(done, r) else RetryOrDlq(done, r, how)
    else RetryOrDlq(h, r, how)
  }

  function ReadNext(g: Group, name: string): Group {
    var s := StreamOf(g, name);
    if s.cursor >= |s.log| then g
    else g.(streams := g.streams[name := s.(cursor := s.cursor + 1, pending := s.pending[s.cursor := 1])],
            inFlight := g.inFlight + {Ref(name, s.cursor)})
  }

  function ClaimEntry(g: Group, r: Ref): Group {
    if !Pending(g, r) then g
    else
      var s := StreamOf(g, r.stream);
      g.(streams := g.streams[r.stream := s.(pending := s.pending[r.id := s.pending[r.id] + 1])])
  }

  function Step(g: Group, e: Event): Group {
    match e
    case Add(stream, task) => AppendTo(g, stream, Entry(task, None))
    case Read(stream) => ReadNext(g, stream)
    case Handle(r, how) => if r in g.inFlight && Exists(g, r) then HandleEntry(g, r, how) else g
    case Claim(r) => ClaimEntry(g, r)
  }

  function Run(g: Group, events: seq<Event>): Group
    decreases events
  {
    if events == [] then g else Run(Step(g, events[0]), events[1..])
  }

  function Empty(dlq: string): Group { Group(dlq, map[], {}, {}) }

  // ------------------------------------------------------------- invariants

  /** A copy of the entry has been appended to the dead-letter stream. */
  ghost predicate Copied(g: Group, r: Ref) {
    exists i :: 0 <= i < |StreamOf(g, g.dlq).log| && StreamOf(g, g.dlq).log[i].origin == Some(r)
  }

  /** Each entry of a stream is unread, pending or acknowledged, and only one of these. */
  ghost predicate Partitioned(s: Stream) {
    && s.cursor <= |s.log|
    && (forall id: nat :: id < |s.log| ==> (id >= s.cursor || id in s.pending || id in s.acked))
    && (forall id :: id in s.pending ==> id < s.cursor && id !in s.acked)
    && (forall id :: id in s.acked ==> id < s.cursor)
  }

  /** What justifies an acknowledgement. */
  ghost predicate Settled(g: Group, r: Ref)
    requires Exists(g, r)
  {
    r in g.returned || TaskAt(g, r) == "" || Copied(g, r)
  }

  ghost predicate Consistent(g: Group) {
    && (forall n :: n in g.streams ==> Partitioned(g.streams[n]))
    && (forall r :: r in g.inFlight ==> Pending(g, r) && Exists(g, r))
    && (forall n, id :: n in g.streams && id in g.streams[n].acked ==>
          id < |g.streams[n].log| && Settled(g, Ref(n, id)))
  }

  lemma AppendKeeps(g: Group, name: string, e: Entry)
    requires Consistent(g)
    ensures Consistent(AppendTo(g, name, e))
    ensures forall r :: Exists(g, r) ==>
      Exists(AppendTo(g, name, e), r) && TaskAt(AppendTo(g, name, e), r) == TaskAt(g, r)
    ensures forall r :: Copied(g, r) ==> Copied(AppendTo(g, name, e), r)
    ensures forall r :: Pending(g, r) <==> Pending(AppendTo(g, name, e), r)
  {
    var h := AppendTo(g, name, e);
    forall r | Copied(g, r) ensures Copied(h, r) {
      var i :| 0 <= i < |StreamOf(g, g.dlq).log| && StreamOf(g, g.dlq).log[i].origin == Some(r);
      assert StreamOf(h, h.dlq).log[i].origin == Some(r);
    }
    forall n, id | n in h.streams && id in h.streams[n].acked
      ensures id < |h.streams[n].log| && Settled(h, Ref(n, id))
    {
      assert n in g.streams && id in g.streams[n].acked;
    }
  }

  lemma AckKeeps(g: Group, r: Ref)
    requires Consistent(g) && Exists(g, r) && r !in g.inFlight && Settled(g, r)
    ensures Consistent(Ack(g, r))
  {
    var h := Ack(g, r);
    forall x | Copied(g, x) ensures Copied(h, x) {
      var i :| 0 <= i < |StreamOf(g, g.dlq).log| && StreamOf(g, g.dlq).log[i].origin == Some(x);
      assert StreamOf(h, h.dlq).log[i].origin == Some(x);
    }
    forall n, id | n in h.streams && id in h.streams[n].acked
      ensures id < |h.streams[n].log| && Settled(h, Ref(n, id))
    {
      if Ref(n, id) != r { assert n in g.streams && id in g.streams[n].acked; }
    }
  }

  lemma RetryKeeps(g: Group, r: Ref, how: Handling)
    requires Consistent(g) && Exists(g, r) && r !in g.inFlight
    ensures Consistent(RetryOrDlq(g, r, how))
    ensures Pending(g, r) && !Pending(RetryOrDlq(g, r, how), r) ==> Copied(RetryOrDlq(g, r, how), r)
  {
    var deliveries := if how.peeks then Deliveries(g, r) else 1;
    if deliveries >= RETRY_BUDGET && how.copies {
      var e := Entry(TaskAt(g, r), Some(r));
      var copied := AppendTo(g, g.dlq, e);
      AppendKeeps(g, g.dlq, e);
      var log := StreamOf(copied, copied.dlq).log;
      assert log[|log| - 1] == e;
      assert Copied(copied, r);
      if how.acksCopy {
        AckKeeps(copied, r);
        var h := Ack(copied, r);
        assert StreamOf(h, h.dlq).log[|log| - 1] == e;
      }
    }
  }

  lemma ShrinkInFlight(g: Group, r: Ref, returned: set<Ref>)
    requires Consistent(g) && g.returned <= returned
    ensures Consistent(g.(inFlight := g.inFlight - {r}, returned := returned))
  {
    var h := g.(inFlight := g.inFlight - {r}, returned := returned);
    forall n, id | n in h.streams && id in h.streams[n].acked ensures Settled(h, Ref(n, id)) {
      assert Settled(g, Ref(n, id));
      if Copied(g, Ref(n, id)) {
        var i :| 0 <= i < |StreamOf(g, g.dlq).log| && StreamOf(g, g.dlq).log[i].origin == Some(Ref(n, id));
        assert StreamOf(h, h.dlq).log[i].origin == Some(Ref(n, id));
      }
    }
  }

  lemma HandleKeeps(g: Group, r: Ref, how: Handling)
    requires Consistent(g) && r in g.inFlight && Exists(g, r)
    ensures Consistent(HandleEntry(g, r, how))
    ensures !Pending(HandleEntry(g, r, how), r) ==>
      r in HandleEntry(g, r, how).returned || TaskAt(g, r) == "" || Copied(HandleEntry(g, r, how), r)
  {
    var h := g.(inFlight := g.inFlight - {r});
    ShrinkInFlight(g, r, g.returned);
    assert h == g.(inFlight := g.inFlight - {r}, returned := g.returned);
    if TaskAt(g, r) == "" {
      AckKeeps(h, r);
    } else if how.succeeds {
      var done := h.(returned := h.returned + {r});
      ShrinkInFlight(g, r, g.returned + {r});
      assert done == g.(inFlight := g.inFlight - {r}, returned := g.returned + {r});
      if how.acks { AckKeeps(done, r); } else { RetryKeeps(done, r, how); }
    } else {
      RetryKeeps(h, r, how);
    }
  }

  lemma ReadPartitioned(s: Stream)
    requires Partitioned(s) && s.cursor < |s.log|
    ensures Partitioned(s.(cursor := s.cursor + 1, pending := s.pending[s.cursor := 1]))
  {
  }

  lemma ReadKeeps(g: Group, name: string)
    requires Consistent(g)
    ensures Consistent(ReadNext(g, name))
  {
    var h, s := ReadNext(g, name), StreamOf(g, name);
    SameLogsKeep(g, h);
    if s.cursor < |s.log| {
      assert Partitioned(s);
      ReadPartitioned(s);
      forall r | r in h.inFlight ensures Pending(h, r) && Exists(h, r) {
        if r in g.inFlight { assert Pending(g, r) && Exists(g, r); }
      }
    }
  }

  /** Changes that leave logs, acknowledgements and returns alone leave every settlement alone. */
  lemma SameLogsKeep(g: Group, h: Group)
    requires Consistent(g) && g.dlq == h.dlq && g.returned == h.returned
    requires forall n :: StreamOf(h, n).log == StreamOf(g, n).log && StreamOf(h, n).acked == StreamOf(g, n).acked
    ensures forall n, id :: n in h.streams && id in h.streams[n].acked ==>
      id < |h.streams[n].log| && Settled(h, Ref(n, id))
  {
    forall n, id | n in h.streams && id in h.streams[n].acked
      ensures id < |h.streams[n].log| && Settled(h, Ref(n, id))
    {
      assert h.streams[n] == StreamOf(h, n);
      assert n in g.streams && id in g.streams[n].acked;
      assert Settled(g, Ref(n, id));
    }
  }

  lemma ClaimKeeps(g: Group, r: Ref)
    requires Consistent(g)
    ensures Consistent(ClaimEntry(g, r))
  {
    SameLogsKeep(g, ClaimEntry(g, r));
  }

  lemma StepKeeps(g: Group, e: Event)
    requires Consistent(g)
    ensures Consistent(Step(g, e))
  {
    match e
    case Add(stream, task) => AppendKeeps(g, stream, Entry(task, None));
    case Read(stream) => ReadKeeps(g, stream);
    case Handle(r, how) => if r in g.inFlight && Exists(g, r) { HandleKeeps(g, r, how); }
    case Claim(r) => ClaimKeeps(g, r);
  }

  lemma {:induction false} RunKeeps(g: Group, events: seq<Event>)
    requires Consistent(g)
    ensures Consistent(Run(g, events))
    decreases events
  {
    if events != [] {
      StepKeeps(g, events[0]);
      RunKeeps(Step(g, events[0]), events[1..]);
    }
  }

  /** On every run each appended entry is in exactly one of unread, pending and acknowledged. */
  lemma EveryEntryInOnePlace(dlq: string, events: seq<Event>, r: Ref)
    requires Exists(Run(Empty(dlq), events), r)
    ensures var g := Run(Empty(dlq), events);
      var unread := r.id >= StreamOf(g, r.stream).cursor;
      && (unread || Pending(g, r) || Acked(g, r))
      && !(unread && Pending(g, r)) && !(unread && Acked(g, r)) && !(Pending(g, r) && Acked(g, r))
  {
    RunKeeps(Empty(dlq), events);
  }

  /** On every run, an acknowledged entry was processed, empty, or copied to the dead letters. */
  lemma AckedIsSettled(dlq: string, events: seq<Event>, r: Ref)
    requires Acked(Run(Empty(dlq), events), r)
    ensures var g := Run(Empty(dlq), events); Exists(g, r) && Settled(g, r)
  {
    RunKeeps(Empty(dlq), events);
  }

  /** Handling one entry leaves every other one where it is. */
  lemma HandleOthers(g: Group, h: Ref, how: Handling, r: Ref)
    requires Exists(g, h) && Pending(g, r) && r != h
    ensures Pending(HandleEntry(g, h, how), r)
    ensures r in HandleEntry(g, h, how).inFlight <==> r in g.inFlight
  {
  }

  /** A handled entry is no longer in flight, and if it is not pending either, it is acknowledged. */
  lemma HandleOwn(g: Group, r: Ref, how: Handling)
    requires Exists(g, r) && Pending(g, r)
    ensures r !in HandleEntry(g, r, how).inFlight
    ensures !Pending(HandleEntry(g, r, how), r) ==> Acked(HandleEntry(g, r, how), r)
  {
  }

  /** Only the handling of an entry takes it off the pending list, and then into the acknowledged ones. */
  lemma OffPending(g: Group, e: Event, r: Ref)
    requires Pending(g, r) && r.id < StreamOf(g, r.stream).cursor
    requires !Pending(Step(g, e), r) || r in Step(g, e).inFlight
    ensures r in g.inFlight
    ensures !Pending(Step(g, e), r) ==> Acked(Step(g, e), r)
  {
    if e.Handle? && e.ref in g.inFlight && Exists(g, e.ref) {
      if e.ref == r { HandleOwn(g, r, e.how); } else { HandleOthers(g, e.ref, e.how, r); }
    }
  }

  /** The step that takes an entry off the pending list has settled it first. */
  lemma LeavesPendingOnlySettled(dlq: string, events: seq<Event>, e: Event, r: Ref)
    requires Pending(Run(Empty(dlq), events), r) && !Pending(Step(Run(Empty(dlq), events), e), r)
    ensures var g := Step(Run(Empty(dlq), events), e);
      Acked(g, r) && Exists(g, r) && Settled(g, r)
  {
    var g := Run(Empty(dlq), events);
    RunKeeps(Empty(dlq), events);
    StepKeeps(g, e);
    assert Partitioned(g.streams[r.stream]);
    OffPending(g, e, r);
    assert Step(g, e).streams[r.stream] == StreamOf(Step(g, e), r.stream);
    assert Settled(Step(g, e), Ref(r.stream, r.id));
  }

  // ----------------------------------------------------- the retry budget

  function Bit(b: bool): nat { if b then 1 else 0 }

  /** How often other clients claimed the entry while it was pending; other claims have no effect. */
  function Claimed(dlq: string, events: seq<Event>, r: Ref): nat {
    if events == [] then 0
    else
      var n := |events| - 1;
      Claimed(dlq, events[..n], r) + Bit(events[n] == Claim(r) && Pending(Run(Empty(dlq), events[..n]), r))
  }

  lemma {:induction false} RunLast(g: Group, events: seq<Event>)
    requires events != []
    ensures Run(g, events) == Step(Run(g, events[..|events| - 1]), events[|events| - 1])
    decreases events
  {
    if |events| > 1 {
      RunLast(Step(g, events[0]), events[1..]);
      assert events[1..][..|events| - 2] == events[..|events| - 1][1..];
    } else {
      assert events == [events[0]];
    }
  }

  /** The step handles the entry, the handling does not end in an acknowledgement, and the copy goes through. */
  predicate DeadLetters(g: Group, e: Event, r: Ref) {
    && e.Handle? && e.ref == r && r in g.inFlight && Exists(g, r) && TaskAt(g, r) != ""
    && !(e.how.succeeds && e.how.acks) && e.how.peeks && e.how.copies
    && Deliveries(g, r) >= RETRY_BUDGET
  }

  /** What a step appends to the dead-letter stream. */
  function Lettered(g: Group, e: Event): seq<Entry> {
    match e
    case Add(stream, task) => if stream == g.dlq then [Entry(task, None)] else []
    case Handle(r, _) => if DeadLetters(g, e, r) then [Entry(TaskAt(g, r), Some(r))] else []
    case _ => []
  }

  lemma AppendLog(g: Group, name: string, e: Entry, other: string)
    ensures StreamOf(AppendTo(g, name, e), other).log
            == if other == name then StreamOf(g, other).log + [e] else StreamOf(g, other).log
  {
  }

  lemma AckLog(g: Group, r: Ref, other: string)
    ensures StreamOf(Ack(g, r), other).log == StreamOf(g, other).log
  {
  }

  lemma RetryLog(g: Group, r: Ref, how: Handling)
    requires Exists(g, r)
    ensures RetryOrDlq(g, r, how).dlq == g.dlq
    ensures StreamOf(RetryOrDlq(g, r, how), g.dlq).log
            == StreamOf(g, g.dlq).log
               + if how.peeks && how.copies && Deliveries(g, r) >= RETRY_BUDGET then [Entry(TaskAt(g, r), Some(r))]
                 else []
  {
    var was := StreamOf(g, g.dlq).log;
    assert was + [] == was;
    var e := Entry(TaskAt(g, r), Some(r));
    AppendLog(g, g.dlq, e, g.dlq);
    AckLog(AppendTo(g, g.dlq, e), r, g.dlq);
  }

  lemma HandleLog(g: Group, r: Ref, how: Handling)
    requires Exists(g, r) && r in g.inFlight
    ensures HandleEntry(g, r, how).dlq == g.dlq
    ensures StreamOf(HandleEntry(g, r, how), g.dlq).log == StreamOf(g, g.dlq).log + Lettered(g, Handle(r, how))
  {
    var was := StreamOf(g, g.dlq).log;
    assert was + [] == was;
    var h := g.(inFlight := g.inFlight - {r});
    var done := h.(returned := h.returned + {r});
    AckLog(h, r, g.dlq);
    AckLog(done, r, g.dlq);
    RetryLog(h, r, how);
    RetryLog(done, r, how);
  }

  lemma StepLog(g: Group, e: Event)
    ensures Step(g, e).dlq == g.dlq
    ensures StreamOf(Step(g, e), g.dlq).log == StreamOf(g, g.dlq).log + Lettered(g, e)
  {
    var was := StreamOf(g, g.dlq).log;
    assert was + [] == was;
    match e
    case Add(stream, task) => AppendLog(g, stream, Entry(task, None), g.dlq);
    case Handle(r, how) => if r in g.inFlight && Exists(g, r) { HandleLog(g, r, how); }
    case _ =>
  }

  /** A step copies an entry exactly when it dead-letters it. */
  lemma CopiedStep(g: Group, e: Event, r: Ref)
    ensures Copied(Step(g, e), r) <==> Copied(g, r) || DeadLetters(g, e, r)
  {
    StepLog(g, e);
    var was, now := StreamOf(g, g.dlq).log, StreamOf(Step(g, e), g.dlq).log;
    if Copied(Step(g, e), r) {
      var i :| 0 <= i < |now| && now[i].origin == Some(r);
      if i < |was| { assert was[i].origin == Some(r); } else { assert now[i] == Lettered(g, e)[0]; }
    }
    if Copied(g, r) {
      var i :| 0 <= i < |was| && was[i].origin == Some(r);
      assert now[i].origin == Some(r);
    }
    if DeadLetters(g, e, r) { assert now[|was|].origin == Some(r); }
  }

  /** n counts the claims of the entry while pending: its deliveries are known, and it is copied only after handling. */
  ghost predicate Tally(g: Group, n: nat, r: Ref) {
    && (Pending(g, r) ==> Deliveries(g, r) == 1 + n)
    && (r.id >= StreamOf(g, r.stream).cursor ==> n == 0 && !Copied(g, r))
    && (r in g.inFlight ==> !Copied(g, r))
  }

  /** No step but a claim touches the delivery count of an entry that stays pending. */
  lemma HandleDeliveries(g: Group, h: Ref, how: Handling, r: Ref)
    requires Exists(g, h)
    ensures StreamOf(HandleEntry(g, h, how), r.stream).cursor == StreamOf(g, r.stream).cursor
    ensures Pending(HandleEntry(g, h, how), r) ==>
      Pending(g, r) && Deliveries(HandleEntry(g, h, how), r) == Deliveries(g, r)
  {
  }

  lemma HandleTally(g: Group, h: Ref, how: Handling, n: nat, r: Ref)
    requires Consistent(g) && Tally(g, n, r) && h in g.inFlight && Exists(g, h)
    ensures Tally(Step(g, Handle(h, how)), n, r)
  {
    CopiedStep(g, Handle(h, how), r);
    HandleDeliveries(g, h, how, r);
    assert Pending(g, h) && h.stream in g.streams && Partitioned(g.streams[h.stream]);
    assert HandleEntry(g, h, how).inFlight == g.inFlight - {h};
  }

  lemma ReadTally(g: Group, name: string, n: nat, r: Ref)
    requires Tally(g, n, r)
    ensures Tally(Step(g, Read(name)), n, r)
  {
    CopiedStep(g, Read(name), r);
  }

  lemma ClaimTally(g: Group, c: Ref, n: nat, r: Ref)
    requires Consistent(g) && Tally(g, n, r)
    ensures Tally(Step(g, Claim(c)), n + Bit(c == r && Pending(g, r)), r)
  {
    CopiedStep(g, Claim(c), r);
    if r.stream in g.streams { assert Partitioned(g.streams[r.stream]); }
  }

  lemma StepTally(g: Group, e: Event, n: nat, r: Ref)
    requires Consistent(g) && Tally(g, n, r)
    ensures Tally(Step(g, e), n + Bit(e == Claim(r) && Pending(g, r)), r)
  {
    match e
    case Add(_, _) => CopiedStep(g, e, r);
    case Read(name) => ReadTally(g, name, n, r);
    case Handle(h, how) =>
      if h in g.inFlight && Exists(g, h) { HandleTally(g, h, how, n, r); }
    case Claim(c) => ClaimTally(g, c, n, r);
  }

  lemma {:induction false} RunTally(dlq: string, events: seq<Event>, r: Ref)
    ensures Tally(Run(Empty(dlq), events), Claimed(dlq, events, r), r)
    decreases |events|
  {
    if events != [] {
      var init := events[..|events| - 1];
      RunTally(dlq, init, r);
      RunKeeps(Empty(dlq), init);
      RunLast(Empty(dlq), events);
      StepTally(Run(Empty(dlq), init), events[|events| - 1], Claimed(dlq, init, r), r);
    }
  }

  /**
    Exactly when a handling that does not end in an acknowledgement copies the
    entry: the delivery count can be read, the copy goes through, and other clients
    claimed the entry at least twice while it was pending.
  */
  lemma DeadLettersIff(dlq: string, events: seq<Event>, r: Ref, how: Handling)
    requires var g := Run(Empty(dlq), events);
      r in g.inFlight && Exists(g, r) && TaskAt(g, r) != "" && !(how.succeeds && how.acks)
    ensures Copied(Step(Run(Empty(dlq), events), Handle(r, how)), r)
      <==> how.peeks && how.copies && Claimed(dlq, events, r) >= RETRY_BUDGET - 1
  {
    var g := Run(Empty(dlq), events);
    RunTally(dlq, events, r);
    RunKeeps(Empty(dlq), events);
    CopiedStep(g, Handle(r, how), r);
  }

  /** The i-th event of a run dead-letters the entry. */
  ghost predicate DeadLetteredAt(dlq: string, events: seq<Event>, i: nat, r: Ref)
    requires i < |events|
  {
    DeadLetters(Run(Empty(dlq), events[..i]), events[i], r)
  }

  ghost predicate DeadLettered(dlq: string, events: seq<Event>, r: Ref) {
    exists i :: 0 <= i < |events| && DeadLetteredAt(dlq, events, i, r)
  }

  lemma DeadLetteredLast(dlq: string, events: seq<Event>, r: Ref)
    requires events != []
    ensures var n := |events| - 1;
      DeadLettered(dlq, events, r)
      <==> DeadLettered(dlq, events[..n], r) || DeadLetters(Run(Empty(dlq), events[..n]), events[n], r)
  {
    var n := |events| - 1;
    var init := events[..n];
    forall i | 0 <= i < n ensures DeadLetteredAt(dlq, init, i, r) == DeadLetteredAt(dlq, events, i, r) {
      assert init[..i] == events[..i];
    }
    assert DeadLetteredAt(dlq, events, n, r) == DeadLetters(Run(Empty(dlq), init), events[n], r);
  }

  /**
    On every run a copy exists exactly when some handling dead-lettered the entry,
    which takes at least two claims of it while it was pending: the consumer's own
    reads deliver it once.
  */
  lemma {:induction false} DeadLetterNeedsClaims(dlq: string, events: seq<Event>, r: Ref)
    ensures Copied(Run(Empty(dlq), events), r) <==> DeadLettered(dlq, events, r)
    ensures Copied(Run(Empty(dlq), events), r) ==> Claimed(dlq, events, r) >= RETRY_BUDGET - 1
    decreases |events|
  {
    if events != [] {
      var n := |events| - 1;
      var init := events[..n];
      DeadLetterNeedsClaims(dlq, init, r);
      RunLast(Empty(dlq), events);
      var g := Run(Empty(dlq), init);
      CopiedStep(g, events[n], r);
      RunTally(dlq, init, r);
      RunKeeps(Empty(dlq), init);
      DeadLetteredLast(dlq, events, r);
    }
  }

  /**
    An entry whose handling failed below the budget stays pending for ever: no
    further run of this consumer, whoever claims the entry, takes it off the list.
  */
  lemma {:induction false} FailedEntryStaysPending(g: Group, r: Ref, events: seq<Event>)
    requires Consistent(g) && Pending(g, r) && r !in g.inFlight
    ensures Pending(Run(g, events), r) && r !in Run(g, events).inFlight
    decreases events
  {
    if events != [] {
      StepKeeps(g, events[0]);
      assert Partitioned(g.streams[r.stream]);
      if !Pending(Step(g, events[0]), r) || r in Step(g, events[0]).inFlight {
        OffPending(g, events[0], r);
      }
      FailedEntryStaysPending(Step(g, events[0]), r, events[1..]);
    }
  }

  /**
    And a failed first handling leaves the entry pending for ever, unless the
    entry was claimed twice while pending and every call of the move succeeds.
  */
  lemma FirstFailureStaysPending(dlq: string, events: seq<Event>, r: Ref, how: Handling, later: seq<Event>)
    requires var g := Run(Empty(dlq), events);
      r in g.inFlight && Exists(g, r) && TaskAt(g, r) != "" && !how.succeeds
    ensures Pending(Run(Step(Run(Empty(dlq), events), Handle(r, how)), later), r)
      <==> !(how.peeks && how.copies && how.acksCopy && Claimed(dlq, events, r) >= RETRY_BUDGET - 1)
  {
    var g := Run(Empty(dlq), events);
    var h := Step(g, Handle(r, how));
    RunKeeps(Empty(dlq), events);
    RunTally(dlq, events, r);
    StepKeeps(g, Handle(r, how));
    HandleOwn(g, r, how);
    FailedHandling(g, r, how);
    if Pending(h, r) {
      FailedEntryStaysPending(h, r, later);
    } else {
      AckedStays(h, r, later);
    }
  }

  lemma FailedHandling(g: Group, r: Ref, how: Handling)
    requires Exists(g, r) && Pending(g, r) && TaskAt(g, r) != "" && !how.succeeds
    ensures Pending(HandleEntry(g, r, how), r)
      <==> !(how.peeks && how.copies && how.acksCopy && Deliveries(g, r) >= RETRY_BUDGET)
  {
  }

  /** An acknowledged entry is never pending again. */
  lemma {:induction false} AckedStays(g: Group, r: Ref, events: seq<Event>)
    requires Consistent(g) && Acked(g, r)
    ensures Acked(Run(g, events), r) && !Pending(Run(g, events), r)
    decreases events
  {
    assert Partitioned(g.streams[r.stream]);
    if events != [] {
      StepKeeps(g, events[0]);
      StepAcked(g, events[0], r);
      AckedStays(Step(g, events[0]), r, events[1..]);
    }
  }

  lemma StepAcked(g: Group, e: Event, r: Ref)
    requires Acked(g, r)
    ensures Acked(Step(g, e), r)
  {
  }

  // -------------------------------------------------------------- the driver

  class RedisStreamsQueue {
    const prefix: string
    const dlqStream: string
    var streams: map<string, Stream>
    var inFlight: set<Ref>
    ghost var returned: set<Ref>

    ghost function State(): Group
      reads this
    {
      Group(dlqStream, streams, inFlight, returned)
    }

    constructor (prefix: string, dlqStream: string)
      ensures State() == Empty(dlqStream) && this.prefix == prefix && Consistent(State())
    {
      this.prefix, this.dlqStream := prefix, dlqStream;
      streams, inFlight, returned := map[], {}, {};
    }

    /** XADD */
    method AddEntry(name: string, e: Entry)
      modifies this`streams
      ensures State() == AppendTo(old(State()), name, e)
    {
      var s := if name in streams then streams[name] else NEW_STREAM;
      streams := streams[name := s.(log := s.log + [e])];
    }

    /** XACK */
    method Acknowledge(r: Ref)
      modifies this`streams
      ensures State() == Ack(old(State()), r)
    {
      if r.stream in streams && r.id in streams[r.stream].pending {
        var s := streams[r.stream];
        streams := streams[r.stream := s.(pending := s.pending - {r.id}, acked := s.acked + {r.id})];
      }
    }

    method Enqueue(task: string, kb: string)
      modifies this`streams
      ensures State() == Step(old(State()), Add(prefix + ":" + kb, task))
    {
      AddEntry(prefix + ":" + kb, Entry(task, None));
    }

    /** XREADGROUP of one new entry */
    method ReadOne(name: string) returns (got: Option<Ref>)
      modifies this`streams, this`inFlight
      ensures State() == Step(old(State()), Read(name))
      ensures got == if StreamOf(old(State()), name).cursor < |StreamOf(old(State()), name).log|
                     then Some(Ref(name, StreamOf(old(State()), name).cursor)) else None
    {
      if name !in streams {
        return None;
      }
      var s := streams[name];
      if s.cursor >= |s.log| {
        return None;
      }
      streams := streams[name := s.(cursor := s.cursor + 1, pending := s.pending[s.cursor := 1])];
      inFlight := inFlight + {Ref(name, s.cursor)};
      got := Some(Ref(name, s.cursor));
    }

    method RetryOrDeadLetter(r: Ref, task: string, how: Handling)
      requires Exists(State(), r) && TaskAt(State(), r) == task
      modifies this`streams
      ensures State() == RetryOrDlq(old(State()), r, how)
    {
      var deliveries := 1;
      if how.peeks && r.id in streams[r.stream].pending {
        deliveries := streams[r.stream].pending[r.id];
      }
      if deliveries >= RETRY_BUDGET {
        if how.copies {
          AddEntry(dlqStream, Entry(task, Some(r)));
          if how.acksCopy {
            Acknowledge(r);
          }
        }
      }
    }

    method HandleOne(r: Ref, how: Handling)
      requires Exists(State(), r) && r in inFlight
      modifies this
      ensures State() == Step(old(State()), Handle(r, how))
    {
      var task := streams[r.stream].log[r.id].task;
      inFlight := inFlight - {r};
      if task == "" {
        if how.acks {
          Acknowledge(r);
        }
        return;
      }
      if how.succeeds {
        returned := returned + {r};
        if how.acks {
          Acknowledge(r);
          return;
        }
      }
      RetryOrDeadLetter(r, task, how);
    }

    /** One turn of the worker's loop: read an entry and handle it. */
    method WorkOnce(name: string, how: Handling)
      requires Consistent(State())
      modifies this
      ensures State() == Run(old(State()), TurnEvents(old(State()), name, how)) && Consistent(State())
    {
      ghost var g := State();
      StepKeeps(g, Read(name));
      if StreamOf(g, name).cursor < |StreamOf(g, name).log| { ReadIsPending(g, name); }
      assert Run(g, [Read(name)]) == Step(g, Read(name));
      var got := ReadOne(name);
      if got.Some? {
        StepKeeps(State(), Handle(got.value, how));
        RunMore(g, [Read(name)], Handle(got.value, how));
        HandleOne(got.value, how);
      }
    }

    /** The worker's loop on one stream, for as many turns as there are outcomes given. */
    method Work(name: string, outcomes: seq<Handling>)
      requires Consistent(State())
      modifies this
      ensures State() == WorkAll(old(State()), name, outcomes) && Consistent(State())
    {
      for i := 0 to |outcomes|
        invariant WorkAll(State(), name, outcomes[i..]) == WorkAll(old(State()), name, outcomes)
        invariant Consistent(State())
      {
        assert outcomes[i..][0] == outcomes[i] && outcomes[i..][1..] == outcomes[i + 1..];
        WorkOnce(name, outcomes[i]);
      }
    }
  }

  /** Read, and handle what was read. */
  function TurnEvents(g: Group, name: string, how: Handling): seq<Event> {
    var s := StreamOf(g, name);
    [Read(name)] + if s.cursor < |s.log| then [Handle(Ref(name, s.cursor), how)] else []
  }

  function WorkAll(g: Group, name: string, outcomes: seq<Handling>): Group
    decreases outcomes
  {
    if outcomes == [] then g
    else WorkAll(Run(g, TurnEvents(g, name, outcomes[0])), name, outcomes[1..])
  }

  lemma ReadIsPending(g: Group, name: string)
    requires Consistent(g) && StreamOf(g, name).cursor < |StreamOf(g, name).log|
    ensures var h, r := ReadNext(g, name), Ref(name, StreamOf(g, name).cursor);
      Exists(h, r) && r in h.inFlight && Pending(h, r)
  {
  }

  lemma RunMore(g: Group, events: seq<Event>, e: Event)
    ensures Run(g, events + [e]) == Step(Run(g, events), e)
  {
    RunLast(g, events + [e]);
    assert (events + [e])[..|events|] == events;
  }
}
