/**
  The in-process ingestion queue: one FIFO per knowledge base, drained by a
  worker that passes over a snapshot of the knowledge bases again and again.
*/
module TaskQueue {
  import opened Wrappers

  datatype Item = Item(kb: string, task: string)

  /** order is the insertion order of the queue dictionary; pass is what is left of the current snapshot. */
  datatype QueueState = QueueState(
    order: seq<string>,
    queues: map<string, seq<string>>,
    pass: seq<string>,
    enqueued: seq<Item>,
    delivered: seq<Item>)

  const EMPTY := QueueState([], map[], [], [], [])

  /** Something enqueues a task, or the worker takes a snapshot or visits the next knowledge base. */
  datatype Event = Arrive(item: Item) | Turn

  function Arrival(s: QueueState, item: Item): QueueState {
    var known := item.kb in s.queues;
    s.(order := if known then s.order else s.order + [item.kb],
       queues := s.queues[item.kb := (if known then s.queues[item.kb] else []) + [item.task]],
       enqueued := s.enqueued + [item])
  }

  function WorkerTurn(s: QueueState): QueueState {
    if s.pass == [] then s.(pass := s.order)
    else
      var kb := s.pass[0];
      if kb !in s.queues || s.queues[kb] == [] then s.(pass := s.pass[1..])
      else
        s.(pass := s.pass[1..],
           queues := s.queues[kb := s.queues[kb][1..]],
           delivered := s.delivered + [Item(kb, s.queues[kb][0])])
  }

  function Step(s: QueueState, e: Event): QueueState {
    match e
    case Arrive(item) => Arrival(s, item)
    case Turn => WorkerTurn(s)
  }

  function Run(s: QueueState, events: seq<Event>): QueueState
    decreases events
  {
    if events == [] then s else Run(Step(s, events[0]), events[1..])
  }

  /** The tasks of one knowledge base in a log, in order. */
  function Of(log: seq<Item>, kb: string): seq<string> {
    if log == [] then []
    else Of(log[..|log| - 1], kb) + if log[|log| - 1].kb == kb then [log[|log| - 1].task] else []
  }

  function Waiting(s: QueueState, kb: string): seq<string> {
    if kb in s.queues then s.queues[kb] else []
  }

  // ------------------------------------------------- delivery: once, in order

  ghost predicate Distinct(s: seq<string>) {
    forall i, j :: 0 <= i < j < |s| ==> s[i] != s[j]
  }

  ghost predicate WellFormed(s: QueueState) {
    && Distinct(s.order)
    && (forall kb :: kb in s.order <==> kb in s.queues)
    && Distinct(s.pass)
    && (forall kb :: kb in s.pass ==> kb in s.order)
  }

  /** What was delivered, followed by what waits, is what was enqueued. */
  ghost predicate Conserved(s: QueueState) {
    forall kb :: Of(s.delivered, kb) + Waiting(s, kb) == Of(s.enqueued, kb)
  }

  lemma OfMore(log: seq<Item>, item: Item, kb: string)
    ensures Of(log + [item], kb) == Of(log, kb) + if item.kb == kb then [item.task] else []
  {
  }

  lemma StepWellFormed(s: QueueState, e: Event)
    requires WellFormed(s)
    ensures WellFormed(Step(s, e))
  {
  }

  lemma ArrivalConserves(s: QueueState, item: Item, kb: string)
    requires Of(s.delivered, kb) + Waiting(s, kb) == Of(s.enqueued, kb)
    ensures var t := Arrival(s, item);
      Of(t.delivered, kb) + Waiting(t, kb) == Of(t.enqueued, kb)
  {
    OfMore(s.enqueued, item, kb);
  }

  lemma TurnConserves(s: QueueState, kb: string)
    requires Of(s.delivered, kb) + Waiting(s, kb) == Of(s.enqueued, kb)
    ensures var t := WorkerTurn(s);
      Of(t.delivered, kb) + Waiting(t, kb) == Of(t.enqueued, kb)
  {
    if s.pass != [] && s.pass[0] in s.queues && s.queues[s.pass[0]] != [] {
      var queue := s.queues[s.pass[0]];
      OfMore(s.delivered, Item(s.pass[0], queue[0]), kb);
      assert queue == [queue[0]] + queue[1..];
    }
  }

  lemma StepConserves(s: QueueState, e: Event)
    requires Conserved(s)
    ensures Conserved(Step(s, e))
  {
    forall kb ensures Of(Step(s, e).delivered, kb) + Waiting(Step(s, e), kb) == Of(Step(s, e).enqueued, kb) {
      match e {
        case Arrive(item) => ArrivalConserves(s, item, kb);
        case Turn => TurnConserves(s, kb);
      }
    }
  }

  /**
    On every run, for every knowledge base, deliveries followed by what still
    waits are exactly the enqueued tasks in their order: none is delivered twice,
    none out of order, none invented, none lost.
  */
  lemma {:induction false} DeliveryIsFifo(events: seq<Event>, kb: string)
    ensures var s := Run(EMPTY, events);
      Of(s.delivered, kb) + Waiting(s, kb) == Of(s.enqueued, kb)
  {
    RunConserves(EMPTY, events);
  }

  lemma {:induction false} RunConserves(s: QueueState, events: seq<Event>)
    requires Conserved(s)
    ensures Conserved(Run(s, events))
    decreases events
  {
    if events != [] {
      StepConserves(s, events[0]);
      RunConserves(Step(s, events[0]), events[1..]);
    }
  }

  // ------------------------------------------------------------ bounded bypass

  /** First position of x, or the length when it is absent. */
  function Index(s: seq<string>, x: string): nat {
    if s == [] || s[0] == x then 0 else 1 + Index(s[1..], x)
  }

  lemma {:induction false} IndexSpec(s: seq<string>, x: string)
    ensures Index(s, x) <= |s|
    ensures Index(s, x) < |s| <==> x in s
    ensures x in s ==> s[Index(s, x)] == x
  {
    if s != [] && s[0] != x { IndexSpec(s[1..], x); }
  }

  lemma {:induction false} IndexMore(s: seq<string>, x: string, y: string)
    requires x in s
    ensures Index(s + [y], x) == Index(s, x)
  {
    if s[0] != x {
      assert (s + [y])[1..] == s[1..] + [y];
      IndexMore(s[1..], x, y);
    }
  }

  /** How many worker turns it takes to reach kb. */
  function TurnsUntil(s: QueueState, kb: string): nat {
    if kb in s.pass then Index(s.pass, kb) + 1
    else |s.pass| + 1 + Index(s.order, kb) + 1
  }

  function Turns(events: seq<Event>): nat
    decreases events
  {
    if events == [] then 0 else (if events[0] == Turn then 1 else 0) + Turns(events[1..])
  }

  /** How often other may still be served before kb is. */
  function Overtakes(s: QueueState, kb: string, other: string): nat {
    if kb in s.pass then if Index(s.pass, other) < Index(s.pass, kb) then 1 else 0
    else (if other in s.pass then 1 else 0) + (if Index(s.order, other) < Index(s.order, kb) then 1 else 0)
  }

  function Served(s: QueueState, kb: string): nat { |Of(s.delivered, kb)| }

  lemma ArrivalStep(s: QueueState, item: Item, kb: string, other: string)
    requires WellFormed(s) && Waiting(s, kb) != []
    ensures var t := Arrival(s, item);
      && Waiting(t, kb) != [] && Waiting(t, kb)[0] == Waiting(s, kb)[0]
      && TurnsUntil(t, kb) == TurnsUntil(s, kb)
      && Overtakes(t, kb, other) <= Overtakes(s, kb, other)
      && t.delivered == s.delivered
  {
    if item.kb !in s.queues {
      IndexMore(s.order, kb, item.kb);
      IndexSpec(s.order, other);
      IndexSpec(s.order, kb);
      if other in s.order {
        IndexMore(s.order, other, item.kb);
      } else {
        IndexSpec(s.order + [item.kb], other);
        NotBefore(s.order, item.kb, other);
      }
    }
  }

  /** An absent name is not found before the end of the list, whatever is appended. */
  lemma {:induction false} NotBefore(s: seq<string>, y: string, x: string)
    requires x !in s
    ensures Index(s + [y], x) >= |s|
  {
    if s != [] {
      assert (s + [y])[1..] == s[1..] + [y];
      NotBefore(s[1..], y, x);
    }
  }

  /** A turn brings kb one turn closer, or serves its head. */
  lemma TurnStep(s: QueueState, kb: string, other: string)
    requires WellFormed(s) && Waiting(s, kb) != [] && kb != other
    ensures var t := WorkerTurn(s);
      if TurnsUntil(s, kb) == 1 then
        && t.delivered == s.delivered + [Item(kb, Waiting(s, kb)[0])]
      else
        && Waiting(t, kb) == Waiting(s, kb)
        && TurnsUntil(t, kb) == TurnsUntil(s, kb) - 1
        && Served(t, kb) == Served(s, kb)
        && Served(t, other) + Overtakes(t, kb, other) <= Served(s, other) + Overtakes(s, kb, other)
  {
    IndexSpec(s.order, kb);
    IndexSpec(s.pass, kb);
    IndexSpec(s.pass, other);
    IndexSpec(s.order, other);
    if s.pass != [] {
      var next := s.pass[0];
      if next != kb {
        assert kb in s.pass <==> kb in s.pass[1..];
        assert other in s.pass <==> other == next || other in s.pass[1..];
        if next in s.queues && s.queues[next] != [] {
          OfMore(s.delivered, Item(next, s.queues[next][0]), kb);
          OfMore(s.delivered, Item(next, s.queues[next][0]), other);
        }
        if other == next {
          assert other !in s.pass[1..];
          IndexSpec(s.pass[1..], other);
          IndexSpec(s.pass[1..], kb);
        }
      }
    }
  }

  /**
    From any reachable state in which kb has a task waiting, however arrivals
    and turns interleave: until the worker has taken TurnsUntil turns kb is not
    served, and every other knowledge base is served at most twice, at most once
    if kb is still ahead in the current pass.
  */
  lemma {:induction false} BoundedBypass(history: seq<Event>, events: seq<Event>, kb: string, other: string)
    requires var s := Run(EMPTY, history);
      Waiting(s, kb) != [] && kb != other && Turns(events) < TurnsUntil(s, kb)
    ensures var s := Run(EMPTY, history);
      var t := Run(s, events);
      && Served(t, kb) == Served(s, kb)
      && Waiting(t, kb) != [] && Waiting(t, kb)[0] == Waiting(s, kb)[0]
      && TurnsUntil(t, kb) == TurnsUntil(s, kb) - Turns(events)
      && Served(t, other) - Served(s, other) <= if kb in s.pass then 1 else 2
  {
    RunWellFormed(EMPTY, history);
    BypassByOvertakes(Run(EMPTY, history), events, kb, other);
  }

  lemma {:induction false} RunWellFormed(s: QueueState, events: seq<Event>)
    requires WellFormed(s)
    ensures WellFormed(Run(s, events))
    decreases events
  {
    if events != [] {
      StepWellFormed(s, events[0]);
      RunWellFormed(Step(s, events[0]), events[1..]);
    }
  }

  lemma {:induction false} BypassByOvertakes(s: QueueState, events: seq<Event>, kb: string, other: string)
    requires WellFormed(s) && Waiting(s, kb) != [] && kb != other
    requires Turns(events) < TurnsUntil(s, kb)
    ensures var t := Run(s, events);
      && WellFormed(t)
      && Served(t, kb) == Served(s, kb)
      && Waiting(t, kb) != [] && Waiting(t, kb)[0] == Waiting(s, kb)[0]
      && TurnsUntil(t, kb) == TurnsUntil(s, kb) - Turns(events)
      && Served(t, other) + Overtakes(t, kb, other) <= Served(s, other) + Overtakes(s, kb, other)
    decreases events
  {
    if events != [] {
      StepWellFormed(s, events[0]);
      match events[0] {
        case Arrive(item) => ArrivalStep(s, item, kb, other);
        case Turn => TurnStep(s, kb, other);
      }
      BypassByOvertakes(Step(s, events[0]), events[1..], kb, other);
    }
  }

  /** From any reachable state, the TurnsUntil-th turn delivers the task that heads the queue of kb. */
  lemma {:induction false} ServedInTurn(history: seq<Event>, events: seq<Event>, kb: string)
    requires var s := Run(EMPTY, history);
      Waiting(s, kb) != [] && Turns(events) == TurnsUntil(s, kb) - 1
    ensures var s := Run(EMPTY, history);
      var t := Run(s, events);
      WorkerTurn(t).delivered == t.delivered + [Item(kb, Waiting(s, kb)[0])]
  {
    var s := Run(EMPTY, history);
    var other :| other != kb by { assert kb + "x" != kb; }
    RunWellFormed(EMPTY, history);
    BypassByOvertakes(s, events, kb, other);
    TurnStep(Run(s, events), kb, other);
  }

  // ------------------------------------------------------------- the queue itself

  class InProcessQueue {
    var order: seq<string>
    var queues: map<string, seq<string>>
    /** What is left of the snapshot that the current pass runs over. */
    var pass: seq<string>
    ghost var enqueued: seq<Item>
    ghost var delivered: seq<Item>

    ghost function State(): QueueState
      reads this
    {
      QueueState(order, queues, pass, enqueued, delivered)
    }

    constructor ()
      ensures State() == EMPTY
    {
      order, queues, pass, enqueued, delivered := [], map[], [], [], [];
    }

    method Enqueue(task: string, kb: string)
      modifies this
      ensures State() == Arrival(old(State()), Item(kb, task))
    {
      if kb !in queues {
        order := order + [kb];
        queues := queues[kb := []];
      }
      queues := queues[kb := queues[kb] + [task]];
      enqueued := enqueued + [Item(kb, task)];
    }

    /** One visit of the for loop; the task handed to the consumer, if any. */
    method Visit() returns (task: Option<string>)
      requires pass != []
      modifies this
      ensures State() == WorkerTurn(old(State()))
      ensures delivered == old(delivered) + if task.Some? then [Item(old(pass)[0], task.value)] else []
    {
      var kb := pass[0];
      pass := pass[1..];
      if kb !in queues || queues[kb] == [] {
        return None;
      }
      task := Some(queues[kb][0]);
      queues := queues[kb := queues[kb][1..]];
      delivered := delivered + [Item(kb, task.value)];
    }

    /**
      One round of the worker's endless loop. arrivals[i] is what other
      coroutines enqueue while the i-th visit is awaiting its consumer.
    */
    method Round(arrivals: seq<seq<Item>>) returns (processed: bool)
      requires WellFormed(State()) && pass == []
      requires |arrivals| == |order|
      modifies this
      ensures State() == Run(old(State()), RoundEvents(arrivals))
      ensures WellFormed(State()) && pass == []
      ensures processed <==> |delivered| > |old(delivered)|
    {
      ghost var start := State();
      pass := order;
      processed := false;
      assert Run(start, [Turn]) == State();
      StepWellFormed(start, Turn);
      for i := 0 to |arrivals|
        invariant |pass| == |arrivals| - i
        invariant State() == Run(start, RoundEvents(arrivals[..i])) && WellFormed(State())
        invariant |delivered| >= |start.delivered|
        invariant processed <==> |delivered| > |start.delivered|
      {
        ghost var events := RoundEvents(arrivals[..i]);
        StepWellFormed(State(), Turn);
        RunMore(start, events, Turn);
        var task := Visit();
        EnqueueAll(arrivals[i]);
        RunArrivals(start, events + [Turn], arrivals[i]);
        assert arrivals[..i + 1][..i] == arrivals[..i] && arrivals[..i + 1][i] == arrivals[i];
        processed := processed || task.Some?;
      }
      assert arrivals[..|arrivals|] == arrivals;
    }

    /** Whatever arrives during one visit. */
    method EnqueueAll(items: seq<Item>)
      requires WellFormed(State())
      modifies this
      ensures State() == Run(old(State()), Arrivals(items))
      ensures WellFormed(State()) && pass == old(pass) && delivered == old(delivered)
    {
      ghost var start := State();
      for j := 0 to |items|
        invariant State() == Run(start, Arrivals(items[..j]))
        invariant WellFormed(State()) && pass == start.pass && delivered == start.delivered
      {
        StepWellFormed(State(), Arrive(items[j]));
        RunMore(start, Arrivals(items[..j]), Arrive(items[j]));
        Enqueue(items[j].task, items[j].kb);
        assert items[..j + 1][..j] == items[..j] && items[..j + 1][j] == items[j];
      }
      assert items[..|items|] == items;
    }
  }

  function Arrivals(items: seq<Item>): seq<Event> {
    if items == [] then [] else Arrivals(items[..|items| - 1]) + [Arrive(items[|items| - 1])]
  }

  /** A snapshot, then one turn per knowledge base, each followed by what arrived during it. */
  function RoundEvents(arrivals: seq<seq<Item>>): seq<Event> {
    if arrivals == [] then [Turn]
    else RoundEvents(arrivals[..|arrivals| - 1]) + [Turn] + Arrivals(arrivals[|arrivals| - 1])
  }

  lemma {:induction false} RunArrivals(s: QueueState, events: seq<Event>, items: seq<Item>)
    ensures Run(s, events + Arrivals(items)) == Run(Run(s, events), Arrivals(items))
    decreases |events|
  {
    if events == [] {
      assert events + Arrivals(items) == Arrivals(items);
    } else {
      assert (events + Arrivals(items))[1..] == events[1..] + Arrivals(items);
      RunArrivals(Step(s, events[0]), events[1..], items);
    }
  }

  lemma {:induction false} RunMore(s: QueueState, events: seq<Event>, e: Event)
    ensures Run(s, events + [e]) == Step(Run(s, events), e)
    ensures Turns(events + [e]) == Turns(events) + if e == Turn then 1 else 0
    decreases events
  {
    if events == [] {
      assert [e][1..] == [];
    } else {
      assert (events + [e])[1..] == events[1..] + [e];
      RunMore(Step(s, events[0]), events[1..], e);
    }
  }
}
