/**
 * The event bus of engine/core/event_bus.py as a step system: a bounded queue, one
 * dispatching worker, a semaphore of 100 slots, delivery tasks and a draining stop.
 * Each step is what runs between two awaits.
 */
module EventBus {
  import opened Sequences

  const SLOTS := 100

  type Handler = nat

  datatype Event = Event(topic: string, data: string)

  /** Idle also covers waiting on the queue; Holding waits for a slot. */
  datatype Worker = Idle | Holding(event: Event) | Exited

  /** A tracked task; a Released one has given its slot back and waits to be discarded. */
  datatype Task = Created | Delivering(handlers: nat) | Released

  /**
   * A call of stop: sleeping, waiting for the worker it took, waiting for the tasks it
   * found (after the worker, or without having waited for it), or back.
   */
  datatype Phase = Sleeping | Joining | Gathering(tasks: set<nat>, joined: bool) | Returned

  /** The delivery of an urgent event, which its publisher awaits. */
  datatype Call = Call(topic: string, handlers: nat)

  /** `taken` says that a stop took the worker; `cut` that one closed the bus before the worker left. */
  datatype Bus = Bus(
    running: bool, open: bool, taken: bool, cut: bool, stops: map<nat, Phase>, capacity: nat,
    queue: seq<Event>, worker: Worker, free: int, tasks: map<nat, Task>,
    urgent: map<nat, Call>, subscribers: map<string, seq<Handler>>,
    published: nat, delivered: nat, failed: nat,
    enqueued: seq<Event>, dispatched: seq<Event>, finished: set<nat>, invoked: nat)

  datatype Step =
    | Enqueue(event: Event)
    | Take
    | Dispatch
    | BeginDelivery(task: nat)
    | EndDelivery(task: nat, failures: nat)
    | Discard(task: nat)
    | BeginUrgent(id: nat, topic: string)
    | EndUrgent(id: nat, failures: nat)
    | Subscribe(topic: string, handler: Handler)
    | Unsubscribe(topic: string, handler: Handler)
    | WorkerExit
    | StopCall(call: nat)
    | StopTake(call: nat)
    | StopJoin(call: nat)
    | StopReturn(call: nat)

  function HandlersOf(b: Bus, topic: string): seq<Handler> {
    if topic in b.subscribers then b.subscribers[topic] else []
  }

  predicate HasRoom(b: Bus) { b.capacity == 0 || |b.queue| < b.capacity }

  predicate Enabled(b: Bus, x: Step) {
    match x
    case Enqueue(_) => b.open && HasRoom(b)
    case Take => b.worker.Idle? && b.queue != []
    case Dispatch => b.worker.Holding? && b.free > 0
    case BeginDelivery(i) => i in b.tasks && b.tasks[i].Created? && i < |b.dispatched|
    case EndDelivery(i, failures) => i in b.tasks && b.tasks[i].Delivering? && failures <= b.tasks[i].handlers
    case Discard(i) => i in b.tasks && b.tasks[i].Released?
    case BeginUrgent(id, _) => b.running && b.open && id !in b.urgent
    case EndUrgent(id, failures) => id in b.urgent && failures <= b.urgent[id].handlers
    case Subscribe(_, _) => true
    case Unsubscribe(_, _) => true
    case WorkerExit => b.worker.Idle? && !b.running && (b.queue == [] || !b.open)
    case StopCall(c) => c !in b.stops
    case StopTake(c) => c in b.stops && b.stops[c].Sleeping?
    case StopJoin(c) => c in b.stops && b.stops[c].Joining? && b.worker.Exited?
    case StopReturn(c) => c in b.stops && b.stops[c].Gathering? && b.stops[c].tasks !! b.tasks.Keys
  }

  /** The list without its first occurrence of h. */
  function RemoveFirst(hs: seq<Handler>, h: Handler): seq<Handler> {
    if hs == [] then [] else if hs[0] == h then hs[1..] else [hs[0]] + RemoveFirst(hs[1..], h)
  }

  /** The warning about failures looks up the topic's handlers, and raises when none are left by then. */
  predicate WarningRaises(b: Bus, id: nat, failures: nat) {
    id in b.urgent && failures > 0 && b.urgent[id].topic !in b.subscribers
  }

  function Next(b: Bus, x: Step): Bus
    requires Enabled(b, x)
  {
    match x
    case Enqueue(e) => b.(queue := b.queue + [e], enqueued := b.enqueued + [e], published := b.published + 1)
    case Take => b.(worker := Holding(b.queue[0]), queue := b.queue[1..])
    case Dispatch =>
      b.(worker := Idle, free := b.free - 1, tasks := b.tasks[|b.dispatched| := Created],
         dispatched := b.dispatched + [b.worker.event])
    case BeginDelivery(i) =>
      b.(tasks := b.tasks[i := Delivering(|HandlersOf(b, b.dispatched[i].topic)|)])
    case EndDelivery(i, failures) =>
      b.(tasks := b.tasks[i := Released], free := b.free + 1, finished := b.finished + {i},
         delivered := b.delivered + (b.tasks[i].handlers - failures), failed := b.failed + failures,
         invoked := b.invoked + b.tasks[i].handlers)
    case Discard(i) => b.(tasks := b.tasks - {i})
    case BeginUrgent(id, topic) => b.(urgent := b.urgent[id := Call(topic, |HandlersOf(b, topic)|)])
    case EndUrgent(id, failures) =>
      b.(urgent := b.urgent - {id}, published := b.published + (if WarningRaises(b, id, failures) then 0 else 1),
         delivered := b.delivered + (b.urgent[id].handlers - failures), failed := b.failed + failures,
         invoked := b.invoked + b.urgent[id].handlers)
    case Subscribe(topic, h) => b.(subscribers := b.subscribers[topic := HandlersOf(b, topic) + [h]])
    case Unsubscribe(topic, h) =>
      var rest := RemoveFirst(HandlersOf(b, topic), h);
      b.(subscribers := if h !in HandlersOf(b, topic) then b.subscribers
                        else if rest == [] then b.subscribers - {topic} else b.subscribers[topic := rest])
    case WorkerExit => b.(worker := Exited)
    case StopCall(c) => b.(running := false, stops := b.stops[c := Sleeping])
    case StopTake(c) =>
      b.(taken := true, stops := b.stops[c := if b.taken then Gathering(b.tasks.Keys, false) else Joining])
    case StopJoin(c) => b.(stops := b.stops[c := Gathering(b.tasks.Keys, true)])
    case StopReturn(c) =>
      b.(open := false, cut := b.cut || !b.worker.Exited?, stops := b.stops[c := Returned])
  }

  ghost predicate Possible(b: Bus, xs: seq<Step>)
    decreases |xs|, 0
  {
    xs == [] || (Possible(b, xs[..|xs| - 1]) && Enabled(Run(b, xs[..|xs| - 1]), xs[|xs| - 1]))
  }

  ghost function Run(b: Bus, xs: seq<Step>): Bus
    requires Possible(b, xs)
    decreases |xs|, 1
  {
    if xs == [] then b else Next(Run(b, xs[..|xs| - 1]), xs[|xs| - 1])
  }

  function Started(capacity: nat, subscribers: map<string, seq<Handler>>): Bus {
    Bus(true, true, false, false, map[], capacity, [], Idle, SLOTS, map[], map[], subscribers, 0, 0, 0, [], [], {}, 0)
  }

  // ---- what holds in every reachable state ----

  /** The tasks that hold a slot. */
  function Active(b: Bus): set<nat> { set i | i in b.tasks && !b.tasks[i].Released? }

  function Held(b: Bus): seq<Event> { if b.worker.Holding? then [b.worker.event] else [] }

  function Indices(n: nat): (r: set<nat>)
    ensures forall i: nat :: i in r <==> i < n
    ensures |r| == n
  {
    if n == 0 then {} else Indices(n - 1) + {n - 1}
  }

  /** Queue order, once each. */
  predicate InOrder(b: Bus) { b.enqueued == b.dispatched + Held(b) + b.queue }

  /** Every dispatched event is being delivered or has been, not both. */
  predicate Partitioned(b: Bus) {
    && Active(b) + b.finished == Indices(|b.dispatched|)
    && Active(b) !! b.finished
    && b.tasks.Keys <= Indices(|b.dispatched|)
  }

  predicate Accounted(b: Bus) {
    && b.free + |Active(b)| == SLOTS && b.free >= 0
    && b.delivered + b.failed == b.invoked
    && (b.capacity > 0 ==> |b.queue| <= b.capacity)
    && (b.worker.Exited? ==> !b.running)
    && (!b.open ==> b.worker.Exited? || b.cut)
  }

  predicate Conserved(b: Bus) { InOrder(b) && Partitioned(b) && Accounted(b) }

  /** A task that changes phase joins or leaves the active set accordingly. */
  lemma ActiveAfter(b: Bus, b': Bus, i: nat, t: Task)
    requires b'.tasks == b.tasks[i := t]
    ensures Active(b') == if t.Released? then Active(b) - {i} else Active(b) + {i}
  {
  }

  lemma OrderKept(b: Bus, x: Step)
    requires InOrder(b) && Enabled(b, x)
    ensures InOrder(Next(b, x))
  {
    hide Active, Indices;
    match x
    case Enqueue(e) =>
      assert b.dispatched + Held(b) + b.queue + [e] == b.dispatched + Held(b) + (b.queue + [e]);
    case Take =>
      assert b.queue == [b.queue[0]] + b.queue[1..];
      assert b.dispatched + [] + ([b.queue[0]] + b.queue[1..]) == b.dispatched + [b.queue[0]] + b.queue[1..];
    case Dispatch =>
      assert b.dispatched + [b.worker.event] + [] + b.queue == b.dispatched + [b.worker.event] + b.queue;
    case _ =>
  }

  /** A new task takes the next index, which no task has had. */
  lemma SlotTaken(active: set<nat>, finished: set<nat>, n: nat)
    requires active + finished == Indices(n) && active !! finished
    ensures active + {n} + finished == Indices(n + 1)
    ensures active + {n} !! finished
    ensures |active + {n}| == |active| + 1
  {
    assert n !in Indices(n);
    assert n !in active && n !in finished by {
      assert active <= Indices(n) && finished <= Indices(n);
    }
  }

  /** The parts of the state that the set clauses speak of. */
  predicate Tracks(b: Bus, active: set<nat>, finished: set<nat>, n: nat, free: int) {
    Active(b) == active && b.finished == finished && |b.dispatched| == n && b.free == free
  }

  lemma DispatchTracks(b: Bus)
    requires Enabled(b, Dispatch)
    ensures Tracks(Next(b, Dispatch), Active(b) + {|b.dispatched|}, b.finished, |b.dispatched| + 1, b.free - 1)
    ensures Next(b, Dispatch).tasks.Keys == b.tasks.Keys + {|b.dispatched|}
  {
    ActiveAfter(b, Next(b, Dispatch), |b.dispatched|, Created);
  }

  lemma DispatchPartition(b: Bus)
    requires Partitioned(b) && Enabled(b, Dispatch)
    ensures Partitioned(Next(b, Dispatch)) && |Active(Next(b, Dispatch))| == |Active(b)| + 1
  {
    hide Indices, Active, Next, Enabled;
    DispatchTracks(b);
    SlotTaken(Active(b), b.finished, |b.dispatched|);
    IndicesGrow(|b.dispatched|);
  }

  lemma IndicesGrow(n: nat)
    ensures Indices(n) <= Indices(n + 1) && n in Indices(n + 1)
  {
  }

  lemma DispatchKept(b: Bus)
    requires Partitioned(b) && Accounted(b) && Enabled(b, Dispatch)
    ensures Partitioned(Next(b, Dispatch)) && Accounted(Next(b, Dispatch))
  {
    hide Indices, Active, Next, Enabled, Partitioned;
    DispatchPartition(b);
    DispatchSpares(b);
  }

  /** Two states agree on the figures that starting a delivery does not touch. */
  predicate SameFigures(b: Bus, b': Bus) {
    && b'.delivered == b.delivered && b'.failed == b.failed && b'.invoked == b.invoked
    && b'.capacity == b.capacity && b'.queue == b.queue
    && b'.running == b.running && b'.open == b.open && b'.cut == b.cut
  }

  lemma DispatchSpares(b: Bus)
    requires Enabled(b, Dispatch)
    ensures SameFigures(b, Next(b, Dispatch)) && Next(b, Dispatch).worker.Idle?
    ensures b.free > 0 && Next(b, Dispatch).free == b.free - 1
    ensures !b.worker.Exited?
  {
  }

  lemma EndTracks(b: Bus, i: nat, failures: nat)
    requires Enabled(b, EndDelivery(i, failures))
    ensures i in Active(b)
    ensures Tracks(Next(b, EndDelivery(i, failures)), Active(b) - {i}, b.finished + {i}, |b.dispatched|, b.free + 1)
    ensures Next(b, EndDelivery(i, failures)).tasks.Keys == b.tasks.Keys
  {
    ActiveAfter(b, Next(b, EndDelivery(i, failures)), i, Released);
  }

  lemma EndKept(b: Bus, i: nat, failures: nat)
    requires Partitioned(b) && Accounted(b) && Enabled(b, EndDelivery(i, failures))
    ensures Partitioned(Next(b, EndDelivery(i, failures))) && Accounted(Next(b, EndDelivery(i, failures)))
  {
    hide Indices, Active;
    EndTracks(b, i, failures);
    assert Active(b) - {i} + (b.finished + {i}) == Active(b) + b.finished;
  }

  /** The other steps leave the active and the finished tasks as they are. */
  lemma ActiveKept(b: Bus, x: Step)
    requires Enabled(b, x) && !x.Dispatch? && !x.EndDelivery?
    ensures Active(Next(b, x)) == Active(b)
    ensures Next(b, x).finished == b.finished && Next(b, x).dispatched == b.dispatched
    ensures Next(b, x).tasks.Keys <= b.tasks.Keys
  {
    if x.BeginDelivery? {
      ActiveAfter(b, Next(b, x), x.task, Next(b, x).tasks[x.task]);
    }
  }

  lemma StepConserves(b: Bus, x: Step)
    requires Conserved(b) && Enabled(b, x)
    ensures Conserved(Next(b, x))
  {
    hide Active, Indices;
    assert InOrder(Next(b, x)) by {
      hide Next, Enabled;
      OrderKept(b, x);
    }
    if x.Dispatch? {
      hide Next, Enabled, Partitioned, Accounted;
      DispatchKept(b);
    } else if x.EndDelivery? {
      hide Next, Enabled, Partitioned, Accounted;
      EndKept(b, x.task, x.failures);
    } else {
      hide InOrder;
      ActiveKept(b, x);
    }
  }

  /** Conservation in every reachable state of a started bus. */
  lemma {:induction false} AlwaysConserved(capacity: nat, subscribers: map<string, seq<Handler>>, xs: seq<Step>)
    requires Possible(Started(capacity, subscribers), xs)
    ensures Conserved(Run(Started(capacity, subscribers), xs))
  {
    if xs != [] {
      hide Conserved, Next;
      AlwaysConserved(capacity, subscribers, xs[..|xs| - 1]);
      StepConserves(Run(Started(capacity, subscribers), xs[..|xs| - 1]), xs[|xs| - 1]);
    } else {
      assert Active(Started(capacity, subscribers)) == {} == Indices(0);
    }
  }

  /** The counting form: enqueued is queued, held, active and finished; permits and slots make 100. */
  lemma EventsAreCounted(b: Bus)
    requires Conserved(b)
    ensures |b.enqueued| == |b.queue| + |Held(b)| + |Active(b)| + |b.finished|
    ensures b.free + |Active(b)| == SLOTS
    ensures b.dispatched <= b.enqueued
  {
    assert b.enqueued == b.dispatched + (Held(b) + b.queue);
  }

  // ---- stop drains ----

  /** Once the worker has left without being cut off, everything enqueued up to n events has been dispatched. */
  ghost predicate DrainedUpTo(b: Bus, n: nat) {
    |b.enqueued| >= n && (b.worker.Exited? && !b.cut ==> |b.dispatched| >= n)
  }

  lemma DrainStep(b: Bus, x: Step, n: nat)
    requires Conserved(b) && DrainedUpTo(b, n) && Enabled(b, x)
    ensures DrainedUpTo(Next(b, x), n)
  {
    hide Partitioned;
  }

  lemma {:induction false} DrainRun(b: Bus, xs: seq<Step>, n: nat)
    requires Conserved(b) && DrainedUpTo(b, n) && Possible(b, xs)
    ensures Conserved(Run(b, xs)) && DrainedUpTo(Run(b, xs), n)
  {
    if xs != [] {
      hide Conserved, DrainedUpTo, Next;
      DrainRun(b, xs[..|xs| - 1], n);
      StepConserves(Run(b, xs[..|xs| - 1]), xs[|xs| - 1]);
      DrainStep(Run(b, xs[..|xs| - 1]), xs[|xs| - 1], n);
    }
  }

  /** A stop that waited for the worker gathers every task that is not finished yet. */
  ghost predicate GathersAll(b: Bus) {
    forall c :: c in b.stops && b.stops[c].Gathering? && b.stops[c].joined ==>
      b.worker.Exited? && Indices(|b.dispatched|) <= b.stops[c].tasks + b.finished
  }

  lemma GatherStep(b: Bus, x: Step)
    requires Partitioned(b) && GathersAll(b) && Enabled(b, x)
    ensures GathersAll(Next(b, x))
  {
    hide Indices;
    if x.StopJoin? {
      assert Active(b) <= b.tasks.Keys;
    }
    hide Active;
  }

  lemma {:induction false} GatherRun(b: Bus, xs: seq<Step>)
    requires Conserved(b) && GathersAll(b) && Possible(b, xs)
    ensures Conserved(Run(b, xs)) && GathersAll(Run(b, xs))
  {
    if xs != [] {
      hide Conserved, GathersAll, Next;
      GatherRun(b, xs[..|xs| - 1]);
      StepConserves(Run(b, xs[..|xs| - 1]), xs[|xs| - 1]);
      assert Partitioned(Run(b, xs[..|xs| - 1])) by { ConservedParts(Run(b, xs[..|xs| - 1])); }
      GatherStep(Run(b, xs[..|xs| - 1]), xs[|xs| - 1]);
    }
  }

  lemma ConservedParts(b: Bus)
    requires Conserved(b)
    ensures InOrder(b) && Partitioned(b) && Accounted(b)
  {
  }

  /** When it returns, everything that was ever dispatched is delivered, and nothing else is. */
  lemma JoinedDelivers(b: Bus, c: nat)
    requires Partitioned(b) && GathersAll(b) && Enabled(b, StopReturn(c)) && b.stops[c].joined
    ensures b.finished == Indices(|b.dispatched|)
  {
    hide Indices;
    assert Active(b) <= b.tasks.Keys;
  }

  lemma PrefixBound<T>(s: seq<T>, front: seq<T>, rest: seq<T>)
    requires s <= front + rest && |s| <= |front|
    ensures s <= front
  {
    assert s == (front + rest)[..|s|] == front[..|s|];
  }

  lemma StopStarts(b: Bus, c: nat)
    requires Conserved(b) && GathersAll(b) && b.running && Enabled(b, StopCall(c))
    ensures Next(b, StopCall(c)).enqueued == b.enqueued
    ensures DrainedUpTo(Next(b, StopCall(c)), |b.enqueued|) && GathersAll(Next(b, StopCall(c)))
  {
    hide Partitioned, Indices;
  }

  lemma AtReturn(b: Bus, c: nat, before: seq<Event>)
    requires Conserved(b) && GathersAll(b) && before <= b.enqueued
    requires Enabled(b, StopReturn(c)) && b.stops[c].joined
    ensures Indices(|before|) <= b.finished <==> |before| <= |b.dispatched|
    ensures |before| <= |b.dispatched| ==> before <= b.dispatched
  {
    hide Conserved, GathersAll, Partitioned, Accounted, Active, Indices;
    ConservedParts(b);
    JoinedDelivers(b, c);
    hide Enabled;
    IndicesNest(|before|, |b.dispatched|);
    DispatchedFirst(b, before);
  }

  lemma IndicesNest(m: nat, n: nat)
    ensures Indices(m) <= Indices(n) <==> m <= n
  {
    if m > n {
      assert n in Indices(m);
    }
  }

  lemma DispatchedFirst(b: Bus, before: seq<Event>)
    requires InOrder(b) && before <= b.enqueued
    ensures |before| <= |b.dispatched| ==> before <= b.dispatched
  {
    assert b.enqueued == b.dispatched + (Held(b) + b.queue);
    if |before| <= |b.dispatched| {
      PrefixBound(before, b.dispatched, Held(b) + b.queue);
    }
  }

  lemma EnqueuedStep(b: Bus, x: Step)
    requires Enabled(b, x)
    ensures b.enqueued <= Next(b, x).enqueued
  {
  }

  lemma {:induction false} EnqueuedGrows(b: Bus, xs: seq<Step>)
    requires Possible(b, xs)
    ensures b.enqueued <= Run(b, xs).enqueued
  {
    if xs != [] {
      hide Next, Enabled;
      EnqueuedGrows(b, xs[..|xs| - 1]);
      EnqueuedStep(Run(b, xs[..|xs| - 1]), xs[|xs| - 1]);
    }
  }

  /**
   * The stop that waited for the worker, called on any reachable running bus: when it
   * returns, what was enqueued at the call is delivered exactly when the worker left
   * none of it in the queue.
   */
  lemma StopDeliversIff(b: Bus, c: nat, xs: seq<Step>)
    requires Conserved(b) && GathersAll(b) && b.running && Enabled(b, StopCall(c))
    requires Possible(Next(b, StopCall(c)), xs)
    requires var end := Run(Next(b, StopCall(c)), xs); Enabled(end, StopReturn(c)) && end.stops[c].joined
    ensures var end := Run(Next(b, StopCall(c)), xs);
      && (Indices(|b.enqueued|) <= end.finished <==> |b.enqueued| <= |end.dispatched|)
      && (|b.enqueued| <= |end.dispatched| ==> b.enqueued <= end.dispatched)
  {
    hide Next, Conserved, DrainedUpTo, GathersAll, Run, Possible, Enabled, Indices;
    StopStarts(b, c);
    StepConserves(b, StopCall(c));
    GatherRun(Next(b, StopCall(c)), xs);
    EnqueuedGrows(Next(b, StopCall(c)), xs);
    AtReturn(Run(Next(b, StopCall(c)), xs), c, b.enqueued);
  }

  /**
   * And the worker leaves nothing behind unless another stop closed the bus before it
   * left: otherwise everything enqueued at the call is delivered at the return, whatever
   * happens in between.
   */
  lemma StopDelivers(b: Bus, c: nat, xs: seq<Step>)
    requires Conserved(b) && GathersAll(b) && b.running && Enabled(b, StopCall(c))
    requires Possible(Next(b, StopCall(c)), xs)
    requires var end := Run(Next(b, StopCall(c)), xs);
      Enabled(end, StopReturn(c)) && end.stops[c].joined && !end.cut
    ensures Indices(|b.enqueued|) <= Run(Next(b, StopCall(c)), xs).finished
    ensures b.enqueued <= Run(Next(b, StopCall(c)), xs).dispatched
  {
    hide Next, Conserved, DrainedUpTo, GathersAll, Run, Possible, Enabled, Indices;
    StopStarts(b, c);
    StepConserves(b, StopCall(c));
    DrainRun(Next(b, StopCall(c)), xs, |b.enqueued|);
    GatherRun(Next(b, StopCall(c)), xs);
    LeftDrained(Run(Next(b, StopCall(c)), xs), c, |b.enqueued|);
    StopDeliversIff(b, c, xs);
  }

  lemma LeftDrained(b: Bus, c: nat, n: nat)
    requires DrainedUpTo(b, n) && GathersAll(b) && Enabled(b, StopReturn(c)) && b.stops[c].joined && !b.cut
    ensures n <= |b.dispatched|
  {
    hide Indices;
  }

  /** A stop that is called once and alone is never cut off: only a stop's return closes the bus. */
  lemma {:induction false} AloneIsUncut(b: Bus, c: nat, xs: seq<Step>)
    requires b.open && !b.cut && !b.taken && b.stops == map[] && Possible(Next(b, StopCall(c)), xs)
    requires forall i :: 0 <= i < |xs| ==> !xs[i].StopCall? && !xs[i].StopReturn?
    ensures Alone(Run(Next(b, StopCall(c)), xs), c)
  {
    if xs != [] {
      hide Next, Enabled, Alone;
      AloneIsUncut(b, c, xs[..|xs| - 1]);
      AloneStep(Run(Next(b, StopCall(c)), xs[..|xs| - 1]), c, xs[|xs| - 1]);
    }
  }

  /** One call of stop is on its way, and it has taken the worker if it has slept. */
  predicate Alone(b: Bus, c: nat) {
    && b.open && !b.cut && b.stops.Keys == {c} && !b.stops[c].Returned?
    && (b.taken <==> !b.stops[c].Sleeping?)
    && (b.stops[c].Gathering? ==> b.stops[c].joined)
  }

  lemma AloneStep(b: Bus, c: nat, x: Step)
    requires Alone(b, c) && Enabled(b, x) && !x.StopCall? && !x.StopReturn?
    ensures Alone(Next(b, x), c)
  {
    hide HandlersOf, RemoveFirst;
  }

  /** A single stop drains: when it can return, everything enqueued at its call is delivered. */
  lemma SingleStopDelivers(b: Bus, c: nat, xs: seq<Step>)
    requires Conserved(b) && b.running && b.open && !b.cut && !b.taken && b.stops == map[]
    requires Enabled(b, StopCall(c)) && Possible(Next(b, StopCall(c)), xs)
    requires forall i :: 0 <= i < |xs| ==> !xs[i].StopCall? && !xs[i].StopReturn?
    requires Enabled(Run(Next(b, StopCall(c)), xs), StopReturn(c))
    ensures Indices(|b.enqueued|) <= Run(Next(b, StopCall(c)), xs).finished
    ensures b.enqueued <= Run(Next(b, StopCall(c)), xs).dispatched
  {
    hide Next, Conserved, Run, Possible, Indices;
    AloneIsUncut(b, c, xs);
    assert GathersAll(b);
    StopDelivers(b, c, xs);
  }

  // ---- a run that loses an event ----

  lemma Extend(b: Bus, xs: seq<Step>, x: Step)
    requires Possible(b, xs) && Enabled(Run(b, xs), x)
    ensures Possible(b, xs + [x]) && Run(b, xs + [x]) == Next(Run(b, xs), x)
  {
    hide Next, Enabled;
    assert (xs + [x])[..|xs|] == xs;
  }

  function LosingRun(e: Event): seq<Step> {
    [Enqueue(e)] + [StopCall(0)] + [StopCall(1)] + [StopTake(0)] + [StopTake(1)] + [StopReturn(1)] + [WorkerExit]
    + [StopJoin(0)] + [StopReturn(0)]
  }

  /** A bus that holds one event in its queue and has dispatched none. */
  function Stuck(e: Event, running: bool, open: bool, taken: bool, cut: bool,
                 stops: map<nat, Phase>, worker: Worker): Bus
  {
    Bus(running, open, taken, cut, stops, 0, [e], worker, SLOTS, map[], map[], map[], 1, 0, 0, [e], [], {}, 0)
  }

  lemma StuckStep(b0: Bus, xs: seq<Step>, b: Bus, x: Step, b': Bus)
    requires Possible(b0, xs) && Run(b0, xs) == b && Enabled(b, x) && Next(b, x) == b'
    ensures Possible(b0, xs + [x]) && Run(b0, xs + [x]) == b'
  {
    hide Next, Enabled;
    Extend(b0, xs, x);
  }

  lemma NoTasks()
    ensures var none: map<nat, Task> := map[]; none.Keys == {}
  {
  }

  lemma StuckStarts(e: Event)
    ensures Enabled(Started(0, map[]), Enqueue(e))
    ensures Next(Started(0, map[]), Enqueue(e)) == Stuck(e, true, true, false, false, map[], Idle)
  {
  }

  lemma StuckCalls(e: Event)
    ensures var b1 := Stuck(e, true, true, false, false, map[], Idle);
      var b2 := Stuck(e, false, true, false, false, map[0 := Sleeping], Idle);
      var b3 := Stuck(e, false, true, false, false, map[0 := Sleeping, 1 := Sleeping], Idle);
      Enabled(b1, StopCall(0)) && Next(b1, StopCall(0)) == b2 && Enabled(b2, StopCall(1)) && Next(b2, StopCall(1)) == b3
  {
  }

  lemma StuckTakes(e: Event)
    ensures var b3 := Stuck(e, false, true, false, false, map[0 := Sleeping, 1 := Sleeping], Idle);
      var b4 := Stuck(e, false, true, true, false, map[0 := Joining, 1 := Sleeping], Idle);
      var b5 := Stuck(e, false, true, true, false, map[0 := Joining, 1 := Gathering({}, false)], Idle);
      Enabled(b3, StopTake(0)) && Next(b3, StopTake(0)) == b4 && Enabled(b4, StopTake(1)) && Next(b4, StopTake(1)) == b5
  {
    NoTasks();
    assert map[0 := Sleeping, 1 := Sleeping][0 := Joining] == map[0 := Joining, 1 := Sleeping];
    assert map[0 := Joining, 1 := Sleeping][1 := Gathering({}, false)] == map[0 := Joining, 1 := Gathering({}, false)];
  }

  lemma StuckCloses(e: Event)
    ensures var b5 := Stuck(e, false, true, true, false, map[0 := Joining, 1 := Gathering({}, false)], Idle);
      var b6 := Stuck(e, false, false, true, true, map[0 := Joining, 1 := Returned], Idle);
      var b7 := Stuck(e, false, false, true, true, map[0 := Joining, 1 := Returned], Exited);
      && Enabled(b5, StopReturn(1)) && Next(b5, StopReturn(1)) == b6
      && Enabled(b6, WorkerExit) && Next(b6, WorkerExit) == b7
  {
  }

  lemma StuckReturns(e: Event)
    ensures var b7 := Stuck(e, false, false, true, true, map[0 := Joining, 1 := Returned], Exited);
      var b8 := Stuck(e, false, false, true, true, map[0 := Gathering({}, true), 1 := Returned], Exited);
      var b9 := Stuck(e, false, false, true, true, map[0 := Returned, 1 := Returned], Exited);
      && Enabled(b7, StopJoin(0)) && Next(b7, StopJoin(0)) == b8
      && Enabled(b8, StopReturn(0)) && Next(b8, StopReturn(0)) == b9
  {
    NoTasks();
    assert map[0 := Joining, 1 := Returned][0 := Gathering({}, true)] == map[0 := Gathering({}, true), 1 := Returned];
    assert map[0 := Gathering({}, true), 1 := Returned][0 := Returned] == map[0 := Returned, 1 := Returned];
  }

  /**
   * A second stop, which does not wait for the worker, closes the bus while an event is
   * queued: the worker leaves, both calls return, and the event is never dispatched.
   */
  lemma SecondStopLoses(e: Event)
    ensures Possible(Started(0, map[]), LosingRun(e))
    ensures Run(Started(0, map[]), LosingRun(e))
      == Stuck(e, false, false, true, true, map[0 := Returned, 1 := Returned], Exited)
  {
    hide Run, Possible, Next, Enabled, Stuck, Started;
    var b0 := Started(0, map[]);
    var calls, joining := map[0 := Sleeping, 1 := Sleeping], map[0 := Joining, 1 := Returned];
    var b1 := Stuck(e, true, true, false, false, map[], Idle);
    var b2 := Stuck(e, false, true, false, false, map[0 := Sleeping], Idle);
    var b3 := Stuck(e, false, true, false, false, calls, Idle);
    var b4 := Stuck(e, false, true, true, false, map[0 := Joining, 1 := Sleeping], Idle);
    var b5 := Stuck(e, false, true, true, false, map[0 := Joining, 1 := Gathering({}, false)], Idle);
    var b6 := Stuck(e, false, false, true, true, joining, Idle);
    var b7 := Stuck(e, false, false, true, true, joining, Exited);
    var b8 := Stuck(e, false, false, true, true, map[0 := Gathering({}, true), 1 := Returned], Exited);
    var b9 := Stuck(e, false, false, true, true, map[0 := Returned, 1 := Returned], Exited);
    StuckStarts(e);
    StuckCalls(e);
    StuckTakes(e);
    StuckCloses(e);
    StuckReturns(e);
    NoSteps(b0);
    var xs: seq<Step> := [];
    StuckStep(b0, xs, b0, Enqueue(e), b1);
    assert xs + [Enqueue(e)] == [Enqueue(e)];
    xs := [Enqueue(e)];
    StuckStep(b0, xs, b1, StopCall(0), b2);
    xs := xs + [StopCall(0)];
    StuckStep(b0, xs, b2, StopCall(1), b3);
    xs := xs + [StopCall(1)];
    StuckStep(b0, xs, b3, StopTake(0), b4);
    xs := xs + [StopTake(0)];
    StuckStep(b0, xs, b4, StopTake(1), b5);
    xs := xs + [StopTake(1)];
    StuckStep(b0, xs, b5, StopReturn(1), b6);
    xs := xs + [StopReturn(1)];
    StuckStep(b0, xs, b6, WorkerExit, b7);
    xs := xs + [WorkerExit];
    StuckStep(b0, xs, b7, StopJoin(0), b8);
    xs := xs + [StopJoin(0)];
    StuckStep(b0, xs, b8, StopReturn(0), b9);
  }

  lemma NoSteps(b: Bus)
    ensures Possible(b, []) && Run(b, []) == b
  {
  }

  /** In every reachable state the stops that waited for the worker gather every unfinished task. */
  lemma AlwaysGathers(capacity: nat, subscribers: map<string, seq<Handler>>, xs: seq<Step>)
    requires Possible(Started(capacity, subscribers), xs)
    ensures GathersAll(Run(Started(capacity, subscribers), xs))
  {
    hide Conserved, Run, Possible;
    AlwaysConserved(capacity, subscribers, []) by {
      NoSteps(Started(capacity, subscribers));
    }
    NoSteps(Started(capacity, subscribers));
    GatherRun(Started(capacity, subscribers), xs);
  }

  // ---- the object ----

  /** The fields that the end of a delivery writes. */
  lemma AfterDelivery(b: Bus, i: nat, bad: nat)
    requires i in b.tasks && b.tasks[i].Delivering? && bad <= b.tasks[i].handlers
    ensures Next(b, EndDelivery(i, bad)) ==
      b.(tasks := b.tasks[i := Released], free := b.free + 1, finished := b.finished + {i},
         delivered := b.delivered + (b.tasks[i].handlers - bad), failed := b.failed + bad,
         invoked := b.invoked + b.tasks[i].handlers)
  {
  }

  class EventBus {
    var running: bool
    var open: bool
    var taken: bool
    ghost var cut: bool
    var stops: map<nat, Phase>
    const capacity: nat
    var queue: seq<Event>
    var worker: Worker
    var free: int
    var tasks: map<nat, Task>
    var urgent: map<nat, Call>
    var subscribers: map<string, seq<Handler>>
    var published: nat
    var delivered: nat
    var failed: nat
    ghost var enqueued: seq<Event>
    var dispatched: seq<Event>
    ghost var finished: set<nat>
    ghost var invoked: nat

    ghost function State(): Bus
      reads this
    {
      Bus(running, open, taken, cut, stops, capacity, queue, worker, free, tasks, urgent, subscribers,
          published, delivered, failed, enqueued, dispatched, finished, invoked)
    }

    constructor Start(capacity: nat, subscribers: map<string, seq<Handler>>)
      ensures State() == Started(capacity, subscribers)
    {
      running, open, taken, cut, stops := true, true, false, false, map[];
      this.capacity := capacity;
      queue, worker, free, tasks, urgent := [], Idle, SLOTS, map[], map[];
      this.subscribers := subscribers;
      published, delivered, failed := 0, 0, 0;
      enqueued, dispatched, finished, invoked := [], [], {}, 0;
    }

    /** A publisher that never had to wait for room: dropped unless the bus runs. */
    method Publish(e: Event) returns (taken: bool)
      requires running && open ==> HasRoom(State())
      modifies this
      ensures taken <==> old(running && open)
      ensures State() == if taken then Next(old(State()), Enqueue(e)) else old(State())
    {
      taken := running && open;
      if taken {
        Put(e);
      }
    }

    /** Also the end of a wait for room, which can fall after stop was called. */
    method Put(e: Event)
      requires Enabled(State(), Enqueue(e))
      modifies this
      ensures State() == Next(old(State()), Enqueue(e))
    {
      queue := queue + [e];
      enqueued := enqueued + [e];
      published := published + 1;
    }

    method Get()
      requires Enabled(State(), Take)
      modifies this
      ensures State() == Next(old(State()), Take)
    {
      worker := Holding(queue[0]);
      queue := queue[1..];
    }

    method CreateTask()
      requires Enabled(State(), Dispatch)
      modifies this
      ensures State() == Next(old(State()), Dispatch)
    {
      free := free - 1;
      tasks := tasks[|dispatched| := Created];
      dispatched := dispatched + [worker.event];
      worker := Idle;
    }

    method BeginDeliver(i: nat)
      requires Enabled(State(), BeginDelivery(i))
      modifies this
      ensures State() == Next(old(State()), BeginDelivery(i))
    {
      var topic := dispatched[i].topic;
      var handlers := if topic in subscribers then subscribers[topic] else [];
      tasks := tasks[i := Delivering(|handlers|)];
    }

    /** The handlers have all returned; raised[k] says whether the k-th one raised. */
    method EndDeliver(i: nat, raised: seq<bool>)
      requires i in tasks && tasks[i].Delivering? && |raised| == tasks[i].handlers
      modifies this
      ensures |Filter(raised, Raised())| <= |raised|
      ensures State() == Next(old(State()), EndDelivery(i, |Filter(raised, Raised())|))
    {
      hide HandlersOf, HasRoom, Filter, Next;
      var good, bad := Tally(raised);
      AfterDelivery(State(), i, bad);
      finished, invoked := finished + {i}, invoked + tasks[i].handlers;
      delivered, failed := delivered + good, failed + bad;
      free := free + 1;
      tasks := tasks[i := Released];
    }

    method DiscardTask(i: nat)
      requires Enabled(State(), Discard(i))
      modifies this
      ensures State() == Next(old(State()), Discard(i))
    {
      tasks := tasks - {i};
    }

    method AddHandler(topic: string, handler: Handler)
      modifies this`subscribers
      ensures State() == Next(old(State()), Subscribe(topic, handler))
    {
      if topic !in subscribers {
        subscribers := subscribers[topic := []];
      }
      subscribers := subscribers[topic := subscribers[topic] + [handler]];
      assert subscribers == old(subscribers)[topic := subscribers[topic]];
    }

    method RemoveHandler(topic: string, handler: Handler)
      modifies this`subscribers
      ensures State() == Next(old(State()), Unsubscribe(topic, handler))
    {
      if topic in subscribers && handler in subscribers[topic] {
        var rest := RemoveFirst(subscribers[topic], handler);
        subscribers := if rest == [] then subscribers - {topic} else subscribers[topic := rest];
      }
    }

    /** The first part of a stop, up to its sleep. */
    method Stop(c: nat)
      requires Enabled(State(), StopCall(c))
      modifies this`running, this`stops
      ensures State() == Next(old(State()), StopCall(c))
    {
      running := false;
      stops := stops[c := Sleeping];
    }

    /** After the sleep: take the worker, or find that another stop took it and go on to the tasks. */
    method TakeWorker(c: nat)
      requires Enabled(State(), StopTake(c))
      modifies this`taken, this`stops
      ensures State() == Next(old(State()), StopTake(c))
    {
      stops := stops[c := if taken then Gathering(tasks.Keys, false) else Joining];
      taken := true;
    }

    /** The worker has left: go on to the tasks that are active now. */
    method WorkerJoined(c: nat)
      requires Enabled(State(), StopJoin(c))
      modifies this`stops
      ensures State() == Next(old(State()), StopJoin(c))
    {
      stops := stops[c := Gathering(tasks.Keys, true)];
    }

    /** One turn of the worker's loop head: leave if stopped and drained. */
    method WorkerTurn() returns (left: bool)
      requires worker.Idle?
      modifies this`worker
      ensures left <==> Enabled(old(State()), WorkerExit)
      ensures State() == if left then Next(old(State()), WorkerExit) else old(State())
    {
      left := !running && (queue == [] || !open);
      if left {
        worker := Exited;
      }
    }

    method StopReturns(c: nat)
      requires Enabled(State(), StopReturn(c))
      modifies this`open, this`cut, this`stops
      ensures State() == Next(old(State()), StopReturn(c))
    {
      open := false;
      cut := cut || !worker.Exited?;
      stops := stops[c := Returned];
    }
  }

  function Raised(): bool -> bool { (raised: bool) => raised }

  method Tally(raised: seq<bool>) returns (good: nat, bad: nat)
    ensures bad == |Filter(raised, Raised())|
    ensures good + bad == |raised|
  {
    good, bad := 0, 0;
    for k := 0 to |raised|
      invariant bad == |Filter(raised[..k], Raised())|
      invariant good + bad == k
    {
      assert raised[..k + 1] == raised[..k] + [raised[k]];
      FilterSnoc(raised[..k], raised[k], Raised());
      if raised[k] {
        bad := bad + 1;
      } else {
        good := good + 1;
      }
    }
    assert raised[..|raised|] == raised;
  }
}
