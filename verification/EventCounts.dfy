/**
 * The delivery counters of the event bus, from the steps of a run alone: who was
 * subscribed when each delivery began, and how many handlers were therefore called.
 */
module EventCounts {
  import opened EventBus

  type Subscribers = map<string, seq<Handler>>

  /** Where h first is in the list; its length when h is not in it. */
  function FirstIndex(hs: seq<Handler>, h: Handler): (i: nat)
    ensures i <= |hs| && (i < |hs| ==> hs[i] == h)
    ensures forall j :: 0 <= j < i ==> hs[j] != h
  {
    if hs == [] || hs[0] == h then 0 else FirstIndex(hs[1..], h) + 1
  }

  /** The handlers of a topic: each subscription appends one, each cancellation drops its first occurrence. */
  function SubscribedTo(initial: Subscribers, xs: seq<Step>, topic: string): seq<Handler> {
    if xs == [] then (if topic in initial then initial[topic] else [])
    else
      var before := SubscribedTo(initial, xs[..|xs| - 1], topic);
      match xs[|xs| - 1]
      case Subscribe(t, h) => if t == topic then before + [h] else before
      case Unsubscribe(t, h) =>
        var i := FirstIndex(before, h);
        if t == topic && i < |before| then before[..i] + before[i + 1..] else before
      case _ => before
  }

  function EnqueuedIn(xs: seq<Step>): seq<Event> {
    if xs == [] then []
    else
      var before := EnqueuedIn(xs[..|xs| - 1]);
      match xs[|xs| - 1] case Enqueue(e) => before + [e] case _ => before
  }

  /** How many handlers the topic of the i-th enqueued event had when its delivery last began. */
  function CalledFor(initial: Subscribers, xs: seq<Step>, i: nat): nat {
    if xs == [] then 0
    else
      var init := xs[..|xs| - 1];
      if xs[|xs| - 1] == BeginDelivery(i) && i < |EnqueuedIn(init)|
      then |SubscribedTo(initial, init, EnqueuedIn(init)[i].topic)|
      else CalledFor(initial, init, i)
  }

  /** The same for the urgent event that last had this id. */
  function CalledForUrgent(initial: Subscribers, xs: seq<Step>, id: nat): nat {
    if xs == [] then 0
    else
      var init := xs[..|xs| - 1];
      match xs[|xs| - 1]
      case BeginUrgent(id', topic) =>
        if id' == id then |SubscribedTo(initial, init, topic)| else CalledForUrgent(initial, init, id)
      case _ => CalledForUrgent(initial, init, id)
  }

  /** Summed over the deliveries that have ended, urgent ones included. */
  function Called(initial: Subscribers, xs: seq<Step>): nat {
    if xs == [] then 0
    else
      var init := xs[..|xs| - 1];
      match xs[|xs| - 1]
      case EndDelivery(i, _) => Called(initial, init) + CalledFor(initial, init, i)
      case EndUrgent(id, _) => Called(initial, init) + CalledForUrgent(initial, init, id)
      case _ => Called(initial, init)
  }

  function FailuresIn(xs: seq<Step>): nat {
    if xs == [] then 0
    else
      var before := FailuresIn(xs[..|xs| - 1]);
      match xs[|xs| - 1]
      case EndDelivery(_, failures) => before + failures
      case EndUrgent(_, failures) => before + failures
      case _ => before
  }

  /** The topic of the urgent event that last had this id. */
  function UrgentTopic(xs: seq<Step>, id: nat): string {
    if xs == [] then ""
    else
      match xs[|xs| - 1]
      case BeginUrgent(id', topic) => if id' == id then topic else UrgentTopic(xs[..|xs| - 1], id)
      case _ => UrgentTopic(xs[..|xs| - 1], id)
  }

  /**
   * Enqueued events count as published at once, urgent ones when their delivery has ended,
   * unless a handler failed and the topic has none left by then.
   */
  function PublishedIn(initial: Subscribers, xs: seq<Step>): nat {
    if xs == [] then 0
    else
      var init, before := xs[..|xs| - 1], PublishedIn(initial, xs[..|xs| - 1]);
      match xs[|xs| - 1]
      case Enqueue(_) => before + 1
      case EndUrgent(id, failures) =>
        if failures > 0 && SubscribedTo(initial, init, UrgentTopic(init, id)) == [] then before else before + 1
      case _ => before
  }

  /** As subscribing and cancelling leave it: no topic is kept without a handler. */
  predicate NoneEmpty(subscribers: Subscribers) { forall topic :: topic in subscribers ==> subscribers[topic] != [] }

  // ---- the subscriptions ----

  lemma {:induction false} RemovedFirst(hs: seq<Handler>, h: Handler)
    ensures h in hs <==> FirstIndex(hs, h) < |hs|
    ensures h in hs ==> RemoveFirst(hs, h) == hs[..FirstIndex(hs, h)] + hs[FirstIndex(hs, h) + 1..]
  {
    if hs != [] && hs[0] != h {
      RemovedFirst(hs[1..], h);
      var i := FirstIndex(hs[1..], h);
      if h in hs {
        assert hs[..i + 1] == [hs[0]] + hs[1..][..i];
        assert hs[i + 2..] == hs[1..][i + 1..];
      }
    }
  }

  lemma StepSubscribes(b: Bus, x: Step, topic: string)
    requires Enabled(b, x)
    ensures HandlersOf(Next(b, x), topic) ==
      match x {
        case Subscribe(t, h) => if t == topic then HandlersOf(b, topic) + [h] else HandlersOf(b, topic)
        case Unsubscribe(t, h) =>
          var hs, i := HandlersOf(b, topic), FirstIndex(HandlersOf(b, topic), h);
          if t == topic && i < |hs| then hs[..i] + hs[i + 1..] else hs
        case _ => HandlersOf(b, topic)
      }
  {
    hide RemoveFirst, FirstIndex;
    if x.Unsubscribe? {
      RemovedFirst(HandlersOf(b, topic), x.handler);
    }
  }

  /** The handlers the bus keeps for a topic are those that the run has subscribed to it. */
  lemma {:induction false} HandlersAreSubscribed(capacity: nat, initial: Subscribers, xs: seq<Step>, topic: string)
    requires Possible(Started(capacity, initial), xs)
    ensures HandlersOf(Run(Started(capacity, initial), xs), topic) == SubscribedTo(initial, xs, topic)
  {
    hide Next, Enabled, HandlersOf, Run, Possible, Started;
    var b := Started(capacity, initial);
    if xs != [] {
      LastStep(b, xs);
      HandlersAreSubscribed(capacity, initial, xs[..|xs| - 1], topic);
      StepSubscribes(Run(b, xs[..|xs| - 1]), xs[|xs| - 1], topic);
    } else {
      NoSteps(b);
      StartSubscribed(capacity, initial, topic);
    }
  }

  lemma StartSubscribed(capacity: nat, initial: Subscribers, topic: string)
    ensures HandlersOf(Started(capacity, initial), topic) == SubscribedTo(initial, [], topic)
  {
  }

  // ---- the counters ----

  /** What each open delivery was begun with, and what the ended ones have added up to. */
  ghost predicate Counted(b: Bus, initial: Subscribers, xs: seq<Step>) {
    && b.enqueued == EnqueuedIn(xs)
    && (forall i :: i in b.tasks && b.tasks[i].Delivering? ==> b.tasks[i].handlers == CalledFor(initial, xs, i))
    && (forall id :: id in b.urgent ==> b.urgent[id] == Call(UrgentTopic(xs, id), CalledForUrgent(initial, xs, id)))
    && b.delivered + b.failed == Called(initial, xs)
    && b.failed == FailuresIn(xs)
    && (NoneEmpty(initial) ==> NoneEmpty(b.subscribers) && b.published == PublishedIn(initial, xs))
  }

  lemma Snoc(initial: Subscribers, xs: seq<Step>, x: Step)
    ensures EnqueuedIn(xs + [x]) == if x.Enqueue? then EnqueuedIn(xs) + [x.event] else EnqueuedIn(xs)
    ensures Called(initial, xs + [x]) == Called(initial, xs)
      + if x.EndDelivery? then CalledFor(initial, xs, x.task)
        else if x.EndUrgent? then CalledForUrgent(initial, xs, x.id) else 0
    ensures FailuresIn(xs + [x]) == FailuresIn(xs) + if x.EndDelivery? || x.EndUrgent? then x.failures else 0
    ensures PublishedIn(initial, xs + [x]) == PublishedIn(initial, xs)
      + if x.Enqueue? then 1
        else if x.EndUrgent? && (x.failures == 0 || SubscribedTo(initial, xs, UrgentTopic(xs, x.id)) != []) then 1
        else 0
  {
    hide CalledFor, CalledForUrgent, UrgentTopic, SubscribedTo;
    assert (xs + [x])[..|xs|] == xs;
  }

  lemma SnocCalled(initial: Subscribers, xs: seq<Step>, x: Step, i: nat)
    ensures CalledFor(initial, xs + [x], i) ==
      if x == BeginDelivery(i) && i < |EnqueuedIn(xs)|
      then |SubscribedTo(initial, xs, EnqueuedIn(xs)[i].topic)| else CalledFor(initial, xs, i)
    ensures CalledForUrgent(initial, xs + [x], i) ==
      if x.BeginUrgent? && x.id == i then |SubscribedTo(initial, xs, x.topic)| else CalledForUrgent(initial, xs, i)
    ensures UrgentTopic(xs + [x], i) == if x.BeginUrgent? && x.id == i then x.topic else UrgentTopic(xs, i)
  {
    hide EnqueuedIn, SubscribedTo;
    assert (xs + [x])[..|xs|] == xs;
  }

  lemma FiguresKept(b: Bus, x: Step)
    requires Enabled(b, x) && !x.EndDelivery? && !x.EndUrgent?
    ensures var b' := Next(b, x);
      && b'.delivered == b.delivered && b'.failed == b.failed
      && b'.published == b.published + (if x.Enqueue? then 1 else 0)
      && b'.enqueued == (if x.Enqueue? then b.enqueued + [x.event] else b.enqueued)
  {
    hide HandlersOf, RemoveFirst;
  }

  lemma NoneEmptyKept(b: Bus, x: Step)
    requires NoneEmpty(b.subscribers) && Enabled(b, x)
    ensures NoneEmpty(Next(b, x).subscribers)
  {
    hide Next, NoneEmpty;
    match x
    case Subscribe(topic, h) => SubscribeKeeps(b, topic, h);
    case Unsubscribe(topic, h) => UnsubscribeKeeps(b, topic, h);
    case _ => SubscribersKept(b, x);
  }

  lemma SubscribeKeeps(b: Bus, topic: string, h: Handler)
    requires NoneEmpty(b.subscribers)
    ensures NoneEmpty(Next(b, Subscribe(topic, h)).subscribers)
  {
  }

  lemma UnsubscribeKeeps(b: Bus, topic: string, h: Handler)
    requires NoneEmpty(b.subscribers)
    ensures NoneEmpty(Next(b, Unsubscribe(topic, h)).subscribers)
  {
    hide RemoveFirst;
  }

  lemma SubscribersKept(b: Bus, x: Step)
    requires Enabled(b, x) && !x.Subscribe? && !x.Unsubscribe?
    ensures Next(b, x).subscribers == b.subscribers
  {
    hide HandlersOf, RemoveFirst, HasRoom, WarningRaises;
    match x
    case EndUrgent(_, _) =>
    case EndDelivery(_, _) =>
    case Dispatch =>
    case _ =>
  }

  lemma ListedIff(b: Bus, topic: string)
    requires NoneEmpty(b.subscribers)
    ensures topic in b.subscribers <==> HandlersOf(b, topic) != []
  {
  }

  /** What the end of a delivery adds to the figures. */
  lemma FiguresAdded(b: Bus, x: Step)
    requires Enabled(b, x) && (x.EndDelivery? || x.EndUrgent?)
    ensures var b' := Next(b, x);
      && b'.enqueued == b.enqueued && b'.failed == b.failed + x.failures
      && (x.EndDelivery? ==>
            && x.task in b.tasks && b.tasks[x.task].Delivering? && b'.published == b.published
            && b'.delivered + b'.failed == b.delivered + b.failed + b.tasks[x.task].handlers)
      && (x.EndUrgent? ==>
            && x.id in b.urgent
            && b'.delivered + b'.failed == b.delivered + b.failed + b.urgent[x.id].handlers
            && b'.published == b.published
               + (if x.failures == 0 || b.urgent[x.id].topic in b.subscribers then 1 else 0))
  {
  }

  lemma OpenKept(b: Bus, x: Step, i: nat)
    requires Enabled(b, x)
    ensures var b' := Next(b, x);
      && (i in b'.tasks && b'.tasks[i].Delivering? ==>
            if x == BeginDelivery(i)
            then i < |b.dispatched| && b'.tasks[i].handlers == |HandlersOf(b, b.dispatched[i].topic)|
            else i in b.tasks && b.tasks[i] == b'.tasks[i])
      && (i in b'.urgent ==>
            if x.BeginUrgent? && x.id == i then b'.urgent[i] == Call(x.topic, |HandlersOf(b, x.topic)|)
            else i in b.urgent && b.urgent[i] == b'.urgent[i])
  {
    hide HandlersOf, RemoveFirst;
  }

  lemma StepOpen(b: Bus, initial: Subscribers, xs: seq<Step>, x: Step, i: nat)
    requires Counted(b, initial, xs) && Conserved(b) && Enabled(b, x)
    requires forall topic :: HandlersOf(b, topic) == SubscribedTo(initial, xs, topic)
    ensures var b' := Next(b, x);
      && (i in b'.tasks && b'.tasks[i].Delivering? ==> b'.tasks[i].handlers == CalledFor(initial, xs + [x], i))
      && (i in b'.urgent ==> b'.urgent[i] == Call(UrgentTopic(xs + [x], i), CalledForUrgent(initial, xs + [x], i)))
  {
    hide HandlersOf, SubscribedTo, Conserved, EnqueuedIn, Called, CalledFor, CalledForUrgent, FailuresIn, PublishedIn,
      UrgentTopic, NoneEmpty, Next, Enabled;
    EventsAreCounted(b);
    OpenKept(b, x, i);
    SnocCalled(initial, xs, x, i);
  }

  lemma StepCounted(b: Bus, initial: Subscribers, xs: seq<Step>, x: Step)
    requires Counted(b, initial, xs) && Conserved(b) && Enabled(b, x)
    requires forall topic :: HandlersOf(b, topic) == SubscribedTo(initial, xs, topic)
    ensures Counted(Next(b, x), initial, xs + [x])
  {
    hide HandlersOf, SubscribedTo, Conserved, EnqueuedIn, Called, CalledFor, CalledForUrgent, FailuresIn, PublishedIn,
      UrgentTopic, NoneEmpty, Next, Enabled;
    forall i: nat
      ensures var b' := Next(b, x);
        && (i in b'.tasks && b'.tasks[i].Delivering? ==> b'.tasks[i].handlers == CalledFor(initial, xs + [x], i))
        && (i in b'.urgent ==> b'.urgent[i] == Call(UrgentTopic(xs + [x], i), CalledForUrgent(initial, xs + [x], i)))
    {
      StepOpen(b, initial, xs, x, i);
    }
    Snoc(initial, xs, x);
    if NoneEmpty(initial) {
      NoneEmptyKept(b, x);
    }
    if x.EndDelivery? || x.EndUrgent? {
      FiguresAdded(b, x);
      if x.EndUrgent? && NoneEmpty(initial) {
        ListedIff(b, b.urgent[x.id].topic);
      }
    } else {
      FiguresKept(b, x);
    }
  }

  lemma StartCounted(capacity: nat, initial: Subscribers)
    ensures Counted(Started(capacity, initial), initial, [])
  {
  }

  lemma LastStep(b: Bus, xs: seq<Step>)
    requires xs != [] && Possible(b, xs)
    ensures Possible(b, xs[..|xs| - 1]) && Enabled(Run(b, xs[..|xs| - 1]), xs[|xs| - 1])
    ensures Run(b, xs) == Next(Run(b, xs[..|xs| - 1]), xs[|xs| - 1])
  {
    hide Next, Enabled;
  }

  lemma {:induction false} AlwaysCounted(capacity: nat, initial: Subscribers, xs: seq<Step>)
    requires Possible(Started(capacity, initial), xs)
    ensures Counted(Run(Started(capacity, initial), xs), initial, xs)
  {
    hide Next, Enabled, Run, Possible, Counted, Conserved, HandlersOf, SubscribedTo, Started;
    var b := Started(capacity, initial);
    if xs != [] {
      var init, x := xs[..|xs| - 1], xs[|xs| - 1];
      assert xs == init + [x];
      LastStep(b, xs);
      AlwaysCounted(capacity, initial, init);
      AlwaysConserved(capacity, initial, init);
      forall topic
        ensures HandlersOf(Run(b, init), topic) == SubscribedTo(initial, init, topic)
      {
        HandlersAreSubscribed(capacity, initial, init, topic);
      }
      StepCounted(Run(b, init), initial, init, x);
    } else {
      NoSteps(b);
      StartCounted(capacity, initial);
    }
  }

  /**
   * Delivered and failed together are the number of handlers subscribed to each event's
   * topic when its delivery began, summed over the deliveries that ended; and failed is
   * the number of handlers that raised, in every reachable state.
   */
  lemma HandlersAreCounted(capacity: nat, initial: Subscribers, xs: seq<Step>)
    requires Possible(Started(capacity, initial), xs)
    ensures var b := Run(Started(capacity, initial), xs);
      b.delivered + b.failed == Called(initial, xs) && b.failed == FailuresIn(xs)
  {
    hide Run, Possible, Called, FailuresIn, PublishedIn, CalledFor, CalledForUrgent, EnqueuedIn, Started;
    AlwaysCounted(capacity, initial, xs);
  }

  /**
   * Published are the events enqueued and the urgent ones delivered, but for those whose
   * publisher got an error: a handler failed, and the topic had lost its last one meanwhile.
   */
  lemma PublishedMeans(capacity: nat, initial: Subscribers, xs: seq<Step>)
    requires Possible(Started(capacity, initial), xs) && NoneEmpty(initial)
    ensures Run(Started(capacity, initial), xs).published == PublishedIn(initial, xs)
  {
    hide Run, Possible, Called, FailuresIn, PublishedIn, CalledFor, CalledForUrgent, EnqueuedIn, Started;
    AlwaysCounted(capacity, initial, xs);
  }
}
