/** What an application sees of the in-memory backend's streams (crates/core/src/memory.rs:455-598,
    662-702): order, prefetch, and what `close` does to the consumer tasks. */
module MemoryStreams {
  import opened Envelopes
  import opened Sums
  import opened PriorityQueue
  import opened MemoryBackend

  // ----- prefetch, as asked for --------------------------------------------------------------

  /** Consumers stay, in order, with the cap and the queue they started with. */
  ghost predicate Keeps(s: State, s': State) {
    && |s.consumers| <= |s'.consumers|
    && forall c | 0 <= c < |s.consumers| ::
         s'.consumers[c].cap == s.consumers[c].cap && s'.consumers[c].queue == s.consumers[c].queue
  }

  lemma StepKeepsCaps(s: State, e: Event)
    requires Enabled(s, e)
    ensures Keeps(s, Apply(s, e))
  {
    if ConsumerEvent(e) {
      CapsOfConsumer(s, e);
      hide Apply;
    }
  }

  lemma CapsOfConsumer(s: State, e: Event)
    requires Enabled(s, e) && ConsumerEvent(e)
    ensures Keeps(s, Apply(s, e))
  {
  }

  lemma KeepsItself(s: State)
    ensures Keeps(s, s)
  {
  }

  lemma KeepsOn(a: State, b: State, c: State)
    requires Keeps(a, b) && Keeps(b, c)
    ensures Keeps(a, c)
  {
  }

  lemma {:induction false} RunKeepsCaps(states: seq<State>, events: seq<Event>, m: nat, n: nat)
    requires Run(states, events) && m <= n < |states|
    ensures Keeps(states[m], states[n])
    decreases n
  {
    hide Apply, Enabled, Keeps;
    if m == n {
      KeepsItself(states[n]);
    } else {
      RunKeepsCaps(states, events, m, n - 1);
      StepKeepsCaps(states[n - 1], events[n - 1]);
      KeepsOn(states[m], states[n - 1], states[n]);
    }
  }

  /** What `consume` asked for, step k, is what its consumer gets at every later point of every run: a
      prefetch of p never has more than p deliveries out, read or unread, zero meaning as many as the
      semaphore can count; and fewer than that never keep the task waiting. On a closed backend there
      is no consumer at all. */
  lemma PrefetchIsAsAsked(states: seq<State>, events: seq<Event>, k: nat, n: nat, i: nat, prefetch: nat)
    requires Run(states, events) && k < n < |states| && events[k] == Consume(i, prefetch)
    ensures states[k].closed ==> |states[k + 1].consumers| == |states[k].consumers|
    ensures !states[k].closed ==>
              var c := |states[k].consumers|;
              var most := if prefetch == 0 then 0x1FFF_FFFF_FFFF_FFFF else prefetch;
              && |states[k + 1].consumers| == c + 1 && c < |states[n].consumers|
              && states[n].consumers[c].queue == i
              && var out := Sum(states[n].deliveries, Of(c)) + |states[n].consumers[c].stream|;
              && out <= most
              && (out < most && states[n].consumers[c].pc.WantPermit? && !states[n].consumers[c].semClosed ==>
                    Enabled(states[n], Acquire(c)))
  {
    RunKeepsCaps(states, events, k + 1, n);
    RunKeeps(states, events, n);
  }

  // ----- order -------------------------------------------------------------------------------

  /** What has been handed to the application on a consumer's stream, in order. */
  function HandedTo(deliveries: seq<Delivery>, c: nat): seq<Envelope> {
    if deliveries == [] then []
    else
      var n := |deliveries| - 1;
      HandedTo(deliveries[..n], c) + (if deliveries[n].consumer == c then [deliveries[n].env] else [])
  }

  lemma HandedAppend(deliveries: seq<Delivery>, d: Delivery, c: nat)
    ensures HandedTo(deliveries + [d], c) == HandedTo(deliveries, c) + (if d.consumer == c then [d.env] else [])
  {
    assert (deliveries + [d])[..|deliveries|] == deliveries;
  }

  lemma {:induction false} HandedStays(a: seq<Delivery>, b: seq<Delivery>, c: nat)
    requires |a| == |b| && forall d | 0 <= d < |a| :: a[d].consumer == b[d].consumer && a[d].env == b[d].env
    ensures HandedTo(a, c) == HandedTo(b, c)
  {
    if a != [] {
      HandedStays(a[..|a| - 1], b[..|b| - 1], c);
    }
  }

  function InHand(pc: Pc): seq<Envelope> {
    if pc.Sending? then [pc.env] else []
  }

  /** What a step pops off a queue for consumer c. */
  function PoppedBy(s: State, e: Event, c: nat): seq<Envelope>
    requires Enabled(s, e)
  {
    if e == Look(c) && s.queues[s.consumers[c].queue].pending != [] then [s.queues[s.consumers[c].queue].pending[0]] else []
  }

  ghost function Popped(states: seq<State>, events: seq<Event>, n: nat, c: nat): seq<Envelope>
    requires Run(states, events) && n < |states|
  {
    if n == 0 then [] else Popped(states, events, n - 1, c) + PoppedBy(states[n - 1], events[n - 1], c)
  }

  /** What consumer c has been given, as the state shows it. */
  function Given(s: State, c: nat): seq<Envelope>
    requires c < |s.consumers|
  {
    HandedTo(s.deliveries, c) + (s.consumers[c].stream + InHand(s.consumers[c].pc))
  }

  lemma DeliveriesFrame(s: State, e: Event)
    requires Enabled(s, e)
    ensures |s.deliveries| <= |Apply(s, e).deliveries|
    ensures !e.Take? ==> |Apply(s, e).deliveries| == |s.deliveries|
    ensures forall d | 0 <= d < |s.deliveries| ::
              Apply(s, e).deliveries[d].consumer == s.deliveries[d].consumer && Apply(s, e).deliveries[d].env == s.deliveries[d].env
  {
    if !DeliveryEvent(e) && !e.Take? && !e.DropDelivery? {
      DeliveriesStay(s, e);
      hide Apply, Enabled;
    }
  }

  lemma GivenByTake(s: State, b: nat, c: nat)
    requires Enabled(s, Take(b)) && c < |s.consumers|
    ensures Given(Apply(s, Take(b)), c) == Given(s, c)
  {
    var s' := Apply(s, Take(b));
    var k := s.consumers[b];
    HandedAppend(s.deliveries, s'.deliveries[|s.deliveries|], c);
    if b == c {
      assert [k.stream[0]] + k.stream[1..] == k.stream;
      assert HandedTo(s.deliveries, c) + [k.stream[0]] + (k.stream[1..] + InHand(k.pc))
             == HandedTo(s.deliveries, c) + (k.stream + InHand(k.pc));
    }
  }

  lemma ConsumersFrame(s: State, e: Event, c: nat)
    requires Enabled(s, e) && c < |s.consumers| && !e.Take?
    requires ConsumerEvent(e) ==> e.c != c
    ensures var k, k' := s.consumers[c], Apply(s, e).consumers[c];
            c < |Apply(s, e).consumers| && k'.stream == k.stream && k'.pc == k.pc && k'.open == k.open
  {
  }

  lemma GivenByOwn(s: State, e: Event)
    requires Enabled(s, e) && ConsumerEvent(e) && s.consumers[e.c].open && !e.DropStream?
    ensures var k, k' := s.consumers[e.c], Apply(s, e).consumers[e.c];
            && k'.open
            && k'.stream + InHand(k'.pc) == k.stream + InHand(k.pc) + PoppedBy(s, e, e.c)
  {
  }

  lemma GivenByOthers(s: State, e: Event, c: nat)
    requires Enabled(s, e) && c < |s.consumers| && !e.Take? && (ConsumerEvent(e) ==> e.c != c)
    ensures c < |Apply(s, e).consumers|
    ensures Given(Apply(s, e), c) == Given(s, c) && PoppedBy(s, e, c) == []
  {
    DeliveriesFrame(s, e);
    ConsumersFrame(s, e, c);
    hide Apply, Enabled;
    HandedStays(s.deliveries, Apply(s, e).deliveries, c);
  }

  lemma Regroup(a: seq<Envelope>, b: seq<Envelope>, c: seq<Envelope>)
    ensures a + (b + c) == a + b + c
  {
  }

  lemma GivenByItself(s: State, e: Event)
    requires Enabled(s, e) && ConsumerEvent(e) && s.consumers[e.c].open && !e.DropStream?
    ensures e.c < |Apply(s, e).consumers| && Given(Apply(s, e), e.c) == Given(s, e.c) + PoppedBy(s, e, e.c)
  {
    DeliveriesFrame(s, e);
    GivenByOwn(s, e);
    hide Apply, Enabled;
    HandedStays(s.deliveries, Apply(s, e).deliveries, e.c);
    Regroup(HandedTo(s.deliveries, e.c), s.consumers[e.c].stream + InHand(s.consumers[e.c].pc), PoppedBy(s, e, e.c));
  }

  lemma GivenStep(s: State, e: Event, c: nat)
    requires Enabled(s, e) && c < |s.consumers| && s.consumers[c].open
    requires c < |Apply(s, e).consumers| && Apply(s, e).consumers[c].open
    ensures Given(Apply(s, e), c) == Given(s, c) + PoppedBy(s, e, c)
  {
    if e.Take? {
      GivenByTake(s, e.c, c);
    } else if ConsumerEvent(e) && e.c == c {
      assert !e.DropStream?;
      hide Apply, Enabled;
      GivenByItself(s, e);
    } else {
      hide Apply, Enabled;
      GivenByOthers(s, e, c);
    }
  }

  lemma StreamsStayDropped(s: State, e: Event, c: nat)
    requires Enabled(s, e) && c < |s.consumers| && !s.consumers[c].open
    ensures c < |Apply(s, e).consumers| && !Apply(s, e).consumers[c].open
  {
    if !e.Take? && (ConsumerEvent(e) ==> e.c != c) {
      ConsumersFrame(s, e, c);
      hide Apply;
    }
  }

  lemma NewConsumers(s: State, e: Event, c: nat)
    requires Enabled(s, e) && |s.consumers| <= c < |Apply(s, e).consumers|
    ensures e.Consume? && Apply(s, e).deliveries == s.deliveries
    ensures Apply(s, e).consumers[c].stream == [] && Apply(s, e).consumers[c].pc == WantPermit
  {
  }

  lemma {:induction false} HandedToNobody(deliveries: seq<Delivery>, c: nat)
    requires forall d | 0 <= d < |deliveries| :: deliveries[d].consumer < c
    ensures HandedTo(deliveries, c) == []
  {
    if deliveries != [] {
      HandedToNobody(deliveries[..|deliveries| - 1], c);
    }
  }

  lemma PoppedByNobody(s: State, e: Event, c: nat)
    requires Enabled(s, e) && c >= |s.consumers|
    ensures PoppedBy(s, e, c) == []
  {
  }

  lemma {:induction false} NothingPoppedBefore(states: seq<State>, events: seq<Event>, n: nat, c: nat)
    requires Run(states, events) && n < |states| && c >= |states[n].consumers|
    ensures Popped(states, events, n, c) == []
  {
    hide Apply, Enabled;
    if n > 0 {
      StepKeepsCaps(states[n - 1], events[n - 1]);
      NothingPoppedBefore(states, events, n - 1, c);
      PoppedByNobody(states[n - 1], events[n - 1], c);
    }
  }

  /** Streams are first in, first out. In every run, for as long as a consumer's stream is open, what its
      task has popped off the queue is, in that order, what the application has been handed, what waits
      in the stream, and what the task holds. */
  lemma {:induction false} StreamsAreInOrder(states: seq<State>, events: seq<Event>, n: nat, c: nat)
    requires Run(states, events) && n < |states| && c < |states[n].consumers| && states[n].consumers[c].open
    ensures Popped(states, events, n, c)
            == HandedTo(states[n].deliveries, c) + (states[n].consumers[c].stream + InHand(states[n].consumers[c].pc))
  {
    hide Apply, Enabled, PoppedBy, HandedTo;
    if n > 0 {
      if c < |states[n - 1].consumers| {
        StreamGoesOn(states, events, n, c);
        StreamsAreInOrder(states, events, n - 1, c);
      } else {
        StreamIsNew(states, events, n, c);
      }
    }
  }

  lemma StreamGoesOn(states: seq<State>, events: seq<Event>, n: nat, c: nat)
    requires Run(states, events) && 0 < n < |states| && c < |states[n - 1].consumers|
    requires c < |states[n].consumers| && states[n].consumers[c].open
    ensures states[n - 1].consumers[c].open
    ensures Given(states[n], c) == Given(states[n - 1], c) + PoppedBy(states[n - 1], events[n - 1], c)
  {
    var s, e := states[n - 1], events[n - 1];
    hide Apply, Enabled, PoppedBy, Given;
    if !s.consumers[c].open { StreamsStayDropped(s, e, c); }
    GivenStep(s, e, c);
  }

  lemma StreamIsNew(states: seq<State>, events: seq<Event>, n: nat, c: nat)
    requires Run(states, events) && 0 < n < |states| && |states[n - 1].consumers| <= c < |states[n].consumers|
    ensures Popped(states, events, n, c) == [] && Given(states[n], c) == []
  {
    var s, e := states[n - 1], events[n - 1];
    NewConsumers(s, e, c);
    NothingPoppedBefore(states, events, n - 1, c);
    PoppedByNobody(s, e, c);
    RunKeeps(states, events, n - 1);
    HandedToNobody(s.deliveries, c);
  }

  /** A wake-up is used once: the consumer that wakes and then finds its queue empty goes back to sleep,
      and sleeps until the next signal; one that finds something takes the first of it. */
  lemma WakeUpsAreUsedOnce(s: State, c: nat)
    requires Enabled(s, Wake(c)) && !s.closed
    ensures var awake := Apply(s, Wake(c));
            var q := s.queues[s.consumers[c].queue];
            && Enabled(awake, Look(c))
            && var looked := Apply(awake, Look(c));
            if q.pending == [] then looked.consumers[c].pc == Parked && !Enabled(looked, Wake(c))
            else looked.consumers[c].pc == Sending(q.pending[0]) && looked.queues[s.consumers[c].queue].pending == q.pending[1..]
  {
  }

  // ----- close -------------------------------------------------------------------------------

  /** Once the backend is closed every prefetch semaphore is. */
  ghost predicate ClosedOk(s: State) {
    s.closed ==> forall c | 0 <= c < |s.consumers| :: s.consumers[c].semClosed
  }

  lemma ClosedStepOk(s: State, e: Event)
    requires ClosedOk(s) && Enabled(s, e)
    ensures ClosedOk(Apply(s, e)) && (s.closed ==> |Apply(s, e).consumers| == |s.consumers|)
    ensures e.Close? ==> Apply(s, e).closed
  {
  }

  lemma {:induction false} RunClosedOk(states: seq<State>, events: seq<Event>, n: nat)
    requires Run(states, events) && n < |states|
    ensures ClosedOk(states[n])
  {
    if n > 0 {
      RunClosedOk(states, events, n - 1);
      hide ClosedOk, Apply;
      ClosedStepOk(states[n - 1], events[n - 1]);
    }
  }

  /** How many steps of its own a consumer task can still take once the backend is closed. */
  function StepsLeft(pc: Pc): nat {
    match pc
    case Gone => 0
    case WantPermit => 1
    case Looking => 1
    case PuttingBack(_) => 1
    case Parked => 2
    case Sending(_) => 2
  }

  function OwnStepOf(k: Consumer, c: nat): Event {
    match k.pc
    case Parked => Wake(c)
    case Sending(_) => Send(c)
    case PuttingBack(_) => PutBack(c)
    case _ => Exit(c)
  }

  /** `close` ends every stream: in every run, once the backend is closed, each consumer task that is
      not gone can take a step of its own, which brings its end nearer, and it takes no message any
      more. */
  lemma CloseEndsTheConsumers(states: seq<State>, events: seq<Event>, n: nat, c: nat)
    requires Run(states, events) && n < |states| && states[n].closed && c < |states[n].consumers|
    ensures states[n].consumers[c].pc != Gone ==>
              var own := OwnStepOf(states[n].consumers[c], c);
              && Enabled(states[n], own)
              && StepsLeft(Apply(states[n], own).consumers[c].pc) < StepsLeft(states[n].consumers[c].pc)
    ensures !Enabled(states[n], Look(c)) && !Enabled(states[n], Acquire(c))
  {
    RunClosedOk(states, events, n);
    RunKeeps(states, events, n);
    assert AwakeOk(states[n].queues, states[n].closed, states[n].consumers[c]);
  }

  function StepsLeftAlone(pc: Pc): nat {
    match pc
    case Gone => 0
    case WantPermit => 1
    case Parked => 1
    case PuttingBack(_) => 1
    case Sending(_) => 2
    case Looking => 3
  }

  function OwnStepAlone(s: State, c: nat): Event
    requires c < |s.consumers|
  {
    match s.consumers[c].pc
    case Looking => if s.closed then Exit(c) else Look(c)
    case Sending(_) => Send(c)
    case PuttingBack(_) => PutBack(c)
    case _ => Exit(c)
  }

  /** Dropping a stream ends its consumer task: in every run, once the stream is gone, the task can take a
      step of its own that brings its end nearer, whatever it was doing, and a message it still holds
      goes back to its queue or into nobody's hands. */
  lemma DroppedStreamsEndTheirConsumers(states: seq<State>, events: seq<Event>, n: nat, c: nat)
    requires Run(states, events) && n < |states| && c < |states[n].consumers| && !states[n].consumers[c].open
    ensures states[n].consumers[c].pc != Gone ==>
              var own := OwnStepAlone(states[n], c);
              && Enabled(states[n], own)
              && StepsLeftAlone(Apply(states[n], own).consumers[c].pc) < StepsLeftAlone(states[n].consumers[c].pc)
    ensures states[n].consumers[c].pc.Sending? ==>
              Apply(states[n], Send(c)).consumers[c].pc == PuttingBack(states[n].consumers[c].pc.env)
  {
    RunKeeps(states, events, n);
    assert AwakeOk(states[n].queues, states[n].closed, states[n].consumers[c]);
  }

  lemma ClosedQueues(s: State, e: Event, i: nat)
    requires Enabled(s, e) && s.closed && !e.PutBack? && i < |s.queues|
    ensures Apply(s, e).queues[i].pending == s.queues[i].pending || (e.Look? && s.queues[i].pending != [])
  {
    hide Insert;
  }

  lemma ClosedDead(s: State, e: Event, i: nat)
    requires Enabled(s, e) && s.closed && i < |s.queues|
    ensures Apply(s, e).queues[i].dead == s.queues[i].dead
  {
    hide Insert;
  }

  lemma ClosedGates(s: State, e: Event)
    requires Enabled(s, e) && s.closed
    ensures Apply(s, e).accepted == s.accepted && Apply(s, e).closed
    ensures |Apply(s, e).consumers| == |s.consumers|
  {
    hide Insert;
  }

  /** ... and nothing is accepted: no publish, no republish, no dead letter, no new consumer, and no queue
      grows except by what a consumer was given before and puts back. */
  lemma ClosedAcceptsNothing(s: State, e: Event)
    requires Enabled(s, e) && s.closed
    ensures Apply(s, e).accepted == s.accepted && Apply(s, e).closed
    ensures |Apply(s, e).consumers| == |s.consumers|
    ensures !e.PutBack? ==> forall i | 0 <= i < |s.queues| :: Apply(s, e).queues[i].pending == s.queues[i].pending
    ensures forall i | 0 <= i < |s.queues| :: Apply(s, e).queues[i].dead == s.queues[i].dead
  {
    assert !e.Look?;
    ClosedGates(s, e);
    forall i | 0 <= i < |s.queues| ensures Apply(s, e).queues[i].dead == s.queues[i].dead {
      ClosedDead(s, e, i);
    }
    hide Apply, Enabled;
    if !e.PutBack? {
      forall i | 0 <= i < |s.queues| ensures Apply(s, e).queues[i].pending == s.queues[i].pending {
        ClosedQueues(s, e, i);
      }
    }
  }
}
