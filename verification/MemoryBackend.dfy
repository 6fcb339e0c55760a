/** The in-memory backend (crates/core/src/memory.rs:328-702) as a machine with one step per lock
    section or await point: publishers, timers, consumer tasks, streams, deliveries and `close`
    interleave freely. */
module MemoryBackend {
  import opened Envelopes
  import opened Sums
  import opened PriorityQueue

  /** `Semaphore::MAX_PERMITS` on a 64-bit target. */
  const MAX_PERMITS: nat := 0x1FFF_FFFF_FFFF_FFFF

  datatype Queue = Queue(
    name: Text,
    pending: seq<Envelope>,
    settled: seq<(Envelope, AckKind)>,
    dead: seq<Envelope>,
    held: nat,
    signal: nat)

  /** A spawned sleep. With `hold` it owns a hold guard. */
  datatype Timer = Timer(env: Envelope, hold: bool, live: bool)

  /** A `publish` or `defer` that has passed its closed check and not yet scheduled. */
  datatype Call = Call(env: Envelope, delayed: bool, hold: bool, live: bool)

  datatype Pc = WantPermit | Looking | Parked | Sending(env: Envelope) | PuttingBack(env: Envelope) | Gone
  {
    predicate HoldsPermit() { Looking? || Parked? || Sending? }
  }

  /** A consumer task and the stream it feeds. `unread` is what a dropped stream is handing back. */
  datatype Consumer = Consumer(
    queue: nat,
    cap: nat,
    permits: nat,
    semClosed: bool,
    pc: Pc,
    seen: nat,
    stream: seq<Envelope>,
    open: bool,
    unread: seq<Envelope>)

  /** A delivery in the application's hands; it owns a permit until it is dropped. `stage` says what has
      been called on it and which copies that call still has in hand. */
  datatype Stage =
    | Waiting(env: Envelope)
    | Republishing(env: Envelope, next: Envelope, delayed: bool, hold: bool)
    | Recording(env: Envelope, kind: AckKind)
    | Refused(env: Envelope)
    | Spent
    | Dropped

  datatype Delivery = Delivery(consumer: nat, env: Envelope, stage: Stage)

  datatype State = State(
    queues: seq<Queue>,
    closed: bool,
    timers: seq<Timer>,
    calls: seq<Call>,
    consumers: seq<Consumer>,
    deliveries: seq<Delivery>,
    accepted: seq<Envelope>,
    lost: seq<Envelope>)
  {
    predicate Named(i: nat, name: Text) { i < |queues| && queues[i].name == name }

    function Put(i: nat, q: Queue): State
      requires i < |queues|
    {
      this.(queues := queues[i := q])
    }

    function Set(c: nat, k: Consumer): State
      requires c < |consumers|
    {
      this.(consumers := consumers[c := k])
    }

    function Mark(d: nat, stage: Stage): State
      requires d < |deliveries|
    {
      this.(deliveries := deliveries[d := deliveries[d].(stage := stage)])
    }

    function Lose(es: seq<Envelope>): State { this.(lost := lost + es) }

    /** `enqueue_now`: a closed backend accepts nothing. */
    function EnqueueNow(e: Envelope, i: nat): State
      requires i < |queues|
    {
      if closed then Lose([e])
      else Put(i, queues[i].(pending := Insert(queues[i].pending, e), signal := queues[i].signal + 1))
    }

    /** `schedule`, or `hold` for a deferral. */
    function Schedule(e: Envelope, delayed: bool, hold: bool, i: nat): State
      requires i < |queues|
    {
      if !delayed then EnqueueNow(e, i)
      else
        (if hold then Put(i, queues[i].(held := queues[i].held + 1)) else this)
          .(timers := timers + [Timer(e, hold, true)])
    }

    /** A timer is over: its hold, if it has one, is released with a saturating decrement. */
    function Release(t: nat, i: nat): State
      requires t < |timers| && i < |queues|
    {
      var after := this.(timers := timers[t := timers[t].(live := false)]);
      if timers[t].hold then
        after.Put(i, queues[i].(held := if queues[i].held == 0 then 0 else queues[i].held - 1))
      else after
    }
  }

  datatype Event =
    | Create(name: Text)                                          // declare, or the first use of a name
    | Publish(e: Envelope, delayed: bool, hold: bool)             // `publish` and `defer`: the closed check
    | RunCall(k: nat, i: nat)                                     // ... and the scheduling
    | Fire(t: nat, i: nat)
    | AbortTimer(t: nat, i: nat)                                  // the runtime drops the task
    | Consume(i: nat, prefetch: nat)
    | Exit(c: nat)
    | Acquire(c: nat)
    | Look(c: nat)
    | Wake(c: nat)
    | Send(c: nat)
    | PutBack(c: nat)
    | Take(c: nat)
    | DropStream(c: nat)
    | RequeueUnread(c: nat)
    | Ack(d: nat, i: nat)
    | DeadLetter(d: nat, i: nat)
    | Republish(d: nat, e: Envelope, delayed: bool, hold: bool)   // `retry` and `defer`: the closed check
    | RunRepublish(d: nat, i: nat)                                // ... the scheduling
    | Record(d: nat, i: nat)                                      // ... and the ack
    | DropDelivery(d: nat)
    | Close

  /** The stream is gone, the prefetch semaphore is closed, or the backend is. */
  predicate CanExit(k: Consumer, closed: bool) {
    match k.pc
    case WantPermit => !k.open || k.semClosed
    case Looking => closed
    case Parked => !k.open
    case _ => false
  }

  predicate Enabled(s: State, e: Event) {
    match e
    case Create(name) => forall i | 0 <= i < |s.queues| :: s.queues[i].name != name
    case Publish(_, _, _) => true
    case RunCall(k, i) => k < |s.calls| && s.calls[k].live && s.Named(i, s.calls[k].env.queue)
    case Fire(t, i) => t < |s.timers| && s.timers[t].live && s.Named(i, s.timers[t].env.queue)
    case AbortTimer(t, i) => t < |s.timers| && s.timers[t].live && s.Named(i, s.timers[t].env.queue)
    case Consume(i, _) => i < |s.queues|
    case Exit(c) => c < |s.consumers| && CanExit(s.consumers[c], s.closed)
    case Acquire(c) =>
      c < |s.consumers| && s.consumers[c].pc.WantPermit? && !s.consumers[c].semClosed && s.consumers[c].permits > 0
    case Look(c) =>
      c < |s.consumers| && s.consumers[c].pc.Looking? && !s.closed && s.consumers[c].queue < |s.queues|
    case Wake(c) =>
      && c < |s.consumers| && s.consumers[c].pc.Parked? && s.consumers[c].queue < |s.queues|
      && s.queues[s.consumers[c].queue].signal != s.consumers[c].seen
    case Send(c) => c < |s.consumers| && s.consumers[c].pc.Sending?
    case PutBack(c) => c < |s.consumers| && s.consumers[c].pc.PuttingBack? && s.consumers[c].queue < |s.queues|
    case Take(c) => c < |s.consumers| && s.consumers[c].open && s.consumers[c].stream != []
    case DropStream(c) => c < |s.consumers| && s.consumers[c].open
    case RequeueUnread(c) =>
      c < |s.consumers| && !s.consumers[c].open && s.consumers[c].unread != [] && s.consumers[c].queue < |s.queues|
    case Ack(d, i) =>
      d < |s.deliveries| && s.deliveries[d].stage.Waiting? && s.Named(i, s.deliveries[d].stage.env.queue)
    case DeadLetter(d, i) =>
      d < |s.deliveries| && s.deliveries[d].stage.Waiting? && s.Named(i, s.deliveries[d].stage.env.queue)
    case Republish(d, _, _, _) => d < |s.deliveries| && s.deliveries[d].stage.Waiting?
    case RunRepublish(d, i) =>
      d < |s.deliveries| && s.deliveries[d].stage.Republishing? && s.Named(i, s.deliveries[d].stage.next.queue)
    case Record(d, i) =>
      d < |s.deliveries| && s.deliveries[d].stage.Recording? && s.Named(i, s.deliveries[d].stage.env.queue)
    case DropDelivery(d) =>
      && d < |s.deliveries| && s.deliveries[d].consumer < |s.consumers|
      && (s.deliveries[d].stage.Waiting? || s.deliveries[d].stage.Refused? || s.deliveries[d].stage.Spent?)
    case Close => true
  }

  function LookStep(s: State, c: nat): State
    requires Enabled(s, Look(c))
  {
    var k := s.consumers[c];
    var q := s.queues[k.queue];
    if q.pending == [] then s.Set(c, k.(pc := Parked))
    else s.Put(k.queue, q.(pending := q.pending[1..])).Set(c, k.(pc := Sending(q.pending[0])))
  }

  function SendStep(s: State, c: nat): State
    requires Enabled(s, Send(c))
  {
    var k := s.consumers[c];
    if k.open then s.Set(c, k.(stream := k.stream + [k.pc.env], pc := WantPermit))
    else s.Set(c, k.(permits := k.permits + 1, pc := PuttingBack(k.pc.env)))
  }

  function RequeueStep(s: State, c: nat): State
    requires Enabled(s, RequeueUnread(c))
  {
    var k := s.consumers[c];
    var q := s.queues[k.queue];
    var after := s.Set(c, k.(unread := []));
    if s.closed then after.Lose(k.unread)
    else after.Put(k.queue, q.(pending := k.unread + q.pending, signal := q.signal + 1))
  }

  function DropStep(s: State, d: nat): State
    requires Enabled(s, DropDelivery(d))
  {
    var stage, c := s.deliveries[d].stage, s.deliveries[d].consumer;
    var after := s.Mark(d, Dropped).Set(c, s.consumers[c].(permits := s.consumers[c].permits + 1));
    if stage.Spent? then after else after.Lose([stage.env])
  }

  function Apply(s: State, e: Event): State
    requires Enabled(s, e)
  {
    match e
    case Create(name) => s.(queues := s.queues + [Queue(name, [], [], [], 0, 0)])
    case Publish(x, delayed, hold) =>
      if s.closed then s
      else s.(calls := s.calls + [Call(x, delayed, hold, true)], accepted := s.accepted + [x])
    case RunCall(k, i) =>
      var call := s.calls[k];
      s.Schedule(call.env, call.delayed, call.hold, i).(calls := s.calls[k := call.(live := false)])
    case Fire(t, i) => s.Release(t, i).EnqueueNow(s.timers[t].env, i)
    case AbortTimer(t, i) => s.Release(t, i).Lose([s.timers[t].env])
    case Consume(i, prefetch) =>
      var cap := if prefetch == 0 then MAX_PERMITS else prefetch;
      if s.closed then s
      else s.(consumers := s.consumers + [Consumer(i, cap, cap, false, WantPermit, s.queues[i].signal, [], true, [])])
    case Exit(c) =>
      var k := s.consumers[c];
      s.Set(c, k.(pc := Gone, permits := k.permits + (if k.pc.HoldsPermit() then 1 else 0)))
    case Acquire(c) => s.Set(c, s.consumers[c].(pc := Looking, permits := s.consumers[c].permits - 1))
    case Look(c) => LookStep(s, c)
    case Wake(c) => s.Set(c, s.consumers[c].(pc := Looking, seen := s.queues[s.consumers[c].queue].signal))
    case Send(c) => SendStep(s, c)
    case PutBack(c) =>
      var k := s.consumers[c];
      var q := s.queues[k.queue];
      s.Put(k.queue, q.(pending := [k.pc.env] + q.pending, signal := q.signal + 1)).Set(c, k.(pc := Gone))
    case Take(c) =>
      var k := s.consumers[c];
      s.Set(c, k.(stream := k.stream[1..])).(deliveries := s.deliveries + [Delivery(c, k.stream[0], Waiting(k.stream[0]))])
    case DropStream(c) =>
      var k := s.consumers[c];
      s.Set(c, k.(open := false, unread := k.unread + k.stream, stream := [], permits := k.permits + |k.stream|))
    case RequeueUnread(c) => RequeueStep(s, c)
    case Ack(d, i) =>
      s.Put(i, s.queues[i].(settled := s.queues[i].settled + [(s.deliveries[d].stage.env, Succeeded)])).Mark(d, Spent)
    case DeadLetter(d, i) =>
      if s.closed then s.Mark(d, Refused(s.deliveries[d].stage.env))
      else s.Put(i, s.queues[i].(dead := s.queues[i].dead + [s.deliveries[d].stage.env])).Mark(d, Spent)
    case Republish(d, next, delayed, hold) =>
      var env := s.deliveries[d].stage.env;
      if s.closed then s.Mark(d, Refused(env))
      else s.Mark(d, Republishing(env, next, delayed, hold)).(accepted := s.accepted + [next])
    case RunRepublish(d, i) =>
      var st := s.deliveries[d].stage;
      s.Schedule(st.next, st.delayed, st.hold, i).Mark(d, Recording(st.env, if st.hold then Deferred else Retried))
    case Record(d, i) =>
      var st := s.deliveries[d].stage;
      s.Put(i, s.queues[i].(settled := s.queues[i].settled + [(st.env, st.kind)])).Mark(d, Spent)
    case DropDelivery(d) => DropStep(s, d)
    case Close =>
      s.(closed := true,
         queues := seq(|s.queues|, i requires 0 <= i < |s.queues| => s.queues[i].(signal := s.queues[i].signal + 1)),
         consumers := seq(|s.consumers|, c requires 0 <= c < |s.consumers| => s.consumers[c].(semClosed := true)))
  }

  ghost predicate Init(s: State) {
    s == State([], false, [], [], [], [], [], [])
  }

  // ----- conservation ------------------------------------------------------------------------

  function One(b: bool): nat { if b then 1 else 0 }

  function Is(e: Envelope): Envelope -> nat {
    (x: Envelope) => One(x == e)
  }

  function IsAck(e: Envelope): ((Envelope, AckKind)) -> nat {
    (x: (Envelope, AckKind)) => One(x.0 == e)
  }

  function CountQueue(q: Queue, e: Envelope): nat {
    Sum(q.pending, Is(e)) + Sum(q.settled, IsAck(e)) + Sum(q.dead, Is(e))
  }

  function CountConsumer(k: Consumer, e: Envelope): nat {
    Sum(k.stream, Is(e)) + Sum(k.unread, Is(e))
    + (match k.pc case Sending(x) => One(x == e) case PuttingBack(x) => One(x == e) case _ => 0)
  }

  function CountStage(st: Stage, e: Envelope): nat {
    match st
    case Waiting(x) => One(x == e)
    case Republishing(x, next, _, _) => One(x == e) + One(next == e)
    case Recording(x, _) => One(x == e)
    case Refused(x) => One(x == e)
    case _ => 0
  }

  function InQueue(e: Envelope): Queue -> nat { (q: Queue) => CountQueue(q, e) }
  function InConsumer(e: Envelope): Consumer -> nat { (k: Consumer) => CountConsumer(k, e) }
  function InDelivery(e: Envelope): Delivery -> nat { (d: Delivery) => CountStage(d.stage, e) }
  function InTimer(e: Envelope): Timer -> nat { (t: Timer) => One(t.live && t.env == e) }
  function InCall(e: Envelope): Call -> nat { (c: Call) => One(c.live && c.env == e) }

  /** How many copies of an envelope are anywhere: pending, settled or dead on a queue; in a
      consumer's hand, in or coming back from a stream; with the application; delayed or held;
      between a call's two critical sections; or lost. */
  function Places(s: State, e: Envelope): nat {
    Sum(s.queues, InQueue(e)) + Sum(s.consumers, InConsumer(e)) + Sum(s.deliveries, InDelivery(e))
    + Sum(s.timers, InTimer(e)) + Sum(s.calls, InCall(e)) + Sum(s.lost, Is(e))
  }

  ghost predicate Conserved(s: State) {
    forall e :: Sum(s.accepted, Is(e)) == Places(s, e)
  }

  lemma InsertCounts(pending: seq<Envelope>, x: Envelope, e: Envelope)
    ensures Sum(Insert(pending, x), Is(e)) == Sum(pending, Is(e)) + One(x == e)
  {
    var i := InsertPosition(pending, x.priority);
    SumConcat(pending[..i] + [x], pending[i..], Is(e));
    SumAppend(pending[..i], x, Is(e));
    SumConcat(pending[..i], pending[i..], Is(e));
    assert pending == pending[..i] + pending[i..];
  }

  lemma PutCounts(s: State, i: nat, q: Queue, e: Envelope)
    requires i < |s.queues|
    ensures Places(s.Put(i, q), e) + CountQueue(s.queues[i], e) == Places(s, e) + CountQueue(q, e)
  {
    SumUpdate(s.queues, i, q, InQueue(e));
  }

  lemma SetCounts(s: State, c: nat, k: Consumer, e: Envelope)
    requires c < |s.consumers|
    ensures Places(s.Set(c, k), e) + CountConsumer(s.consumers[c], e) == Places(s, e) + CountConsumer(k, e)
  {
    SumUpdate(s.consumers, c, k, InConsumer(e));
  }

  lemma MarkCounts(s: State, d: nat, st: Stage, e: Envelope)
    requires d < |s.deliveries|
    ensures Places(s.Mark(d, st), e) + CountStage(s.deliveries[d].stage, e) == Places(s, e) + CountStage(st, e)
  {
    SumUpdate(s.deliveries, d, s.deliveries[d].(stage := st), InDelivery(e));
  }

  lemma LoseCounts(s: State, es: seq<Envelope>, e: Envelope)
    ensures Places(s.Lose(es), e) == Places(s, e) + Sum(es, Is(e))
  {
    SumConcat(s.lost, es, Is(e));
  }

  lemma EnqueueCounts(s: State, x: Envelope, i: nat, e: Envelope)
    requires i < |s.queues|
    ensures Places(s.EnqueueNow(x, i), e) == Places(s, e) + One(x == e)
  {
    if s.closed {
      LoseCounts(s, [x], e);
      SumOne(x, Is(e));
    } else {
      var q := s.queues[i];
      InsertCounts(q.pending, x, e);
      PutCounts(s, i, q.(pending := Insert(q.pending, x), signal := q.signal + 1), e);
    }
  }

  lemma ScheduleCounts(s: State, x: Envelope, delayed: bool, hold: bool, i: nat, e: Envelope)
    requires i < |s.queues|
    ensures Places(s.Schedule(x, delayed, hold, i), e) == Places(s, e) + One(x == e)
  {
    if !delayed {
      EnqueueCounts(s, x, i, e);
    } else {
      SumAppend(s.timers, Timer(x, hold, true), InTimer(e));
      PutCounts(s, i, s.queues[i].(held := s.queues[i].held + 1), e);
    }
  }

  lemma ReleaseCounts(s: State, t: nat, i: nat, e: Envelope)
    requires t < |s.timers| && s.timers[t].live && i < |s.queues|
    ensures Places(s.Release(t, i), e) + One(s.timers[t].env == e) == Places(s, e)
  {
    SumUpdate(s.timers, t, s.timers[t].(live := false), InTimer(e));
    var after := s.(timers := s.timers[t := s.timers[t].(live := false)]);
    var q := s.queues[i];
    PutCounts(after, i, q.(held := if q.held == 0 then 0 else q.held - 1), e);
  }

  lemma PublishConserves(s: State, ev: Event)
    requires Conserved(s) && Enabled(s, ev) && ev.Publish?
    ensures Conserved(Apply(s, ev))
  {
    var s' := Apply(s, ev);
    forall e ensures Sum(s'.accepted, Is(e)) == Places(s', e) {
      assert Sum(s.accepted, Is(e)) == Places(s, e);
      SumAppend(s.calls, Call(ev.e, ev.delayed, ev.hold, true), InCall(e));
      SumAppend(s.accepted, ev.e, Is(e));
    }
  }

  lemma CallCounts(s: State, k: nat, e: Envelope)
    requires k < |s.calls| && s.calls[k].live
    ensures var s' := s.(calls := s.calls[k := s.calls[k].(live := false)]);
            Places(s', e) + One(s.calls[k].env == e) == Places(s, e)
  {
    SumUpdate(s.calls, k, s.calls[k].(live := false), InCall(e));
  }

  lemma RunCallConserves(s: State, k: nat, i: nat)
    requires Conserved(s) && Enabled(s, RunCall(k, i))
    ensures Conserved(Apply(s, RunCall(k, i)))
  {
    hide Places;
    var s' := Apply(s, RunCall(k, i));
    var call := s.calls[k];
    var after := s.(calls := s.calls[k := call.(live := false)]);
    assert s' == after.Schedule(call.env, call.delayed, call.hold, i);
    forall e ensures Sum(s'.accepted, Is(e)) == Places(s', e) {
      assert Sum(s.accepted, Is(e)) == Places(s, e);
      CallCounts(s, k, e);
      ScheduleCounts(after, call.env, call.delayed, call.hold, i, e);
    }
  }

  lemma TimerConserves(s: State, ev: Event)
    requires Conserved(s) && Enabled(s, ev) && (ev.Fire? || ev.AbortTimer?)
    ensures Conserved(Apply(s, ev))
  {
    hide Places;
    var s' := Apply(s, ev);
    var x := s.timers[ev.t].env;
    var after := s.Release(ev.t, ev.i);
    forall e ensures Sum(s'.accepted, Is(e)) == Places(s', e) {
      assert Sum(s.accepted, Is(e)) == Places(s, e);
      ReleaseCounts(s, ev.t, ev.i, e);
      if ev.Fire? {
        EnqueueCounts(after, x, ev.i, e);
      } else {
        LoseCounts(after, [x], e);
        SumOne(x, Is(e));
      }
    }
  }

  /** Consumer steps that move no envelope. */
  lemma QuietConsumerConserves(s: State, c: nat, k: Consumer)
    requires Conserved(s) && c < |s.consumers|
    requires k.stream == s.consumers[c].stream && k.unread == s.consumers[c].unread
    requires !k.pc.Sending? && !k.pc.PuttingBack? && !s.consumers[c].pc.Sending? && !s.consumers[c].pc.PuttingBack?
    ensures Conserved(s.Set(c, k))
  {
    forall e ensures Sum(s.accepted, Is(e)) == Places(s.Set(c, k), e) {
      assert Sum(s.accepted, Is(e)) == Places(s, e);
      SetCounts(s, c, k, e);
    }
  }

  lemma LookConserves(s: State, c: nat)
    requires Conserved(s) && Enabled(s, Look(c)) && s.queues[s.consumers[c].queue].pending != []
    ensures Conserved(Apply(s, Look(c)))
  {
    hide Places;
    var s' := Apply(s, Look(c));
    var k := s.consumers[c];
    var q := s.queues[k.queue];
    var after := s.Put(k.queue, q.(pending := q.pending[1..]));
    forall e ensures Sum(s'.accepted, Is(e)) == Places(s', e) {
      assert Sum(s.accepted, Is(e)) == Places(s, e);
      PutCounts(s, k.queue, q.(pending := q.pending[1..]), e);
      SetCounts(after, c, k.(pc := Sending(q.pending[0])), e);
    }
  }

  lemma SendConserves(s: State, c: nat)
    requires Conserved(s) && Enabled(s, Send(c))
    ensures Conserved(Apply(s, Send(c)))
  {
    hide Places;
    var s' := Apply(s, Send(c));
    forall e ensures Sum(s'.accepted, Is(e)) == Places(s', e) {
      assert Sum(s.accepted, Is(e)) == Places(s, e);
      SetCounts(s, c, s'.consumers[c], e);
      SumAppend(s.consumers[c].stream, s.consumers[c].pc.env, Is(e));
    }
  }

  /** Putting envelopes back at the front of a queue. */
  lemma FrontCounts(s: State, i: nat, es: seq<Envelope>, e: Envelope)
    requires i < |s.queues|
    ensures var q := s.queues[i];
            Places(s.Put(i, q.(pending := es + q.pending, signal := q.signal + 1)), e) == Places(s, e) + Sum(es, Is(e))
  {
    hide Places;
    var q := s.queues[i];
    SumConcat(es, q.pending, Is(e));
    PutCounts(s, i, q.(pending := es + q.pending, signal := q.signal + 1), e);
  }

  lemma PutBackConserves(s: State, c: nat)
    requires Conserved(s) && Enabled(s, PutBack(c))
    ensures Conserved(Apply(s, PutBack(c)))
  {
    hide Places;
    var s' := Apply(s, PutBack(c));
    var k := s.consumers[c];
    var x := k.pc.env;
    var after := s.Set(c, k.(pc := Gone));
    forall e ensures Sum(s'.accepted, Is(e)) == Places(s', e) {
      assert Sum(s.accepted, Is(e)) == Places(s, e);
      SetCounts(s, c, k.(pc := Gone), e);
      FrontCounts(after, k.queue, [x], e);
      SumOne(x, Is(e));
    }
  }

  lemma TakeConserves(s: State, c: nat)
    requires Conserved(s) && Enabled(s, Take(c))
    ensures Conserved(Apply(s, Take(c)))
  {
    var s' := Apply(s, Take(c));
    var k := s.consumers[c];
    var d := Delivery(c, k.stream[0], Waiting(k.stream[0]));
    forall e ensures Sum(s'.accepted, Is(e)) == Places(s', e) {
      assert Sum(s.accepted, Is(e)) == Places(s, e);
      SetCounts(s, c, k.(stream := k.stream[1..]), e);
      SumAppend(s.deliveries, d, InDelivery(e));
      assert InDelivery(e)(d) == One(k.stream[0] == e);
    }
  }

  lemma DropStreamConserves(s: State, c: nat)
    requires Conserved(s) && Enabled(s, DropStream(c))
    ensures Conserved(Apply(s, DropStream(c)))
  {
    hide Places;
    var s' := Apply(s, DropStream(c));
    var k := s.consumers[c];
    forall e ensures Sum(s'.accepted, Is(e)) == Places(s', e) {
      assert Sum(s.accepted, Is(e)) == Places(s, e);
      SumConcat(k.unread, k.stream, Is(e));
      SetCounts(s, c, s'.consumers[c], e);
    }
  }

  lemma UnreadCounts(s: State, c: nat, e: Envelope)
    requires c < |s.consumers|
    ensures var k := s.consumers[c];
            Places(s.Set(c, k.(unread := [])), e) + Sum(k.unread, Is(e)) == Places(s, e)
  {
    SetCounts(s, c, s.consumers[c].(unread := []), e);
  }

  lemma RequeueCounts(s: State, c: nat, e: Envelope)
    requires Enabled(s, RequeueUnread(c))
    ensures Places(RequeueStep(s, c), e) == Places(s, e)
  {
    hide Places;
    var k := s.consumers[c];
    var after := s.Set(c, k.(unread := []));
    UnreadCounts(s, c, e);
    if s.closed {
      LoseCounts(after, k.unread, e);
    } else {
      FrontCounts(after, k.queue, k.unread, e);
    }
  }

  lemma RequeueConserves(s: State, c: nat)
    requires Conserved(s) && Enabled(s, RequeueUnread(c))
    ensures Conserved(Apply(s, RequeueUnread(c)))
  {
    forall e ensures Sum(RequeueStep(s, c).accepted, Is(e)) == Places(RequeueStep(s, c), e) {
      assert Sum(s.accepted, Is(e)) == Places(s, e);
      RequeueCounts(s, c, e);
    }
  }

  /** An ack or a dead letter: the envelope moves from the delivery to the queue's record. */
  lemma SettleConserves(s: State, ev: Event)
    requires Conserved(s) && Enabled(s, ev) && (ev.Ack? || ev.Record? || (ev.DeadLetter? && !s.closed))
    ensures Conserved(Apply(s, ev))
  {
    hide Places;
    var s' := Apply(s, ev);
    var x := s.deliveries[ev.d].stage.env;
    var q, q' := s.queues[ev.i], s'.queues[ev.i];
    assert s' == s.Put(ev.i, q').Mark(ev.d, Spent);
    forall e ensures Sum(s'.accepted, Is(e)) == Places(s', e) {
      assert Sum(s.accepted, Is(e)) == Places(s, e);
      if ev.DeadLetter? {
        SumAppend(q.dead, x, Is(e));
      } else {
        SumAppend(q.settled, q'.settled[|q.settled|], IsAck(e));
      }
      assert CountQueue(q', e) == CountQueue(q, e) + One(x == e);
      PutCounts(s, ev.i, q', e);
      MarkCounts(s.Put(ev.i, q'), ev.d, Spent, e);
      assert Places(s', e) == Places(s, e);
    }
  }

  lemma RepublishConserves(s: State, ev: Event)
    requires Conserved(s) && Enabled(s, ev) && ev.Republish?
    ensures Conserved(Apply(s, ev))
  {
    var s' := Apply(s, ev);
    forall e ensures Sum(s'.accepted, Is(e)) == Places(s', e) {
      assert Sum(s.accepted, Is(e)) == Places(s, e);
      MarkCounts(s, ev.d, s'.deliveries[ev.d].stage, e);
      SumAppend(s.accepted, ev.e, Is(e));
    }
  }

  lemma RunRepublishConserves(s: State, d: nat, i: nat)
    requires Conserved(s) && Enabled(s, RunRepublish(d, i))
    ensures Conserved(Apply(s, RunRepublish(d, i)))
  {
    hide Places;
    var s' := Apply(s, RunRepublish(d, i));
    var st := s.deliveries[d].stage;
    forall e ensures Sum(s'.accepted, Is(e)) == Places(s', e) {
      assert Sum(s.accepted, Is(e)) == Places(s, e);
      ScheduleCounts(s, st.next, st.delayed, st.hold, i, e);
      MarkCounts(s.Schedule(st.next, st.delayed, st.hold, i), d, s'.deliveries[d].stage, e);
    }
  }

  lemma RefuseConserves(s: State, d: nat, i: nat)
    requires Conserved(s) && Enabled(s, DeadLetter(d, i)) && s.closed
    ensures Conserved(Apply(s, DeadLetter(d, i)))
  {
    var s' := Apply(s, DeadLetter(d, i));
    forall e ensures Sum(s'.accepted, Is(e)) == Places(s', e) {
      assert Sum(s.accepted, Is(e)) == Places(s, e);
      MarkCounts(s, d, s'.deliveries[d].stage, e);
    }
  }

  lemma DropConserves(s: State, d: nat)
    requires Conserved(s) && Enabled(s, DropDelivery(d))
    ensures Conserved(Apply(s, DropDelivery(d)))
  {
    hide Places;
    var s' := Apply(s, DropDelivery(d));
    var st, c := s.deliveries[d].stage, s.deliveries[d].consumer;
    var marked := s.Mark(d, Dropped);
    var after := marked.Set(c, s'.consumers[c]);
    forall e ensures Sum(s'.accepted, Is(e)) == Places(s', e) {
      assert Sum(s.accepted, Is(e)) == Places(s, e);
      MarkCounts(s, d, Dropped, e);
      SetCounts(marked, c, s'.consumers[c], e);
      if !st.Spent? {
        LoseCounts(after, [st.env], e);
        SumOne(st.env, Is(e));
      }
    }
  }

  lemma CloseConserves(s: State)
    requires Conserved(s)
    ensures Conserved(Apply(s, Close))
  {
    var s' := Apply(s, Close);
    forall e ensures Sum(s'.accepted, Is(e)) == Places(s', e) {
      assert Sum(s.accepted, Is(e)) == Places(s, e);
      SumPointwise(s.queues, InQueue(e), s'.queues, InQueue(e));
      SumPointwise(s.consumers, InConsumer(e), s'.consumers, InConsumer(e));
    }
  }

  lemma GrowConserves(s: State, ev: Event)
    requires Conserved(s) && Enabled(s, ev) && (ev.Create? || ev.Consume?)
    ensures Conserved(Apply(s, ev))
  {
    var s' := Apply(s, ev);
    forall e ensures Sum(s'.accepted, Is(e)) == Places(s', e) {
      assert Sum(s.accepted, Is(e)) == Places(s, e);
      if ev.Create? {
        SumAppend(s.queues, s'.queues[|s.queues|], InQueue(e));
      } else if !s.closed {
        SumAppend(s.consumers, s'.consumers[|s.consumers|], InConsumer(e));
      }
    }
  }

  lemma ConservedStep(s: State, ev: Event)
    requires Conserved(s) && Enabled(s, ev)
    ensures Conserved(Apply(s, ev))
  {
    hide Conserved;
    match ev
    case Create(_) => GrowConserves(s, ev);
    case Publish(_, _, _) => PublishConserves(s, ev);
    case RunCall(k, i) => RunCallConserves(s, k, i);
    case Fire(_, _) => TimerConserves(s, ev);
    case AbortTimer(_, _) => TimerConserves(s, ev);
    case Consume(_, _) => GrowConserves(s, ev);
    case Exit(c) => QuietConsumerConserves(s, c, Apply(s, ev).consumers[c]);
    case Acquire(c) => QuietConsumerConserves(s, c, Apply(s, ev).consumers[c]);
    case Look(c) =>
      if s.queues[s.consumers[c].queue].pending == [] {
        QuietConsumerConserves(s, c, Apply(s, ev).consumers[c]);
      } else {
        LookConserves(s, c);
      }
    case Wake(c) => QuietConsumerConserves(s, c, Apply(s, ev).consumers[c]);
    case Send(c) => SendConserves(s, c);
    case PutBack(c) => PutBackConserves(s, c);
    case Take(c) => TakeConserves(s, c);
    case DropStream(c) => DropStreamConserves(s, c);
    case RequeueUnread(c) => RequeueConserves(s, c);
    case Ack(_, _) => SettleConserves(s, ev);
    case DeadLetter(d, i) => if s.closed { RefuseConserves(s, d, i); } else { SettleConserves(s, ev); }
    case Republish(_, _, _, _) => RepublishConserves(s, ev);
    case RunRepublish(d, i) => RunRepublishConserves(s, d, i);
    case Record(_, _) => SettleConserves(s, ev);
    case DropDelivery(d) => DropConserves(s, d);
    case Close => CloseConserves(s);
  }

  // ----- hold guards -------------------------------------------------------------------------

  function Holding(name: Text): Timer -> nat {
    (t: Timer) => One(t.live && t.hold && t.env.queue == name)
  }

  ghost predicate HasQueue(queues: seq<Queue>, name: Text) {
    exists i :: 0 <= i < |queues| && queues[i].name == name
  }

  /** `deferred(q)` is the number of live hold guards of q. */
  ghost predicate HeldOk(queues: seq<Queue>, timers: seq<Timer>) {
    && (forall i, j | 0 <= i < j < |queues| :: queues[i].name != queues[j].name)
    && (forall i | 0 <= i < |queues| :: queues[i].held == Sum(timers, Holding(queues[i].name)))
    && (forall t | 0 <= t < |timers| && timers[t].live && timers[t].hold :: HasQueue(queues, timers[t].env.queue))
  }

  lemma HeldSame(queues: seq<Queue>, queues': seq<Queue>, timers: seq<Timer>)
    requires HeldOk(queues, timers) && |queues'| == |queues|
    requires forall i | 0 <= i < |queues| :: queues'[i].name == queues[i].name && queues'[i].held == queues[i].held
    ensures HeldOk(queues', timers)
  {
    forall t | 0 <= t < |timers| && timers[t].live && timers[t].hold ensures HasQueue(queues', timers[t].env.queue) {
      var i :| 0 <= i < |queues| && queues[i].name == timers[t].env.queue;
      assert queues'[i].name == timers[t].env.queue;
    }
  }

  lemma HeldSchedule(s: State, x: Envelope, delayed: bool, hold: bool, i: nat)
    requires HeldOk(s.queues, s.timers) && s.Named(i, x.queue)
    ensures HeldOk(s.Schedule(x, delayed, hold, i).queues, s.Schedule(x, delayed, hold, i).timers)
  {
    var s' := s.Schedule(x, delayed, hold, i);
    if delayed {
      var t := Timer(x, hold, true);
      forall j | 0 <= j < |s'.queues| ensures s'.queues[j].held == Sum(s'.timers, Holding(s'.queues[j].name)) {
        SumAppend(s.timers, t, Holding(s.queues[j].name));
        assert j != i ==> s.queues[j].name != s.queues[i].name;
      }
      forall k | 0 <= k < |s'.timers| && s'.timers[k].live && s'.timers[k].hold
        ensures HasQueue(s'.queues, s'.timers[k].env.queue)
      {
        if k < |s.timers| {
          var j :| 0 <= j < |s.queues| && s.queues[j].name == s.timers[k].env.queue;
          assert s'.queues[j].name == s.timers[k].env.queue;
        } else {
          assert s'.queues[i].name == x.queue;
        }
      }
    } else {
      HeldSame(s.queues, s'.queues, s.timers);
    }
  }

  /** A hold that ends is counted: the saturating decrement never saturates. */
  lemma HeldIsPositive(s: State, t: nat, i: nat)
    requires HeldOk(s.queues, s.timers) && t < |s.timers| && s.timers[t].live && s.timers[t].hold
    requires s.Named(i, s.timers[t].env.queue)
    ensures s.queues[i].held >= 1
  {
    SumAtLeast(s.timers, t, Holding(s.queues[i].name));
  }

  lemma HeldRelease(s: State, t: nat, i: nat)
    requires HeldOk(s.queues, s.timers) && t < |s.timers| && s.timers[t].live && s.Named(i, s.timers[t].env.queue)
    ensures HeldOk(s.Release(t, i).queues, s.Release(t, i).timers)
  {
    var s' := s.Release(t, i);
    if s.timers[t].hold { HeldIsPositive(s, t, i); }
    forall j | 0 <= j < |s'.queues| ensures s'.queues[j].held == Sum(s'.timers, Holding(s'.queues[j].name)) {
      SumUpdate(s.timers, t, s.timers[t].(live := false), Holding(s.queues[j].name));
      assert j != i ==> s.queues[j].name != s.queues[i].name;
    }
    forall k | 0 <= k < |s'.timers| && s'.timers[k].live && s'.timers[k].hold
      ensures HasQueue(s'.queues, s'.timers[k].env.queue)
    {
      var j :| 0 <= j < |s.queues| && s.queues[j].name == s.timers[k].env.queue;
      assert s'.queues[j].name == s.timers[k].env.queue;
    }
  }

  lemma HeldCreate(s: State, name: Text)
    requires HeldOk(s.queues, s.timers) && Enabled(s, Create(name))
    ensures HeldOk(Apply(s, Create(name)).queues, s.timers)
  {
    var queues' := Apply(s, Create(name)).queues;
    SumZero(s.timers, Holding(name));
    forall t | 0 <= t < |s.timers| && s.timers[t].live && s.timers[t].hold ensures HasQueue(queues', s.timers[t].env.queue) {
      var i :| 0 <= i < |s.queues| && s.queues[i].name == s.timers[t].env.queue;
      assert queues'[i].name == s.timers[t].env.queue;
    }
  }

  lemma HeldTimer(s: State, ev: Event)
    requires HeldOk(s.queues, s.timers) && Enabled(s, ev) && (ev.Fire? || ev.AbortTimer?)
    ensures HeldOk(Apply(s, ev).queues, Apply(s, ev).timers)
  {
    HeldRelease(s, ev.t, ev.i);
    var after := s.Release(ev.t, ev.i);
    HeldSame(after.queues, Apply(s, ev).queues, after.timers);
  }

  lemma HeldElse(s: State, ev: Event)
    requires HeldOk(s.queues, s.timers) && Enabled(s, ev)
    requires !ev.Create? && !ev.RunCall? && !ev.RunRepublish? && !ev.Fire? && !ev.AbortTimer?
    ensures HeldOk(Apply(s, ev).queues, Apply(s, ev).timers)
  {
    hide HeldOk;
    HeldSame(s.queues, Apply(s, ev).queues, s.timers);
  }

  lemma HeldCall(s: State, ev: Event)
    requires HeldOk(s.queues, s.timers) && Enabled(s, ev) && (ev.RunCall? || ev.RunRepublish?)
    ensures HeldOk(Apply(s, ev).queues, Apply(s, ev).timers)
  {
    hide HeldOk;
    if ev.RunCall? {
      HeldSchedule(s, s.calls[ev.k].env, s.calls[ev.k].delayed, s.calls[ev.k].hold, ev.i);
    } else {
      var st := s.deliveries[ev.d].stage;
      HeldSchedule(s, st.next, st.delayed, st.hold, ev.i);
    }
  }

  lemma HeldStep(s: State, ev: Event)
    requires HeldOk(s.queues, s.timers) && Enabled(s, ev)
    ensures HeldOk(Apply(s, ev).queues, Apply(s, ev).timers)
  {
    if ev.Create? {
      HeldCreate(s, ev.name);
    } else {
      hide HeldOk, Apply, Enabled;
      if ev.RunCall? || ev.RunRepublish? {
        HeldCall(s, ev);
      } else if ev.Fire? || ev.AbortTimer? {
        HeldTimer(s, ev);
      } else {
        HeldElse(s, ev);
      }
    }
  }

  // ----- prefetch ----------------------------------------------------------------------------

  function Of(c: nat): Delivery -> nat {
    (d: Delivery) => One(d.consumer == c && !d.stage.Dropped?)
  }

  /** Permits are conserved: free, held by the consumer task, or travelling with a delivery. */
  ghost predicate PermitsOk(consumers: seq<Consumer>, deliveries: seq<Delivery>) {
    && (forall d | 0 <= d < |deliveries| :: deliveries[d].consumer < |consumers|)
    && (forall c | 0 <= c < |consumers| ::
          consumers[c].permits + One(consumers[c].pc.HoldsPermit()) + |consumers[c].stream|
          + Sum(deliveries, Of(c)) == consumers[c].cap)
  }

  /** A consumer step that keeps its own sum. */
  lemma PermitsSet(consumers: seq<Consumer>, deliveries: seq<Delivery>, c: nat, k: Consumer)
    requires PermitsOk(consumers, deliveries) && c < |consumers|
    requires k.cap == consumers[c].cap
    requires k.permits + One(k.pc.HoldsPermit()) + |k.stream|
             == consumers[c].permits + One(consumers[c].pc.HoldsPermit()) + |consumers[c].stream|
    ensures PermitsOk(consumers[c := k], deliveries)
  {
  }

  lemma PermitsConsume(consumers: seq<Consumer>, deliveries: seq<Delivery>, k: Consumer)
    requires PermitsOk(consumers, deliveries) && k.permits == k.cap && !k.pc.HoldsPermit() && k.stream == []
    ensures PermitsOk(consumers + [k], deliveries)
  {
    SumZero(deliveries, Of(|consumers|));
  }

  lemma PermitsTake(s: State, c: nat)
    requires PermitsOk(s.consumers, s.deliveries) && Enabled(s, Take(c))
    ensures PermitsOk(Apply(s, Take(c)).consumers, Apply(s, Take(c)).deliveries)
  {
    var s' := Apply(s, Take(c));
    var d := s'.deliveries[|s.deliveries|];
    forall b | 0 <= b < |s'.consumers|
      ensures s'.consumers[b].permits + One(s'.consumers[b].pc.HoldsPermit()) + |s'.consumers[b].stream|
              + Sum(s'.deliveries, Of(b)) == s'.consumers[b].cap
    {
      SumAppend(s.deliveries, d, Of(b));
    }
  }

  /** A delivery that is settled but not dropped keeps its permit. */
  lemma PermitsMark(consumers: seq<Consumer>, deliveries: seq<Delivery>, d: nat, stage: Stage)
    requires PermitsOk(consumers, deliveries) && d < |deliveries|
    requires !stage.Dropped? && !deliveries[d].stage.Dropped?
    ensures PermitsOk(consumers, deliveries[d := deliveries[d].(stage := stage)])
  {
    forall c | 0 <= c < |consumers|
      ensures Sum(deliveries[d := deliveries[d].(stage := stage)], Of(c)) == Sum(deliveries, Of(c))
    {
      SumUpdate(deliveries, d, deliveries[d].(stage := stage), Of(c));
    }
  }

  lemma PermitsDrop(s: State, d: nat)
    requires PermitsOk(s.consumers, s.deliveries) && Enabled(s, DropDelivery(d))
    ensures PermitsOk(Apply(s, DropDelivery(d)).consumers, Apply(s, DropDelivery(d)).deliveries)
  {
    var s' := Apply(s, DropDelivery(d));
    forall b | 0 <= b < |s'.consumers|
      ensures s'.consumers[b].permits + One(s'.consumers[b].pc.HoldsPermit()) + |s'.consumers[b].stream|
              + Sum(s'.deliveries, Of(b)) == s'.consumers[b].cap
    {
      SumUpdate(s.deliveries, d, s.deliveries[d].(stage := Dropped), Of(b));
    }
  }

  predicate ConsumerEvent(ev: Event) {
    || ev.Exit? || ev.Acquire? || ev.Look? || ev.Wake? || ev.Send? || ev.PutBack? || ev.DropStream? || ev.RequeueUnread?
  }

  lemma PermitsConsumer(s: State, ev: Event)
    requires PermitsOk(s.consumers, s.deliveries) && Enabled(s, ev) && ConsumerEvent(ev)
    ensures PermitsOk(Apply(s, ev).consumers, Apply(s, ev).deliveries)
  {
    var s' := Apply(s, ev);
    PermitsSet(s.consumers, s.deliveries, ev.c, s'.consumers[ev.c]);
  }

  predicate DeliveryEvent(ev: Event) {
    ev.Ack? || ev.DeadLetter? || ev.Republish? || ev.RunRepublish? || ev.Record?
  }

  /** Only a call on a delivery, handing one out and dropping one touch the deliveries. */
  lemma DeliveriesStay(s: State, ev: Event)
    requires Enabled(s, ev) && !DeliveryEvent(ev) && !ev.Take? && !ev.DropDelivery?
    ensures Apply(s, ev).deliveries == s.deliveries
  {
    hide Insert;
  }

  lemma PermitsDelivery(s: State, ev: Event)
    requires PermitsOk(s.consumers, s.deliveries) && Enabled(s, ev) && DeliveryEvent(ev)
    ensures PermitsOk(Apply(s, ev).consumers, Apply(s, ev).deliveries)
  {
    var s' := Apply(s, ev);
    PermitsMark(s.consumers, s.deliveries, ev.d, s'.deliveries[ev.d].stage);
  }

  lemma PermitsStep(s: State, ev: Event)
    requires PermitsOk(s.consumers, s.deliveries) && Enabled(s, ev)
    ensures PermitsOk(Apply(s, ev).consumers, Apply(s, ev).deliveries)
  {
    if ConsumerEvent(ev) {
      PermitsConsumer(s, ev);
    } else if DeliveryEvent(ev) {
      PermitsDelivery(s, ev);
    } else {
      match ev
      case Take(c) => PermitsTake(s, c);
      case DropDelivery(d) => PermitsDrop(s, d);
      case Consume(i, _) =>
        if !s.closed { PermitsConsume(s.consumers, s.deliveries, Apply(s, ev).consumers[|s.consumers|]); }
      case _ =>
    }
  }

  // ----- wake-ups ----------------------------------------------------------------------------

  /** A parked consumer either faces an empty queue on an open backend or has a signal it has not
      seen. */
  ghost predicate AwakeOk(queues: seq<Queue>, closed: bool, k: Consumer) {
    && k.queue < |queues|
    && k.seen <= queues[k.queue].signal
    && (k.pc.Parked? ==> k.seen < queues[k.queue].signal || (queues[k.queue].pending == [] && !closed))
  }

  ghost predicate WakeOk(queues: seq<Queue>, closed: bool, consumers: seq<Consumer>) {
    forall c | 0 <= c < |consumers| :: AwakeOk(queues, closed, consumers[c])
  }

  /** No queue gains an envelope without a signal. */
  ghost predicate Signalled(queues: seq<Queue>, queues': seq<Queue>) {
    && |queues| <= |queues'|
    && forall i | 0 <= i < |queues| ::
         || queues'[i].signal > queues[i].signal
         || (queues'[i].signal == queues[i].signal && (queues[i].pending == [] ==> queues'[i].pending == []))
  }

  lemma WakeSchedule(s: State, x: Envelope, delayed: bool, hold: bool, i: nat)
    requires i < |s.queues|
    ensures Signalled(s.queues, s.Schedule(x, delayed, hold, i).queues)
  {
  }

  lemma WakeRelease(s: State, t: nat, i: nat)
    requires t < |s.timers| && i < |s.queues|
    ensures Signalled(s.queues, s.Release(t, i).queues)
    ensures |s.Release(t, i).queues| == |s.queues|
  {
  }

  lemma WakeTimer(s: State, ev: Event)
    requires Enabled(s, ev) && (ev.Fire? || ev.AbortTimer?)
    ensures Signalled(s.queues, Apply(s, ev).queues)
  {
    WakeRelease(s, ev.t, ev.i);
    if ev.Fire? {
      WakeSchedule(s.Release(ev.t, ev.i), s.timers[ev.t].env, false, false, ev.i);
    }
  }

  /** Steps that touch one queue's pending and signal directly, or none. */
  lemma WakeConsumerEvent(s: State, ev: Event)
    requires Enabled(s, ev) && ConsumerEvent(ev)
    ensures Signalled(s.queues, Apply(s, ev).queues)
  {
  }

  lemma WakeDeliveryEvent(s: State, ev: Event)
    requires Enabled(s, ev) && DeliveryEvent(ev)
    ensures Signalled(s.queues, Apply(s, ev).queues)
  {
    if ev.RunRepublish? {
      var st := s.deliveries[ev.d].stage;
      WakeSchedule(s, st.next, st.delayed, st.hold, ev.i);
    }
  }

  lemma WakeQueues(s: State, ev: Event)
    requires Enabled(s, ev)
    ensures Signalled(s.queues, Apply(s, ev).queues)
  {
    if ConsumerEvent(ev) {
      WakeConsumerEvent(s, ev);
    } else if DeliveryEvent(ev) {
      WakeDeliveryEvent(s, ev);
    } else if ev.Fire? || ev.AbortTimer? {
      WakeTimer(s, ev);
    } else if ev.RunCall? {
      WakeSchedule(s, s.calls[ev.k].env, s.calls[ev.k].delayed, s.calls[ev.k].hold, ev.i);
    }
  }

  lemma ClosedStep(s: State, ev: Event)
    requires Enabled(s, ev)
    ensures Apply(s, ev).closed == (s.closed || ev.Close?)
  {
  }

  /** What a step may do to one consumer task: park only after looking at an empty queue, and move what
      it has seen only by waking. */
  ghost predicate Moves(s: State, ev: Event, k: Consumer, k': Consumer, c: nat)
    requires Enabled(s, ev)
  {
    && k'.queue == k.queue
    && (k'.seen == k.seen || (k.queue < |s.queues| && k'.seen == s.queues[k.queue].signal))
    && (k'.pc.Parked? ==> k'.seen == k.seen)
    && (k'.pc.Parked? && !k.pc.Parked? ==>
          ev == Look(c) && k.queue < |s.queues| && s.queues[k.queue].pending == [] && Apply(s, ev).queues == s.queues)
  }

  lemma ConsumerMovesOwn(s: State, ev: Event)
    requires Enabled(s, ev) && ConsumerEvent(ev)
    ensures ev.c < |Apply(s, ev).consumers| && Moves(s, ev, s.consumers[ev.c], Apply(s, ev).consumers[ev.c], ev.c)
    ensures forall c | 0 <= c < |s.consumers| && c != ev.c :: Apply(s, ev).consumers[c] == s.consumers[c]
    ensures |Apply(s, ev).consumers| == |s.consumers|
  {
  }

  lemma ConsumerMovesElse(s: State, ev: Event)
    requires Enabled(s, ev) && !ConsumerEvent(ev) && !ev.Close? && !ev.Consume?
    ensures |Apply(s, ev).consumers| == |s.consumers|
    ensures forall c | 0 <= c < |s.consumers| ::
              && Apply(s, ev).consumers[c].queue == s.consumers[c].queue
              && Apply(s, ev).consumers[c].seen == s.consumers[c].seen
              && Apply(s, ev).consumers[c].pc == s.consumers[c].pc
  {
  }

  lemma ConsumerStarts(s: State, i: nat, prefetch: nat)
    requires Enabled(s, Consume(i, prefetch))
    ensures var s' := Apply(s, Consume(i, prefetch));
            && |s.consumers| <= |s'.consumers| <= |s.consumers| + 1 && s.consumers <= s'.consumers
            && (|s'.consumers| > |s.consumers| ==>
                  var k := s'.consumers[|s.consumers|];
                  k.queue < |s.queues| && k.seen == s.queues[k.queue].signal && !k.pc.Parked?)
  {
  }

  lemma ConsumerMoves(s: State, ev: Event, c: nat)
    requires Enabled(s, ev) && !ev.Close? && c < |Apply(s, ev).consumers|
    ensures var k' := Apply(s, ev).consumers[c];
            if c < |s.consumers| then Moves(s, ev, s.consumers[c], k', c)
            else k'.queue < |s.queues| && k'.seen == s.queues[k'.queue].signal && !k'.pc.Parked?
  {
    hide Apply, Enabled;
    if ConsumerEvent(ev) {
      ConsumerMovesOwn(s, ev);
    } else if ev.Consume? {
      ConsumerStarts(s, ev.i, ev.prefetch);
    } else {
      ConsumerMovesElse(s, ev);
    }
  }

  lemma WakeConsumers(s: State, ev: Event, c: nat)
    requires WakeOk(s.queues, s.closed, s.consumers) && Enabled(s, ev) && !ev.Close?
    requires c < |Apply(s, ev).consumers|
    ensures AwakeOk(Apply(s, ev).queues, s.closed, Apply(s, ev).consumers[c])
  {
    var s' := Apply(s, ev);
    ConsumerMoves(s, ev, c);
    WakeQueues(s, ev);
    assert ev == Look(c) ==> !s.closed;
    hide Apply, Enabled;
    if c < |s.consumers| {
      assert AwakeOk(s.queues, s.closed, s.consumers[c]);
    }
  }

  lemma WakeClose(s: State)
    requires WakeOk(s.queues, s.closed, s.consumers)
    ensures WakeOk(Apply(s, Close).queues, true, Apply(s, Close).consumers)
  {
    var s' := Apply(s, Close);
    forall c | 0 <= c < |s'.consumers| ensures AwakeOk(s'.queues, true, s'.consumers[c]) {
      assert AwakeOk(s.queues, s.closed, s.consumers[c]);
    }
  }

  lemma WakeStep(s: State, ev: Event)
    requires WakeOk(s.queues, s.closed, s.consumers) && Enabled(s, ev)
    ensures WakeOk(Apply(s, ev).queues, Apply(s, ev).closed, Apply(s, ev).consumers)
  {
    ClosedStep(s, ev);
    if ev.Close? {
      WakeClose(s);
    } else {
      hide Apply, AwakeOk;
      forall c | 0 <= c < |Apply(s, ev).consumers|
        ensures AwakeOk(Apply(s, ev).queues, s.closed, Apply(s, ev).consumers[c])
      {
        WakeConsumers(s, ev, c);
      }
    }
  }

  // ----- losses ------------------------------------------------------------------------------

  /** The three ways an envelope is ever dropped. */
  predicate MayLose(s: State, ev: Event) {
    || s.closed
    || ev.AbortTimer?
    || (ev.DropDelivery? && ev.d < |s.deliveries| && !s.deliveries[ev.d].stage.Spent?)
  }

  lemma LossStep(s: State, ev: Event)
    requires Enabled(s, ev)
    ensures s.lost <= Apply(s, ev).lost
    ensures Apply(s, ev).lost != s.lost ==> MayLose(s, ev)
  {
    hide Insert;
  }

  // ----- whole runs --------------------------------------------------------------------------

  ghost predicate Run(states: seq<State>, events: seq<Event>) {
    && |states| == |events| + 1
    && Init(states[0])
    && forall i | 0 <= i < |events| ::
         Enabled(states[i], events[i]) && states[i + 1] == Apply(states[i], events[i])
  }

  lemma {:induction false} RunKeeps(states: seq<State>, events: seq<Event>, n: nat)
    requires Run(states, events) && n < |states|
    ensures Conserved(states[n])
    ensures HeldOk(states[n].queues, states[n].timers)
    ensures PermitsOk(states[n].consumers, states[n].deliveries)
    ensures WakeOk(states[n].queues, states[n].closed, states[n].consumers)
  {
    if n > 0 {
      RunKeeps(states, events, n - 1);
      var s, ev := states[n - 1], events[n - 1];
      ConservedStep(s, ev);
      HeldStep(s, ev);
      PermitsStep(s, ev);
      WakeStep(s, ev);
    }
  }

  /** Conservation, in every interleaving: however often an envelope was accepted, that many copies
      of it are in the backend's places, the application's hands or on the list of losses. */
  lemma NothingVanishes(states: seq<State>, events: seq<Event>, n: nat, e: Envelope)
    requires Run(states, events) && n < |states|
    ensures Sum(states[n].accepted, Is(e)) == Places(states[n], e)
  {
    RunKeeps(states, events, n);
  }

  /** ... and a run that never closes the backend, never drops an unsettled delivery and whose
      timers are not torn down loses nothing at all. */
  lemma {:induction false} NothingIsLost(states: seq<State>, events: seq<Event>, n: nat)
    requires Run(states, events) && n < |states|
    requires forall i | 0 <= i < n :: !MayLose(states[i], events[i])
    ensures states[n].lost == []
  {
    if n > 0 {
      NothingIsLost(states, events, n - 1);
      LossStep(states[n - 1], events[n - 1]);
    }
  }

  /** `deferred(q)` counts exactly the live holds of q, in every reachable state, so no hold that
      ends ever finds the counter at zero. */
  lemma DeferredCountsLiveHolds(states: seq<State>, events: seq<Event>, n: nat, i: nat)
    requires Run(states, events) && n < |states| && i < |states[n].queues|
    ensures states[n].queues[i].held == Sum(states[n].timers, Holding(states[n].queues[i].name))
    ensures forall t | 0 <= t < |states[n].timers| && states[n].timers[t].live && states[n].timers[t].hold
                       && states[n].timers[t].env.queue == states[n].queues[i].name ::
              states[n].queues[i].held >= 1
  {
    RunKeeps(states, events, n);
    var s := states[n];
    forall t | 0 <= t < |s.timers| && s.timers[t].live && s.timers[t].hold && s.timers[t].env.queue == s.queues[i].name
      ensures s.queues[i].held >= 1
    {
      HeldIsPositive(s, t, i);
    }
  }

  /** A consumer never has more undropped deliveries out, read or unread, than its prefetch. */
  lemma PrefetchHolds(states: seq<State>, events: seq<Event>, n: nat, c: nat)
    requires Run(states, events) && n < |states| && c < |states[n].consumers|
    ensures Sum(states[n].deliveries, Of(c)) + |states[n].consumers[c].stream| <= states[n].consumers[c].cap
  {
    RunKeeps(states, events, n);
  }

  /** No lost wake-up: a consumer parked on its signal while its queue has something, or while the
      backend is closed, can always take the step that wakes it. */
  lemma NoLostWakeUp(states: seq<State>, events: seq<Event>, n: nat, c: nat)
    requires Run(states, events) && n < |states| && c < |states[n].consumers| && states[n].consumers[c].pc.Parked?
    ensures states[n].consumers[c].queue < |states[n].queues|
    ensures states[n].queues[states[n].consumers[c].queue].pending != [] || states[n].closed ==>
              Enabled(states[n], Wake(c))
  {
    RunKeeps(states, events, n);
    assert AwakeOk(states[n].queues, states[n].closed, states[n].consumers[c]);
  }

  // ----- priority order, when nothing is put back ------------------------------------------------

  predicate PutsBack(ev: Event) { ev.PutBack? || ev.RequeueUnread? }

  /** What a step does to queue i, seen from the event: an insertion by a publish, a timer or a
      republish that lands, a pop by a consumer that looks. */
  function OpOf(s: State, ev: Event, i: nat): Option<Op>
    requires Enabled(s, ev) && i < |s.queues|
  {
    match ev
    case RunCall(k, to) => if to == i && !s.closed && !s.calls[k].delayed then Some(Put(s.calls[k].env)) else None
    case Fire(t, to) => if to == i && !s.closed then Some(Put(s.timers[t].env)) else None
    case RunRepublish(d, to) =>
      var st := s.deliveries[d].stage;
      if to == i && !s.closed && !st.delayed then Some(Put(st.next)) else None
    case Look(c) => if s.consumers[c].queue == i && s.queues[i].pending != [] then Some(Pop) else None
    case _ => None
  }

  /** Queue i's pending envelopes before and after what `op` says. */
  ghost predicate Follows(p: seq<Envelope>, op: Option<Op>, p': seq<Envelope>) {
    match op
    case None => p' == p
    case Some(Put(x)) => p' == Insert(p, x)
    case Some(Pop) => p != [] && p' == p[1..]
  }

  lemma PendingInserts(s: State, ev: Event, i: nat)
    requires Enabled(s, ev) && (ev.RunCall? || ev.Fire? || ev.AbortTimer? || ev.RunRepublish?) && i < |s.queues|
    ensures i < |Apply(s, ev).queues| && Follows(s.queues[i].pending, OpOf(s, ev, i), Apply(s, ev).queues[i].pending)
  {
    hide Insert;
  }

  lemma PendingConsumer(s: State, ev: Event, i: nat)
    requires Enabled(s, ev) && ConsumerEvent(ev) && !PutsBack(ev) && i < |s.queues|
    ensures i < |Apply(s, ev).queues| && Follows(s.queues[i].pending, OpOf(s, ev, i), Apply(s, ev).queues[i].pending)
  {
  }

  lemma PendingElse(s: State, ev: Event, i: nat)
    requires Enabled(s, ev) && !ConsumerEvent(ev) && i < |s.queues|
    requires !ev.RunCall? && !ev.Fire? && !ev.AbortTimer? && !ev.RunRepublish?
    ensures i < |Apply(s, ev).queues| && Follows(s.queues[i].pending, OpOf(s, ev, i), Apply(s, ev).queues[i].pending)
  {
  }

  lemma PendingStep(s: State, ev: Event, i: nat)
    requires Enabled(s, ev) && !PutsBack(ev) && i < |s.queues|
    ensures i < |Apply(s, ev).queues| && Follows(s.queues[i].pending, OpOf(s, ev, i), Apply(s, ev).queues[i].pending)
  {
    hide Apply, OpOf, Follows;
    if ev.RunCall? || ev.Fire? || ev.AbortTimer? || ev.RunRepublish? {
      PendingInserts(s, ev, i);
    } else if ConsumerEvent(ev) {
      PendingConsumer(s, ev, i);
    } else {
      PendingElse(s, ev, i);
    }
  }

  lemma QueueIsNewEmpty(s: State, ev: Event, i: nat)
    requires Enabled(s, ev) && |s.queues| <= i < |Apply(s, ev).queues|
    ensures Apply(s, ev).queues[i].pending == []
  {
  }

  /** Everything that was inserted into and popped from queue i in the first n steps, in order. */
  ghost function History(states: seq<State>, events: seq<Event>, n: nat, i: nat): seq<Op>
    requires Run(states, events) && n < |states|
  {
    if n == 0 || i >= |states[n - 1].queues| then []
    else
      History(states, events, n - 1, i)
      + match OpOf(states[n - 1], events[n - 1], i) case None => [] case Some(op) => [op]
  }

  lemma {:induction false} PendingIsReplayed(states: seq<State>, events: seq<Event>, n: nat, i: nat)
    requires Run(states, events) && n < |states| && i < |states[n].queues|
    requires forall k | 0 <= k < n :: !PutsBack(events[k])
    ensures states[n].queues[i].pending == Replay(History(states, events, n, i))
  {
    if n > 0 {
      var s, ev := states[n - 1], events[n - 1];
      if i < |s.queues| {
        PendingIsReplayed(states, events, n - 1, i);
        PendingStep(s, ev, i);
        hide Apply, Enabled;
        var before := History(states, events, n - 1, i);
        match OpOf(s, ev, i)
        case None => assert before + [] == before;
        case Some(op) => assert (before + [op])[..|before|] == before;
      } else {
        QueueIsNewEmpty(s, ev, i);
      }
    }
  }

  /** In every run without a requeue, each queue is exactly its priority levels from highest to
      lowest, each in FIFO order: what a multi-level queue holds after this very run's insertions and
      pops. */
  lemma QueuesAreLevelled(states: seq<State>, events: seq<Event>, n: nat, i: nat)
    requires Run(states, events) && n < |states| && i < |states[n].queues|
    requires forall k | 0 <= k < n :: !PutsBack(events[k])
    ensures states[n].queues[i].pending == Flatten(ReplayLevels(History(states, events, n, i)))
    ensures LevelsOk(ReplayLevels(History(states, events, n, i)))
  {
    PendingIsReplayed(states, events, n, i);
    DequeRefinesLevels(History(states, events, n, i));
  }

  // ----- and when something is -------------------------------------------------------------------

  /** What a step puts back at the front of queue i. */
  function PutBackBy(s: State, ev: Event): seq<Envelope>
    requires Enabled(s, ev) && PutsBack(ev)
  {
    if ev.PutBack? then [s.consumers[ev.c].pc.env]
    else if s.closed then []
    else s.consumers[ev.c].unread
  }

  lemma PutBackStep(s: State, ev: Event)
    requires Enabled(s, ev) && PutsBack(ev)
    ensures var i := s.consumers[ev.c].queue;
            Apply(s, ev).queues[i].pending == PutBackBy(s, ev) + s.queues[i].pending
  {
    assert [] + s.queues[s.consumers[ev.c].queue].pending == s.queues[s.consumers[ev.c].queue].pending;
  }

  /** A step that puts messages back keeps its queue levelled exactly when they fit in front. */
  lemma PuttingBackKeepsLevelsExactlyWhen(s: State, ev: Event)
    requires Enabled(s, ev) && PutsBack(ev) && IsLevelled(s.queues[s.consumers[ev.c].queue].pending)
    ensures var i := s.consumers[ev.c].queue;
            IsLevelled(Apply(s, ev).queues[i].pending) <==> FitsInFront(PutBackBy(s, ev), s.queues[i].pending)
  {
    PutBackStep(s, ev);
    RequeueKeepsLevelsExactlyWhen(PutBackBy(s, ev), s.queues[s.consumers[ev.c].queue].pending);
  }

  lemma OtherQueuesStay(s: State, ev: Event, i: nat)
    requires Enabled(s, ev) && PutsBack(ev) && i < |s.queues| && i != s.consumers[ev.c].queue
    ensures i < |Apply(s, ev).queues| && Apply(s, ev).queues[i].pending == s.queues[i].pending
  {
  }

  lemma LevelledStep(s: State, ev: Event, i: nat)
    requires Enabled(s, ev) && !PutsBack(ev) && i < |s.queues| && IsLevelled(s.queues[i].pending)
    ensures IsLevelled(Apply(s, ev).queues[i].pending)
  {
    PendingStep(s, ev, i);
    var p := s.queues[i].pending;
    var levels: Levels :| |levels| == LEVELS && LevelsOk(levels) && Flatten(levels) == p;
    hide Apply, Enabled;
    match OpOf(s, ev, i)
    case None =>
    case Some(Put(x)) =>
      InsertRefinesEnqueue(levels, x);
      assert |Enqueue(levels, x)| == LEVELS;
    case Some(Pop) =>
      PopRefinesDequeue(levels);
      assert |Dequeue(levels)| == LEVELS;
  }

  lemma {:induction false} LevelledSoFar(states: seq<State>, events: seq<Event>, n: nat, i: nat)
    requires Run(states, events) && n < |states| && i < |states[n].queues|
    requires forall k | 0 <= k < n && PutsBack(events[k]) ::
               FitsInFront(PutBackBy(states[k], events[k]), states[k].queues[states[k].consumers[events[k].c].queue].pending)
    ensures IsLevelled(states[n].queues[i].pending)
  {
    if n > 0 {
      var s, ev := states[n - 1], events[n - 1];
      if i >= |s.queues| {
        QueueIsNewEmpty(s, ev, i);
        LevelledExactlyWhenDescending([]);
      } else {
        LevelledSoFar(states, events, n - 1, i);
        if !PutsBack(ev) {
          LevelledStep(s, ev, i);
        } else if i == s.consumers[ev.c].queue {
          PuttingBackKeepsLevelsExactlyWhen(s, ev);
        } else {
          OtherQueuesStay(s, ev, i);
        }
      }
    }
  }

  /** In every run, requeues included, every queue is some levels flattened as long as whatever was
      put back fitted where it was put; and the first time something does not, its queue is not. */
  lemma QueuesStayLevelledUnless(states: seq<State>, events: seq<Event>, n: nat, i: nat)
    requires Run(states, events) && n < |states| && i < |states[n].queues|
    requires forall k | 0 <= k < n && PutsBack(events[k]) ::
               FitsInFront(PutBackBy(states[k], events[k]), states[k].queues[states[k].consumers[events[k].c].queue].pending)
    ensures IsLevelled(states[n].queues[i].pending)
    ensures n < |events| && PutsBack(events[n]) && i == states[n].consumers[events[n].c].queue ==>
              (IsLevelled(states[n + 1].queues[i].pending)
               <==> FitsInFront(PutBackBy(states[n], events[n]), states[n].queues[i].pending))
  {
    LevelledSoFar(states, events, n, i);
    if n < |events| && PutsBack(events[n]) && i == states[n].consumers[events[n].c].queue {
      PuttingBackKeepsLevelsExactlyWhen(states[n], events[n]);
    }
  }
}
