/** What the in-memory backend's calls do, traced from the call to its effect over whole runs
    (crates/core/src/memory.rs:342-386, 423-453, 600-660): a publish, retry or deferral is scheduled
    with the delay it was given, and every settlement is recorded on its queue as what it was. */
module MemoryRecords {
  import opened Envelopes
  import opened PriorityQueue
  import opened MemoryBackend

  // ----- where a pending call comes from -----------------------------------------------------

  /** Step m is the publish that made call k. */
  ghost predicate MadeBy(states: seq<State>, events: seq<Event>, m: nat, k: nat, call: Call)
    requires Run(states, events) && m < |events|
  {
    && events[m] == Publish(call.env, call.delayed, call.hold)
    && !states[m].closed && k == |states[m].calls|
  }

  lemma CallsStep(s: State, e: Event, k: nat)
    requires Enabled(s, e) && k < |Apply(s, e).calls|
    ensures var call' := Apply(s, e).calls[k];
            if k < |s.calls| then
              call'.env == s.calls[k].env && call'.delayed == s.calls[k].delayed && call'.hold == s.calls[k].hold
            else
              k == |s.calls| && !s.closed && e == Publish(call'.env, call'.delayed, call'.hold)
  {
    hide Insert;
  }

  lemma {:induction false} CallsComeFromPublishes(states: seq<State>, events: seq<Event>, n: nat, k: nat) returns (m: nat)
    requires Run(states, events) && n < |states| && k < |states[n].calls|
    ensures m < n && MadeBy(states, events, m, k, states[n].calls[k])
  {
    hide Apply, Enabled;
    CallsStep(states[n - 1], events[n - 1], k);
    if k < |states[n - 1].calls| {
      m := CallsComeFromPublishes(states, events, n - 1, k);
    } else {
      m := n - 1;
    }
  }

  /** Step m is the retry or deferral that delivery d is going through. */
  ghost predicate RepublishedBy(events: seq<Event>, m: nat, d: nat, stage: Stage) {
    && m < |events| && events[m].Republish? && events[m].d == d
    && match stage
       case Republishing(_, next, delayed, hold) =>
         events[m].e == next && events[m].delayed == delayed && events[m].hold == hold
       case Recording(_, kind) => kind == if events[m].hold then Deferred else Retried
       case _ => false
  }

  lemma StagesStep(s: State, e: Event, d: nat)
    requires Enabled(s, e) && d < |Apply(s, e).deliveries|
    requires var st' := Apply(s, e).deliveries[d].stage; st'.Republishing? || st'.Recording?
    ensures d < |s.deliveries|
    ensures var st, st' := s.deliveries[d].stage, Apply(s, e).deliveries[d].stage;
            || st' == st
            || (st'.Republishing? && st.Waiting? && e == Republish(d, st'.next, st'.delayed, st'.hold))
            || (st'.Recording? && st.Republishing? && e.RunRepublish? && e.d == d
                && st'.kind == if st.hold then Deferred else Retried)
  {
    if DeliveryEvent(e) || e.Take? || e.DropDelivery? {
      hide Insert;
    } else {
      DeliveriesStay(s, e);
      hide Apply, Enabled;
    }
  }

  lemma {:induction false} StagesComeFromRepublishes(states: seq<State>, events: seq<Event>, n: nat, d: nat) returns (m: nat)
    requires Run(states, events) && n < |states| && d < |states[n].deliveries|
    requires states[n].deliveries[d].stage.Republishing? || states[n].deliveries[d].stage.Recording?
    ensures m < n && RepublishedBy(events, m, d, states[n].deliveries[d].stage)
  {
    hide Apply, Enabled;
    var s, e := states[n - 1], events[n - 1];
    StagesStep(s, e, d);
    if states[n].deliveries[d].stage.Republishing? && s.deliveries[d].stage.Waiting? {
      m := n - 1;
    } else {
      m := StagesComeFromRepublishes(states, events, n - 1, d);
    }
  }

  /** Whatever is in hand on a delivery is the envelope it was delivered with. */
  ghost predicate EnvOk(d: Delivery) {
    match d.stage
    case Waiting(x) => x == d.env
    case Republishing(x, _, _, _) => x == d.env
    case Recording(x, _) => x == d.env
    case Refused(x) => x == d.env
    case _ => true
  }

  lemma EnvStep(s: State, e: Event, d: nat)
    requires Enabled(s, e) && d < |Apply(s, e).deliveries| && (d < |s.deliveries| ==> EnvOk(s.deliveries[d]))
    ensures EnvOk(Apply(s, e).deliveries[d])
  {
    if DeliveryEvent(e) || e.Take? || e.DropDelivery? {
      hide Insert;
    } else {
      DeliveriesStay(s, e);
      hide Apply, Enabled;
    }
  }

  lemma {:induction false} DeliveriesKeepTheirEnvelope(states: seq<State>, events: seq<Event>, n: nat, d: nat)
    requires Run(states, events) && n < |states| && d < |states[n].deliveries|
    ensures EnvOk(states[n].deliveries[d])
  {
    if n > 0 {
      var s, e := states[n - 1], events[n - 1];
      if d < |s.deliveries| {
        DeliveriesKeepTheirEnvelope(states, events, n - 1, d);
      }
      EnvStep(s, e, d);
    }
  }

  // ----- scheduling --------------------------------------------------------------------------

  /** Envelope x is on its way to queue i as asked: at once, by priority and with a wake-up; or behind a
      timer, which holds the queue's counter up if it is a deferral; or dropped, when it should go in at
      once and the backend is closed. */
  ghost predicate ScheduledAsAsked(s: State, s': State, x: Envelope, delayed: bool, hold: bool, i: nat)
    requires i < |s.queues| && i < |s'.queues|
  {
    var q, q' := s.queues[i], s'.queues[i];
    if delayed then
      && s'.timers == s.timers + [Timer(x, hold, true)] && s'.lost == s.lost
      && q'.held == q.held + (if hold then 1 else 0)
      && q'.pending == q.pending && q'.signal == q.signal
    else
      && s'.timers == s.timers && q'.held == q.held
      && (if s.closed then s'.lost == s.lost + [x] && q'.pending == q.pending
          else s'.lost == s.lost && q'.pending == Insert(q.pending, x) && q'.signal == q.signal + 1)
  }

  /** Every publish and every delayed enqueue is scheduled as it was asked for, however long after. */
  lemma PublishesAreScheduledAsAsked(states: seq<State>, events: seq<Event>, n: nat, k: nat, i: nat) returns (m: nat)
    requires Run(states, events) && n < |events| && events[n] == RunCall(k, i)
    ensures m < n && events[m].Publish? && k == |states[m].calls|
    ensures states[n].queues[i].name == events[m].e.queue
    ensures ScheduledAsAsked(states[n], states[n + 1], events[m].e, events[m].delayed, events[m].hold, i)
  {
    m := CallsComeFromPublishes(states, events, n, k);
    hide Insert;
  }

  /** Every retry and deferral likewise, on the queue of its successor. */
  lemma RepublishesAreScheduledAsAsked(states: seq<State>, events: seq<Event>, n: nat, d: nat, i: nat) returns (m: nat)
    requires Run(states, events) && n < |events| && events[n] == RunRepublish(d, i)
    ensures m < n && events[m].Republish? && events[m].d == d
    ensures states[n].queues[i].name == events[m].e.queue
    ensures ScheduledAsAsked(states[n], states[n + 1], events[m].e, events[m].delayed, events[m].hold, i)
  {
    m := StagesComeFromRepublishes(states, events, n, d);
    hide Insert;
  }

  /** A timer that fires lets its hold go and puts its envelope in by priority, in one step. */
  lemma TimersDeliver(s: State, t: nat, i: nat)
    requires Enabled(s, Fire(t, i)) && HeldOk(s.queues, s.timers)
    ensures var s' := Apply(s, Fire(t, i));
            var q, q' := s.queues[i], s'.queues[i];
            && !s'.timers[t].live
            && q'.held == q.held - (if s.timers[t].hold then 1 else 0)
            && (if s.closed then s'.lost == s.lost + [s.timers[t].env] && q'.pending == q.pending
                else s'.lost == s.lost && q'.pending == Insert(q.pending, s.timers[t].env) && q'.signal == q.signal + 1)
  {
    if s.timers[t].hold { HeldIsPositive(s, t, i); }
    hide Insert;
  }

  // ----- settlements -------------------------------------------------------------------------

  /** What one step adds to the acks recorded on queue i. */
  function AckedBy(s: State, e: Event, i: nat): seq<(Envelope, AckKind)>
    requires Enabled(s, e)
  {
    match e
    case Ack(d, q) => if q == i then [(s.deliveries[d].env, Succeeded)] else []
    case Record(d, q) => if q == i then [(s.deliveries[d].env, s.deliveries[d].stage.kind)] else []
    case _ => []
  }

  /** ... and to its dead letters: a closed backend takes none. */
  function BuriedBy(s: State, e: Event, i: nat): seq<Envelope>
    requires Enabled(s, e)
  {
    match e
    case DeadLetter(d, q) => if q == i && !s.closed then [s.deliveries[d].env] else []
    case _ => []
  }

  lemma RecordsByCall(s: State, e: Event, i: nat)
    requires Enabled(s, e) && i < |s.queues| && (e.Ack? || e.Record? || e.DeadLetter?) && EnvOk(s.deliveries[e.d])
    ensures |Apply(s, e).queues| == |s.queues|
    ensures Apply(s, e).queues[i].settled == s.queues[i].settled + AckedBy(s, e, i)
    ensures Apply(s, e).queues[i].dead == s.queues[i].dead + BuriedBy(s, e, i)
  {
  }

  ghost predicate SameRecords(s: State, s': State, i: nat)
    requires i < |s.queues|
  {
    i < |s'.queues| && s'.queues[i].settled == s.queues[i].settled && s'.queues[i].dead == s.queues[i].dead
  }

  lemma NoRecordByConsumer(s: State, e: Event, i: nat)
    requires Enabled(s, e) && i < |s.queues| && ConsumerEvent(e)
    ensures SameRecords(s, Apply(s, e), i)
  {
  }

  lemma NoRecordByScheduling(s: State, e: Event, i: nat)
    requires Enabled(s, e) && i < |s.queues| && (e.RunCall? || e.RunRepublish? || e.Fire? || e.AbortTimer?)
    ensures SameRecords(s, Apply(s, e), i)
  {
    hide Insert;
  }

  lemma NoRecordElse(s: State, e: Event, i: nat)
    requires Enabled(s, e) && i < |s.queues| && !e.Ack? && !e.Record? && !e.DeadLetter? && !ConsumerEvent(e)
    requires !e.RunCall? && !e.RunRepublish? && !e.Fire? && !e.AbortTimer?
    ensures SameRecords(s, Apply(s, e), i)
  {
  }

  lemma NoRecord(s: State, e: Event, i: nat)
    requires Enabled(s, e) && i < |s.queues| && !e.Ack? && !e.Record? && !e.DeadLetter?
    ensures SameRecords(s, Apply(s, e), i)
  {
    hide Apply, Enabled, SameRecords;
    if ConsumerEvent(e) {
      NoRecordByConsumer(s, e, i);
    } else if e.RunCall? || e.RunRepublish? || e.Fire? || e.AbortTimer? {
      NoRecordByScheduling(s, e, i);
    } else {
      NoRecordElse(s, e, i);
    }
  }

  lemma RecordsStep(s: State, e: Event, i: nat)
    requires Enabled(s, e) && i < |s.queues|
    requires (e.Ack? || e.Record? || e.DeadLetter?) ==> EnvOk(s.deliveries[e.d])
    ensures i < |Apply(s, e).queues|
    ensures Apply(s, e).queues[i].settled == s.queues[i].settled + AckedBy(s, e, i)
    ensures Apply(s, e).queues[i].dead == s.queues[i].dead + BuriedBy(s, e, i)
  {
    hide Apply, Enabled;
    if e.Ack? || e.Record? || e.DeadLetter? {
      RecordsByCall(s, e, i);
    } else {
      NoRecord(s, e, i);
    }
  }

  /** Every settlement is recorded as what it was, in every run, on the delivered envelope's own queue:
      an ack as a success; a retry as retried and a deferral as deferred, by the call that was made; a
      dead letter among the dead letters, and on a closed backend nowhere; and nothing else is. */
  lemma SettlementsAreRecorded(states: seq<State>, events: seq<Event>, n: nat, i: nat)
    requires Run(states, events) && n < |events| && i < |states[n].queues|
    ensures i < |states[n + 1].queues|
    ensures states[n + 1].queues[i].settled == states[n].queues[i].settled + AckedBy(states[n], events[n], i)
    ensures states[n + 1].queues[i].dead == states[n].queues[i].dead + BuriedBy(states[n], events[n], i)
    ensures events[n].Ack? || events[n].DeadLetter? || events[n].Record? ==>
              states[n].queues[events[n].i].name == states[n].deliveries[events[n].d].env.queue
    ensures events[n].Record? ==>
              exists m | 0 <= m < n ::
                && events[m].Republish? && events[m].d == events[n].d
                && states[n].deliveries[events[n].d].stage.kind == if events[m].hold then Deferred else Retried
  {
    if events[n].Ack? || events[n].Record? || events[n].DeadLetter? {
      DeliveriesKeepTheirEnvelope(states, events, n, events[n].d);
    }
    RecordsStep(states[n], events[n], i);
    if events[n].Record? {
      var m := StagesComeFromRepublishes(states, events, n, events[n].d);
    }
    hide Apply;
  }

  /** A call on a closed backend is refused, and leaves its delivery unsettled: only dropping it is left,
      which loses it. An ack is not refused. */
  lemma ClosedRefuses(s: State, e: Event)
    requires Enabled(s, e) && s.closed && (e.Republish? || e.DeadLetter? || e.Ack?)
    ensures (e.Republish? || e.DeadLetter?) <==> Apply(s, e).deliveries[e.d].stage.Refused?
    ensures e.Ack? <==> Apply(s, e).deliveries[e.d].stage.Spent?
  {
  }

  /** Anybody may call at any time: publish, close, drop a stream or a delivery, settle a delivery that
      has not been; a timer may fire or be torn down; and a name that no queue has can be given one. */
  lemma AnybodyMayCall(s: State, d: nat, c: nat, t: nat, i: nat, x: Envelope, flag: bool)
    ensures Enabled(s, Close) && Enabled(s, Publish(x, flag, flag)) && (i < |s.queues| ==> Enabled(s, Consume(i, c)))
    ensures c < |s.consumers| && s.consumers[c].open ==>
              Enabled(s, DropStream(c)) && (s.consumers[c].stream != [] ==> Enabled(s, Take(c)))
    ensures t < |s.timers| && s.timers[t].live && s.Named(i, s.timers[t].env.queue) ==>
              Enabled(s, Fire(t, i)) && Enabled(s, AbortTimer(t, i))
    ensures HasQueue(s.queues, x.queue) || Enabled(s, Create(x.queue))
  {
    if !Enabled(s, Create(x.queue)) {
      var j :| 0 <= j < |s.queues| && s.queues[j].name == x.queue;
    }
  }

  lemma DeliveriesMayBeSettled(s: State, d: nat, i: nat, x: Envelope, delayed: bool, hold: bool)
    requires d < |s.deliveries| && s.deliveries[d].stage.Waiting?
    ensures Enabled(s, Republish(d, x, delayed, hold))
    ensures s.Named(i, s.deliveries[d].stage.env.queue) ==> Enabled(s, Ack(d, i)) && Enabled(s, DeadLetter(d, i))
    ensures s.deliveries[d].consumer < |s.consumers| ==> Enabled(s, DropDelivery(d))
  {
  }

  /** And a call that has been made can go through, once its queue is there: it is scheduled, its delivery
      recorded, a settled delivery dropped. */
  lemma CallsCanGoThrough(s: State, k: nat, d: nat, i: nat)
    ensures k < |s.calls| && s.calls[k].live && s.Named(i, s.calls[k].env.queue) ==> Enabled(s, RunCall(k, i))
    ensures d < |s.deliveries| ==>
              match s.deliveries[d].stage
              case Republishing(_, next, _, _) => s.Named(i, next.queue) ==> Enabled(s, RunRepublish(d, i))
              case Recording(x, _) => s.Named(i, x.queue) ==> Enabled(s, Record(d, i))
              case Spent => s.deliveries[d].consumer < |s.consumers| ==> Enabled(s, DropDelivery(d))
              case Refused(_) => s.deliveries[d].consumer < |s.consumers| ==> Enabled(s, DropDelivery(d))
              case _ => true
  {
  }
}
