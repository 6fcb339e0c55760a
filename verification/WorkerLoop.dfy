/** What ends the dispatch loop of `Worker::run`, which errors it sees, and that everything a stream
    yields reaches it (crates/core/src/worker.rs:324-404, 467-492): what the machine of WorkerRun does,
    read off the events of a run. */
module WorkerLoop {
  import opened Envelopes
  import opened Sums
  import opened WorkerRun

  // ----- what ends the loop ------------------------------------------------------------------

  /** Every consumer task has ended and the channel is empty. */
  predicate ChannelClosed(s: State) { s.buffer == [] && s.AllExited() }

  ghost predicate LoopOk(s: State) {
    && (s.main.Starting? || s.main.WantPermit? || s.main.WantMessage? ==> s.errors == [])
    && (s.main.Stopping? ==> s.errors != [] || s.shutdown || ChannelClosed(s))
    && (s.main.LoopTop? || s.main.WantPermit? || s.main.WantMessage? ==> |s.consumers| == s.queues)
  }

  lemma LoopOfMain(s: State, e: Event)
    requires LoopOk(s) && InvMain(s) && Enabled(s, e) && (MainStep(e) || e.Receive?)
    ensures LoopOk(Apply(s, e))
  {
  }

  /** A consumer that has ended stays so, and sends nothing more. */
  lemma LoopOfConsumer(s: State, e: Event)
    requires LoopOk(s) && Enabled(s, e) && ConsumerStep(e)
    ensures LoopOk(Apply(s, e))
  {
    assert !s.AllExited();
    ConsumerFrame(s, e);
    hide Apply;
  }

  lemma LoopOfJob(s: State, e: Event)
    requires LoopOk(s) && Enabled(s, e) && (e.JobSteps? || e.Settle?)
    ensures LoopOk(Apply(s, e))
  {
  }

  lemma {:induction false} RunLoops(states: seq<State>, events: seq<Event>, i: nat)
    requires Run(states, events) && i < |states|
    ensures LoopOk(states[i]) && InvMain(states[i])
  {
    RunKeeps(states, events, i);
    if i > 0 {
      RunLoops(states, events, i - 1);
      hide LoopOk, Inv, InvMain, Apply, Enabled;
      var s, e := states[i - 1], events[i - 1];
      if MainStep(e) || e.Receive? {
        LoopOfMain(s, e);
      } else if ConsumerStep(e) {
        LoopOfConsumer(s, e);
      } else {
        LoopOfJob(s, e);
      }
    }
  }

  /** An error ends the loop, and so do a shutdown and a closed channel, and nothing else. In every run:
      the loop asks for a permit or a message only with a consumer started on every queue and while no
      error has been seen; it is on its way to
      stop only because of an error, a shutdown, or a channel that has nothing more to give; and from
      there the next step it takes raises the stop flag. */
  lemma WhatEndsTheLoop(states: seq<State>, events: seq<Event>, i: nat)
    requires Run(states, events) && i < |states|
    ensures states[i].main.WantPermit? || states[i].main.WantMessage? ==>
              states[i].errors == [] && |states[i].consumers| == states[i].queues
    ensures states[i].main.Stopping? ==>
              && (states[i].errors != [] || states[i].shutdown || ChannelClosed(states[i]))
              && Enabled(states[i], Stop) && Apply(states[i], Stop).stop
              && forall e | Enabled(states[i], e) && (MainStep(e) || e.Receive?) :: e.Stop? || e.Shutdown?
  {
    RunLoops(states, events, i);
  }

  /** Each of the causes does end it, at once: a consumer that fails to start, an error or a shutdown
      found at the top of the loop, a shutdown seen while waiting, and a closed channel. And with none
      of them the loop goes on. */
  lemma EachCauseEndsTheLoop(states: seq<State>, events: seq<Event>, i: nat)
    requires Run(states, events) && i < |events|
    ensures var s, e, s' := states[i], events[i], states[i + 1];
            && (e.StartFails? ==> s'.main == Stopping)
            && (e.Top? ==> s'.main == if s.errors != [] || s.shutdown then Stopping else WantPermit)
            && (e.ShutdownSeen? ==> s'.main == Stopping && s.shutdown)
            && (e.ReceiveNone? && !s.stop ==> s'.main == Stopping && ChannelClosed(s))
            && (e.Receive? && !s.stop ==> s'.main == LoopTop)
            && (e.StartDone? ==> s'.main == LoopTop)
            && (e.TakePermit? && !s.stop ==> s'.main == WantMessage)
            && (e.CloseBackend? && e.failure.Some? ==> s.closesBackend)
  {
    RunLoops(states, events, i);
  }

  // ----- which errors are seen ---------------------------------------------------------------

  /** The error a step shows the run loop, read off the event: a consumer that fails to start, a failed
      stream, a stream that ended before the drain, and a backend that fails to close. */
  function Shown(s: State, e: Event): seq<Error>
    requires Enabled(s, e)
  {
    match e
    case StartFails(err) => [err]
    case CloseBackend(Some(err)) => [err]
    case Receive =>
      (match s.buffer[0]
       case Failed(err) => [err]
       case Ended(consumer) => if s.stop then [] else [ConsumerStopped(consumer)]
       case Delivery(_) => [])
    case _ => []
  }

  lemma ShownStep(s: State, e: Event)
    requires InvMain(s) && Enabled(s, e)
    ensures Apply(s, e).errors == s.errors + Shown(s, e)
  {
    if ConsumerStep(e) {
      ConsumerFrame(s, e);
      hide Apply;
    }
  }

  ghost function AllShown(states: seq<State>, events: seq<Event>, n: nat): seq<Error>
    requires Run(states, events) && n < |states|
  {
    if n == 0 then [] else AllShown(states, events, n - 1) + Shown(states[n - 1], events[n - 1])
  }

  /** The outcome is the first error the run has shown, and nothing is swallowed. */
  lemma {:induction false} TheFirstErrorIsTheOutcome(states: seq<State>, events: seq<Event>, n: nat)
    requires Run(states, events) && n < |states|
    ensures states[n].errors == AllShown(states, events, n)
    ensures states[n].outcome ==
              if AllShown(states, events, n) == [] then None else Some(AllShown(states, events, n)[0])
  {
    RunKeeps(states, events, n);
    if n > 0 {
      TheFirstErrorIsTheOutcome(states, events, n - 1);
      RunKeeps(states, events, n - 1);
      ShownStep(states[n - 1], events[n - 1]);
    }
  }

  // ----- everything a stream yields reaches the loop -----------------------------------------

  /** What a step takes off a stream, its end included. */
  function Yielded(e: Event): Option<Message> {
    match e
    case PullDelivery(_, d) => Some(Delivery(d))
    case PullError(_, err) => Some(Failed(err))
    case StreamEnds(i) => Some(Ended(i))
    case _ => None
  }

  function Got(s: State, e: Event): Option<Message>
    requires Enabled(s, e)
  {
    if e.Receive? then Some(s.buffer[0]) else None
  }

  ghost function Yields(states: seq<State>, events: seq<Event>, n: nat, m: Message): nat
    requires Run(states, events) && n < |states|
  {
    if n == 0 then 0 else Yields(states, events, n - 1, m) + One(Yielded(events[n - 1]) == Some(m))
  }

  ghost function Receipts(states: seq<State>, events: seq<Event>, n: nat, m: Message): nat
    requires Run(states, events) && n < |states|
  {
    if n == 0 then 0
    else Receipts(states, events, n - 1, m) + One(Got(states[n - 1], events[n - 1]) == Some(m))
  }

  function Carries(m: Message): Consumer -> nat {
    (c: Consumer) => One(c == Sending(m))
  }

  function Equals(m: Message): Message -> nat {
    (x: Message) => One(x == m)
  }

  function InTransit(s: State, m: Message): nat {
    Sum(s.consumers, Carries(m)) + Sum(s.buffer, Equals(m))
  }

  lemma TransitOfConsumer(s: State, e: Event, m: Message)
    requires Enabled(s, e) && ConsumerStep(e)
    ensures InTransit(Apply(s, e), m) == InTransit(s, m) + One(Yielded(e) == Some(m))
  {
    var s' := Apply(s, e);
    SumUpdate(s.consumers, e.i, s'.consumers[e.i], Carries(m));
    if e.Send? { SumAppend(s.buffer, s.consumers[e.i].m, Equals(m)); }
  }

  lemma TransitStep(s: State, e: Event, m: Message)
    requires Enabled(s, e)
    ensures InTransit(Apply(s, e), m) + One(Got(s, e) == Some(m)) == InTransit(s, m) + One(Yielded(e) == Some(m))
  {
    if ConsumerStep(e) {
      TransitOfConsumer(s, e, m);
    } else if e.StartOk? {
      SumAppend(s.consumers, Checking, Carries(m));
    } else if e.Receive? {
      assert Apply(s, e).consumers == s.consumers && Apply(s, e).buffer == s.buffer[1..];
    }
  }

  /** The machine's own count of receipts is the number of messages received. */
  lemma {:induction false} ReceiptsAreCounted(states: seq<State>, events: seq<Event>, n: nat)
    requires Run(states, events) && n < |states|
    ensures states[n].received == Received(events, n)
  {
    if n > 0 {
      ReceiptsAreCounted(states, events, n - 1);
      ReceiptStep(states[n - 1], events[n - 1]);
    }
  }

  function Received(events: seq<Event>, n: nat): nat
    requires n <= |events|
  {
    if n == 0 then 0 else Received(events, n - 1) + One(events[n - 1].Receive?)
  }

  lemma ReceiptStep(s: State, e: Event)
    requires Enabled(s, e)
    ensures Apply(s, e).received == s.received + One(e.Receive?)
  {
    if ConsumerStep(e) {
      ConsumerFrame(s, e);
      hide Apply;
    }
  }

  /** The drain receives at most what the channel held when the stop flag went up, and one message more
      for each consumer that was running then. */
  lemma TheDrainReceivesBoundedly(states: seq<State>, events: seq<Event>, i: nat, j: nat)
    requires Run(states, events) && i <= j < |states| && states[i].stop
    ensures Received(events, j) <= Received(events, i) + |states[i].buffer| + Sum(states[i].consumers, Running())
  {
    DrainEnds(states, events, i, j);
    ReceiptsAreCounted(states, events, i);
    ReceiptsAreCounted(states, events, j);
  }

  /** Pulling and forwarding are inseparable: in every run, whatever was taken off a stream, delivery,
      error or end, is in its consumer's hand, in the channel, or has been received, each time it was. */
  lemma {:induction false} WhatIsPulledArrives(states: seq<State>, events: seq<Event>, n: nat, m: Message)
    requires Run(states, events) && n < |states|
    ensures Yields(states, events, n, m) == InTransit(states[n], m) + Receipts(states, events, n, m)
  {
    if n > 0 {
      WhatIsPulledArrives(states, events, n - 1, m);
      hide InTransit, Apply;
      TransitStep(states[n - 1], events[n - 1], m);
    }
  }

  /** A consumer task goes on pulling until it is told to stop or has reported the end of its stream: a
      failed item does not end it. */
  lemma ConsumersEndOnlyWhen(states: seq<State>, events: seq<Event>, i: nat, c: nat)
    requires Run(states, events) && i < |events| && c < |states[i].consumers| && !states[i].consumers[c].Exited?
    ensures c < |states[i + 1].consumers|
    ensures states[i + 1].consumers[c].Exited? ==>
              states[i].stop || (states[i].consumers[c].Sending? && states[i].consumers[c].m.Ended?)
  {
    var s, e := states[i], events[i];
    if MainStep(e) {
      MainFrame(s, e);
      hide Apply;
    }
  }

  /** Anything may happen at any time: a shutdown, a consumer that fails to start, and on a stream a
      delivery, an error or its end, whether or not the worker is stopping; a handler may return or run
      out of time, and any settle may fail. */
  lemma AnythingMayHappen(s: State, i: nat, k: nat, d: DeliveryId, err: Error, ok: bool)
    ensures !s.shutdown ==> Enabled(s, Shutdown)
    ensures s.main.Starting? && |s.consumers| < s.queues ==> Enabled(s, StartFails(err)) && Enabled(s, StartOk)
    ensures s.At(i, Pulling) ==>
              && (d !in s.pulled ==> Enabled(s, PullDelivery(i, d))) && Enabled(s, PullError(i, err)) && Enabled(s, StreamEnds(i))
              && (s.stop ==> Enabled(s, StopNoticed(i)))
    ensures k < |s.jobs| && s.jobs[k].stage.Handling? ==>
              Enabled(s, JobSteps(k, HandlerReturns)) && Enabled(s, JobSteps(k, TimesOut))
    ensures k < |s.jobs| && s.jobs[k].stage.Preparing? ==>
              Enabled(s, JobSteps(k, HandlerStarts)) && Enabled(s, JobSteps(k, HandlerSkipped))
    ensures k < |s.jobs| && s.jobs[k].stage.Settling? ==> Enabled(s, Settle(k, ok))
  {
  }

  /** The running worker is never stuck either: in every run, while it dispatches, it can take a step of its
      own or one of its jobs can, or it waits for a stream, which a shutdown interrupts. */
  lemma DispatchNeverStuck(states: seq<State>, events: seq<Event>, n: nat)
    requires Run(states, events) && n < |states| && !states[n].stop
    ensures var s := states[n];
            match s.main
            case Starting => Enabled(s, StartOk) || Enabled(s, StartDone)
            case LoopTop => Enabled(s, Top)
            case WantPermit => Enabled(s, TakePermit) || s.jobs != []
            case WantMessage => Enabled(s, Receive) || Enabled(s, ReceiveNone) || !s.AllExited()
            case Stopping => Enabled(s, Stop)
            case _ => false
    ensures states[n].shutdown && (states[n].main.WantPermit? || states[n].main.WantMessage?) ==> Enabled(states[n], ShutdownSeen)
  {
    RunKeeps(states, events, n);
    StartsInOrder(states, events, n);
  }

  lemma {:induction false} StartsInOrder(states: seq<State>, events: seq<Event>, n: nat)
    requires Run(states, events) && n < |states|
    ensures states[n].main.Starting? ==> |states[n].consumers| <= states[n].queues
  {
    if n > 0 {
      StartsInOrder(states, events, n - 1);
      StartStep(states[n - 1], events[n - 1]);
    }
  }

  lemma StartStep(s: State, e: Event)
    requires Enabled(s, e) && (s.main.Starting? ==> |s.consumers| <= s.queues)
    ensures Apply(s, e).main.Starting? ==> |Apply(s, e).consumers| <= Apply(s, e).queues
  {
    if ConsumerStep(e) {
      ConsumerFrame(s, e);
    } else if MainStep(e) {
      MainFrame(s, e);
    }
  }
}
