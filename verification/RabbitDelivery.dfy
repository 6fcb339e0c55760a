/** How one RabbitMQ delivery is settled (crates/rabbitmq/src/delivery.rs:57-193) and the publishes
    behind it (crates/rabbitmq/src/publisher.rs:357-516). Every call that reaches the broker is
    appended to `calls`; what the broker and the channels answer comes in as `Answers`. */
module RabbitDelivery {
  import opened Envelopes
  import opened Topology
  import ConfirmChannel

  datatype Call =
    | DeclareQueue(name: Text, durable: bool, args: map<ArgKey, ArgValue>)
    | Publish(key: Text, envelope: Envelope)
    | AckOriginal
    | RejectOriginal

  datatype Error =
    | UnknownQueue | DelayTooLong | InvalidName | Amqp | Unstored(why: ConfirmChannel.PublishResult) | AlreadySettled

  datatype Result = Ok | Err(error: Error)

  datatype Hold = ForRetry | ForDeferral

  datatype Options = Options(
    ownsDead: bool,                  // declare_dead_letter_queues
    deadSuffix: Text,
    deferredSuffix: Text,
    retryGranularity: Duration,
    deferredGranularity: Duration)
  {
    function Granularity(hold: Hold): Duration {
      match hold
      case ForRetry => retryGranularity
      case ForDeferral => deferredGranularity
    }
  }

  /** What the outside answers during one settling call: whether the declaration channel could be
      had and the declare was accepted, whether a confirm channel could be leased, the confirmation
      (none if the publish or its confirm errored) and the acker's verdict (none on an error). */
  datatype Answers = Answers(
    declareChannel: bool,
    declareAccepted: bool,
    lease: bool,
    confirmation: Option<ConfirmChannel.Confirmation>,
    settled: Option<bool>)
  {
    /** The broker took the message and routed it. */
    predicate Stored() { lease && confirmation == Some(ConfirmChannel.Ack(None)) }
  }

  /** A queue name that passed the declare-time check fits with any TTL. */
  lemma CheckedNameFits(queue: Text, suffix: Text, delay: Duration, granularity: Duration)
    ensures var ttl := DeferredTtlMs(delay, granularity);
            CheckDeferrableName(queue, suffix) && ttl.Some? ==> |HoldName(queue, suffix, ttl.value)| <= MAX_SHORT_STRING
  {
    NameCheckIsExact(queue, suffix);
  }

  class Publisher {
    const options: Options
    var configs: map<Text, QueueConfig>
    var calls: seq<Call>

    ghost predicate Valid()
      reads this
    {
      forall q | q in configs :: configs[q].name == q
    }

    constructor (o: Options)
      ensures Valid() && options == o && configs == map[] && calls == []
    {
      options, configs, calls := o, map[], [];
    }

    /** The backend records what a queue was declared with. */
    method Record(config: QueueConfig)
      requires Valid()
      modifies this`configs
      ensures Valid() && configs == old(configs)[config.name := config]
    {
      configs := configs[config.name := config];
    }

    /** `publish_confirmed`: success means the broker stored the message, and only that. */
    method PublishConfirmed(key: Text, envelope: Envelope, a: Answers) returns (r: Result)
      modifies this`calls
      ensures calls == old(calls) + if |key| <= MAX_SHORT_STRING && a.lease then [Publish(key, envelope)] else []
      ensures r == Ok <==> |key| <= MAX_SHORT_STRING && a.Stored()
      ensures r == Err(InvalidName) <==> |key| > MAX_SHORT_STRING
      ensures r.Err? ==> r.error.InvalidName? || r.error.Amqp? || r.error.Unstored?
    {
      if |key| > MAX_SHORT_STRING {
        return Err(InvalidName);
      }
      if !a.lease {
        return Err(Amqp);
      }
      calls := calls + [Publish(key, envelope)];
      if a.confirmation.None? {
        return Err(Amqp);
      }
      var result := ConfirmChannel.ConfirmationToResult(a.confirmation.value);
      r := if result == ConfirmChannel.Ok then Ok else Err(Unstored(result));
    }

    /** The TTL a wait gets, if it can be held at all. */
    ghost function Ttl(delay: Duration, hold: Hold): Option<u32> {
      match hold
      case ForRetry => DeferredTtlMs(delay, options.retryGranularity)
      case ForDeferral => DeferredTtlMs(delay, options.deferredGranularity)
    }

    /** Everything that has to hold before the broker is asked anything. */
    ghost predicate Holdable(queue: Text, delay: Duration, hold: Hold)
      reads this
    {
      && queue in configs
      && Ttl(delay, hold).Some?
      && |HoldName(queue, options.deferredSuffix, Ttl(delay, hold).value)| <= MAX_SHORT_STRING
    }

    /** The calls a hold makes, if nothing goes wrong. */
    ghost function HoldScript(envelope: Envelope, delay: Duration, hold: Hold): (s: seq<Call>)
      requires Holdable(envelope.queue, delay, hold)
      reads this
      ensures |s| == 2
    {
      var ttl := Ttl(delay, hold).value;
      var name := HoldName(envelope.queue, options.deferredSuffix, ttl);
      [DeclareQueue(name, configs[envelope.queue].durable, HoldArgs(envelope.queue, ttl)), Publish(name, envelope)]
    }

    /** How many of them are made. */
    ghost function Reached(a: Answers): (n: nat)
      ensures n <= 2
    {
      if !a.declareChannel then 0 else if !a.declareAccepted || !a.lease then 1 else 2
    }

    /** The calls `publish_held` makes, whatever happens. */
    ghost function HoldCalls(envelope: Envelope, delay: Duration, hold: Hold, a: Answers): seq<Call>
      reads this
    {
      if Holdable(envelope.queue, delay, hold) then HoldScript(envelope, delay, hold)[..Reached(a)] else []
    }

    ghost predicate Held(envelope: Envelope, delay: Duration, hold: Hold, a: Answers)
      reads this
    {
      Holdable(envelope.queue, delay, hold) && a.declareChannel && a.declareAccepted && a.Stored()
    }

    /** `publish_held`: the hold queue is declared before every publish, with the arguments its name
        stands for; the message goes into it only if that worked, and the call succeeds only if the
        broker stored the message. A queue that passed the declare-time name check never fails on
        its name. */
    method PublishHeld(envelope: Envelope, delay: Duration, hold: Hold, a: Answers) returns (r: Result)
      requires Valid()
      modifies this`calls
      ensures calls == old(calls) + HoldCalls(envelope, delay, hold, a)
      ensures var sent := calls[|old(calls)|..];
              && |sent| <= 2
              && (sent != [] ==>
                    && envelope.queue in configs && Ttl(delay, hold).Some?
                    && var ttl := Ttl(delay, hold).value;
                    && sent[0] == DeclareQueue(HoldName(envelope.queue, options.deferredSuffix, ttl),
                                               configs[envelope.queue].durable, HoldArgs(envelope.queue, ttl)))
              && (|sent| == 2 ==> a.declareAccepted && sent[1] == Publish(sent[0].name, envelope))
              && (r == Ok ==> |sent| == 2 && a.Stored())
      ensures r == Ok <==> Held(envelope, delay, hold, a)
      ensures envelope.queue !in configs <==> r == Err(UnknownQueue)
      ensures envelope.queue in configs && Ttl(delay, hold).None? <==> r == Err(DelayTooLong)
      ensures CheckDeferrableName(envelope.queue, options.deferredSuffix) ==> r != Err(InvalidName)
    {
      if envelope.queue !in configs {
        return Err(UnknownQueue);
      }
      var config := configs[envelope.queue];
      var ttl := DeferredTtlMs(delay, options.Granularity(hold));
      if ttl.None? {
        return Err(DelayTooLong);
      }
      var name := HoldName(envelope.queue, options.deferredSuffix, ttl.value);
      CheckedNameFits(envelope.queue, options.deferredSuffix, delay, options.Granularity(hold));
      if |name| > MAX_SHORT_STRING {
        return Err(InvalidName);
      }
      if !a.declareChannel {
        return Err(Amqp);
      }
      var args := DeferredQueueArgs(config, ttl.value);
      calls := calls + [DeclareQueue(name, config.durable, args)];
      if !a.declareAccepted {
        return Err(Amqp);
      }
      r := PublishConfirmed(name, envelope, a);
    }

    /** `publish_dead_letter`. */
    method PublishDeadLetter(envelope: Envelope, a: Answers) returns (r: Result)
      modifies this`calls
      ensures var key := envelope.queue + options.deadSuffix;
              && calls == old(calls) + (if |key| <= MAX_SHORT_STRING && a.lease then [Publish(key, envelope)] else [])
              && (r == Ok <==> |key| <= MAX_SHORT_STRING && a.Stored())
    {
      r := PublishConfirmed(envelope.queue + options.deadSuffix, envelope, a);
    }

    /** Ack or reject the original: an acker that was already used is an error, not a success. */
    method Settle(call: Call, verdict: Option<bool>) returns (r: Result)
      modifies this`calls
      ensures calls == old(calls) + [call]
      ensures r == Ok <==> verdict == Some(true)
      ensures r == Err(AlreadySettled) <==> verdict == Some(false)
    {
      calls := calls + [call];
      r := if verdict.None? then Err(Amqp) else if verdict.value then Ok else Err(AlreadySettled);
    }
  }

  /** One message in flight. The four settling calls consume it. */
  class RabbitMqDelivery {
    const envelope: Envelope
    const publisher: Publisher

    constructor (e: Envelope, p: Publisher)
      ensures envelope == e && publisher == p
    {
      envelope, publisher := e, p;
    }

    method Ack(a: Answers) returns (r: Result)
      modifies publisher`calls
      ensures publisher.calls == old(publisher.calls) + [AckOriginal]
      ensures r == Ok <==> a.settled == Some(true)
    {
      r := publisher.Settle(AckOriginal, a.settled);
    }

    /** Publish `next` into its hold queue, then ack: the ack is sent if and only if the broker
        stored the successor, and always last. */
    method PublishThenAck(next: Envelope, delay: Duration, hold: Hold, a: Answers) returns (r: Result)
      requires publisher.Valid()
      modifies publisher`calls
      ensures publisher.calls == old(publisher.calls) + publisher.HoldCalls(next, delay, hold, a)
                                 + (if publisher.Held(next, delay, hold, a) then [AckOriginal] else [])
      ensures r == Ok <==> publisher.Held(next, delay, hold, a) && a.settled == Some(true)
    {
      r := publisher.PublishHeld(next, delay, hold, a);
      if r != Ok {
        return;
      }
      r := publisher.Settle(AckOriginal, a.settled);
    }

    method Retry(next: Envelope, delay: Duration, a: Answers) returns (r: Result)
      requires publisher.Valid()
      modifies publisher`calls
      ensures publisher.calls == old(publisher.calls) + publisher.HoldCalls(next, delay, ForRetry, a)
                                 + (if publisher.Held(next, delay, ForRetry, a) then [AckOriginal] else [])
      ensures r == Ok <==> publisher.Held(next, delay, ForRetry, a) && a.settled == Some(true)
    {
      r := PublishThenAck(next, delay, ForRetry, a);
    }

    method Defer(next: Envelope, delay: Duration, a: Answers) returns (r: Result)
      requires publisher.Valid()
      modifies publisher`calls
      ensures publisher.calls == old(publisher.calls) + publisher.HoldCalls(next, delay, ForDeferral, a)
                                 + (if publisher.Held(next, delay, ForDeferral, a) then [AckOriginal] else [])
      ensures r == Ok <==> publisher.Held(next, delay, ForDeferral, a) && a.settled == Some(true)
    {
      r := PublishThenAck(next, delay, ForDeferral, a);
    }

    /** With dead-letter queues on, the copy on `q.dead` is stored before the ack is sent; with them
        off nothing is published and the original is rejected. */
    method DeadLetter(a: Answers) returns (r: Result)
      modifies publisher`calls
      ensures var key := envelope.queue + publisher.options.deadSuffix;
              var fits := |key| <= MAX_SHORT_STRING;
              publisher.calls == old(publisher.calls)
                                 + (if !publisher.options.ownsDead then [RejectOriginal]
                                    else if !fits || !a.lease then []
                                    else if !a.Stored() then [Publish(key, envelope)]
                                    else [Publish(key, envelope), AckOriginal])
      ensures r == Ok <==>
              && a.settled == Some(true)
              && (publisher.options.ownsDead ==>
                    a.Stored() && |envelope.queue + publisher.options.deadSuffix| <= MAX_SHORT_STRING)
    {
      if !publisher.options.ownsDead {
        r := publisher.Settle(RejectOriginal, a.settled);
        return;
      }
      r := publisher.PublishDeadLetter(envelope, a);
      if r != Ok {
        return;
      }
      r := publisher.Settle(AckOriginal, a.settled);
    }
  }
}
