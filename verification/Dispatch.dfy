/** What a worker does with one delivery (crates/core/src/worker.rs:534-675): run the handler,
    notify the dead-letter hook, settle, count a failed settle. */
module Dispatch {
  import opened Envelopes
  import opened Retry

  /** How one run of the handler ended; panics and timeouts are `Retryable`. */
  datatype Outcome = Success | Decode | Fatal | Retryable | Deferred(delay: nat)

  datatype Cause = NoHandler | DecodeError | FatalError | Exhausted

  /** The one settling call made on a delivery. */
  datatype Settle =
    | Ack
    | RetryLater(next: Envelope, delay: nat)
    | DeferUntil(next: Envelope, delay: nat)
    | DeadLetter(cause: Cause)

  /** A registered handler as dispatch sees it: how the run ends, the policy that judged it
      (the configured one unless the handler chose another) and its queue's top priority. */
  datatype Handler = Handler(outcome: Outcome, policy: RetryPolicy, deferPriority: u8)

  datatype Effect =
    | HookCalled(envelope: Envelope, cause: Cause, maxAttempts: Option<u32>)
    | Settled(op: Settle)

  /** The settling call that an outcome leads to. */
  function Plan(env: Envelope, h: Option<Handler>, draw: real): Settle
    requires 0.0 <= draw <= 1.0
  {
    match h
    case None => DeadLetter(NoHandler)
    case Some(Handler(outcome, policy, top)) =>
      match outcome
      case Success => Ack
      case Decode => DeadLetter(DecodeError)
      case Fatal => DeadLetter(FatalError)
      case Deferred(delay) => DeferUntil(env.Deferred(top), delay)
      case Retryable =>
        match Decide(policy, env.attempt, draw)
        case GiveUp => DeadLetter(Exhausted)
        case Retry(delay) => RetryLater(env.NextAttempt(), delay)
  }

  /** Whatever the outcome: the job survives the plan (same identity in the successor, attempt up
      by exactly one and priority 0 on a retry, attempt untouched and priority raised on a
      deferral), success is acked and nothing else is, giving up happens exactly when the context
      would have reported the last attempt, and each cause of death has its one reason. */
  lemma PlanKeepsTheJob(env: Envelope, h: Option<Handler>, draw: real)
    requires 0.0 <= draw <= 1.0
    ensures var p := Plan(env, h, draw);
            && (p.Ack? <==> h.Some? && h.value.outcome.Success?)
            && (p.RetryLater? ==>
                  && SameJob(p.next, env) && p.next.attempt == env.attempt + 1
                  && p.next.priority == 0 && p.next.deferrals == env.deferrals
                  && p.next == env.(attempt := env.attempt + 1, priority := 0))
            && (p.DeferUntil? ==>
                  && SameJob(p.next, env) && p.next.attempt == env.attempt
                  && p.next.priority == h.value.deferPriority
                  && p.next.deferrals == env.deferrals + 1
                  && p.next == env.(deferrals := env.deferrals + 1, priority := h.value.deferPriority)
                  && p.delay == h.value.outcome.delay)
            && (p.DeferUntil? <==> h.Some? && h.value.outcome.Deferred?)
            && (p == DeadLetter(NoHandler) <==> h.None?)
            && (p == DeadLetter(DecodeError) <==> h.Some? && h.value.outcome.Decode?)
            && (p == DeadLetter(FatalError) <==> h.Some? && h.value.outcome.Fatal?)
            && (p.RetryLater? ==> p.delay == ComputeDelay(h.value.policy.backoff, env.attempt, draw))
    ensures h.Some? && h.value.outcome.Retryable? ==>
              (Plan(env, h, draw) == DeadLetter(Exhausted)
               <==> IsLastAttempt(env.attempt, h.value.policy.maxAttempts))
  {
  }

  /** `JobContext::is_last_attempt`. */
  predicate IsLastAttempt(attempt: u32, maxAttempts: u32) {
    attempt >= maxAttempts
  }

  /** The backend's side of one delivery: the calls made on it, in order. */
  class Delivery {
    const envelope: Envelope
    var log: seq<Effect>

    constructor (e: Envelope)
      ensures envelope == e && log == []
    {
      envelope, log := e, [];
    }

    /** Settle with `op`; `accepted` is the broker's answer. */
    method SettleWith(op: Settle, accepted: bool) returns (ok: bool)
      modifies this
      ensures ok == accepted && log == old(log) + [Settled(op)]
    {
      log := log + [Settled(op)];
      ok := accepted;
    }
  }

  /** The worker's side: whether a hook is registered, and the settle-failure counter. */
  class Dispatcher {
    const hooked: bool
    var settleFailures: nat

    constructor (hook: bool)
      ensures hooked == hook && settleFailures == 0
    {
      hooked, settleFailures := hook, 0;
    }

    /** Await the dead-letter hook, if there is one. */
    method NotifyDead(d: Delivery, cause: Cause, maxAttempts: Option<u32>)
      modifies d
      ensures d.log == old(d.log) + (if hooked then [HookCalled(d.envelope, cause, maxAttempts)] else [])
    {
      if hooked {
        d.log := d.log + [HookCalled(d.envelope, cause, maxAttempts)];
      }
    }

    /** Count, never propagate, a failure to settle. */
    method Count(ok: bool)
      modifies this
      ensures settleFailures == old(settleFailures) + (if ok then 0 else 1)
    {
      if !ok {
        settleFailures := settleFailures + 1;
      }
    }

    /** Every delivery is settled by exactly one call, the planned one, and that call comes last;
        a registered hook is awaited exactly when the plan is a dead letter, before the settle and
        with the envelope as it was delivered; a refused settle is counted once and otherwise
        ignored. */
    method Run(d: Delivery, h: Option<Handler>, draw: real, accepted: bool)
      requires 0.0 <= draw <= 1.0
      modifies this, d
      ensures var plan := Plan(d.envelope, h, draw);
              d.log == old(d.log)
                       + (if hooked && plan.DeadLetter?
                          then [HookCalled(d.envelope, plan.cause,
                                           if h.None? then None else Some(h.value.policy.maxAttempts))] else [])
                       + [Settled(plan)]
      ensures settleFailures == old(settleFailures) + (if accepted then 0 else 1)
    {
      var ok;
      if h.None? {
        NotifyDead(d, NoHandler, None);
        ok := d.SettleWith(DeadLetter(NoHandler), accepted);
      } else {
        var handler := h.value;
        match handler.outcome
        case Success =>
          ok := d.SettleWith(Ack, accepted);
        case Decode =>
          NotifyDead(d, DecodeError, Some(handler.policy.maxAttempts));
          ok := d.SettleWith(DeadLetter(DecodeError), accepted);
        case Fatal =>
          NotifyDead(d, FatalError, Some(handler.policy.maxAttempts));
          ok := d.SettleWith(DeadLetter(FatalError), accepted);
        case Deferred(delay) =>
          ok := d.SettleWith(DeferUntil(d.envelope.Deferred(handler.deferPriority), delay), accepted);
        case Retryable =>
          match Decide(handler.policy, d.envelope.attempt, draw)
          case Retry(delay) =>
            ok := d.SettleWith(RetryLater(d.envelope.NextAttempt(), delay), accepted);
          case GiveUp =>
            NotifyDead(d, Exhausted, Some(handler.policy.maxAttempts));
            ok := d.SettleWith(DeadLetter(Exhausted), accepted);
      }
      Count(ok);
    }
  }
}
