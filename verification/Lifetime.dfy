/** The whole life of one job: every delivery of it, with the outcome and the policy of each run
    (crates/core/src/worker.rs:594-631, envelope.rs:117-140, retry.rs:174-182). */
module Lifetime {
  import opened Envelopes
  import opened Retry
  import opened Dispatch

  /** One run of the job's handler. `draw` is the jitter drawn for it. */
  datatype Attempt = Attempt(handler: Handler, draw: real)

  datatype Life = Alive(env: Envelope) | Succeeded(env: Envelope) | Dead(env: Envelope, cause: Cause)

  ghost predicate WellFormed(runs: seq<Attempt>) {
    forall k | 0 <= k < |runs| :: 0.0 <= runs[k].draw <= 1.0
  }

  function Settled(env: Envelope, a: Attempt): Life
    requires 0.0 <= a.draw <= 1.0
  {
    match Plan(env, Some(a.handler), a.draw)
    case Ack => Succeeded(env)
    case RetryLater(next, _) => Alive(next)
    case DeferUntil(next, _) => Alive(next)
    case DeadLetter(cause) => Dead(env, cause)
  }

  /** Where the job stands after `runs`; a job that is over stays over. */
  ghost function Live(env: Envelope, runs: seq<Attempt>): Life
    requires WellFormed(runs)
  {
    if runs == [] then Alive(env)
    else
      var n := |runs| - 1;
      var before := Live(env, runs[..n]);
      if before.Alive? then Settled(before.env, runs[n]) else before
  }

  function Retryables(runs: seq<Attempt>): nat {
    if runs == [] then 0
    else Retryables(runs[..|runs| - 1]) + (if runs[|runs| - 1].handler.outcome.Retryable? then 1 else 0)
  }

  function Deferrals(runs: seq<Attempt>): nat {
    if runs == [] then 0
    else Deferrals(runs[..|runs| - 1]) + (if runs[|runs| - 1].handler.outcome.Deferred? then 1 else 0)
  }

  /** The k-th run left the job in the queue, by a rule that never looks at envelopes:
      it deferred, or it failed retryably while the policy of that run still had attempts left,
      counting one attempt per earlier retryable failure. */
  ghost predicate Continues(env: Envelope, runs: seq<Attempt>, k: nat)
    requires k < |runs|
  {
    var h := runs[k].handler;
    h.outcome.Deferred?
    || (h.outcome.Retryable? && env.attempt + Retryables(runs[..k]) < h.policy.maxAttempts)
  }

  lemma PrefixOfPrefix(runs: seq<Attempt>, k: nat, n: nat)
    requires k <= n <= |runs|
    ensures runs[..n][..k] == runs[..k]
  {
  }

  /** Alive after `runs` exactly when every run continued; and then the envelope's counters are the
      counts of what happened, however failures and deferrals (and policies) were interleaved. */
  lemma {:induction false} AliveExactlyWhen(env: Envelope, runs: seq<Attempt>)
    requires WellFormed(runs)
    ensures Live(env, runs).Alive? <==> forall k: nat | k < |runs| :: Continues(env, runs, k)
    ensures SameJob(Live(env, runs).env, env)
    ensures Live(env, runs).Alive? ==>
              && Live(env, runs).env.attempt == env.attempt + Retryables(runs)
              && Live(env, runs).env.deferrals == env.deferrals + Deferrals(runs)
    ensures runs != [] && Live(env, runs).Alive? ==>
              var last := runs[|runs| - 1].handler;
              Live(env, runs).env.priority == if last.outcome.Retryable? then 0 else last.deferPriority
  {
    if runs != [] {
      var n := |runs| - 1;
      var prefix := runs[..n];
      AliveExactlyWhen(env, prefix);
      assert forall k: nat | k < n :: Continues(env, prefix, k) == Continues(env, runs, k) by {
        forall k: nat | k < n ensures Continues(env, prefix, k) == Continues(env, runs, k) {
          PrefixOfPrefix(runs, k, n);
        }
      }
      if Live(env, prefix).Alive? {
        PlanKeepsTheJob(Live(env, prefix).env, Some(runs[n].handler), runs[n].draw);
        assert Live(env, runs).Alive? <==> Continues(env, runs, n);
      }
    }
  }

  ghost predicate FixedPolicy(runs: seq<Attempt>, policy: RetryPolicy) {
    forall k | 0 <= k < |runs| :: runs[k].handler.policy == policy
  }

  ghost predicate OnlyFailsOrDefers(runs: seq<Attempt>) {
    forall k | 0 <= k < |runs| :: runs[k].handler.outcome.Retryable? || runs[k].handler.outcome.Deferred?
  }

  lemma {:induction false} RetryablesMonotone(runs: seq<Attempt>, k: nat)
    requires k <= |runs|
    ensures Retryables(runs[..k]) <= Retryables(runs)
    decreases |runs|
  {
    if k < |runs| {
      PrefixOfPrefix(runs, k, |runs| - 1);
      RetryablesMonotone(runs[..|runs| - 1], k);
    } else {
      assert runs[..k] == runs;
    }
  }

  /** The lifetime law. A fresh job under one policy survives any mix of retryable failures and
      deferrals that holds fewer than max(1, max_attempts) failures. */
  lemma SurvivesFewerFailures(env: Envelope, runs: seq<Attempt>, policy: RetryPolicy)
    requires env.attempt == 1 && WellFormed(runs) && FixedPolicy(runs, policy) && OnlyFailsOrDefers(runs)
    requires Retryables(runs) < Max(1, policy.maxAttempts)
    ensures Live(env, runs).Alive? && Live(env, runs).env.attempt == 1 + Retryables(runs)
  {
    forall k: nat | k < |runs| ensures Continues(env, runs, k) {
      RetryablesMonotone(runs, k + 1);
      assert runs[..k + 1][..k] == runs[..k];
      assert runs[..k + 1][k] == runs[k];
    }
    AliveExactlyWhen(env, runs);
  }

  /** ... and is dead-lettered as exhausted exactly on the failure that makes it
      max(1, max_attempts), with that attempt number on the dead letter. */
  lemma DiesOnTheLastFailure(env: Envelope, runs: seq<Attempt>, last: Attempt, policy: RetryPolicy)
    requires env.attempt == 1 && WellFormed(runs + [last]) && FixedPolicy(runs + [last], policy)
    requires OnlyFailsOrDefers(runs) && last.handler.outcome.Retryable?
    requires Retryables(runs) + 1 == Max(1, policy.maxAttempts)
    ensures Live(env, runs + [last]).Dead?
    ensures Live(env, runs + [last]).cause == Exhausted
    ensures Live(env, runs + [last]).env.attempt == Max(1, policy.maxAttempts)
    ensures SameJob(Live(env, runs + [last]).env, env)
  {
    var all := runs + [last];
    assert all[..|runs|] == runs && all[|runs|] == last;
    assert WellFormed(runs) by {
      forall k | 0 <= k < |runs| ensures 0.0 <= runs[k].draw <= 1.0 { assert all[k] == runs[k]; }
    }
    assert FixedPolicy(runs, policy) by {
      forall k | 0 <= k < |runs| ensures runs[k].handler.policy == policy { assert all[k] == runs[k]; }
    }
    assert last.handler.policy == policy;
    SurvivesFewerFailures(env, runs, policy);
    AliveExactlyWhen(env, runs);
  }

  /** Once over, always over: no later delivery of a settled job changes how it ended. */
  lemma {:induction false} OverStaysOver(env: Envelope, runs: seq<Attempt>, k: nat)
    requires WellFormed(runs) && k <= |runs| && !Live(env, runs[..k]).Alive?
    ensures Live(env, runs) == Live(env, runs[..k])
    decreases |runs|
  {
    if k < |runs| {
      PrefixOfPrefix(runs, k, |runs| - 1);
      OverStaysOver(env, runs[..|runs| - 1], k);
    } else {
      assert runs[..k] == runs;
    }
  }

  /** How a living job ends on its next run: a success as one, and each failure that ends it under its
      own cause; the envelope it ends with is the one that was delivered. */
  lemma EndsAsItsLastRunSays(env: Envelope, runs: seq<Attempt>, last: Attempt)
    requires WellFormed(runs + [last]) && WellFormed(runs) && Live(env, runs).Alive?
    ensures var was := Live(env, runs).env;
            var h := last.handler;
            Live(env, runs + [last]) ==
              match h.outcome
              case Success => Succeeded(was)
              case Decode => Dead(was, DecodeError)
              case Fatal => Dead(was, FatalError)
              case Deferred(_) => Alive(was.(deferrals := was.deferrals + 1, priority := h.deferPriority))
              case Retryable =>
                if was.attempt >= h.policy.maxAttempts then Dead(was, Exhausted)
                else Alive(was.(attempt := was.attempt + 1, priority := 0))
  {
    var all := runs + [last];
    assert all[..|runs|] == runs && all[|runs|] == last;
  }
}
