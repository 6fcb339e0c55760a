/** The two nested retry loops (crates/rabbitmq/src/connection.rs:256-320, backend.rs:516-579)
    under the built-in policy (crates/rabbitmq/src/reconnect.rs:239-255). What the network and
    `mark_closing` do is a script the loops read from; a script that runs out is a call that is
    still trying. */
module Reconnect {
  import opened Envelopes
  import opened Retry

  /** How long to wait before the next attempt after this many failures, or to stop. */
  type Policy = nat -> Option<nat>

  /** `BackoffPolicy::next_delay`. */
  function NextDelay(maxAttempts: Option<u32>, backoff: Backoff, failures: u32, draw: real): Option<nat>
    requires 0.0 <= draw <= 1.0
  {
    if maxAttempts.Some? && failures >= maxAttempts.value then None
    else if failures == 0 then Some(0)
    else Some(ComputeDelay(backoff, failures, draw))
  }

  /** The policy gives up at `n` failures and not before. */
  ghost predicate Limited(policy: Policy, n: nat) {
    forall f: nat :: policy(f).None? <==> f >= n
  }

  /** The built-in policy with `max_attempts = Some(n)` is limited to n, and tries at once first. */
  lemma BackoffPolicyIsLimited(n: u32, backoff: Backoff, draw: real)
    requires 0.0 <= draw <= 1.0
    ensures forall f: u32 :: NextDelay(Some(n), backoff, f, draw).None? <==> f >= n
    ensures n > 0 ==> NextDelay(Some(n), backoff, 0, draw) == Some(0)
    ensures forall f: u32 :: NextDelay(None, backoff, f, draw).Some?
    ensures forall f: u32 | 0 < f < n :: NextDelay(Some(n), backoff, f, draw) == Some(ComputeDelay(backoff, f, draw))
    ensures forall f: u32 | 0 < f :: NextDelay(None, backoff, f, draw) == Some(ComputeDelay(backoff, f, draw))
  {
  }

  /** The built-in policy as the loops see it; `draws` is the jitter drawn for each failure count. A
      failure count is a u32 and stops counting at its end. */
  function Builtin(maxAttempts: Option<u32>, backoff: Backoff, draws: nat -> real): Policy
    requires forall f: nat :: 0.0 <= draws(f) <= 1.0
  {
    (f: nat) => NextDelay(maxAttempts, backoff, Min(f, U32_MAX), draws(f))
  }

  /** With `max_attempts = Some(n)` it is limited to n, whatever the backoff and the jitter. */
  lemma BuiltinIsLimited(n: u32, backoff: Backoff, draws: nat -> real)
    requires forall f: nat :: 0.0 <= draws(f) <= 1.0
    ensures Limited(Builtin(Some(n), backoff, draws), n)
  {
    forall f: nat ensures Builtin(Some(n), backoff, draws)(f).None? <==> f >= n {
      BackoffPolicyIsLimited(n, backoff, draws(f));
    }
  }

  /** ... and waits as its backoff says: not at all before the first attempt, then the backoff of as many
      failures as there have been. */
  lemma BuiltinWaitsItsBackoff(maxAttempts: Option<u32>, backoff: Backoff, draws: nat -> real, f: u32)
    requires forall g: nat :: 0.0 <= draws(g) <= 1.0
    requires maxAttempts.Some? ==> f < maxAttempts.value
    ensures Builtin(maxAttempts, backoff, draws)(f) == Some(if f == 0 then 0 else ComputeDelay(backoff, f, draws(f)))
  {
  }

  // ----- ensure_connected --------------------------------------------------------------------

  /** One turn of the dialling loop as the outside decides it. */
  datatype Round = Round(closedAsleep: bool, closedBefore: bool, dialOk: bool, closedAfter: bool)
  {
    predicate Undisturbed() { !closedAsleep && !closedBefore && !closedAfter }
  }

  datatype Dialled = Connected | Exhausted(attempts: nat) | Closed | StillTrying

  /** Result and number of dials of a call that has already failed `failures` times. */
  function Dial(policy: Policy, rounds: seq<Round>, failures: nat): (Dialled, nat)
    decreases |rounds|
  {
    match policy(failures)
    case None => (Exhausted(failures), 0)
    case Some(delay) =>
      if rounds == [] then (StillTrying, 0)
      else if (delay != 0 && rounds[0].closedAsleep) || rounds[0].closedBefore then (Closed, 0)
      else if rounds[0].dialOk then (if rounds[0].closedAfter then Closed else Connected, 1)
      else
        var (result, dials) := Dial(policy, rounds[1..], failures + 1);
        (result, dials + 1)
  }

  /** The loop of `ensure_connected`. */
  method EnsureConnected(policy: Policy, rounds: seq<Round>) returns (result: Dialled, dials: nat)
    ensures (result, dials) == Dial(policy, rounds, 0)
  {
    var failures := 0;
    dials := 0;
    var k := 0;
    while true
      invariant 0 <= k <= |rounds| && failures == dials == k
      invariant Dial(policy, rounds, 0) ==
                (Dial(policy, rounds[k..], failures).0, Dial(policy, rounds[k..], failures).1 + dials)
      decreases |rounds| - k
    {
      match policy(failures)
      case None => return Exhausted(failures), dials;
      case Some(delay) =>
        if k == |rounds| { return StillTrying, dials; }
        var round := rounds[k];
        if delay != 0 && round.closedAsleep { return Closed, dials; }
        if round.closedBefore { return Closed, dials; }
        dials := dials + 1;
        if round.dialOk {
          return if round.closedAfter then Closed else Connected, dials;
        }
        failures := failures + 1;
        assert rounds[k..][1..] == rounds[k + 1..];
        k := k + 1;
    }
  }

  /** One call dials at most n - failures more times, and a call that has been given that many
      answers has ended. */
  lemma {:induction false} DialsAreBounded(policy: Policy, n: nat, rounds: seq<Round>, failures: nat)
    requires Limited(policy, n) && failures <= n
    ensures Dial(policy, rounds, failures).1 <= n - failures
    ensures |rounds| >= n - failures ==> Dial(policy, rounds, failures).0 != StillTrying
    decreases |rounds|
  {
    if policy(failures).Some? && rounds != [] {
      DialsAreBounded(policy, n, rounds[1..], failures + 1);
    }
  }

  /** Left undisturbed by a close, a call connects exactly when one of its first n dials succeeds,
      on the first that does; otherwise it gives up after exactly n. */
  lemma {:induction false} ConnectsOnTheFirstSuccess(policy: Policy, n: nat, rounds: seq<Round>, failures: nat, k: nat)
    requires Limited(policy, n) && failures <= n && k <= |rounds|
    requires forall i | 0 <= i < |rounds| :: rounds[i].Undisturbed()
    requires forall i | 0 <= i < k :: !rounds[i].dialOk
    ensures k < |rounds| && rounds[k].dialOk && failures + k < n ==>
              Dial(policy, rounds, failures) == (Connected, k + 1)
    ensures failures + k >= n ==> Dial(policy, rounds, failures) == (Exhausted(n), n - failures)
    decreases |rounds|
  {
    if policy(failures).Some? && k > 0 {
      ConnectsOnTheFirstSuccess(policy, n, rounds[1..], failures + 1, k - 1);
    }
  }

  /** The round goes by without deciding anything: nobody closes, and the dial fails. */
  predicate PassesBy(policy: Policy, r: Round, failures: nat) {
    && policy(failures).Some? && !(policy(failures).value != 0 && r.closedAsleep)
    && !r.closedBefore && !r.dialOk
  }

  /** What a call answers, whatever closes and fails when: the first round that does not pass by
      decides. A close during a real wait or before the dial ends it without dialling; a close after a
      successful dial turns that into the same error; a connection is handed out only when nobody
      closed. And a close during a wait of zero is not looked for. */
  lemma {:induction false} TheFirstDecidingRoundAnswers(policy: Policy, rounds: seq<Round>, failures: nat, k: nat)
    requires k < |rounds| && forall i: nat | i < k :: PassesBy(policy, rounds[i], failures + i)
    requires !PassesBy(policy, rounds[k], failures + k)
    ensures var r := rounds[k];
            var p := policy(failures + k);
            Dial(policy, rounds, failures) ==
              if p == None then (Exhausted(failures + k), k)
              else if (p != Some(0) && r.closedAsleep) || r.closedBefore then (Closed, k)
              else if r.closedAfter then (Closed, k + 1)
              else (Connected, k + 1)
    decreases k
  {
    if k > 0 {
      assert PassesBy(policy, rounds[0], failures + 0);
      forall i: nat | i < k - 1 ensures PassesBy(policy, rounds[1..][i], failures + 1 + i) {
        assert PassesBy(policy, rounds[i + 1], failures + (i + 1));
      }
      TheFirstDecidingRoundAnswers(policy, rounds[1..], failures + 1, k - 1);
    }
  }

  // ----- recover -----------------------------------------------------------------------------

  /** One turn of the resubscribing loop: the connection is live or has to be dialled, the
      subscription succeeds or not, and a close may end the pause after a failure. */
  datatype Trial = Trial(live: bool, rounds: seq<Round>, subscribeOk: bool, closedAsleep: bool)

  datatype Recovered = Resubscribed | Stop | NoConnection(why: Dialled) | GaveUp | ClosedAsleep | Pending

  datatype Tally = Tally(result: Recovered, dials: nat, subscribes: nat)

  function Recovery(policy: Policy, trials: seq<Trial>, failures: nat): Tally
    decreases |trials|
  {
    if trials == [] then Tally(Pending, 0, 0)
    else
      var t := trials[0];
      var (dialled, dials) := if t.live then (Connected, 0) else Dial(policy, t.rounds, 0);
      if dialled != Connected then Tally(NoConnection(dialled), dials, 0)
      else if t.subscribeOk then Tally(Resubscribed, dials, 1)
      else if policy(failures + 1).None? then Tally(GaveUp, dials, 1)
      else if t.closedAsleep then Tally(ClosedAsleep, dials, 1)
      else
        var rest := Recovery(policy, trials[1..], failures + 1);
        Tally(rest.result, rest.dials + dials, rest.subscribes + 1)
  }

  /** `recover`. `policy` is absent when reconnection is switched off. */
  method Recover(closing: bool, policy: Option<Policy>, trials: seq<Trial>) returns (tally: Tally)
    ensures closing || policy.None? ==> tally == Tally(Stop, 0, 0)
    ensures !closing && policy.Some? ==> tally == Recovery(policy.value, trials, 0)
  {
    if closing || policy.None? {
      return Tally(Stop, 0, 0);
    }
    var p := policy.value;
    var failures, dials, subscribes, k := 0, 0, 0, 0;
    while k < |trials|
      invariant 0 <= k <= |trials| && failures == subscribes == k
      invariant var rest := Recovery(p, trials[k..], failures);
                Recovery(p, trials, 0) == Tally(rest.result, rest.dials + dials, rest.subscribes + subscribes)
    {
      var t := trials[k];
      if !t.live {
        var dialled, more := EnsureConnected(p, t.rounds);
        dials := dials + more;
        if dialled != Connected {
          return Tally(NoConnection(dialled), dials, subscribes);
        }
      }
      subscribes := subscribes + 1;
      if t.subscribeOk {
        return Tally(Resubscribed, dials, subscribes);
      }
      failures := failures + 1;
      if p(failures).None? {
        return Tally(GaveUp, dials, subscribes);
      }
      if t.closedAsleep {
        return Tally(ClosedAsleep, dials, subscribes);
      }
      assert trials[k..][1..] == trials[k + 1..];
      k := k + 1;
    }
    tally := Tally(Pending, dials, subscribes);
  }

  /** The connection a turn of the resubscribing loop works with, if it gets one. */
  predicate Connects(policy: Policy, t: Trial) {
    t.live || Dial(policy, t.rounds, 0).0 == Connected
  }

  /** The turn decides nothing: connected, refused, and allowed to wait and try again undisturbed. */
  predicate TriesAgain(policy: Policy, t: Trial, failures: nat) {
    Connects(policy, t) && !t.subscribeOk && policy(failures + 1).Some? && !t.closedAsleep
  }

  /** What a recovery answers: the first turn that does not just try again decides. No connection ends
      it with the dialling loop's error and no further subscription; a subscription that works ends it
      as resubscribed; one that fails ends it where the policy declines or a close cuts the wait short. */
  lemma {:induction false} TheFirstDecidingTrialAnswers(policy: Policy, trials: seq<Trial>, failures: nat, k: nat)
    requires k < |trials| && forall i: nat | i < k :: TriesAgain(policy, trials[i], failures + i)
    requires !TriesAgain(policy, trials[k], failures + k)
    ensures var t := trials[k];
            var answer := Recovery(policy, trials, failures);
            && answer.subscribes == (if Connects(policy, t) then k + 1 else k)
            && answer.result ==
                 if !Connects(policy, t) then NoConnection(Dial(policy, t.rounds, 0).0)
                 else if t.subscribeOk then Resubscribed
                 else if policy(failures + k + 1) == None then GaveUp
                 else ClosedAsleep
    decreases k
  {
    if k > 0 {
      assert TriesAgain(policy, trials[0], failures + 0);
      forall i: nat | i < k - 1 ensures TriesAgain(policy, trials[1..][i], failures + 1 + i) {
        assert TriesAgain(policy, trials[i + 1], failures + (i + 1));
      }
      TheFirstDecidingTrialAnswers(policy, trials[1..], failures + 1, k - 1);
    }
  }

  lemma {:induction false} RecoveryIsBounded(policy: Policy, n: nat, trials: seq<Trial>, failures: nat)
    requires Limited(policy, n) && failures < Max(1, n)
    ensures var t := Recovery(policy, trials, failures);
            && t.subscribes <= Max(1, n) - failures
            && t.dials <= n * (Max(1, n) - failures)
    ensures |trials| >= Max(1, n) - failures && (forall i | 0 <= i < |trials| :: |trials[i].rounds| >= n) ==>
              var t := Recovery(policy, trials, failures);
              t.result != Pending && t.result != NoConnection(StillTrying)
    decreases |trials|
  {
    if trials != [] {
      var t := trials[0];
      var left := Max(1, n) - failures;
      DialsAreBounded(policy, n, t.rounds, 0);
      assert n <= n * left;
      if policy(failures + 1).Some? {
        RecoveryIsBounded(policy, n, trials[1..], failures + 1);
        assert n * left == n + n * (left - 1);
        assert forall i | 0 <= i < |trials[1..]| :: trials[1..][i] == trials[i + 1];
      }
    }
  }

  /** Reconnection ends. With at most n attempts allowed, one recovery dials at most n times
      max(1, n) times and subscribes at most max(1, n) times, whatever the network does, and has
      ended once each loop has been given its share of answers. */
  lemma RecoverTerminates(policy: Policy, n: nat, trials: seq<Trial>)
    requires Limited(policy, n)
    ensures var t := Recovery(policy, trials, 0);
            && t.dials <= n * Max(1, n)
            && t.subscribes <= Max(1, n)
            && (|trials| >= Max(1, n) && (forall i | 0 <= i < |trials| :: |trials[i].rounds| >= n) ==>
                  t.result != Pending && t.result != NoConnection(StillTrying))
  {
    RecoveryIsBounded(policy, n, trials, 0);
  }

  /** In particular under the built-in policy. */
  lemma BuiltinRecoveryTerminates(n: u32, backoff: Backoff, draws: nat -> real, trials: seq<Trial>)
    requires forall f: nat :: 0.0 <= draws(f) <= 1.0
    ensures var t := Recovery(Builtin(Some(n), backoff, draws), trials, 0);
            && t.dials <= n * Max(1, n)
            && t.subscribes <= Max(1, n)
            && (|trials| >= Max(1, n) && (forall i | 0 <= i < |trials| :: |trials[i].rounds| >= n) ==>
                  t.result != Pending && t.result != NoConnection(StillTrying))
  {
    BuiltinIsLimited(n, backoff, draws);
    RecoverTerminates(Builtin(Some(n), backoff, draws), n, trials);
  }

  function Copies(trial: Trial, k: nat): (s: seq<Trial>)
    ensures |s| == k
  {
    if k == 0 then [] else [trial] + Copies(trial, k - 1)
  }

  lemma OneMoreRow(n: nat, k: nat)
    ensures n * (k + 1) == n * k + n
  {
  }

  /** The bound is reached: every dial but the last of each call fails, and every subscription. */
  lemma {:induction false} BoundIsReached(policy: Policy, n: nat, trial: Trial, failures: nat)
    requires Limited(policy, n) && failures < n
    requires !trial.live && !trial.subscribeOk && !trial.closedAsleep && |trial.rounds| == n
    requires forall i | 0 <= i < n :: trial.rounds[i] == Round(false, false, i == n - 1, false)
    ensures Recovery(policy, Copies(trial, n - failures), failures)
            == Tally(GaveUp, n * (n - failures), n - failures)
    decreases n - failures
  {
    var trials := Copies(trial, n - failures);
    assert trials[0] == trial && trials[1..] == Copies(trial, n - failures - 1);
    ConnectsOnTheFirstSuccess(policy, n, trial.rounds, 0, n - 1);
    OneMoreRow(n, n - failures - 1);
    if failures + 1 < n {
      BoundIsReached(policy, n, trial, failures + 1);
    } else {
      assert n * (n - failures) == n;
    }
  }
}
