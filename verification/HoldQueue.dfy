/** The broker queues a wait happens in (crates/rabbitmq/src/topology.rs:16-60, 286-312 and
    publisher.rs:444-492). A classic queue expires only the message at its head, and deletes
    itself, messages and all, `x-expires` after its last declaration. Time is in milliseconds. */
module HoldQueue {
  import opened Envelopes
  import opened Topology

  /** One held message: the `no`-th ever accepted here, published at `at` when the queue had last
      been declared at `declared`. */
  datatype Held = Held(no: nat, msg: nat, delay: nat, declared: nat, at: nat, due: nat)

  // ----- a queue with head-only expiry, whatever the due times -----------------------------

  /** How many messages leave when only the head is examined: the longest due prefix. */
  function Ready(waiting: seq<Held>, now: nat): (n: nat)
    ensures n <= |waiting|
  {
    if waiting == [] || waiting[0].due > now then 0 else 1 + Ready(waiting[1..], now)
  }

  lemma {:induction false} ReadyIsMaximal(waiting: seq<Held>, now: nat)
    ensures forall i | 0 <= i < Ready(waiting, now) :: waiting[i].due <= now
    ensures Ready(waiting, now) < |waiting| ==> waiting[Ready(waiting, now)].due > now
  {
    if waiting != [] && waiting[0].due <= now {
      ReadyIsMaximal(waiting[1..], now);
      forall i | 0 <= i < Ready(waiting, now) ensures waiting[i].due <= now {
        if i > 0 { assert waiting[i] == waiting[1..][i - 1]; }
      }
    }
  }

  /** The last message of a queue has left by `now` exactly when every message is due by `now`:
      a message waits for everything in front of it, however short its own wait is. */
  lemma LastLeavesWhenAllAreDue(waiting: seq<Held>, now: nat)
    requires waiting != []
    ensures Ready(waiting, now) == |waiting| <==> forall i | 0 <= i < |waiting| :: waiting[i].due <= now
  {
    ReadyIsMaximal(waiting, now);
  }

  /** One queue shared by different waits delays a message past its own due time exactly when
      something in front of it is due later: a one-second wait behind a five-minute one. */
  lemma SharedQueueIsLateExactlyWhen(front: seq<Held>, m: Held)
    ensures Ready(front + [m], m.due) == |front| + 1 <==> forall i | 0 <= i < |front| :: front[i].due <= m.due
  {
    var all := front + [m];
    LastLeavesWhenAllAreDue(all, m.due);
    if forall i | 0 <= i < |front| :: front[i].due <= m.due {
      forall i | 0 <= i < |all| ensures all[i].due <= m.due {
        if i < |front| { assert all[i] == front[i]; }
      }
    }
    if forall i | 0 <= i < |all| :: all[i].due <= m.due {
      forall i | 0 <= i < |front| ensures front[i].due <= m.due { assert all[i] == front[i]; }
    }
  }

  // ----- one hold queue ----------------------------------------------------------------------

  /** A hold queue for waits of `ttl` milliseconds. `published` is every message ever accepted,
      `released` what went back to the main queue, `leftAt` when. */
  datatype Queue = Queue(
    now: nat,
    alive: bool,
    declaredAt: nat,
    waiting: seq<Held>,
    released: seq<Held>,
    leftAt: seq<nat>,
    lost: seq<Held>,
    published: seq<Held>)

  datatype Event = Declare | Publish(msg: nat, delay: Duration) | Tick

  /** One millisecond passes. Where deletion and expiry fall on the same instant, deletion is
      taken to win: the broker promises no order. */
  function Advance(q: Queue, ttl: nat): Queue {
    var now := q.now + 1;
    if q.alive && now >= q.declaredAt + 2 * ttl then
      q.(now := now, alive := false, waiting := [], lost := q.lost + q.waiting)
    else
      var n := Ready(q.waiting, now);
      q.(now := now, waiting := q.waiting[n..],
         released := q.released + q.waiting[..n], leftAt := q.leftAt + seq(n, _ => now))
  }

  function Accept(q: Queue, msg: nat, delay: nat, ttl: nat): Held {
    Held(|q.published|, msg, delay, q.declaredAt, q.now, q.now + ttl)
  }

  /** A redeclare resets the expiry timer; a publish to a deleted queue is returned to the
      publisher and changes nothing here. */
  function Apply(q: Queue, e: Event, ttl: nat): Queue {
    match e
    case Declare => q.(alive := true, declaredAt := q.now)
    case Publish(msg, delay) =>
      if q.alive then
        var h := Accept(q, msg, delay, ttl);
        q.(waiting := q.waiting + [h], published := q.published + [h])
      else q
    case Tick => Advance(q, ttl)
  }

  /** What the client may do: hold here only delays that round to this TTL. */
  predicate Enabled(q: Queue, e: Event, ttl: nat, granularity: Duration) {
    e.Publish? ==> DeferredTtlMs(e.delay, granularity) == Some(ttl)
  }

  /** The publish landed less than one TTL after the declaration that preceded it. */
  predicate Prompt(h: Held, ttl: nat) {
    h.at < h.declared + ttl
  }

  ghost predicate Init(q: Queue) {
    && !q.alive && q.waiting == [] && q.released == [] && q.leftAt == [] && q.lost == [] && q.published == []
    && q.declaredAt <= q.now
  }

  // ----- what every run keeps, late publishes included -----------------------------------------

  /** Sorted by due time, and strictly by publish order. */
  ghost predicate Sorted(waiting: seq<Held>) {
    forall i, j | 0 <= i < j < |waiting| :: waiting[i].due <= waiting[j].due && waiting[i].no < waiting[j].no
  }

  /** A message is due one TTL after its publish, and the TTL covers the delay asked for. */
  ghost predicate Timed(h: Held, ttl: nat) {
    h.due == h.at + ttl && h.delay <= ttl * NANOS_PER_MS
  }

  ghost predicate WaitingOk(q: Queue, ttl: nat) {
    && Sorted(q.waiting)
    && (!q.alive ==> q.waiting == [])
    && forall i | 0 <= i < |q.waiting| ::
         && Timed(q.waiting[i], ttl) && q.waiting[i].no < |q.published|
         && q.waiting[i].declared <= q.declaredAt && q.waiting[i].at <= q.now < q.waiting[i].due
  }

  ghost predicate ReleasedOk(q: Queue, ttl: nat) {
    && |q.leftAt| == |q.released|
    && (forall i | 0 <= i < |q.released| ::
          Timed(q.released[i], ttl) && q.leftAt[i] == q.released[i].due <= q.now)
    && Sorted(q.released)
    && (forall i, j | 0 <= i < |q.released| && 0 <= j < |q.waiting| :: q.released[i].no < q.waiting[j].no)
  }

  ghost predicate LostOk(q: Queue, ttl: nat) {
    forall i | 0 <= i < |q.lost| :: !Prompt(q.lost[i], ttl)
  }

  ghost predicate Conserved(q: Queue) {
    && multiset(q.published) == multiset(q.released) + multiset(q.waiting) + multiset(q.lost)
    && forall n | 0 <= n < |q.published| :: q.published[n].no == n
  }

  ghost predicate Inv(q: Queue, ttl: nat) {
    && WaitingOk(q, ttl) && ReleasedOk(q, ttl) && LostOk(q, ttl) && Conserved(q)
    && q.declaredAt <= q.now && (q.alive ==> q.now < q.declaredAt + 2 * ttl)
  }

  lemma InPublished(q: Queue, h: Held)
    requires Conserved(q) && (h in q.released || h in q.waiting || h in q.lost)
    ensures h in q.published && h.no < |q.published|
  {
    assert h in multiset(q.released) + multiset(q.waiting) + multiset(q.lost);
    assert multiset(q.published)[h] > 0;
    assert h in q.published;
  }

  /** Cutting the due prefix off a sorted queue leaves what is not yet due. */
  lemma CutLeavesTheRest(waiting: seq<Held>, now: nat)
    requires Sorted(waiting)
    ensures forall i | Ready(waiting, now) <= i < |waiting| :: now < waiting[i].due
  {
    var n := Ready(waiting, now);
    ReadyIsMaximal(waiting, now);
    forall i | n <= i < |waiting| ensures now < waiting[i].due {
      if i > n { assert waiting[n].due <= waiting[i].due; }
    }
  }

  /** One tick on which the first n messages, all due, leave. */
  ghost predicate Expires(q: Queue, q': Queue, n: nat) {
    && n <= |q.waiting|
    && (forall i | 0 <= i < n :: q.waiting[i].due <= q.now + 1)
    && (forall i | n <= i < |q.waiting| :: q.now + 1 < q.waiting[i].due)
    && q' == q.(now := q.now + 1, waiting := q.waiting[n..],
                released := q.released + q.waiting[..n], leftAt := q.leftAt + seq(n, _ => q.now + 1))
  }

  lemma ExpiryWaiting(q: Queue, q': Queue, ttl: nat, n: nat)
    requires WaitingOk(q, ttl) && Expires(q, q', n)
    ensures WaitingOk(q', ttl)
  {
  }

  lemma ExpiryReleased(q: Queue, q': Queue, ttl: nat, n: nat)
    requires WaitingOk(q, ttl) && ReleasedOk(q, ttl) && Expires(q, q', n)
    ensures ReleasedOk(q', ttl)
  {
    forall i, j | 0 <= i < j < |q'.released|
      ensures q'.released[i].due <= q'.released[j].due && q'.released[i].no < q'.released[j].no
    {
      if i < |q.released| <= j {
        assert q.released[i].due <= q.now < q.waiting[j - |q.released|].due;
      }
    }
  }

  lemma ExpiryConserves(q: Queue, q': Queue, n: nat)
    requires Conserved(q) && Expires(q, q', n)
    ensures Conserved(q')
  {
    assert q.waiting == q.waiting[..n] + q.waiting[n..];
  }

  /** The leaving messages leave at their due time, in publish order. */
  lemma ExpiryKeeps(q: Queue, q': Queue, ttl: nat, n: nat)
    requires Inv(q, ttl) && Expires(q, q', n) && (q.alive ==> q'.now < q.declaredAt + 2 * ttl)
    ensures Inv(q', ttl)
  {
    ExpiryWaiting(q, q', ttl, n);
    ExpiryReleased(q, q', ttl, n);
    ExpiryConserves(q, q', n);
    hide WaitingOk, ReleasedOk, Conserved;
  }

  /** Deletion takes only messages published one TTL or more after the declaration before them. */
  lemma DeletionKeeps(q: Queue, ttl: nat)
    requires Inv(q, ttl) && q.alive && q.now + 1 >= q.declaredAt + 2 * ttl
    ensures Inv(Advance(q, ttl), ttl)
  {
    var q' := Advance(q, ttl);
    forall i | 0 <= i < |q'.lost| ensures !Prompt(q'.lost[i], ttl) {
      if i >= |q.lost| {
        assert Timed(q.waiting[i - |q.lost|], ttl);
      }
    }
  }

  lemma AdvanceKeeps(q: Queue, ttl: nat)
    requires Inv(q, ttl)
    ensures Inv(Advance(q, ttl), ttl)
  {
    assert Sorted(q.waiting);
    hide Inv, Sorted;
    if q.alive && q.now + 1 >= q.declaredAt + 2 * ttl {
      DeletionKeeps(q, ttl);
    } else {
      CutLeavesTheRest(q.waiting, q.now + 1);
      ReadyIsMaximal(q.waiting, q.now + 1);
      ExpiryKeeps(q, Advance(q, ttl), ttl, Ready(q.waiting, q.now + 1));
    }
  }

  /** A TTL that is ever asked for is positive and covers the delay. */
  lemma TtlCovers(delay: Duration, granularity: Duration, ttl: nat)
    requires DeferredTtlMs(delay, granularity) == Some(ttl)
    ensures ttl >= 1 && delay <= ttl * NANOS_PER_MS
  {
    TtlIsLeastCover(delay, granularity);
    var k: nat :| k >= 1 && ttl == k * Step(granularity);
    assert k * Step(granularity) >= 1;
  }

  lemma PublishKeeps(q: Queue, msg: nat, delay: Duration, ttl: nat)
    requires Inv(q, ttl) && ttl >= 1 && delay <= ttl * NANOS_PER_MS
    ensures Inv(Apply(q, Publish(msg, delay), ttl), ttl)
  {
    var q' := Apply(q, Publish(msg, delay), ttl);
    if q.alive {
      assert Timed(q'.waiting[|q.waiting|], ttl);
      forall i | 0 <= i < |q.released| ensures q.released[i].no < |q.published| {
        InPublished(q, q.released[i]);
      }
    }
  }

  lemma StepKeeps(q: Queue, e: Event, ttl: nat, granularity: Duration)
    requires Inv(q, ttl) && ttl >= 1 && Enabled(q, e, ttl, granularity)
    ensures Inv(Apply(q, e, ttl), ttl)
  {
    match e
    case Declare =>
    case Tick => AdvanceKeeps(q, ttl);
    case Publish(msg, delay) =>
      TtlCovers(delay, granularity, ttl);
      PublishKeeps(q, msg, delay, ttl);
  }

  // ----- whole runs --------------------------------------------------------------------------

  ghost predicate Run(states: seq<Queue>, events: seq<Event>, ttl: nat, granularity: Duration) {
    && ttl >= 1
    && |states| == |events| + 1
    && Init(states[0])
    && forall i | 0 <= i < |events| ::
         Enabled(states[i], events[i], ttl, granularity) && states[i + 1] == Apply(states[i], events[i], ttl)
  }

  lemma {:induction false} RunKeeps(states: seq<Queue>, events: seq<Event>, ttl: nat, granularity: Duration, i: nat)
    requires Run(states, events, ttl, granularity) && i < |states|
    ensures Inv(states[i], ttl)
  {
    if i > 0 {
      RunKeeps(states, events, ttl, granularity, i - 1);
      hide Inv, Apply;
      StepKeeps(states[i - 1], events[i - 1], ttl, granularity);
    }
  }

  /** Independent timers: nothing due is still waiting, whatever left did so exactly one TTL after
      its own publish and never before the delay asked for, in publish order, and every accepted
      message is waiting, has left or was lost, once. */
  ghost predicate OnTime(q: Queue, ttl: nat) {
    && (forall i | 0 <= i < |q.waiting| :: q.now < q.waiting[i].due)
    && |q.leftAt| == |q.released|
    && (forall i | 0 <= i < |q.released| ::
          && q.leftAt[i] == q.released[i].at + ttl
          && (q.leftAt[i] - q.released[i].at) * NANOS_PER_MS >= q.released[i].delay)
    && (forall i, j | 0 <= i < j < |q.released| :: q.released[i].no < q.released[j].no)
    && Conserved(q)
  }

  /** Per-delay hold queues behave like independent timers, in every run, whatever else is held and
      however late other publishes are; and a message published less than one TTL after the
      declaration before it is never lost: once it is due it has left. */
  lemma HoldQueuesAreTimers(states: seq<Queue>, events: seq<Event>, ttl: nat, granularity: Duration, i: nat)
    requires Run(states, events, ttl, granularity) && i < |states|
    ensures OnTime(states[i], ttl)
    ensures forall h | h in states[i].published && Prompt(h, ttl) ::
              h !in states[i].lost && (h in states[i].released <==> states[i].now >= h.due)
  {
    RunKeeps(states, events, ttl, granularity, i);
    var q := states[i];
    forall k | 0 <= k < |q.released|
      ensures (q.leftAt[k] - q.released[k].at) * NANOS_PER_MS >= q.released[k].delay
    {
      assert Timed(q.released[k], ttl);
    }
    forall h | h in q.published && Prompt(h, ttl) ensures h !in q.lost && (h in q.released <==> q.now >= h.due) {
      WhereItIs(q, h, ttl);
    }
  }

  /** Every accepted message is in exactly the place its due time and the deletions say. */
  lemma WhereItIs(q: Queue, h: Held, ttl: nat)
    requires Inv(q, ttl) && h in q.published
    ensures h in q.released || h in q.waiting || h in q.lost
    ensures h in q.released ==> h.due <= q.now
    ensures h in q.waiting ==> q.now < h.due
    ensures h in q.lost ==> !Prompt(h, ttl)
  {
    assert h in multiset(q.published);
    assert h in multiset(q.released) || h in multiset(q.waiting) || h in multiset(q.lost);
  }

  /** The clock and the record of departures are true: a tick is one millisecond and nothing else passes
      time; and what a step releases is recorded as leaving at the instant after it. */
  lemma DeparturesAreTrue(states: seq<Queue>, events: seq<Event>, ttl: nat, granularity: Duration, i: nat)
    requires Run(states, events, ttl, granularity) && i < |events|
    ensures var q, q' := states[i], states[i + 1];
            && q'.now == q.now + (if events[i].Tick? then 1 else 0)
            && q.released <= q'.released && q.leftAt <= q'.leftAt && |q'.leftAt| == |q'.released|
            && (forall k | |q.leftAt| <= k < |q'.leftAt| :: q'.leftAt[k] == q'.now && q'.released[k] in q.waiting)
            && (events[i].Declare? ==> q'.alive && q'.declaredAt == q'.now)
            && (!events[i].Declare? ==> q'.declaredAt == q.declaredAt)
            && (events[i].Publish? && q.alive ==>
                  && |q'.published| == |q.published| + 1
                  && var h := q'.published[|q.published|];
                     h.msg == events[i].msg && h.delay == events[i].delay && h.at == q.now && h.declared == q.declaredAt)
            && (events[i].Publish? && !q.alive ==> q' == q)
  {
    RunKeeps(states, events, ttl, granularity, i);
  }

  // ----- exactly which messages are lost -------------------------------------------------------

  /** Some declaration after step i came before the clock reached `limit`. */
  ghost predicate Redeclared(states: seq<Queue>, events: seq<Event>, i: nat, j: nat, limit: nat)
    requires |states| == |events| + 1 && j < |states|
  {
    exists k :: i < k < j && events[k].Declare? && states[k].now < limit
  }

  /** What is known of message h, last declared at d before its publish, depending on whether the
      queue has been redeclared before `d + 2 * ttl`. */
  ghost predicate Fate(q: Queue, h: Held, d: nat, ttl: nat, redeclared: bool) {
    && h in q.published && h.at <= q.now && h.declared == d && h.due == h.at + ttl
    && (redeclared ==> h !in q.lost && (h in q.waiting ==> h.at <= q.declaredAt))
    && (!redeclared && q.now < d + 2 * ttl ==> q.alive && q.declaredAt == d && h !in q.lost)
    && (!redeclared && q.now >= d + 2 * ttl ==> (h in q.lost <==> !Prompt(h, ttl)))
  }

  lemma FateOfTick(q: Queue, h: Held, d: nat, ttl: nat, redeclared: bool)
    requires Inv(q, ttl) && ttl >= 1 && Fate(q, h, d, ttl, redeclared)
    ensures Fate(Advance(q, ttl), h, d, ttl, redeclared)
  {
    var q' := Advance(q, ttl);
    AdvanceKeeps(q, ttl);
    WhereItIs(q, h, ttl);
    WhereItIs(q', h, ttl);
  }

  lemma FateOfStep(q: Queue, e: Event, h: Held, d: nat, ttl: nat, granularity: Duration, redeclared: bool)
    requires Inv(q, ttl) && ttl >= 1 && Enabled(q, e, ttl, granularity) && Fate(q, h, d, ttl, redeclared)
    ensures Fate(Apply(q, e, ttl), h, d, ttl, redeclared || (e.Declare? && q.now < d + 2 * ttl))
  {
    match e
    case Tick => FateOfTick(q, h, d, ttl, redeclared);
    case Declare =>
    case Publish(msg, delay) =>
  }

  lemma FateOfPublish(q: Queue, msg: nat, delay: Duration, ttl: nat)
    requires Inv(q, ttl) && ttl >= 1 && q.alive
    ensures var q' := Apply(q, Publish(msg, delay), ttl);
            Fate(q', Accept(q, msg, delay, ttl), q.declaredAt, ttl, false)
  {
    var h := Accept(q, msg, delay, ttl);
    if h in q.lost {
      InPublished(q, h);
    }
  }

  lemma {:induction false} FateOfRun(states: seq<Queue>, events: seq<Event>, ttl: nat, granularity: Duration, i: nat, j: nat)
    requires Run(states, events, ttl, granularity) && i < j < |states|
    requires events[i].Publish? && states[i].alive
    ensures var q := states[i];
            Fate(states[j], Accept(q, events[i].msg, events[i].delay, ttl), q.declaredAt, ttl,
                 Redeclared(states, events, i, j, q.declaredAt + 2 * ttl))
    decreases j
  {
    var q := states[i];
    var limit := q.declaredAt + 2 * ttl;
    var h := Accept(q, events[i].msg, events[i].delay, ttl);
    if j == i + 1 {
      RunKeeps(states, events, ttl, granularity, i);
      FateOfPublish(q, events[i].msg, events[i].delay, ttl);
      assert !Redeclared(states, events, i, j, limit);
    } else {
      FateOfRun(states, events, ttl, granularity, i, j - 1);
      RunKeeps(states, events, ttl, granularity, j - 1);
      hide Inv, Apply, Fate;
      FateOfStep(states[j - 1], events[j - 1], h, q.declaredAt, ttl, granularity, Redeclared(states, events, i, j - 1, limit));
      assert Redeclared(states, events, i, j, limit)
             <==> Redeclared(states, events, i, j - 1, limit) || (events[j - 1].Declare? && states[j - 1].now < limit);
    }
  }

  /** Exactly which messages are lost, in every run: the one published at step i, and only when its
      publish landed one TTL or more after the declaration before it (at d), the clock has reached
      `d + 2 * ttl`, and no declaration came in between. A late publish that is followed by another
      declaration in time is saved by it. */
  lemma PublishIsLostExactlyWhen(states: seq<Queue>, events: seq<Event>, ttl: nat, granularity: Duration, i: nat, j: nat)
    requires Run(states, events, ttl, granularity) && i < j < |states|
    requires events[i].Publish? && states[i].alive
    ensures var q := states[i];
            var limit := q.declaredAt + 2 * ttl;
            Accept(q, events[i].msg, events[i].delay, ttl) in states[j].lost <==>
              && q.now >= q.declaredAt + ttl
              && states[j].now >= limit
              && forall k | i < k < j && states[k].now < limit :: !events[k].Declare?
  {
    FateOfRun(states, events, ttl, granularity, i, j);
  }

  /** A late publish does happen: a declare, one tick, a publish, and the queue deletes itself on the
      next tick with the message in it. */
  lemma ALatePublishHappens() returns (states: seq<Queue>, events: seq<Event>)
    ensures Run(states, events, 1, NANOS_PER_MS)
    ensures |states[|events|].lost| == 1 && states[|events|].lost == states[|events|].published
  {
    var h := Held(0, 7, NANOS_PER_MS, 0, 1, 2);
    events := [Declare, Tick, Publish(7, NANOS_PER_MS), Tick];
    states := [
      Queue(0, false, 0, [], [], [], [], []),
      Queue(0, true, 0, [], [], [], [], []),
      Queue(1, true, 0, [], [], [], [], []),
      Queue(1, true, 0, [h], [], [], [], [h]),
      Queue(2, false, 0, [], [], [], [h], [h])];
  }
}
