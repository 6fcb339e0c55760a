/** What a publish future dropped between publish and confirm does to the pool
    (crates/rabbitmq/src/publisher.rs:227-250, 357-392): its channel goes back alive with a tag still
    pending, and a later publish on it may be reported as stored although it was returned. Here is
    exactly when, in every reachable state of the pool. */
module Misattribution {
  import opened Envelopes
  import opened ConfirmChannel
  import opened ConfirmPool

  /** What a task awaits on a live channel is pending there. */
  ghost predicate AwaitOk(channels: map<ChannelId, Channel>, s: Stage) {
    s.Confirming? ==>
      && s.ch in channels && s.tag < channels[s.ch].nextTag
      && (channels[s.ch].connected ==> s.tag in channels[s.ch].pending)
  }

  ghost predicate TagsBelow(c: Channel) {
    forall tag | tag in c.pending :: tag < c.nextTag
  }

  ghost predicate InvTags(p: Pool) {
    && (forall ch | ch in p.channels :: TagsBelow(p.channels[ch]))
    && (forall t | t in p.tasks :: AwaitOk(p.channels, p.tasks[t]))
  }

  /** Steps that change no channel and start no wait. */
  lemma TagsIdle(p: Pool, p': Pool)
    requires InvTags(p) && p'.channels == p.channels
    requires forall t | t in p'.tasks && p'.tasks[t].Confirming? :: t in p.tasks && p'.tasks[t] == p.tasks[t]
    ensures InvTags(p')
  {
  }

  /** Steps that change one channel: whoever else waits there keeps what it waits for. */
  lemma TagsChannel(p: Pool, p': Pool, ch: ChannelId, c: Channel, w: Option<Task>)
    requires InvTags(p) && p'.channels == p.channels[ch := c] && TagsBelow(c)
    requires ch in p.channels ==> p.channels[ch].nextTag <= c.nextTag && (c.connected ==> p.channels[ch].connected)
    requires forall t | t in p'.tasks && w != Some(t) :: t in p.tasks && p'.tasks[t] == p.tasks[t]
    requires forall t | t in p'.tasks && w == Some(t) :: AwaitOk(p'.channels, p'.tasks[t])
    requires forall t | t in p'.tasks && w != Some(t) && p.tasks[t].Confirming? && p.tasks[t].ch == ch && c.connected ::
               p.tasks[t].tag in c.pending
    ensures InvTags(p')
  {
    forall t | t in p'.tasks ensures AwaitOk(p'.channels, p'.tasks[t]) {
      if w != Some(t) { assert AwaitOk(p.channels, p.tasks[t]); }
    }
  }

  lemma TagsOwn(p: Pool, e: PoolEvent)
    requires InvTags(p) && InvOwners(p) && ConfirmPool.Enabled(p, e) && (e.Publish? || e.Confirmed? || e.OpenOk?)
    ensures InvTags(ConfirmPool.Apply(p, e))
  {
    var p' := ConfirmPool.Apply(p, e);
    var ch := if e.OpenOk? then e.ch else p.tasks[e.t].ch;
    if !e.OpenOk? {
      assert TagsBelow(p.channels[ch]);
    }
    forall t | t in p'.tasks && t != e.t && p.tasks[t].Confirming? ensures p.tasks[t].ch != ch {
      assert AwaitOk(p.channels, p.tasks[t]);
    }
    TagsChannel(p, p', ch, p'.channels[ch], Some(e.t));
  }

  lemma TagsOther(p: Pool, e: PoolEvent)
    requires InvTags(p) && ConfirmPool.Enabled(p, e) && (e.BrokerDecides? || e.ResolveOrphan? || e.Die?)
    ensures InvTags(ConfirmPool.Apply(p, e))
  {
    var p' := ConfirmPool.Apply(p, e);
    assert TagsBelow(p.channels[e.ch]);
    forall t | t in p'.tasks && p.tasks[t].Confirming? && p.tasks[t].ch == e.ch && p'.channels[e.ch].connected
      ensures p.tasks[t].tag in p'.channels[e.ch].pending
    {
      assert AwaitOk(p.channels, p.tasks[t]);
    }
    TagsChannel(p, p', e.ch, p'.channels[e.ch], None);
  }

  lemma TagsStep(p: Pool, e: PoolEvent)
    requires InvTags(p) && InvOwners(p) && ConfirmPool.Enabled(p, e)
    ensures InvTags(ConfirmPool.Apply(p, e))
  {
    if e.Publish? || e.Confirmed? || e.OpenOk? {
      TagsOwn(p, e);
    } else if e.BrokerDecides? || e.ResolveOrphan? || e.Die? {
      TagsOther(p, e);
    } else {
      hide InvTags;
      TagsIdle(p, ConfirmPool.Apply(p, e));
    }
  }

  lemma TagsInit(p: Pool)
    requires Init(p)
    ensures InvTags(p)
  {
  }

  lemma {:induction false} RunTags(states: seq<Pool>, events: seq<PoolEvent>, i: nat)
    requires Run(states, events) && i < |states|
    ensures InvOwners(states[i]) && InvTags(states[i])
  {
    hide InvOwners, InvTags, ConfirmPool.Apply;
    RunHolds(states, events, i);
    if i == 0 {
      TagsInit(states[0]);
    } else {
      RunTags(states, events, i - 1);
      TagsStep(states[i - 1], events[i - 1]);
    }
  }

  /** The next thing a task can do for itself, or the broker for it. */
  function NextOf(p: Pool, t: Task): PoolEvent
    requires t in p.tasks
  {
    match p.tasks[t]
    case Holding => Pop(t)
    case Opening => OpenFails(t)
    case Fresh(ch) => if p.Live(ch) then PoolEvent.Publish(t) else PublishOrConfirmFails(t)
    case Confirming(ch, tag) =>
      if !p.Live(ch) then PublishOrConfirmFails(t)
      else if tag in p.channels[ch].pending && p.channels[ch].pending[tag] == Sent then BrokerDecides(ch, tag, Routed)
      else PoolEvent.Confirmed(t)
    case Over(_) => ReturnChannel(t)
    case Releasing => ReleasePermit(t)
  }

  /** Nobody is stuck: in every reachable state each task with a permit can go on, and a task that waits
      for one can have it, or somebody holds one, or the pool is closing. */
  lemma NobodyIsStuck(states: seq<Pool>, events: seq<PoolEvent>, i: nat)
    requires Run(states, events) && i < |states|
    ensures forall t | t in states[i].tasks :: ConfirmPool.Enabled(states[i], NextOf(states[i], t))
    ensures forall t | t in states[i].waiting ::
              || ConfirmPool.Enabled(states[i], GetPermit(t)) || ConfirmPool.Enabled(states[i], AcquireFails(t))
              || states[i].tasks != map[] || states[i].closer.Collecting?
  {
    RunTags(states, events, i);
    RunHolds(states, events, i);
    var p := states[i];
    forall t | t in p.tasks ensures ConfirmPool.Enabled(p, NextOf(p, t)) {
      assert AwaitOk(p.channels, p.tasks[t]);
    }
    if p.tasks == map[] {
      assert |p.tasks.Keys| == 0;
    }
  }

  /** How far a task is from its end. */
  function StepsLeft(p: Pool, t: Task): nat {
    if t in p.waiting then 7
    else if t !in p.tasks then 0
    else
      match p.tasks[t]
      case Holding => 6
      case Opening => 5
      case Fresh(_) => 4
      case Confirming(_, _) => 3
      case Over(_) => 2
      case Releasing => 1
  }

  predicate StepOf(e: PoolEvent, t: Task) {
    || e == GetPermit(t) || e == AcquireFails(t) || e == Pop(t) || (e.OpenOk? && e.t == t) || e == OpenFails(t)
    || e == PoolEvent.Publish(t) || e == PublishOrConfirmFails(t) || e == PoolEvent.Confirmed(t) || e == Cancel(t)
    || e == ReturnChannel(t) || e == ReleasePermit(t)
  }

  lemma OwnStep(p: Pool, e: PoolEvent, t: Task)
    requires ConfirmPool.Enabled(p, e) && StepOf(e, t) && p.waiting !! p.tasks.Keys
    ensures StepsLeft(ConfirmPool.Apply(p, e), t) < StepsLeft(p, t)
  {
  }

  lemma LettingGo(p: Pool, e: PoolEvent, t: Task)
    requires ConfirmPool.Enabled(p, e) && StepOf(e, t) && t in p.tasks && p.waiting !! p.tasks.Keys
    ensures var p' := ConfirmPool.Apply(p, e);
            && (t !in p'.tasks ==> p'.permits == p.permits + 1 && t in p'.finished)
            && (p.tasks[t].Leased() ==>
                  || (t in p'.tasks && p'.tasks[t].Leased() && p'.tasks[t].ch == p.tasks[t].ch)
                  || (p'.idle == p.idle + [p.tasks[t].ch] && p'.At(t, Releasing)))
  {
  }

  lemma OthersStep(p: Pool, e: PoolEvent, t: Task)
    requires ConfirmPool.Enabled(p, e) && !StepOf(e, t) && e != Arrive(t)
    ensures StepsLeft(ConfirmPool.Apply(p, e), t) == StepsLeft(p, t)
  {
  }

  /** Every step a task takes, failures included, brings its publish nearer to its end, and nobody
      else's step changes how far it has come; a task that is through has given back its channel and
      its permit. */
  lemma EveryStepBringsTheEndNearer(p: Pool, e: PoolEvent, t: Task)
    requires ConfirmPool.Enabled(p, e) && InvBound(p)
    ensures var p' := ConfirmPool.Apply(p, e);
            && (StepOf(e, t) ==> StepsLeft(p', t) < StepsLeft(p, t))
            && (!StepOf(e, t) && e != Arrive(t) ==> StepsLeft(p', t) == StepsLeft(p, t))
            && (StepOf(e, t) && t in p.tasks && t !in p'.tasks ==> p'.permits == p.permits + 1 && t in p'.finished)
            && (StepOf(e, t) && t in p.tasks && p.tasks[t].Leased() ==>
                  || (t in p'.tasks && p'.tasks[t].Leased() && p'.tasks[t].ch == p.tasks[t].ch)
                  || (p'.idle == p.idle + [p.tasks[t].ch] && p'.At(t, Releasing)))
  {
    hide InvBound, ConfirmPool.Apply, ConfirmPool.Enabled, StepsLeft;
    Disjoint(p);
    if StepOf(e, t) {
      OwnStep(p, e, t);
      if t in p.tasks { LettingGo(p, e, t); }
    } else if e != Arrive(t) {
      OthersStep(p, e, t);
    }
  }

  lemma Disjoint(p: Pool)
    requires InvBound(p)
    ensures p.waiting !! p.tasks.Keys
  {
  }

  // ----- from one channel to the pool --------------------------------------------------------

  /** The confirm that t awaits arrives and reports success for a message that went nowhere. */
  ghost predicate FalseReport(p: Pool, t: Task, ch: ChannelId, tag: Tag, e: PoolEvent) {
    && e == PoolEvent.Confirmed(t) && ConfirmPool.Enabled(p, e) && p.At(t, Confirming(ch, tag))
    && var reports := ConfirmPool.Apply(p, e).reports;
       reports[|reports| - 1] == Report(Ok, false)
  }

  /** Some way the pool, with everyone in it, can go on from p falsely reports t's publish. */
  ghost predicate Misleads(p: Pool, t: Task, ch: ChannelId, tag: Tag, events: seq<PoolEvent>)
    decreases events
  {
    && events != []
    && ConfirmPool.Enabled(p, events[0])
    && (FalseReport(p, t, ch, tag, events[0]) || Misleads(ConfirmPool.Apply(p, events[0]), t, ch, tag, events[1..]))
  }

  ghost predicate CanBeMisled(p: Pool, t: Task, ch: ChannelId, tag: Tag) {
    exists events :: Misleads(p, t, ch, tag, events)
  }

  /** The condition, on what the channel holds: the awaited message can still be returned, and there
      are enough other pending tags to take every return first. */
  predicate Exposed(c: Channel, tag: Tag) {
    MayYetBeReturned(c, tag) && Spare(c, tag) >= 0
  }

  ghost predicate Safe(p: Pool, t: Task, ch: ChannelId, tag: Tag) {
    && InvOwners(p) && InvTags(p)
    && ch in p.channels && tag < p.channels[ch].nextTag
    && (p.At(t, Confirming(ch, tag)) && p.Live(ch) ==> !Exposed(p.channels[ch], tag))
  }

  /** A channel that stays live while t waits on it changes only by what the broker decides and by
      other tags resolving: nobody else publishes or confirms on it. */
  lemma ChannelMoves(p: Pool, t: Task, ch: ChannelId, tag: Tag, e: PoolEvent)
    requires InvOwners(p) && ConfirmPool.Enabled(p, e) && p.At(t, Confirming(ch, tag)) && p.Live(ch)
    requires ConfirmPool.Apply(p, e).At(t, Confirming(ch, tag)) && ConfirmPool.Apply(p, e).Live(ch)
    ensures var c, c' := p.channels[ch], ConfirmPool.Apply(p, e).channels[ch];
            || c' == c
            || (e.BrokerDecides? && c.CanDecide(e.tag) && e.fate != Sent && c' == c.Decide(e.tag, e.fate))
            || (e.ResolveOrphan? && e.tag != tag && c.CanResolve(e.tag) && c' == c.Resolve(e.tag))
  {
  }

  lemma SafeOnChannel(p: Pool, t: Task, ch: ChannelId, tag: Tag, e: PoolEvent)
    requires Safe(p, t, ch, tag) && ConfirmPool.Enabled(p, e)
    requires p.At(t, Confirming(ch, tag)) && p.Live(ch)
    requires ConfirmPool.Apply(p, e).At(t, Confirming(ch, tag)) && ConfirmPool.Apply(p, e).Live(ch)
    ensures !Exposed(ConfirmPool.Apply(p, e).channels[ch], tag)
  {
    var c := p.channels[ch];
    assert AwaitOk(p.channels, p.tasks[t]);
    ChannelMoves(p, t, ch, tag, e);
    hide InvTags, InvOwners, ConfirmPool.Apply, ConfirmPool.Enabled;
    if e.BrokerDecides? && c.CanDecide(e.tag) && e.fate != Sent {
      SpareNeverGrows(c, tag, Decide(e.tag, e.fate));
    } else if e.ResolveOrphan? && e.tag != tag && c.CanResolve(e.tag) {
      SpareNeverGrows(c, tag, Resolve(e.tag));
    }
  }

  lemma FalseReportIsExposed(p: Pool, t: Task, ch: ChannelId, tag: Tag, e: PoolEvent)
    requires FalseReport(p, t, ch, tag, e)
    ensures p.Live(ch) && Exposed(p.channels[ch], tag)
  {
    assert p.channels[ch].pending[tag] == Returned && p.channels[ch].returned == [];
  }

  lemma SafeStep(p: Pool, t: Task, ch: ChannelId, tag: Tag, e: PoolEvent)
    requires Safe(p, t, ch, tag) && ConfirmPool.Enabled(p, e)
    ensures Safe(ConfirmPool.Apply(p, e), t, ch, tag) && !FalseReport(p, t, ch, tag, e)
  {
    var p' := ConfirmPool.Apply(p, e);
    OwnersStep(p, e);
    TagsStep(p, e);
    NextTagGrows(p, e, ch);
    if p'.At(t, Confirming(ch, tag)) && p'.Live(ch) {
      StillAwaited(p, t, ch, tag, e);
      SafeOnChannel(p, t, ch, tag, e);
    }
    if FalseReport(p, t, ch, tag, e) {
      FalseReportIsExposed(p, t, ch, tag, e);
    }
  }

  lemma NextTagGrows(p: Pool, e: PoolEvent, ch: ChannelId)
    requires ConfirmPool.Enabled(p, e) && ch in p.channels
    ensures ch in ConfirmPool.Apply(p, e).channels && p.channels[ch].nextTag <= ConfirmPool.Apply(p, e).channels[ch].nextTag
  {
  }

  /** A tag that is out is never handed out again. */
  lemma StillAwaited(p: Pool, t: Task, ch: ChannelId, tag: Tag, e: PoolEvent)
    requires ConfirmPool.Enabled(p, e) && ch in p.channels && tag < p.channels[ch].nextTag
    requires ConfirmPool.Apply(p, e).At(t, Confirming(ch, tag)) && ConfirmPool.Apply(p, e).Live(ch)
    ensures p.At(t, Confirming(ch, tag)) && p.Live(ch)
  {
  }

  lemma {:induction false} SafeStaysSafe(p: Pool, t: Task, ch: ChannelId, tag: Tag, events: seq<PoolEvent>)
    requires Safe(p, t, ch, tag)
    ensures !Misleads(p, t, ch, tag, events)
    decreases events
  {
    if events != [] && ConfirmPool.Enabled(p, events[0]) {
      SafeStep(p, t, ch, tag, events[0]);
      hide Safe, ConfirmPool.Apply, FalseReport;
      SafeStaysSafe(ConfirmPool.Apply(p, events[0]), t, ch, tag, events[1..]);
    }
  }

  /** The pool can follow whatever the broker and the library do with the channel. */
  function Follow(t: Task, ch: ChannelId, tag: Tag, e: ConfirmChannel.Event): PoolEvent {
    match e
    case Decide(x, fate) => BrokerDecides(ch, x, fate)
    case Resolve(x) => if x == tag then PoolEvent.Confirmed(t) else ResolveOrphan(ch, x)
  }

  lemma FollowStep(p: Pool, t: Task, ch: ChannelId, tag: Tag, e: ConfirmChannel.Event)
    requires InvOwners(p) && p.At(t, Confirming(ch, tag)) && p.Live(ch) && ConfirmChannel.Enabled(p.channels[ch], e)
    ensures ConfirmPool.Enabled(p, Follow(t, ch, tag, e))
    ensures e == Resolve(tag) && FalseSuccess(p.channels[ch], e) ==> FalseReport(p, t, ch, tag, Follow(t, ch, tag, e))
    ensures e != Resolve(tag) ==>
              var p' := ConfirmPool.Apply(p, Follow(t, ch, tag, e));
              p'.At(t, Confirming(ch, tag)) && p'.Live(ch) && p'.channels[ch] == ConfirmChannel.Apply(p.channels[ch], e)
  {
  }

  lemma {:induction false} FollowScript(p: Pool, t: Task, ch: ChannelId, tag: Tag, script: seq<ConfirmChannel.Event>)
    returns (events: seq<PoolEvent>)
    requires InvOwners(p) && p.At(t, Confirming(ch, tag)) && p.Live(ch) && CanMislead(p.channels[ch], tag, script)
    ensures Misleads(p, t, ch, tag, events)
    decreases script
  {
    var e := Follow(t, ch, tag, script[0]);
    FollowStep(p, t, ch, tag, script[0]);
    if script[0] == Resolve(tag) {
      events := [e];
    } else {
      OwnersStep(p, e);
      hide InvOwners, ConfirmPool.Apply, FalseReport;
      var rest := FollowScript(ConfirmPool.Apply(p, e), t, ch, tag, script[1..]);
      events := [e] + rest;
      assert events[1..] == rest;
    }
  }

  lemma ExposedCanBeMisled(p: Pool, t: Task, ch: ChannelId, tag: Tag)
    requires InvOwners(p) && InvTags(p) && p.At(t, Confirming(ch, tag)) && p.Live(ch) && Exposed(p.channels[ch], tag)
    ensures CanBeMisled(p, t, ch, tag)
  {
    MisleadingExactlyWhen(p.channels[ch], tag);
    hide InvOwners, InvTags, Misleads, CanMislead;
    var script :| CanMislead(p.channels[ch], tag, script);
    var events := FollowScript(p, t, ch, tag, script);
    assert Misleads(p, t, ch, tag, events);
  }

  /** Exactly when the publish a task awaits can be falsely reported as stored, in every reachable
      state and against everything the broker, the library and the other tasks may do. */
  lemma AwaitedIsMisledExactlyWhen(states: seq<Pool>, events: seq<PoolEvent>, i: nat, t: Task, ch: ChannelId, tag: Tag)
    requires Run(states, events) && i < |states|
    requires states[i].At(t, Confirming(ch, tag)) && states[i].Live(ch)
    ensures CanBeMisled(states[i], t, ch, tag) <==> Exposed(states[i].channels[ch], tag)
  {
    RunTags(states, events, i);
    var p := states[i];
    if Exposed(p.channels[ch], tag) {
      ExposedCanBeMisled(p, t, ch, tag);
    } else {
      assert Safe(p, t, ch, tag);
      hide Safe, Misleads;
      forall more ensures !Misleads(p, t, ch, tag, more) {
        SafeStaysSafe(p, t, ch, tag, more);
      }
    }
  }

  /** So a publish about to go out can be misreported exactly when its channel came back with more
      tags pending than returns waiting: what a cancelled publish leaves whose message has not been
      returned yet. */
  lemma NextPublishIsMisledExactlyWhen(states: seq<Pool>, events: seq<PoolEvent>, i: nat, t: Task)
    requires Run(states, events) && i + 1 < |states| && events[i] == PoolEvent.Publish(t)
    ensures var ch := states[i].tasks[t].ch;
            var c := states[i].channels[ch];
            CanBeMisled(states[i + 1], t, ch, c.nextTag) <==> |c.pending.Keys| > |c.returned|
  {
    RunTags(states, events, i);
    var ch := states[i].tasks[t].ch;
    var c := states[i].channels[ch];
    assert states[i + 1].channels[ch] == c.Publish() && c.nextTag !in c.pending;
    assert c.Publish().pending.Keys - {c.nextTag} == c.pending.Keys;
    AwaitedIsMisledExactlyWhen(states, events, i + 1, t, ch, c.nextTag);
  }

  // ----- a run in which it happens -----------------------------------------------------------

  ghost predicate Reachable(p: Pool) {
    exists states, events :: Run(states, events) && states[|events|] == p
  }

  lemma ReachStep(p: Pool, e: PoolEvent, q: Pool)
    requires Reachable(p) && ConfirmPool.Enabled(p, e) && q == ConfirmPool.Apply(p, e)
    ensures Reachable(q)
  {
    var states, events :| Run(states, events) && states[|events|] == p;
    var more, longer := states + [q], events + [e];
    forall i | 0 <= i < |longer| ensures ConfirmPool.Enabled(more[i], longer[i]) && more[i + 1] == ConfirmPool.Apply(more[i], longer[i]) {
      if i < |events| {
        assert more[i] == states[i] && more[i + 1] == states[i + 1] && longer[i] == events[i];
      }
    }
    assert Run(more, longer) && more[|longer|] == q;
  }

  /** A pool of two permits and one channel. */
  function Small(permits: nat, idle: seq<ChannelId>, c: Channel, waiting: set<Task>, tasks: map<Task, Stage>): Pool {
    Pool(2, true, permits, idle, map[0 := c], waiting, tasks, {}, [], NotClosing, {}, {})
  }

  const NEW_CHANNEL := Channel(true, 1, map[], [])
  const ONE_SENT := Channel(true, 2, map[1 := Sent], [])
  const BOTH_SENT := Channel(true, 3, map[1 := Sent, 2 := Sent], [])
  const BOTH_DECIDED := Channel(true, 3, map[1 := Routed, 2 := Returned], [2])

  const LEFT_RETURNED := Channel(true, 3, map[2 := Returned], [])

  lemma ReachesALease()
    ensures Reachable(Small(1, [], NEW_CHANNEL, {}, map[1 := Fresh(0)]))
  {
    var p0 := Small(2, [0], NEW_CHANNEL, {}, map[]);
    var none: seq<PoolEvent> := [];
    assert Run([p0], none) && [p0][|none|] == p0;
    ReachStep(p0, Arrive(1), Small(2, [0], NEW_CHANNEL, {1}, map[]));
    ReachStep(Small(2, [0], NEW_CHANNEL, {1}, map[]), GetPermit(1), Small(1, [0], NEW_CHANNEL, {}, map[1 := Holding]));
    ReachStep(Small(1, [0], NEW_CHANNEL, {}, map[1 := Holding]), Pop(1), Small(1, [], NEW_CHANNEL, {}, map[1 := Fresh(0)]));
  }

  lemma ReachesAPendingPublish()
    ensures Reachable(Small(0, [], ONE_SENT, {}, map[1 := Confirming(0, 1), 2 := Holding]))
  {
    hide Reachable;
    ReachesALease();
    var p1 := Small(1, [], ONE_SENT, {}, map[1 := Confirming(0, 1)]);
    ReachStep(Small(1, [], NEW_CHANNEL, {}, map[1 := Fresh(0)]), PoolEvent.Publish(1), p1);
    var p2 := Small(1, [], ONE_SENT, {2}, map[1 := Confirming(0, 1)]);
    ReachStep(p1, Arrive(2), p2);
    ReachStep(p2, GetPermit(2), Small(0, [], ONE_SENT, {}, map[1 := Confirming(0, 1), 2 := Holding]));
  }

  lemma ReachesACancelledPublish()
    ensures Reachable(Small(0, [0], ONE_SENT, {}, map[1 := Releasing, 2 := Holding]))
  {
    hide Reachable;
    ReachesAPendingPublish();
    var p0 := Small(0, [], ONE_SENT, {}, map[1 := Confirming(0, 1), 2 := Holding]);
    var p1 := Small(0, [], ONE_SENT, {}, map[1 := Over(0), 2 := Holding]);
    ReachStep(p0, Cancel(1), p1);
    ReachStep(p1, ReturnChannel(1), Small(0, [0], ONE_SENT, {}, map[1 := Releasing, 2 := Holding]));
  }

  lemma ReachesTheNextPublish()
    ensures Reachable(Small(0, [], BOTH_SENT, {}, map[1 := Releasing, 2 := Confirming(0, 2)]))
  {
    hide Reachable;
    ReachesACancelledPublish();
    var r := Small(0, [], ONE_SENT, {}, map[1 := Releasing, 2 := Fresh(0)]);
    ReachStep(Small(0, [0], ONE_SENT, {}, map[1 := Releasing, 2 := Holding]), Pop(2), r);
    assert ONE_SENT.Publish() == BOTH_SENT;
    ReachStep(r, PoolEvent.Publish(2), Small(0, [], BOTH_SENT, {}, map[1 := Releasing, 2 := Confirming(0, 2)]));
  }

  lemma ReachesTheReturn()
    ensures Reachable(Small(0, [], BOTH_DECIDED, {}, map[1 := Releasing, 2 := Confirming(0, 2)]))
  {
    hide Reachable;
    ReachesTheNextPublish();
    var tasks := map[1 := Releasing, 2 := Confirming(0, 2)];
    var p0 := Small(0, [], BOTH_SENT, {}, tasks);
    var c := Channel(true, 3, map[1 := Routed, 2 := Sent], []);
    assert BOTH_SENT.Decide(1, Routed) == c && c.Decide(2, Returned) == BOTH_DECIDED;
    ReachStep(p0, BrokerDecides(0, 1, Routed), Small(0, [], c, {}, tasks));
    ReachStep(Small(0, [], c, {}, tasks), BrokerDecides(0, 2, Returned), Small(0, [], BOTH_DECIDED, {}, tasks));
  }

  lemma ReachesTheBareConfirm()
    ensures Reachable(Small(0, [], LEFT_RETURNED, {}, map[1 := Releasing, 2 := Confirming(0, 2)]))
  {
    hide Reachable;
    ReachesTheReturn();
    var tasks := map[1 := Releasing, 2 := Confirming(0, 2)];
    assert BOTH_DECIDED.Resolve(1) == LEFT_RETURNED;
    ReachStep(Small(0, [], BOTH_DECIDED, {}, tasks), ResolveOrphan(0, 1), Small(0, [], LEFT_RETURNED, {}, tasks));
  }

  /** A reachable pool that has reported success for a publish that was returned: the return went to
      the tag of the dropped publish, and the awaited one resolved bare. */
  lemma CancellationReachesAFalseReport() returns (p: Pool)
    ensures Reachable(p) && p.reports == [Report(Ok, false)]
  {
    hide Reachable;
    ReachesTheBareConfirm();
    var q := Small(0, [], LEFT_RETURNED, {}, map[1 := Releasing, 2 := Confirming(0, 2)]);
    p := ConfirmPool.Apply(q, PoolEvent.Confirmed(2));
    ReachStep(q, PoolEvent.Confirmed(2), p);
  }
}
