/** The pool of confirm channels (crates/rabbitmq/src/publisher.rs:51-250, 357-392, 539-543), one
    step per await point or lock section, for any number of publishing tasks and one closer.
    `cancellation` says whether a publish future may be dropped between publish and confirm. */
module ConfirmPool {
  import opened Envelopes
  import opened ConfirmChannel

  type Task = nat
  type ChannelId = nat

  /** Where a task that owns a permit stands. `Over` has its result and still holds the channel;
      `Releasing` has handed the channel back and not yet the permit. */
  datatype Stage =
    | Holding
    | Opening
    | Fresh(ch: ChannelId)
    | Confirming(ch: ChannelId, tag: Tag)
    | Over(ch: ChannelId)
    | Releasing
  {
    predicate Leased() { Fresh? || Confirming? || Over? }
    predicate NeedsChannel() { Opening? || Leased() }
  }

  datatype Closer = NotClosing | Collecting(got: nat) | SemaphoreClosed | ChannelsTaken | Closed

  /** What `publish_confirmed` reported, and what the broker had really done. */
  datatype Report = Report(result: PublishResult, routed: bool)

  datatype Pool = Pool(
    size: nat,
    cancellation: bool,
    permits: nat,
    idle: seq<ChannelId>,
    channels: map<ChannelId, Channel>,
    waiting: set<Task>,
    tasks: map<Task, Stage>,
    finished: set<Task>,
    reports: seq<Report>,
    closer: Closer,
    discarded: set<ChannelId>,
    taken: set<ChannelId>)
  {
    predicate SemClosed() { closer.SemaphoreClosed? || closer.ChannelsTaken? || closer.Closed? }

    /** Permits in the closer's hands. */
    function Collected(): nat {
      match closer
      case Collecting(got) => got
      case SemaphoreClosed => size
      case ChannelsTaken => size
      case _ => 0
    }

    predicate At(t: Task, s: Stage) { t in tasks && tasks[t] == s }

    predicate Live(ch: ChannelId) { ch in channels && channels[ch].connected }

    function Move(t: Task, s: Stage): Pool { this.(tasks := tasks[t := s]) }

    function Leave(t: Task): Pool {
      this.(tasks := tasks - {t}, finished := finished + {t}, permits := permits + 1)
    }

    function OnChannel(ch: ChannelId, c: Channel): Pool { this.(channels := channels[ch := c]) }
  }

  datatype PoolEvent =
    | Arrive(t: Task)                       // a task calls `acquire`
    | GetPermit(t: Task)
    | AcquireFails(t: Task)                 // the semaphore is closed
    | Pop(t: Task)                          // look at the idle list
    | OpenOk(t: Task, ch: ChannelId)        // a replacement channel is open, in confirm mode
    | OpenFails(t: Task)
    | Publish(t: Task)
    | PublishOrConfirmFails(t: Task)        // only ever on a channel that is closed
    | BrokerDecides(ch: ChannelId, tag: Tag, fate: Fate)
    | Confirmed(t: Task)                    // the confirm this task awaits
    | ResolveOrphan(ch: ChannelId, tag: Tag)
    | Die(ch: ChannelId)
    | Cancel(t: Task)                       // the publish future is dropped mid-confirm
    | ReturnChannel(t: Task)                // the lease drops: first the channel ...
    | ReleasePermit(t: Task)                // ... then the permit
    | CloseStart
    | CloseCollect
    | CloseSemaphore
    | CloseTake
    | CloseDone

  predicate Enabled(p: Pool, e: PoolEvent) {
    match e
    case Arrive(t) => t !in p.waiting && t !in p.tasks && t !in p.finished
    case GetPermit(t) => t in p.waiting && !p.SemClosed() && p.permits > 0
    case AcquireFails(t) => t in p.waiting && p.SemClosed()
    case Pop(t) => p.At(t, Holding)
    case OpenOk(t, ch) => p.At(t, Opening) && ch !in p.channels
    case OpenFails(t) => p.At(t, Opening)
    case Publish(t) => t in p.tasks && p.tasks[t].Fresh? && p.Live(p.tasks[t].ch)
    case PublishOrConfirmFails(t) =>
      t in p.tasks && (p.tasks[t].Fresh? || p.tasks[t].Confirming?) && !p.Live(p.tasks[t].ch)
    case BrokerDecides(ch, tag, fate) => p.Live(ch) && p.channels[ch].CanDecide(tag) && fate != Sent
    case Confirmed(t) =>
      && t in p.tasks && p.tasks[t].Confirming? && p.Live(p.tasks[t].ch)
      && p.channels[p.tasks[t].ch].CanResolve(p.tasks[t].tag)
    case ResolveOrphan(ch, tag) =>
      && p.Live(ch) && p.channels[ch].CanResolve(tag)
      && forall t | t in p.tasks :: p.tasks[t] != Confirming(ch, tag)
    case Die(ch) => p.Live(ch)
    case Cancel(t) => p.cancellation && t in p.tasks && p.tasks[t].Confirming?
    case ReturnChannel(t) => t in p.tasks && p.tasks[t].Over?
    case ReleasePermit(t) => p.At(t, Releasing)
    case CloseStart => p.closer.NotClosing?
    case CloseCollect => p.closer.Collecting? && p.closer.got < p.size && p.permits > 0
    case CloseSemaphore => p.closer.Collecting? && p.closer.got == p.size
    case CloseTake => p.closer.SemaphoreClosed?
    case CloseDone => p.closer.ChannelsTaken?
  }

  /** `idle.pop()`, and the liveness check that discards a dead channel instead of leasing it. */
  function PopStep(p: Pool, t: Task): Pool {
    if p.idle == [] then p.Move(t, Opening)
    else
      var ch := p.idle[|p.idle| - 1];
      var q := p.(idle := p.idle[..|p.idle| - 1]);
      if p.Live(ch) then q.Move(t, Fresh(ch))
      else q.Move(t, Opening).(discarded := p.discarded + {ch})
  }

  /** The lease's drop pushes the channel back, then the permit goes. */
  function ReturnStep(p: Pool, t: Task): Pool
    requires t in p.tasks && p.tasks[t].Over?
  {
    p.(idle := p.idle + [p.tasks[t].ch]).Move(t, Releasing)
  }

  function Apply(p: Pool, e: PoolEvent): Pool
    requires Enabled(p, e)
  {
    match e
    case Arrive(t) => p.(waiting := p.waiting + {t})
    case GetPermit(t) => p.(waiting := p.waiting - {t}, permits := p.permits - 1).Move(t, Holding)
    case AcquireFails(t) => p.(waiting := p.waiting - {t}, finished := p.finished + {t})
    case Pop(t) => PopStep(p, t)
    case OpenOk(t, ch) => p.OnChannel(ch, Channel(true, 1, map[], [])).Move(t, Fresh(ch))
    case OpenFails(t) => p.Leave(t)
    case Publish(t) =>
      var ch := p.tasks[t].ch;
      p.OnChannel(ch, p.channels[ch].Publish()).Move(t, Confirming(ch, p.channels[ch].nextTag))
    case PublishOrConfirmFails(t) => p.Move(t, Over(p.tasks[t].ch))
    case BrokerDecides(ch, tag, fate) => p.OnChannel(ch, p.channels[ch].Decide(tag, fate))
    case Confirmed(t) =>
      var ch, tag := p.tasks[t].ch, p.tasks[t].tag;
      var c := p.channels[ch];
      var report := Report(ConfirmationToResult(c.Resolution(tag)), c.pending[tag] == Routed);
      p.OnChannel(ch, c.Resolve(tag)).Move(t, Over(ch)).(reports := p.reports + [report])
    case ResolveOrphan(ch, tag) => p.OnChannel(ch, p.channels[ch].Resolve(tag))
    case Die(ch) => p.OnChannel(ch, p.channels[ch].(connected := false))
    case Cancel(t) => p.Move(t, Over(p.tasks[t].ch))
    case ReturnChannel(t) => ReturnStep(p, t)
    case ReleasePermit(t) => p.Leave(t)
    case CloseStart => p.(closer := Collecting(0))
    case CloseCollect => p.(closer := Collecting(p.closer.got + 1), permits := p.permits - 1)
    case CloseSemaphore => p.(closer := SemaphoreClosed)
    case CloseTake => p.(closer := ChannelsTaken, taken := p.taken + (set ch | ch in p.idle), idle := [])
    case CloseDone => p.(closer := Closed, permits := p.permits + p.size)
  }

  ghost predicate Init(p: Pool) {
    && p.size >= 1 && p.permits == p.size
    && |p.idle| == 1 && p.channels == map[p.idle[0] := Channel(true, 1, map[], [])]
    && p.waiting == {} && p.tasks == map[] && p.finished == {} && p.reports == []
    && p.closer == NotClosing && p.discarded == {} && p.taken == {}
  }

  // ----- permits and the size bound ----------------------------------------------------------

  /** Tasks that hold a channel or are opening one. */
  function Channelled(p: Pool): set<Task> {
    set t | t in p.tasks && p.tasks[t].NeedsChannel()
  }

  ghost predicate InvBound(p: Pool) {
    && p.permits + |p.tasks.Keys| + p.Collected() == p.size
    && |p.idle| + |Channelled(p)| <= p.size
    && p.waiting !! p.tasks.Keys
  }

  lemma SubsetCard(a: set<Task>, b: set<Task>)
    requires a <= b
    ensures |a| <= |b|
  {
    assert |b - a| + |a| == |b| by { assert b == (b - a) + a; }
  }

  /** Moving a task that already owns a permit changes no permit count. */
  lemma BoundMove(p: Pool, t: Task, s: Stage)
    requires InvBound(p) && t in p.tasks
    ensures var p' := p.Move(t, s);
            && p'.tasks.Keys == p.tasks.Keys
            && Channelled(p') == if s.NeedsChannel() then Channelled(p) + {t} else Channelled(p) - {t}
  {
    assert p.Move(t, s).tasks.Keys == p.tasks.Keys;
  }

  lemma BoundPop(p: Pool, t: Task)
    requires InvBound(p) && Enabled(p, Pop(t))
    ensures InvBound(Apply(p, Pop(t)))
  {
    var p' := Apply(p, Pop(t));
    BoundMove(p, t, p'.tasks[t]);
    assert Channelled(p') == Channelled(p) + {t};
    SubsetCard(Channelled(p'), p'.tasks.Keys);
  }

  lemma BoundLeave(p: Pool, t: Task)
    requires InvBound(p) && t in p.tasks
    ensures InvBound(p.Leave(t))
  {
    assert p.Leave(t).tasks.Keys == p.tasks.Keys - {t};
    assert Channelled(p.Leave(t)) == Channelled(p) - {t};
  }

  /** A task that keeps its channel, or swaps opening for holding one. */
  lemma BoundStay(p: Pool, p': Pool, t: Task, s: Stage)
    requires InvBound(p) && t in p.tasks && p.tasks[t].NeedsChannel() && s.NeedsChannel()
    requires p'.tasks == p.tasks[t := s] && p'.waiting == p.waiting
    requires p'.permits == p.permits && p'.closer == p.closer && p'.size == p.size && |p'.idle| == |p.idle|
    ensures InvBound(p')
  {
    BoundMove(p, t, s);
    assert Channelled(p') == Channelled(p);
  }

  lemma BoundReturn(p: Pool, t: Task)
    requires InvBound(p) && Enabled(p, ReturnChannel(t))
    ensures InvBound(Apply(p, ReturnChannel(t)))
  {
    BoundMove(p, t, Releasing);
    assert Channelled(Apply(p, ReturnChannel(t))) == Channelled(p) - {t};
  }

  lemma JoinHolding(p: Pool, t: Task)
    requires t !in p.tasks
    ensures var q := p.Move(t, Holding);
            q.tasks.Keys == p.tasks.Keys + {t} && Channelled(q) == Channelled(p)
  {
    assert p.Move(t, Holding).tasks.Keys == p.tasks.Keys + {t};
  }

  lemma BoundGet(p: Pool, t: Task)
    requires InvBound(p) && Enabled(p, GetPermit(t))
    ensures InvBound(Apply(p, GetPermit(t)))
  {
    JoinHolding(p, t);
    var p' := Apply(p, GetPermit(t));
    assert p'.tasks == p.Move(t, Holding).tasks;
    assert Channelled(p') == Channelled(p.Move(t, Holding));
  }

  /** Steps that move no task. */
  lemma BoundIdle(p: Pool, p': Pool)
    requires InvBound(p) && p'.tasks == p.tasks && p'.size == p.size && |p'.idle| <= |p.idle|
    requires p'.permits + p'.Collected() == p.permits + p.Collected()
    requires p'.waiting !! p'.tasks.Keys
    ensures InvBound(p')
  {
    assert Channelled(p') == Channelled(p);
  }

  lemma BoundHolds(p: Pool, e: PoolEvent)
    requires InvBound(p) && Enabled(p, e)
    requires e.OpenOk? || e.Publish? || e.PublishOrConfirmFails? || e.Confirmed? || e.Cancel?
    ensures InvBound(Apply(p, e))
  {
    var p' := Apply(p, e);
    hide InvBound;
    BoundStay(p, p', e.t, p'.tasks[e.t]);
  }

  lemma BoundElse(p: Pool, e: PoolEvent)
    requires InvBound(p) && Enabled(p, e)
    requires e.Arrive? || e.AcquireFails? || e.BrokerDecides? || e.ResolveOrphan? || e.Die? || e.CloseStart?
             || e.CloseCollect? || e.CloseSemaphore? || e.CloseTake? || e.CloseDone?
    ensures InvBound(Apply(p, e))
  {
    hide Channelled;
    BoundIdle(p, Apply(p, e));
  }

  lemma BoundStep(p: Pool, e: PoolEvent)
    requires InvBound(p) && Enabled(p, e)
    ensures InvBound(Apply(p, e))
  {
    match e
    case Pop(t) => BoundPop(p, t);
    case GetPermit(t) => BoundGet(p, t);
    case ReturnChannel(t) => BoundReturn(p, t);
    case OpenFails(t) => BoundLeave(p, t);
    case ReleasePermit(t) => BoundLeave(p, t);
    case _ =>
      hide InvBound, Apply, Enabled;
      if e.OpenOk? || e.Publish? || e.PublishOrConfirmFails? || e.Confirmed? || e.Cancel? {
        BoundHolds(p, e);
      } else {
        BoundElse(p, e);
      }
  }

  // ----- who has which channel ---------------------------------------------------------------

  ghost predicate InIdle(p: Pool, ch: ChannelId) {
    exists i :: 0 <= i < |p.idle| && p.idle[i] == ch
  }

  ghost predicate InLease(p: Pool, ch: ChannelId) {
    exists t :: t in p.tasks && p.tasks[t].Leased() && p.tasks[t].ch == ch
  }

  /** Exclusive ownership: no channel is in two hands. */
  ghost predicate InvOwners(p: Pool) {
    && (forall i | 0 <= i < |p.idle| :: p.idle[i] in p.channels)
    && (forall i, j | 0 <= i < j < |p.idle| :: p.idle[i] != p.idle[j])
    && (forall t | t in p.tasks && p.tasks[t].Leased() ::
          p.tasks[t].ch in p.channels && !InIdle(p, p.tasks[t].ch))
    && (forall t, u | t in p.tasks && u in p.tasks && t != u && p.tasks[t].Leased() && p.tasks[u].Leased() ::
          p.tasks[t].ch != p.tasks[u].ch)
  }

  lemma OwnersStay(p: Pool, p': Pool, t: Task, s: Stage)
    requires InvOwners(p) && t in p.tasks && p.tasks[t].Leased() && s.Leased() && s.ch == p.tasks[t].ch
    requires p'.tasks == p.tasks[t := s] && p'.idle == p.idle && p'.channels.Keys >= p.channels.Keys
    ensures InvOwners(p')
  {
    assert forall ch :: InIdle(p', ch) <==> InIdle(p, ch);
  }

  /** Steps that give a task no channel and take none from the idle list. */
  lemma OwnersIdle(p: Pool, p': Pool)
    requires InvOwners(p) && (p'.idle == p.idle || p'.idle == []) && p'.channels.Keys >= p.channels.Keys
    requires forall t | t in p'.tasks && p'.tasks[t].Leased() :: t in p.tasks && p'.tasks[t] == p.tasks[t]
    ensures InvOwners(p')
  {
    assert forall ch :: InIdle(p', ch) ==> InIdle(p, ch);
  }

  lemma OwnersPop(p: Pool, t: Task)
    requires InvOwners(p) && Enabled(p, Pop(t)) && p.idle != []
    ensures InvOwners(Apply(p, Pop(t)))
  {
    var p' := Apply(p, Pop(t));
    var n := |p.idle| - 1;
    assert InIdle(p, p.idle[n]);
    forall ch | InIdle(p', ch) ensures InIdle(p, ch) && ch != p.idle[n] {
      var i :| 0 <= i < |p'.idle| && p'.idle[i] == ch;
      assert p.idle[i] == ch;
    }
  }

  lemma OwnersOpen(p: Pool, t: Task, ch: ChannelId)
    requires InvOwners(p) && Enabled(p, OpenOk(t, ch))
    ensures InvOwners(Apply(p, OpenOk(t, ch)))
  {
    var p' := Apply(p, OpenOk(t, ch));
    assert forall c :: InIdle(p', c) <==> InIdle(p, c);
  }

  lemma OwnersReturn(p: Pool, t: Task)
    requires InvOwners(p) && Enabled(p, ReturnChannel(t))
    ensures InvOwners(Apply(p, ReturnChannel(t)))
  {
    var p' := Apply(p, ReturnChannel(t));
    var ch := p.tasks[t].ch;
    forall c | InIdle(p', c) ensures InIdle(p, c) || c == ch {
      var i :| 0 <= i < |p'.idle| && p'.idle[i] == c;
      if i < |p.idle| { assert p.idle[i] == c; }
    }
    forall i, j | 0 <= i < j < |p'.idle| ensures p'.idle[i] != p'.idle[j] {
      if j == |p.idle| { assert InIdle(p, p.idle[i]); }
    }
  }

  lemma OwnersHolds(p: Pool, e: PoolEvent)
    requires InvOwners(p) && Enabled(p, e) && (e.Publish? || e.PublishOrConfirmFails? || e.Confirmed? || e.Cancel?)
    ensures InvOwners(Apply(p, e))
  {
    var p' := Apply(p, e);
    OwnersStay(p, p', e.t, p'.tasks[e.t]);
  }

  lemma OwnersElse(p: Pool, e: PoolEvent)
    requires InvOwners(p) && Enabled(p, e)
    requires !e.OpenOk? && !e.ReturnChannel? && (e.Pop? ==> p.idle == [])
    requires !e.Publish? && !e.PublishOrConfirmFails? && !e.Confirmed? && !e.Cancel?
    ensures InvOwners(Apply(p, e))
  {
    hide InvOwners;
    OwnersIdle(p, Apply(p, e));
  }

  lemma OwnersStep(p: Pool, e: PoolEvent)
    requires InvOwners(p) && Enabled(p, e)
    ensures InvOwners(Apply(p, e))
  {
    hide InvOwners, Apply, Enabled;
    if e.Publish? || e.PublishOrConfirmFails? || e.Confirmed? || e.Cancel? {
      OwnersHolds(p, e);
    } else if e.OpenOk? {
      OwnersOpen(p, e.t, e.ch);
    } else if e.ReturnChannel? {
      OwnersReturn(p, e.t);
    } else if e.Pop? && p.idle != [] {
      OwnersPop(p, e.t);
    } else {
      OwnersElse(p, e);
    }
  }

  // ----- return attribution ------------------------------------------------------------------

  /** A live channel carries exactly the publish of the task that awaits it, and nothing else. */
  ghost predicate Clean(channels: map<ChannelId, Channel>, s: Stage) {
    s.Leased() && s.ch in channels && channels[s.ch].connected ==>
      if s.Confirming? then channels[s.ch].Exclusive(s.tag) else channels[s.ch].Quiet()
  }

  ghost predicate InvTruth(p: Pool) {
    && (forall t | t in p.tasks :: Clean(p.channels, p.tasks[t]))
    && (forall i | 0 <= i < |p.idle| :: Clean(p.channels, Fresh(p.idle[i])))
    && (forall k | 0 <= k < |p.reports| :: p.reports[k].result == Ok <==> p.reports[k].routed)
  }

  /** The adversary acting on a channel keeps whatever its holder may rely on. */
  lemma CleanDecide(channels: map<ChannelId, Channel>, s: Stage, ch: ChannelId, tag: Tag, fate: Fate)
    requires Clean(channels, s) && ch in channels && channels[ch].CanDecide(tag) && fate != Sent
    ensures Clean(channels[ch := channels[ch].Decide(tag, fate)], s)
  {
    if s.Leased() && s.ch == ch && s.Confirming? {
      DecideKeepsExclusive(channels[ch], tag, fate);
    }
  }

  lemma TruthDecide(p: Pool, ch: ChannelId, tag: Tag, fate: Fate)
    requires InvTruth(p) && Enabled(p, BrokerDecides(ch, tag, fate))
    ensures InvTruth(Apply(p, BrokerDecides(ch, tag, fate)))
  {
    var p' := Apply(p, BrokerDecides(ch, tag, fate));
    forall t | t in p'.tasks ensures Clean(p'.channels, p'.tasks[t]) {
      CleanDecide(p.channels, p.tasks[t], ch, tag, fate);
    }
    forall i | 0 <= i < |p'.idle| ensures Clean(p'.channels, Fresh(p'.idle[i])) {
      CleanDecide(p.channels, Fresh(p.idle[i]), ch, tag, fate);
    }
  }

  /** A holder acts on its own channel; everyone else's is a different one. */
  lemma TruthOwn(p: Pool, p': Pool, t: Task, c: Channel, s: Stage)
    requires InvTruth(p) && InvOwners(p) && t in p.tasks && p.tasks[t].Leased() && s.Leased()
    requires s.ch == p.tasks[t].ch && s.ch in p.channels
    requires p'.channels == p.channels[s.ch := c] && p'.tasks == p.tasks[t := s] && p'.idle == p.idle
    requires Clean(p'.channels, s)
    ensures forall u | u in p'.tasks :: Clean(p'.channels, p'.tasks[u])
    ensures forall i | 0 <= i < |p'.idle| :: Clean(p'.channels, Fresh(p'.idle[i]))
  {
    forall i | 0 <= i < |p'.idle| ensures Clean(p'.channels, Fresh(p'.idle[i])) {
      assert InIdle(p, p.idle[i]);
      assert Clean(p.channels, Fresh(p.idle[i]));
    }
    forall u | u in p'.tasks ensures Clean(p'.channels, p'.tasks[u]) {
      if u != t { assert Clean(p.channels, p.tasks[u]); }
    }
  }

  lemma TruthResolve(p: Pool, t: Task)
    requires InvTruth(p) && InvOwners(p) && Enabled(p, Confirmed(t))
    ensures InvTruth(Apply(p, Confirmed(t)))
  {
    var p' := Apply(p, Confirmed(t));
    var ch, tag := p.tasks[t].ch, p.tasks[t].tag;
    assert Clean(p.channels, p.tasks[t]);
    ExclusiveIsTruthful(p.channels[ch], tag);
    TruthOwn(p, p', t, p.channels[ch].Resolve(tag), Over(ch));
  }

  lemma TruthPublish(p: Pool, t: Task)
    requires InvTruth(p) && InvOwners(p) && Enabled(p, Publish(t))
    ensures InvTruth(Apply(p, Publish(t)))
  {
    var p' := Apply(p, Publish(t));
    var ch := p.tasks[t].ch;
    assert Clean(p.channels, p.tasks[t]);
    TruthOwn(p, p', t, p.channels[ch].Publish(), p'.tasks[t]);
  }

  lemma TruthOpen(p: Pool, t: Task, ch: ChannelId)
    requires InvTruth(p) && InvOwners(p) && Enabled(p, OpenOk(t, ch))
    ensures InvTruth(Apply(p, OpenOk(t, ch)))
  {
    var p' := Apply(p, OpenOk(t, ch));
    forall u | u in p'.tasks ensures Clean(p'.channels, p'.tasks[u]) {
      if u != t { assert Clean(p.channels, p.tasks[u]); }
    }
    forall i | 0 <= i < |p'.idle| ensures Clean(p'.channels, Fresh(p'.idle[i])) {
      assert Clean(p.channels, Fresh(p.idle[i]));
    }
  }

  /** Steps that touch no channel and hand out none but an idle one or a finished task's. */
  lemma TruthQuiet(p: Pool, p': Pool)
    requires InvTruth(p) && p'.reports == p.reports
    requires forall ch | ch in p'.channels && p'.channels[ch].connected :: ch in p.channels && p'.channels[ch] == p.channels[ch]
    requires forall t | t in p'.tasks && p'.tasks[t].Leased() ::
               || (t in p.tasks && (p'.tasks[t] == p.tasks[t] || (p.tasks[t].Leased() && p'.tasks[t].ch !in Connected(p))))
               || (p'.tasks[t].Fresh? && Clean(p.channels, p'.tasks[t]))
    requires forall i | 0 <= i < |p'.idle| :: Clean(p.channels, Fresh(p'.idle[i]))
    ensures InvTruth(p')
  {
    forall t | t in p'.tasks ensures Clean(p'.channels, p'.tasks[t]) {
      if t in p.tasks { assert Clean(p.channels, p.tasks[t]); }
    }
    forall i | 0 <= i < |p'.idle| ensures Clean(p'.channels, Fresh(p'.idle[i])) {
      assert Clean(p.channels, Fresh(p'.idle[i]));
    }
  }

  function Connected(p: Pool): set<ChannelId> {
    set ch | ch in p.channels && p.channels[ch].connected
  }

  lemma TruthPop(p: Pool, t: Task)
    requires InvTruth(p) && Enabled(p, Pop(t))
    ensures InvTruth(Apply(p, Pop(t)))
  {
    var p' := Apply(p, Pop(t));
    if p.idle != [] {
      assert Clean(p.channels, Fresh(p.idle[|p.idle| - 1]));
    }
    forall i | 0 <= i < |p'.idle| ensures Clean(p.channels, Fresh(p'.idle[i])) {
      assert p'.idle[i] == p.idle[i];
    }
    TruthQuiet(p, p');
  }

  lemma TruthReturn(p: Pool, t: Task)
    requires InvTruth(p) && Enabled(p, ReturnChannel(t))
    ensures InvTruth(Apply(p, ReturnChannel(t)))
  {
    var p' := Apply(p, ReturnChannel(t));
    assert Clean(p.channels, p.tasks[t]);
    forall i | 0 <= i < |p'.idle| ensures Clean(p.channels, Fresh(p'.idle[i])) {
      if i < |p.idle| { assert Clean(p.channels, Fresh(p.idle[i])); }
    }
    TruthQuiet(p, p');
  }

  /** Nothing is pending on a live channel except what some task awaits. */
  lemma NoOrphans(p: Pool, ch: ChannelId, tag: Tag)
    requires InvTruth(p) && Enabled(p, ResolveOrphan(ch, tag))
    ensures forall t | t in p.tasks && p.tasks[t].Leased() :: p.tasks[t].ch != ch
    ensures forall i | 0 <= i < |p.idle| :: p.idle[i] != ch
  {
    forall t | t in p.tasks && p.tasks[t].Leased() ensures p.tasks[t].ch != ch {
      assert Clean(p.channels, p.tasks[t]);
    }
    forall i | 0 <= i < |p.idle| ensures p.idle[i] != ch {
      assert Clean(p.channels, Fresh(p.idle[i]));
    }
  }

  lemma TruthOrphan(p: Pool, ch: ChannelId, tag: Tag)
    requires InvTruth(p) && Enabled(p, ResolveOrphan(ch, tag))
    ensures InvTruth(Apply(p, ResolveOrphan(ch, tag)))
  {
    var p' := Apply(p, ResolveOrphan(ch, tag));
    NoOrphans(p, ch, tag);
    forall t | t in p'.tasks ensures Clean(p'.channels, p'.tasks[t]) {
      assert Clean(p.channels, p.tasks[t]);
    }
    forall i | 0 <= i < |p'.idle| ensures Clean(p'.channels, Fresh(p'.idle[i])) {
      assert Clean(p.channels, Fresh(p.idle[i]));
    }
  }

  lemma TruthElse(p: Pool, e: PoolEvent)
    requires InvTruth(p) && Enabled(p, e) && !p.cancellation
    requires !e.BrokerDecides? && !e.Confirmed? && !e.ResolveOrphan? && !e.Publish? && !e.OpenOk? && !e.Pop?
    requires !e.ReturnChannel?
    ensures InvTruth(Apply(p, e))
  {
    assert forall i | 0 <= i < |p.idle| :: Clean(p.channels, Fresh(p.idle[i]));
    hide InvTruth, Clean;
    TruthQuiet(p, Apply(p, e));
  }

  lemma TruthStep(p: Pool, e: PoolEvent)
    requires InvTruth(p) && InvOwners(p) && Enabled(p, e) && !p.cancellation
    ensures InvTruth(Apply(p, e))
  {
    hide InvTruth, InvOwners, Apply, Enabled;
    match e
    case BrokerDecides(ch, tag, fate) => TruthDecide(p, ch, tag, fate);
    case Confirmed(t) => TruthResolve(p, t);
    case ResolveOrphan(ch, tag) => TruthOrphan(p, ch, tag);
    case Publish(t) => TruthPublish(p, t);
    case OpenOk(t, ch) => TruthOpen(p, t, ch);
    case Pop(t) => TruthPop(p, t);
    case ReturnChannel(t) => TruthReturn(p, t);
    case _ => TruthElse(p, e);
  }

  // ----- closing -----------------------------------------------------------------------------

  ghost predicate Accounted(p: Pool, ch: ChannelId) {
    || InIdle(p, ch) || InLease(p, ch) || ch in p.taken
    || (ch in p.discarded && ch in p.channels && !p.channels[ch].connected)
  }

  ghost predicate InvClose(p: Pool) {
    && (p.SemClosed() ==> p.tasks == map[])
    && (p.closer.ChannelsTaken? || p.closer.Closed? ==> p.idle == [])
    && (forall ch | ch in p.channels :: Accounted(p, ch))
  }

  /** Steps after which every channel is held as before, or by the same task under another name. */
  lemma CloseStay(p: Pool, p': Pool)
    requires InvClose(p) && p'.idle == p.idle && p'.taken == p.taken && p'.discarded == p.discarded
    requires p'.closer == p.closer && (p'.SemClosed() ==> p'.tasks == map[])
    requires p'.channels.Keys == p.channels.Keys
    requires forall ch | ch in p.channels :: p'.channels[ch].connected ==> p.channels[ch].connected
    requires forall t | t in p.tasks && p.tasks[t].Leased() ::
               t in p'.tasks && p'.tasks[t].Leased() && p'.tasks[t].ch == p.tasks[t].ch
    ensures InvClose(p')
  {
    forall ch | ch in p'.channels ensures Accounted(p', ch) {
      assert Accounted(p, ch);
      if InIdle(p, ch) { assert InIdle(p', ch); }
      if InLease(p, ch) { assert InLease(p', ch); }
    }
  }

  lemma ClosePop(p: Pool, t: Task)
    requires InvClose(p) && Enabled(p, Pop(t))
    ensures InvClose(Apply(p, Pop(t)))
  {
    var p' := Apply(p, Pop(t));
    var n := |p.idle| - 1;
    forall ch | ch in p'.channels ensures Accounted(p', ch) {
      assert Accounted(p, ch);
      if InIdle(p, ch) {
        var i :| 0 <= i < |p.idle| && p.idle[i] == ch;
        if i < n {
          assert p'.idle[i] == ch;
          assert InIdle(p', ch);
        } else if p.Live(ch) {
          assert p'.tasks[t] == Fresh(ch);
          assert InLease(p', ch);
        }
      } else if InLease(p, ch) {
        var u :| u in p.tasks && p.tasks[u].Leased() && p.tasks[u].ch == ch;
        assert p'.tasks[u] == p.tasks[u];
        assert InLease(p', ch);
      }
    }
  }

  lemma CloseOpen(p: Pool, t: Task, c: ChannelId)
    requires InvClose(p) && Enabled(p, OpenOk(t, c))
    ensures InvClose(Apply(p, OpenOk(t, c)))
  {
    var p' := Apply(p, OpenOk(t, c));
    forall ch | ch in p'.channels ensures Accounted(p', ch) {
      if ch == c {
        assert p'.tasks[t] == Fresh(c);
      } else {
        assert Accounted(p, ch);
        if InIdle(p, ch) { assert InIdle(p', ch); }
        if InLease(p, ch) {
          var u :| u in p.tasks && p.tasks[u].Leased() && p.tasks[u].ch == ch;
          assert p'.tasks[u] == p.tasks[u];
        }
      }
    }
  }

  lemma CloseReturn(p: Pool, t: Task)
    requires InvClose(p) && Enabled(p, ReturnChannel(t))
    ensures InvClose(Apply(p, ReturnChannel(t)))
  {
    var p' := Apply(p, ReturnChannel(t));
    forall ch | ch in p'.channels ensures Accounted(p', ch) {
      assert Accounted(p, ch);
      if InIdle(p, ch) {
        var i :| 0 <= i < |p.idle| && p.idle[i] == ch;
        assert p'.idle[i] == ch;
      } else if InLease(p, ch) {
        var u :| u in p.tasks && p.tasks[u].Leased() && p.tasks[u].ch == ch;
        if u == t {
          assert p'.idle[|p.idle|] == ch;
        } else {
          assert p'.tasks[u] == p.tasks[u];
        }
      }
    }
  }

  /** Taking the last permit means nobody holds one, so what the closer takes is everything. */
  lemma CloseSteps(p: Pool, e: PoolEvent)
    requires InvClose(p) && InvBound(p) && Enabled(p, e)
    requires e.CloseStart? || e.CloseCollect? || e.CloseSemaphore? || e.CloseTake? || e.CloseDone?
    ensures InvClose(Apply(p, e))
  {
    var p' := Apply(p, e);
    if e.CloseSemaphore? {
      assert |p.tasks.Keys| == 0;
      assert p.tasks.Keys == {};
    }
    forall ch | ch in p'.channels ensures Accounted(p', ch) {
      assert Accounted(p, ch);
      if InIdle(p, ch) && !e.CloseTake? { assert InIdle(p', ch); }
      if InLease(p, ch) { assert InLease(p', ch); }
    }
  }

  /** Steps of one task that neither give nor take a channel. */
  predicate OwnStep(e: PoolEvent) {
    e.GetPermit? || e.OpenFails? || e.Publish? || e.PublishOrConfirmFails? || e.Confirmed? || e.Cancel? || e.ReleasePermit?
  }

  lemma CloseOwn(p: Pool, e: PoolEvent)
    requires InvClose(p) && InvBound(p) && Enabled(p, e) && OwnStep(e)
    ensures InvClose(Apply(p, e))
  {
    CloseStay(p, Apply(p, e));
  }

  lemma CloseElse(p: Pool, e: PoolEvent)
    requires InvClose(p) && InvBound(p) && Enabled(p, e)
    requires e.Arrive? || e.AcquireFails? || e.BrokerDecides? || e.ResolveOrphan? || e.Die?
    ensures InvClose(Apply(p, e))
  {
    CloseStay(p, Apply(p, e));
  }

  lemma CloseStep(p: Pool, e: PoolEvent)
    requires InvClose(p) && InvBound(p) && Enabled(p, e)
    ensures InvClose(Apply(p, e))
  {
    hide InvClose, InvBound, Apply, Enabled;
    match e
    case Pop(t) => ClosePop(p, t);
    case OpenOk(t, ch) => CloseOpen(p, t, ch);
    case ReturnChannel(t) => CloseReturn(p, t);
    case CloseStart => CloseSteps(p, e);
    case CloseCollect => CloseSteps(p, e);
    case CloseSemaphore => CloseSteps(p, e);
    case CloseTake => CloseSteps(p, e);
    case CloseDone => CloseSteps(p, e);
    case Arrive(_) => CloseElse(p, e);
    case AcquireFails(_) => CloseElse(p, e);
    case BrokerDecides(_, _, _) => CloseElse(p, e);
    case ResolveOrphan(_, _) => CloseElse(p, e);
    case Die(_) => CloseElse(p, e);
    case _ => CloseOwn(p, e);
  }

  // ----- whole runs --------------------------------------------------------------------------

  ghost predicate Run(states: seq<Pool>, events: seq<PoolEvent>) {
    && |states| == |events| + 1
    && Init(states[0])
    && forall i | 0 <= i < |events| ::
         Enabled(states[i], events[i]) && states[i + 1] == Apply(states[i], events[i])
  }

  lemma InitHolds(p: Pool)
    requires Init(p)
    ensures InvBound(p) && InvOwners(p) && InvTruth(p) && InvClose(p)
  {
    assert p.tasks.Keys == {} && Channelled(p) == {};
    assert InIdle(p, p.idle[0]);
  }

  lemma SettingsAreFixed(p: Pool, e: PoolEvent)
    requires Enabled(p, e)
    ensures Apply(p, e).size == p.size && Apply(p, e).cancellation == p.cancellation
  {
    hide Enabled;
  }

  lemma {:induction false} RunHolds(states: seq<Pool>, events: seq<PoolEvent>, i: nat)
    requires Run(states, events) && i < |states|
    ensures InvBound(states[i]) && InvOwners(states[i]) && InvClose(states[i])
    ensures states[i].size == states[0].size && states[i].cancellation == states[0].cancellation
    ensures !states[0].cancellation ==> InvTruth(states[i])
  {
    hide InvBound, InvOwners, InvClose, InvTruth, Apply;
    if i == 0 {
      InitHolds(states[0]);
    } else {
      RunHolds(states, events, i - 1);
      var p, e := states[i - 1], events[i - 1];
      SettingsAreFixed(p, e);
      BoundStep(p, e);
      OwnersStep(p, e);
      CloseStep(p, e);
      if !p.cancellation {
        TruthStep(p, e);
      }
    }
  }

  /** The size bound, in every reachable state: idle channels, leased channels and channels being
      opened never add up to more than the pool size. */
  lemma PoolNeverOutgrowsItsSize(states: seq<Pool>, events: seq<PoolEvent>, i: nat)
    requires Run(states, events) && i < |states|
    ensures |states[i].idle| + |Channelled(states[i])| <= states[0].size
  {
    RunHolds(states, events, i);
  }

  /** What checking a channel out does, in every run: the idle channel on top is leased exactly when it
      is alive; a dead one is thrown away, never leased, and an empty list leases nothing, and then the
      task opens a channel of its own: any that is new will do, and it is alive. So one dead channel
      does not disable publishing. */
  lemma OnlyLiveChannelsAreLeased(states: seq<Pool>, events: seq<PoolEvent>, i: nat, t: Task)
    requires Run(states, events) && i < |events| && events[i] == Pop(t)
    ensures var p, q := states[i], states[i + 1];
            && (p.idle != [] ==> q.idle == p.idle[..|p.idle| - 1])
            && (p.idle == [] ==> q.idle == [])
            && (if p.idle != [] && p.Live(p.idle[|p.idle| - 1]) then q.At(t, Fresh(p.idle[|p.idle| - 1]))
                else
                  && q.At(t, Opening)
                  && (p.idle != [] ==> p.idle[|p.idle| - 1] in q.discarded)
                  && forall ch | ch !in q.channels ::
                       && Enabled(q, OpenOk(t, ch))
                       && Apply(q, OpenOk(t, ch)).At(t, Fresh(ch)) && Apply(q, OpenOk(t, ch)).Live(ch))
  {
  }

  /** A publish is refused a channel only because the pool was shut, and the pool is shut only once the
      closer has every permit, which leaves no publish under way. */
  lemma RefusedOnlyOnceShut(states: seq<Pool>, events: seq<PoolEvent>, i: nat, t: Task)
    requires Run(states, events) && i < |events| && events[i] == AcquireFails(t)
    ensures exists j | 0 <= j < i :: events[j] == CloseSemaphore && states[j + 1].tasks == map[]
  {
    ShutByTheCloser(states, events, i);
  }

  lemma {:induction false} ShutByTheCloser(states: seq<Pool>, events: seq<PoolEvent>, i: nat)
    requires Run(states, events) && i < |states| && states[i].SemClosed()
    ensures exists j | 0 <= j < i :: events[j] == CloseSemaphore && states[j + 1].tasks == map[]
    decreases i
  {
    var p := states[i - 1];
    if p.SemClosed() {
      ShutByTheCloser(states, events, i - 1);
    } else {
      ShutsAtOnce(p, events[i - 1]);
      RunHolds(states, events, i);
    }
  }

  lemma ShutsAtOnce(p: Pool, e: PoolEvent)
    requires Enabled(p, e) && !p.SemClosed() && Apply(p, e).SemClosed()
    ensures e == CloseSemaphore
  {
  }

  /** What may go wrong may do so at any time: any live channel may die, an open may fail, a publish whose
      future may be dropped may be, and the broker may route, return or refuse whatever it was sent. */
  lemma AnythingMayGoWrong(p: Pool, ch: ChannelId, t: Task, tag: Tag, fate: Fate)
    ensures p.Live(ch) ==> Enabled(p, Die(ch)) && !Apply(p, Die(ch)).Live(ch)
    ensures p.At(t, Opening) ==> Enabled(p, OpenFails(t))
    ensures p.cancellation && p.At(t, Confirming(ch, tag)) ==> Enabled(p, Cancel(t))
    ensures p.Live(ch) && tag in p.channels[ch].pending && p.channels[ch].pending[tag] == Sent && fate != Sent ==>
              Enabled(p, BrokerDecides(ch, tag, fate))
    ensures p.closer.NotClosing? ==> Enabled(p, CloseStart)
    ensures t !in p.waiting && t !in p.tasks && t !in p.finished ==> Enabled(p, Arrive(t))
  {
  }

  /** Return attribution, in every run in which no publish is dropped between publish and confirm:
      `publish_confirmed` reports success for a publish if and only if the broker stored it. */
  lemma SuccessMeansRouted(states: seq<Pool>, events: seq<PoolEvent>, i: nat)
    requires Run(states, events) && i < |states| && !states[0].cancellation
    ensures forall k | 0 <= k < |states[i].reports| ::
              states[i].reports[k].result == Ok <==> states[i].reports[k].routed
  {
    RunHolds(states, events, i);
  }

  /** What is reported is what the confirm said, and whether the broker had routed the message. */
  lemma ReportsAreTrue(p: Pool, t: Task)
    requires Enabled(p, PoolEvent.Confirmed(t))
    ensures var c, tag := p.channels[p.tasks[t].ch], p.tasks[t].tag;
            var reports := Apply(p, PoolEvent.Confirmed(t)).reports;
            && |reports| == |p.reports| + 1 && reports[..|p.reports|] == p.reports
            && (reports[|p.reports|].result == Ok <==> c.returned == [] && c.pending[tag] != Refused)
            && (reports[|p.reports|].routed <==> c.pending[tag] == Routed)
  {
  }

  /** ... and in every such state a live channel never has two publishes pending. */
  lemma OnePendingPerChannel(states: seq<Pool>, events: seq<PoolEvent>, i: nat, ch: ChannelId)
    requires Run(states, events) && i < |states| && !states[0].cancellation
    requires states[i].Live(ch) && ch !in states[i].taken
    ensures |states[i].channels[ch].pending.Keys| <= 1
  {
    RunHolds(states, events, i);
    var p := states[i];
    assert Accounted(p, ch);
    if InIdle(p, ch) {
      var k :| 0 <= k < |p.idle| && p.idle[k] == ch;
      assert Clean(p.channels, Fresh(p.idle[k]));
    } else {
      var t :| t in p.tasks && p.tasks[t].Leased() && p.tasks[t].ch == ch;
      assert Clean(p.channels, p.tasks[t]);
    }
  }

  /** Once the pool has been taken down, no publish is in flight, every channel that was ever
      opened either is among those the closer closes or was found dead earlier, and every acquire
      that still waits can only fail. */
  lemma CloseLeavesNothing(states: seq<Pool>, events: seq<PoolEvent>, i: nat)
    requires Run(states, events) && i < |states|
    requires states[i].closer.ChannelsTaken? || states[i].closer.Closed?
    ensures states[i].tasks == map[] && states[i].idle == []
    ensures forall ch | ch in states[i].channels && states[i].channels[ch].connected :: ch in states[i].taken
    ensures forall t :: !Enabled(states[i], GetPermit(t))
    ensures forall t | t in states[i].waiting :: Enabled(states[i], AcquireFails(t))
  {
    RunHolds(states, events, i);
    var p := states[i];
    forall ch | ch in p.channels && p.channels[ch].connected ensures ch in p.taken {
      assert Accounted(p, ch);
    }
  }

  // ----- the pool object ---------------------------------------------------------------------

  /** `pool_size`: the configured publish concurrency as a permit count, never zero. */
  function PoolSize(publishConcurrency: nat): (size: nat)
    ensures 1 <= size <= U32_MAX
    ensures 1 <= publishConcurrency <= U32_MAX ==> size == publishConcurrency
    ensures publishConcurrency == 0 ==> size == 1
    ensures publishConcurrency > U32_MAX ==> size == U32_MAX
  {
    var n := if publishConcurrency <= U32_MAX then publishConcurrency else U32_MAX;
    if n < 1 then 1 else n
  }

  /** The first error in a list of results. */
  function FirstError(results: seq<Option<nat>>): Option<nat> {
    if results == [] then None
    else if results[0].Some? then results[0] else FirstError(results[1..])
  }

  lemma {:induction false} FirstErrorAppend(results: seq<Option<nat>>, r: Option<nat>)
    ensures FirstError(results + [r]) == if FirstError(results).Some? then FirstError(results) else r
  {
    if results == [] {
      assert results + [r] == [r];
    } else {
      assert (results + [r])[1..] == results[1..] + [r];
      FirstErrorAppend(results[1..], r);
    }
  }

  /** The idle list, popped and pushed under its lock. */
  class ConfirmChannels {
    var idle: seq<ChannelId>

    constructor (seed: ChannelId)
      ensures idle == [seed]
    {
      idle := [seed];
    }

    /** The lock section of `acquire`, against the step the pool takes. */
    method PopLive(live: set<ChannelId>, ghost p: Pool, ghost t: Task)
      returns (leased: Option<ChannelId>, dead: Option<ChannelId>)
      requires p.idle == idle && forall ch :: p.Live(ch) <==> ch in live
      modifies this
      ensures idle == PopStep(p, t).idle
      ensures PopStep(p, t).tasks[t] == if leased.Some? then Fresh(leased.value) else Opening
      ensures PopStep(p, t).discarded == p.discarded + (if dead.Some? then {dead.value} else {})
      ensures leased.Some? ==> leased.value in live && dead == None
      ensures dead.Some? ==> dead.value !in live
      ensures old(idle) == [] ==> leased == None && dead == None && idle == []
      ensures old(idle) != [] ==>
                && idle == old(idle)[..|old(idle)| - 1]
                && (leased == Some(old(idle)[|old(idle)| - 1]) || dead == Some(old(idle)[|old(idle)| - 1]))
    {
      leased, dead := None, None;
      if idle != [] {
        var ch := idle[|idle| - 1];
        idle := idle[..|idle| - 1];
        if ch in live { leased := Some(ch); } else { dead := Some(ch); }
      }
    }

    /** The lease's drop, against the step the pool takes: the channel goes back, dead or alive, and
        the list still names no channel twice and none that another task holds, and never outgrows
        the pool. */
    method Push(ch: ChannelId, ghost p: Pool, ghost t: Task)
      requires p.idle == idle && p.At(t, Over(ch)) && InvOwners(p) && InvBound(p)
      modifies this
      ensures idle == ReturnStep(p, t).idle
      ensures forall i, j | 0 <= i < j < |idle| :: idle[i] != idle[j]
      ensures forall u | u in p.tasks && u != t && p.tasks[u].Leased() :: p.tasks[u].ch !in idle
      ensures |idle| <= p.size && idle != [] && idle[|idle| - 1] == ch
    {
      OwnersReturn(p, t);
      BoundReturn(p, t);
      idle := idle + [ch];
      ghost var after := ReturnStep(p, t);
      forall u | u in p.tasks && u != t && p.tasks[u].Leased() ensures p.tasks[u].ch !in idle {
        assert after.tasks[u] == p.tasks[u];
        assert !InIdle(after, p.tasks[u].ch);
      }
    }

    /** Closes every channel in the list even when one fails, and reports the first error.
        `outcome` is the broker's answer per channel. */
    method CloseAll(outcome: ChannelId -> Option<nat>) returns (attempted: seq<ChannelId>, error: Option<nat>)
      modifies this
      ensures idle == [] && attempted == old(idle)
      ensures error == FirstError(seq(|old(idle)|, i requires 0 <= i < |old(idle)| => outcome(old(idle)[i])))
      ensures error == None <==> forall i | 0 <= i < |old(idle)| :: outcome(old(idle)[i]) == None
      ensures error != None ==>
                exists i | 0 <= i < |old(idle)| ::
                  outcome(old(idle)[i]) == error && forall j | 0 <= j < i :: outcome(old(idle)[j]) == None
    {
      var channels := idle;
      idle := [];
      attempted, error := [], None;
      ghost var results: seq<Option<nat>> := [];
      for i := 0 to |channels|
        invariant idle == [] && attempted == channels[..i]
        invariant results == seq(i, k requires 0 <= k < i => outcome(channels[k]))
        invariant error == FirstError(results)
        invariant error == None ==> forall j | 0 <= j < i :: outcome(channels[j]) == None
        invariant error != None ==>
                    exists k | 0 <= k < i ::
                      outcome(channels[k]) == error && forall j | 0 <= j < k :: outcome(channels[j]) == None
      {
        var closed := outcome(channels[i]);
        FirstErrorAppend(results, closed);
        results := results + [closed];
        attempted := attempted + [channels[i]];
        if error.None? {
          error := closed;
        }
      }
      assert results == seq(|channels|, i requires 0 <= i < |channels| => outcome(channels[i]));
    }
  }
}
