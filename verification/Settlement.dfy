/** How a job moves between the broker and the workers (crates/core/src/worker.rs:534-631,
    crates/rabbitmq/src/delivery.rs:116-193, publisher.rs:357-516): every retry, deferral and
    dead letter publishes a successor, waits for its confirm and only then acks the original.
    Any number of workers and producers; any of them may die at any step, any unacked message may
    come back at any step, any publish may fail whether or not it landed.

    Assumed of the broker: a main queue is never deleted, a dead-letter queue only when empty, a
    confirm tells the truth (see ConfirmPool.SuccessMeansRouted), and no message TTL is set on a main
    queue. A hold queue may be deleted with messages in it (see HoldQueue.PublishIsLostExactlyWhen). */
module Settlement {
  import opened Envelopes
  import opened Dispatch
  import ConfirmChannel
  import Topology

  type JobId = nat
  type CopyId = nat
  type Tag = nat
  type Task = nat

  datatype Place = Main | Hold(ttl: nat) | DeadQueue

  /** One message at the broker. `owner` is the delivery it is out on, if any. */
  datatype Copy = Copy(env: Envelope, place: Place, owner: Option<Tag>)

  /** The delivery a worker is settling. */
  datatype Source = Source(copy: CopyId, tag: Tag)

  /** What has become of a publish. */
  datatype Progress = Sent | Stored(id: CopyId) | Bounced | Refused

  datatype Reason = Handled | Moved(successor: CopyId)

  datatype Work =
    | Running(src: Source, env: Envelope)
    | Declaring(from: Option<Source>, env: Envelope, ttl: nat)
    | Publishing(from: Option<Source>, env: Envelope, place: Place, progress: Progress)
    | Acking(src: Source, env: Envelope, why: Reason)
    | Rejecting(src: Source, env: Envelope)

  /** How the run of a delivery's handler ended, with the random draw for its backoff. */
  datatype Verdict = Verdict(copy: CopyId, handler: Option<Handler>, draw: real)

  datatype State = State(
    ownsDead: bool,                 // declare_dead_letter_queues
    declared: set<Text>,            // queues declared through this backend
    queues: set<Text>,              // main queues that exist
    deads: set<Text>,               // queues whose dead-letter queue exists
    holds: set<(Text, nat)>,        // hold queues that exist
    copies: map<CopyId, Copy>,
    landed: map<CopyId, Envelope>,  // every message the broker ever stored
    places: map<CopyId, Place>,     // ... and where it put it
    verdicts: map<Tag, Verdict>,    // how the run of each delivery ended
    nextId: CopyId,
    nextTag: Tag,
    tasks: map<Task, Work>,
    accepted: set<JobId>,
    handled: set<JobId>,            // jobs some run of whose handler returned Ok
    succeeded: set<JobId>,
    rejected: set<JobId>,
    dropped: set<JobId>)            // jobs with a message in a hold queue that was deleted
  {
    predicate Exists(env: Envelope, place: Place) {
      match place
      case Main => env.queue in queues
      case Hold(ttl) => (env.queue, ttl) in holds
      case DeadQueue => env.queue in deads
    }

    function Move(t: Task, w: Work): State { this.(tasks := tasks[t := w]) }

    function End(t: Task): State { this.(tasks := tasks - {t}) }

    function Store(env: Envelope, place: Place): State {
      this.(copies := copies[nextId := Copy(env, place, None)],
            landed := landed[nextId := env], places := places[nextId := place], nextId := nextId + 1)
    }

    predicate Owns(src: Source) { src.copy in copies && copies[src.copy].owner == Some(src.tag) }

    function Remove(id: CopyId): State { this.(copies := copies - {id}) }

    function With(id: CopyId, c: Copy): State { this.(copies := copies[id := c]) }

    predicate HeldIn(id: CopyId, q: Text, ttl: nat) {
      id in copies && copies[id].env.queue == q && copies[id].place == Hold(ttl)
    }
  }

  datatype Event =
    | Enqueue(t: Task, env: Envelope, hold: Option<nat>)      // a producer publishes, perhaps with a delay
    | Deliver(id: CopyId, t: Task)
    | Finish(t: Task, h: Option<Handler>, draw: real, ttl: Option<nat>)
    | DeclareHold(t: Task)
    | BrokerStores(t: Task)
    | BrokerBounces(t: Task)
    | BrokerRefuses(t: Task, anyway: bool)                    // a nack; the message may be stored anyway
    | ConfirmArrives(t: Task)
    | OperationFails(t: Task)                                 // declare, publish, confirm, ack or reject
    | AckArrives(t: Task)
    | RejectArrives(t: Task)
    | HoldElapses(id: CopyId)
    | Requeue(id: CopyId)                                     // a channel or connection is gone
    | Dies(t: Task)                                           // its process is gone
    | Crash                                                   // everything on the client side at once
    | DeleteHold(q: Text, wait: nat)
    | DeleteDead(q: Text)
    | CreateDead(q: Text)

  /** The channel with this one publish outstanding, as the broker's answer leaves it. */
  function Confirmation(p: Progress): ConfirmChannel.Confirmation {
    match p
    case Stored(_) => ConfirmChannel.Ack(None)
    case Bounced => ConfirmChannel.Ack(Some(1))
    case Refused => ConfirmChannel.Nack(None)
    case Sent => ConfirmChannel.NotRequested
  }

  predicate Unpublished(s: State, t: Task) {
    t in s.tasks && s.tasks[t].Publishing? && s.tasks[t].progress.Sent?
  }

  predicate Enabled(s: State, e: Event) {
    match e
    case Enqueue(t, env, hold) => t !in s.tasks
    case Deliver(id, t) => id in s.copies && s.copies[id].place.Main? && s.copies[id].owner.None? && t !in s.tasks
    case Finish(t, h, draw, ttl) => t in s.tasks && s.tasks[t].Running? && 0.0 <= draw <= 1.0
    case DeclareHold(t) => t in s.tasks && s.tasks[t].Declaring?
    case BrokerStores(t) => Unpublished(s, t) && s.Exists(s.tasks[t].env, s.tasks[t].place)
    case BrokerBounces(t) => Unpublished(s, t) && !s.Exists(s.tasks[t].env, s.tasks[t].place)
    case BrokerRefuses(t, anyway) =>
      Unpublished(s, t) && (anyway ==> s.Exists(s.tasks[t].env, s.tasks[t].place))
    case ConfirmArrives(t) => t in s.tasks && s.tasks[t].Publishing? && !s.tasks[t].progress.Sent?
    case OperationFails(t) => t in s.tasks && !s.tasks[t].Running?
    case AckArrives(t) => t in s.tasks && s.tasks[t].Acking?
    case RejectArrives(t) => t in s.tasks && s.tasks[t].Rejecting?
    case HoldElapses(id) => id in s.copies && s.copies[id].place.Hold?
    case Requeue(id) => id in s.copies
    case Dies(t) => t in s.tasks
    case Crash => true
    case DeleteHold(q, ttl) => true
    case DeleteDead(q) =>
      forall id | id in s.copies :: !(s.copies[id].env.queue == q && s.copies[id].place.DeadQueue?)
    case CreateDead(q) => true
  }

  /** `publish_held`: refuse an undeclared queue or a delay with no TTL, else declare. */
  function StartHold(s: State, t: Task, from: Option<Source>, env: Envelope, ttl: Option<nat>): State {
    if env.queue !in s.declared || ttl.None? then s.End(t)
    else s.Move(t, Declaring(from, env, ttl.value))
  }

  /** The settling call the plan asks for. */
  function Settle(s: State, t: Task, src: Source, env: Envelope, plan: Dispatch.Settle, ttl: Option<nat>): State {
    match plan
    case Ack => s.Move(t, Acking(src, env, Handled))
    case RetryLater(next, _) => StartHold(s, t, Some(src), next, ttl)
    case DeferUntil(next, _) => StartHold(s, t, Some(src), next, ttl)
    case DeadLetter(_) =>
      if s.ownsDead then s.Move(t, Publishing(Some(src), env, DeadQueue, Sent))
      else s.Move(t, Rejecting(src, env))
  }

  function Apply(s: State, e: Event): State
    requires Enabled(s, e)
  {
    match e
    case Enqueue(t, env, hold) =>
      if hold.None? then s.Move(t, Publishing(None, env, Main, Sent))
      else StartHold(s, t, None, env, hold)
    case Deliver(id, t) =>
      var c := s.copies[id];
      s.With(id, c.(owner := Some(s.nextTag)))
        .Move(t, Running(Source(id, s.nextTag), c.env)).(nextTag := s.nextTag + 1)
    case Finish(t, h, draw, ttl) =>
      var w := s.tasks[t];
      var ran := if h.Some? && h.value.outcome.Success? then {w.env.jobId} else {};
      Settle(s.(handled := s.handled + ran, verdicts := s.verdicts[w.src.tag := Verdict(w.src.copy, h, draw)]),
             t, w.src, w.env, Plan(w.env, h, draw), ttl)
    case DeclareHold(t) =>
      var w := s.tasks[t];
      s.(holds := s.holds + {(w.env.queue, w.ttl)}).Move(t, Publishing(w.from, w.env, Hold(w.ttl), Sent))
    case BrokerStores(t) =>
      var w := s.tasks[t];
      s.Store(w.env, w.place).Move(t, w.(progress := Stored(s.nextId)))
    case BrokerBounces(t) => s.Move(t, s.tasks[t].(progress := Bounced))
    case BrokerRefuses(t, anyway) =>
      var w := s.tasks[t];
      var s' := if anyway then s.Store(w.env, w.place) else s;
      s'.Move(t, w.(progress := Refused))
    case ConfirmArrives(t) =>
      var w := s.tasks[t];
      if ConfirmChannel.ConfirmationToResult(Confirmation(w.progress)) != ConfirmChannel.Ok then s.End(t)
      else if w.from.None? then s.End(t).(accepted := s.accepted + {w.env.jobId})
      else s.Move(t, Acking(w.from.value, w.env, Moved(w.progress.id)))
    case OperationFails(t) => s.End(t)
    case AckArrives(t) =>
      var w := s.tasks[t];
      var s' := if w.why.Handled? && s.Owns(w.src)
                then s.(succeeded := s.succeeded + {w.env.jobId}) else s;
      if s.Owns(w.src) then s'.Remove(w.src.copy).End(t) else s'.End(t)
    case RejectArrives(t) =>
      var w := s.tasks[t];
      if s.Owns(w.src) then s.Remove(w.src.copy).End(t).(rejected := s.rejected + {w.env.jobId}) else s.End(t)
    case HoldElapses(id) =>
      var c := s.copies[id];
      // A TTL expiry into a queue that does not exist is dropped without a word.
      if c.env.queue in s.queues then s.With(id, c.(place := Main)) else s.Remove(id)
    case Requeue(id) => s.With(id, s.copies[id].(owner := None))
    case Dies(t) => s.End(t)
    case Crash => s.(tasks := map[], copies := map id | id in s.copies :: s.copies[id].(owner := None))
    case DeleteHold(q, ttl) =>
      s.(holds := s.holds - {(q, ttl)},
         copies := map id | id in s.copies && !s.HeldIn(id, q, ttl) :: s.copies[id],
         dropped := s.dropped + (set id | id in s.copies && s.HeldIn(id, q, ttl) :: s.copies[id].env.jobId))
    case DeleteDead(q) => s.(deads := s.deads - {q})
    case CreateDead(q) => s.(deads := s.deads + {q})
  }

  // ----- the invariant -----------------------------------------------------------------------

  /** The job is over or was dropped with a hold queue, or the broker has a message for it younger
      than `b`. */
  ghost predicate SafeAbove(s: State, j: JobId, b: int) {
    || j in s.succeeded
    || j in s.rejected
    || j in s.dropped
    || exists id :: id in s.copies && id > b && s.copies[id].env.jobId == j
  }

  ghost predicate KnownSource(s: State, src: Source, j: JobId) {
    src.copy in s.landed && s.landed[src.copy].jobId == j
  }

  /** What each stage of a task may rely on. */
  ghost predicate WorkOk(s: State, w: Work) {
    match w
    case Running(src, env) => KnownSource(s, src, env.jobId)
    case Declaring(from, env, ttl) =>
      env.queue in s.declared && (from.Some? ==> KnownSource(s, from.value, env.jobId))
    case Publishing(from, env, place, progress) =>
      && (from.Some? ==> KnownSource(s, from.value, env.jobId))
      && (place.Hold? ==> env.queue in s.declared)
      && (progress.Stored? ==>
            && SafeAbove(s, env.jobId, if from.Some? then from.value.copy else -1)
            && progress.id in s.landed && s.landed[progress.id] == env
            && (from.Some? ==> progress.id > from.value.copy))
    case Acking(src, env, why) =>
      && KnownSource(s, src, env.jobId)
      && (why.Handled? ==> env.jobId in s.handled)
      && (why.Moved? ==>
            && SafeAbove(s, env.jobId, src.copy)
            && why.successor in s.landed && SameJob(s.landed[why.successor], env)
            && why.successor > src.copy)
    case Rejecting(src, env) => KnownSource(s, src, env.jobId) && !s.ownsDead
  }

  ghost predicate InvCopies(s: State) {
    && s.declared <= s.queues
    && (forall id | id in s.copies :: id in s.landed && s.landed[id] == s.copies[id].env)
    && (forall id | id in s.landed :: id < s.nextId)
    && (forall id | id in s.copies && s.copies[id].place.Hold? :: s.copies[id].env.queue in s.queues)
    && (s.ownsDead ==> s.rejected == {})
    && s.succeeded <= s.handled
  }

  ghost predicate Inv(s: State) {
    && InvCopies(s)
    && (forall t | t in s.tasks :: WorkOk(s, s.tasks[t]))
    && (forall j | j in s.accepted :: SafeAbove(s, j, -1))
  }

  ghost predicate Init(s: State) {
    && s.copies == map[] && s.landed == map[] && s.places == map[] && s.verdicts == map[] && s.tasks == map[]
    && s.accepted == {} && s.handled == {} && s.succeeded == {} && s.rejected == {} && s.dropped == {}
    && s.declared <= s.queues
  }

  /** Nothing a step may rely on is taken away: settings stay, every record grows and no job loses
      its standing. */
  ghost predicate Grows(s: State, s': State) {
    && s'.ownsDead == s.ownsDead && s'.declared == s.declared && s.handled <= s'.handled
    && (forall id | id in s.landed :: id in s'.landed && s'.landed[id] == s.landed[id])
    && (forall j, b: int :: SafeAbove(s, j, b) ==> SafeAbove(s', j, b))
  }

  lemma GrowsKeepsWork(s: State, s': State, w: Work)
    requires Grows(s, s') && WorkOk(s, w)
    ensures WorkOk(s', w)
  {
  }

  /** Steps that remove no message. */
  lemma KeepingGrows(s: State, s': State)
    requires s'.ownsDead == s.ownsDead && s'.declared == s.declared && s.handled <= s'.handled
    requires s'.succeeded == s.succeeded && s'.rejected == s.rejected && s'.dropped == s.dropped
    requires forall id | id in s.landed :: id in s'.landed && s'.landed[id] == s.landed[id]
    requires forall id | id in s.copies :: id in s'.copies && s'.copies[id].env == s.copies[id].env
    ensures Grows(s, s')
  {
    forall j, b: int | SafeAbove(s, j, b) ensures SafeAbove(s', j, b) {
      if j !in s.succeeded && j !in s.rejected && j !in s.dropped {
        var id :| id in s.copies && id > b && s.copies[id].env.jobId == j;
        assert id in s'.copies && s'.copies[id].env.jobId == j;
      }
    }
  }

  /** Removing a message is safe when its job is over, or has a younger message: whoever counted on
      the removed one can count on that instead. */
  lemma RemovalGrows(s: State, s': State, c: CopyId, j0: JobId)
    requires s'.ownsDead == s.ownsDead && s'.declared == s.declared && s'.landed == s.landed
    requires s.handled <= s'.handled
    requires s'.copies == s.copies - {c} && (c in s.copies ==> s.copies[c].env.jobId == j0)
    requires s.succeeded <= s'.succeeded && s.rejected <= s'.rejected && s'.dropped == s.dropped
    requires j0 in s'.succeeded || j0 in s'.rejected || SafeAbove(s, j0, c)
    ensures Grows(s, s')
  {
    forall j, b: int | SafeAbove(s, j, b) ensures SafeAbove(s', j, b) {
      if j !in s'.succeeded && j !in s'.rejected && j !in s'.dropped {
        var id :| id in s.copies && id > b && s.copies[id].env.jobId == j;
        if id != c {
          assert id in s'.copies && s'.copies[id].env.jobId == j;
        } else {
          var younger :| younger in s.copies && younger > c && s.copies[younger].env.jobId == j0;
          assert younger in s'.copies && younger > b && s'.copies[younger].env.jobId == j;
        }
      }
    }
  }

  /** Deleting a hold queue takes no standing from a job: those it held are on record. */
  lemma DeletionGrows(s: State, q: Text, ttl: nat)
    ensures Grows(s, Apply(s, DeleteHold(q, ttl)))
  {
    var s' := Apply(s, DeleteHold(q, ttl));
    forall j, b: int | SafeAbove(s, j, b) ensures SafeAbove(s', j, b) {
      if j !in s.succeeded && j !in s.rejected && j !in s.dropped {
        var id :| id in s.copies && id > b && s.copies[id].env.jobId == j;
        if !s.HeldIn(id, q, ttl) {
          assert id in s'.copies && s'.copies[id].env.jobId == j;
        }
      }
    }
  }

  /** From there on only the moved task and newly accepted jobs need a look. */
  lemma Conclude(s: State, s': State)
    requires Inv(s) && InvCopies(s') && Grows(s, s')
    requires forall t | t in s'.tasks :: (t in s.tasks && s'.tasks[t] == s.tasks[t]) || WorkOk(s', s'.tasks[t])
    requires forall j | j in s'.accepted :: j in s.accepted || SafeAbove(s', j, -1)
    ensures Inv(s')
  {
    forall t | t in s'.tasks ensures WorkOk(s', s'.tasks[t]) {
      if t in s.tasks && s'.tasks[t] == s.tasks[t] {
        GrowsKeepsWork(s, s', s.tasks[t]);
      }
    }
  }

  lemma StepDelete(s: State, q: Text, ttl: nat)
    requires Inv(s)
    ensures Inv(Apply(s, DeleteHold(q, ttl)))
  {
    DeletionGrows(s, q, ttl);
    Conclude(s, Apply(s, DeleteHold(q, ttl)));
  }

  lemma FinishMoves(s: State, e: Event)
    requires Enabled(s, e) && e.Finish?
    ensures var s' := Apply(s, e);
            && s' == s.(tasks := s'.tasks, handled := s'.handled, verdicts := s'.verdicts) && s.handled <= s'.handled
            && forall u | u in s'.tasks && u != e.t :: u in s.tasks && s'.tasks[u] == s.tasks[u]
  {
  }

  lemma FinishWork(s: State, e: Event)
    requires Enabled(s, e) && e.Finish? && WorkOk(s, s.tasks[e.t])
    ensures e.t in Apply(s, e).tasks ==> WorkOk(Apply(s, e), Apply(s, e).tasks[e.t])
  {
    PlanKeepsTheJob(s.tasks[e.t].env, e.h, e.draw);
    hide Plan;
  }

  /** A step of one task that touches no message. */
  lemma TaskStep(s: State, s': State, t: Task)
    requires Inv(s) && s.handled <= s'.handled
    requires s' == s.(tasks := s'.tasks, handled := s'.handled, holds := s'.holds, accepted := s'.accepted,
                      verdicts := s'.verdicts)
    requires forall j | j in s'.accepted :: j in s.accepted || SafeAbove(s, j, -1)
    requires forall u | u in s'.tasks && u != t :: u in s.tasks && s'.tasks[u] == s.tasks[u]
    requires t in s'.tasks ==> WorkOk(s', s'.tasks[t])
    ensures Inv(s')
  {
    hide WorkOk, SafeAbove;
    KeepingGrows(s, s');
    Conclude(s, s');
  }

  lemma StepFinish(s: State, e: Event)
    requires Inv(s) && Enabled(s, e) && e.Finish?
    ensures Inv(Apply(s, e))
  {
    FinishMoves(s, e);
    FinishWork(s, e);
    hide Inv, Apply, WorkOk;
    TaskStep(s, Apply(s, e), e.t);
  }

  /** A stored message outlives every message the broker already has. */
  lemma StoreGrows(s: State, env: Envelope, place: Place)
    requires InvCopies(s) && (place.Hold? ==> env.queue in s.queues)
    ensures var s' := s.Store(env, place);
            && InvCopies(s') && Grows(s, s')
            && forall b: int | b < s.nextId :: SafeAbove(s', env.jobId, b)
  {
    var s' := s.Store(env, place);
    KeepingGrows(s, s');
    assert s.nextId in s'.copies && s'.copies[s.nextId].env == env;
  }

  /** A message is stored and its publisher moves on. */
  lemma StoreStep(s: State, s': State, t: Task, w: Work)
    requires Inv(s) && Unpublished(s, t) && s.Exists(s.tasks[t].env, s.tasks[t].place)
    requires s' == s.Store(s.tasks[t].env, s.tasks[t].place).Move(t, w)
    requires w == s.tasks[t].(progress := Stored(s.nextId)) || w == s.tasks[t].(progress := Refused)
    ensures Inv(s')
  {
    var was := s.tasks[t];
    assert WorkOk(s, was);
    StoreGrows(s, was.env, was.place);
    StoreSettles(s, s', t, w);
    hide Grows, SafeAbove, WorkOk;
    Conclude(s, s');
  }

  lemma StoreSettles(s: State, s': State, t: Task, w: Work)
    requires Unpublished(s, t) && WorkOk(s, s.tasks[t]) && InvCopies(s)
    requires s' == s.Store(s.tasks[t].env, s.tasks[t].place).Move(t, w)
    requires w == s.tasks[t].(progress := Stored(s.nextId)) || w == s.tasks[t].(progress := Refused)
    requires var stored := s.Store(s.tasks[t].env, s.tasks[t].place);
             InvCopies(stored) && Grows(s, stored)
    ensures InvCopies(s') && Grows(s, s') && WorkOk(s', w)
  {
    var stored := s.Store(s.tasks[t].env, s.tasks[t].place);
    forall j, b: int | SafeAbove(stored, j, b) ensures SafeAbove(s', j, b) {
    }
    assert s.nextId in s'.copies && s'.copies[s.nextId].env == s.tasks[t].env;
  }

  lemma StepStore(s: State, t: Task)
    requires Inv(s) && Enabled(s, BrokerStores(t))
    ensures Inv(Apply(s, BrokerStores(t)))
  {
    hide Inv;
    StoreStep(s, Apply(s, BrokerStores(t)), t, s.tasks[t].(progress := Stored(s.nextId)));
  }

  lemma StepRefuse(s: State, t: Task, anyway: bool)
    requires Inv(s) && Enabled(s, BrokerRefuses(t, anyway))
    ensures Inv(Apply(s, BrokerRefuses(t, anyway)))
  {
    var s' := Apply(s, BrokerRefuses(t, anyway));
    assert WorkOk(s, s.tasks[t]);
    hide Inv;
    if anyway {
      StoreStep(s, s', t, s.tasks[t].(progress := Refused));
    } else {
      TaskStep(s, s', t);
    }
  }

  lemma ConfirmWork(s: State, t: Task)
    requires Enabled(s, ConfirmArrives(t)) && WorkOk(s, s.tasks[t])
    ensures var s' := Apply(s, ConfirmArrives(t));
            && s' == s.(tasks := s'.tasks, accepted := s'.accepted)
            && (forall u | u in s'.tasks && u != t :: u in s.tasks && s'.tasks[u] == s.tasks[u])
            && (t in s'.tasks ==> WorkOk(s, s'.tasks[t]))
            && (forall j | j in s'.accepted :: j in s.accepted || SafeAbove(s, j, -1))
  {
    hide SafeAbove;
  }

  lemma SameWork(s: State, s': State, w: Work)
    requires s' == s.(tasks := s'.tasks, accepted := s'.accepted) && WorkOk(s, w)
    ensures WorkOk(s', w)
  {
    KeepingGrows(s, s');
    GrowsKeepsWork(s, s', w);
  }

  lemma StepConfirm(s: State, t: Task)
    requires Inv(s) && Enabled(s, ConfirmArrives(t))
    ensures Inv(Apply(s, ConfirmArrives(t)))
  {
    var s' := Apply(s, ConfirmArrives(t));
    assert WorkOk(s, s.tasks[t]);
    hide Inv, WorkOk, SafeAbove;
    ConfirmWork(s, t);
    hide Apply;
    if t in s'.tasks {
      SameWork(s, s', s'.tasks[t]);
    }
    TaskStep(s, s', t);
  }

  lemma StepAck(s: State, t: Task)
    requires Inv(s) && Enabled(s, AckArrives(t))
    ensures Inv(Apply(s, AckArrives(t)))
  {
    var s' := Apply(s, AckArrives(t));
    var w := s.tasks[t];
    assert WorkOk(s, w);
    if s.Owns(w.src) {
      AckRemoves(s, t);
    } else {
      hide Inv, WorkOk;
      TaskStep(s, s', t);
    }
  }

  /** The acked message was the job's last only if the job is a success; else it has a younger one. */
  lemma AckRemoves(s: State, t: Task)
    requires Inv(s) && Enabled(s, AckArrives(t)) && s.Owns(s.tasks[t].src)
    ensures Inv(Apply(s, AckArrives(t)))
  {
    var s' := Apply(s, AckArrives(t));
    var w := s.tasks[t];
    assert WorkOk(s, w);
    AckEffect(s, t);
    hide SafeAbove, Grows, Apply, Enabled;
    RemovalGrows(s, s', w.src.copy, w.env.jobId);
    Conclude(s, s');
  }

  lemma AckEffect(s: State, t: Task)
    requires Enabled(s, AckArrives(t)) && s.Owns(s.tasks[t].src)
    ensures var s', w := Apply(s, AckArrives(t)), s.tasks[t];
            s' == s.(tasks := s.tasks - {t}, copies := s.copies - {w.src.copy},
                     succeeded := if w.why.Handled? then s.succeeded + {w.env.jobId} else s.succeeded)
  {
  }

  lemma StepReject(s: State, t: Task)
    requires Inv(s) && Enabled(s, RejectArrives(t))
    ensures Inv(Apply(s, RejectArrives(t)))
  {
    hide SafeAbove, Grows;
    var s' := Apply(s, RejectArrives(t));
    var w := s.tasks[t];
    assert WorkOk(s, w);
    if s.Owns(w.src) {
      RemovalGrows(s, s', w.src.copy, w.env.jobId);
    } else {
      KeepingGrows(s, s');
    }
    Conclude(s, s');
  }

  /** Steps that start a task. */
  lemma StepEnqueue(s: State, t: Task, env: Envelope, hold: Option<nat>)
    requires Inv(s) && Enabled(s, Enqueue(t, env, hold))
    ensures Inv(Apply(s, Enqueue(t, env, hold)))
  {
    hide Inv;
    TaskStep(s, Apply(s, Enqueue(t, env, hold)), t);
  }

  lemma StepDeliver(s: State, id: CopyId, t: Task)
    requires Inv(s) && Enabled(s, Deliver(id, t))
    ensures Inv(Apply(s, Deliver(id, t)))
  {
    hide SafeAbove, Grows;
    var s' := Apply(s, Deliver(id, t));
    KeepingGrows(s, s');
    assert WorkOk(s', s'.tasks[t]);
    Conclude(s, s');
  }

  lemma MoveWork(s: State, e: Event)
    requires e.DeclareHold? || e.BrokerBounces? || e.OperationFails? || e.Dies?
    requires Enabled(s, e) && WorkOk(s, s.tasks[e.t])
    ensures e.t in Apply(s, e).tasks ==> WorkOk(Apply(s, e), Apply(s, e).tasks[e.t])
  {
  }

  /** Steps that move a task on without touching a message. */
  lemma StepMove(s: State, e: Event)
    requires Inv(s) && Enabled(s, e)
    requires e.DeclareHold? || e.BrokerBounces? || e.OperationFails? || e.Dies?
    ensures Inv(Apply(s, e))
  {
    assert WorkOk(s, s.tasks[e.t]);
    MoveWork(s, e);
    hide Inv, WorkOk;
    TaskStep(s, Apply(s, e), e.t);
  }

  lemma StepElapse(s: State, id: CopyId)
    requires Inv(s) && Enabled(s, HoldElapses(id))
    ensures Inv(Apply(s, HoldElapses(id)))
  {
    hide SafeAbove, Grows;
    var s' := Apply(s, HoldElapses(id));
    KeepingGrows(s, s');
    Conclude(s, s');
  }

  lemma StepCrash(s: State)
    requires Inv(s)
    ensures Inv(Apply(s, Crash))
  {
    hide SafeAbove, Grows;
    KeepingGrows(s, Apply(s, Crash));
    Conclude(s, Apply(s, Crash));
  }

  /** Steps of the broker and of the environment: they change who has a message and which queues there
      are, and nothing else. */
  lemma WorldStep(s: State, s': State)
    requires Inv(s) && s' == s.(copies := s'.copies, deads := s'.deads) && s'.copies.Keys == s.copies.Keys
    requires forall id | id in s.copies :: s'.copies[id] == s.copies[id].(owner := s'.copies[id].owner)
    ensures Inv(s')
  {
    hide SafeAbove, WorkOk;
    KeepingGrows(s, s');
    Conclude(s, s');
  }

  lemma StepBroker(s: State, e: Event)
    requires Inv(s) && Enabled(s, e)
    requires e.Requeue? || e.DeleteDead? || e.CreateDead?
    ensures Inv(Apply(s, e))
  {
    hide Inv;
    WorldStep(s, Apply(s, e));
  }

  /** What the steps of one task can touch at all. */
  lemma EnqueueFrame(s: State, t: Task, env: Envelope, hold: Option<nat>)
    requires Enabled(s, Enqueue(t, env, hold))
    ensures Apply(s, Enqueue(t, env, hold)) == s.(tasks := Apply(s, Enqueue(t, env, hold)).tasks)
  {
  }

  lemma ConfirmFrame(s: State, t: Task)
    requires Enabled(s, ConfirmArrives(t))
    ensures var s' := Apply(s, ConfirmArrives(t)); s' == s.(tasks := s'.tasks, accepted := s'.accepted)
  {
    hide ConfirmChannel.ConfirmationToResult;
  }

  lemma AckFrame(s: State, t: Task)
    requires Enabled(s, AckArrives(t))
    ensures var s' := Apply(s, AckArrives(t));
            s' == s.(tasks := s.tasks - {t}, copies := s'.copies, succeeded := s'.succeeded)
  {
  }

  lemma RejectFrame(s: State, t: Task)
    requires Enabled(s, RejectArrives(t))
    ensures var s' := Apply(s, RejectArrives(t));
            s' == s.(tasks := s.tasks - {t}, copies := s'.copies, rejected := s'.rejected)
  {
  }

  predicate TaskFramed(e: Event) { e.Enqueue? || e.ConfirmArrives? || e.AckArrives? || e.RejectArrives? }

  lemma TaskFrame(s: State, e: Event)
    requires Enabled(s, e) && TaskFramed(e)
    ensures var s' := Apply(s, e);
            s' == s.(tasks := s'.tasks, copies := s'.copies, accepted := s'.accepted, succeeded := s'.succeeded,
                     rejected := s'.rejected)
  {
    hide Apply, Enabled;
    match e
    case Enqueue(t, env, hold) => EnqueueFrame(s, t, env, hold);
    case ConfirmArrives(t) => ConfirmFrame(s, t);
    case AckArrives(t) => AckFrame(s, t);
    case RejectArrives(t) => RejectFrame(s, t);
  }

  /** The setting never changes, and what has landed and been judged stays on record. */
  lemma OwnershipIsFixed(s: State, e: Event)
    requires Enabled(s, e)
    ensures Apply(s, e).ownsDead == s.ownsDead
  {
    if e.Finish? {
      FinishMoves(s, e);
      hide Apply, Enabled;
    } else if TaskFramed(e) {
      TaskFrame(s, e);
      hide Apply, Enabled;
    } else {
      hide Enabled;
    }
  }

  /** Only a finished run is judged, and only a store lands anything. */
  lemma RecordsStay(s: State, e: Event)
    requires Enabled(s, e) && !e.Finish? && !e.BrokerStores? && !e.BrokerRefuses?
    ensures Apply(s, e).places == s.places && Apply(s, e).landed == s.landed && Apply(s, e).verdicts == s.verdicts
  {
    if TaskFramed(e) {
      TaskFrame(s, e);
      hide Apply, Enabled;
    } else {
      hide Enabled;
    }
  }

  lemma StepKeepsInv(s: State, e: Event)
    requires Inv(s) && Enabled(s, e)
    ensures Inv(Apply(s, e)) && Apply(s, e).ownsDead == s.ownsDead
  {
    hide Inv, Apply;
    OwnershipIsFixed(s, e);
    match e
    case HoldElapses(id) => StepElapse(s, id);
    case Crash => StepCrash(s);
    case DeleteHold(q, ttl) => StepDelete(s, q, ttl);
    case Enqueue(t, env, hold) => StepEnqueue(s, t, env, hold);
    case Deliver(id, t) => StepDeliver(s, id, t);
    case Finish(_, _, _, _) => StepFinish(s, e);
    case BrokerStores(t) => StepStore(s, t);
    case BrokerRefuses(t, anyway) => StepRefuse(s, t, anyway);
    case ConfirmArrives(t) => StepConfirm(s, t);
    case AckArrives(t) => StepAck(s, t);
    case RejectArrives(t) => StepReject(s, t);
    case DeclareHold(_) => StepMove(s, e);
    case BrokerBounces(_) => StepMove(s, e);
    case OperationFails(_) => StepMove(s, e);
    case Dies(_) => StepMove(s, e);
    case _ => StepBroker(s, e);
  }

  // ----- whole runs --------------------------------------------------------------------------

  /** The TTL a finished run asks for is the one its delay rounds to. */
  predicate Rounded(s: State, e: Event, retryStep: Topology.Duration, deferStep: Topology.Duration)
    requires Enabled(s, e)
  {
    e.Finish? ==>
      match Plan(s.tasks[e.t].env, e.h, e.draw)
      case RetryLater(_, delay) => e.ttl == HoldTtl(delay, retryStep)
      case DeferUntil(_, delay) => e.ttl == HoldTtl(delay, deferStep)
      case _ => true
  }

  function HoldTtl(delay: nat, step: Topology.Duration): Option<nat> {
    if delay <= Topology.MAX_DURATION then Topology.DeferredTtlMs(delay, step) else None
  }

  ghost predicate Run(states: seq<State>, events: seq<Event>, retryStep: Topology.Duration, deferStep: Topology.Duration) {
    && |states| == |events| + 1
    && Init(states[0])
    && forall i | 0 <= i < |events| ::
         && Enabled(states[i], events[i])
         && Rounded(states[i], events[i], retryStep, deferStep)
         && states[i + 1] == Apply(states[i], events[i])
  }

  lemma InitHolds(s: State)
    requires Init(s)
    ensures Inv(s)
  {
  }

  lemma {:induction false} RunKeepsInv(states: seq<State>, events: seq<Event>, r: Topology.Duration, d: Topology.Duration, i: nat)
    requires Run(states, events, r, d) && i < |states|
    ensures Inv(states[i]) && states[i].ownsDead == states[0].ownsDead
  {
    hide Inv, Apply;
    if i == 0 {
      InitHolds(states[0]);
    } else {
      RunKeepsInv(states, events, r, d, i - 1);
      StepKeepsInv(states[i - 1], events[i - 1]);
    }
  }

  /** No job is lost, but in two ways, each on record. At every point of every run, a job whose
      enqueue was reported as accepted has been acked as a success, or the broker holds a message for
      it (waiting, held, out on a delivery, or in the dead-letter queue), or it was rejected with the
      dead-letter queues switched off, or it was in a hold queue that was deleted. Success means that
      a run of its handler returned Ok. */
  lemma NoJobIsLost(states: seq<State>, events: seq<Event>, r: Topology.Duration, d: Topology.Duration, i: nat, j: JobId)
    requires Run(states, events, r, d) && i < |states| && j in states[i].accepted
    ensures || j in states[i].succeeded
            || (exists id :: id in states[i].copies && states[i].copies[id].env.jobId == j)
            || (j in states[i].rejected && !states[0].ownsDead)
            || j in states[i].dropped
    ensures states[i].succeeded <= states[i].handled
  {
    RunKeepsInv(states, events, r, d, i);
    assert SafeAbove(states[i], j, -1);
  }

  /** The step is a hold queue's deletion, and the queue owes a message of job j. */
  predicate DropsJob(s: State, e: Event, j: JobId) {
    e.DeleteHold? && exists id | id in s.copies :: s.HeldIn(id, e.q, e.wait) && s.copies[id].env.jobId == j
  }

  /** The step is a rejection that takes effect, of a delivery of job j. */
  predicate RejectsJob(s: State, e: Event, j: JobId) {
    && e.RejectArrives? && e.t in s.tasks && s.tasks[e.t].Rejecting?
    && s.Owns(s.tasks[e.t].src) && s.tasks[e.t].env.jobId == j
  }

  lemma RecordsStep(s: State, e: Event, j: JobId)
    requires Enabled(s, e)
    ensures j in Apply(s, e).dropped <==> j in s.dropped || DropsJob(s, e, j)
    ensures j in Apply(s, e).rejected <==> j in s.rejected || RejectsJob(s, e, j)
  {
    if e.Finish? {
      FinishMoves(s, e);
      hide Apply, Enabled;
    } else if e.DeleteHold? {
      DropRecord(s, e, j);
      hide Apply, DropsJob;
    } else {
      OtherRecord(s, e, j);
      hide Apply, Enabled;
    }
  }

  lemma DropRecord(s: State, e: Event, j: JobId)
    requires e.DeleteHold?
    ensures j in Apply(s, e).dropped <==> j in s.dropped || DropsJob(s, e, j)
    ensures Apply(s, e).rejected == s.rejected
  {
  }

  lemma OtherRecord(s: State, e: Event, j: JobId)
    requires Enabled(s, e) && !e.DeleteHold? && !e.Finish?
    ensures Apply(s, e).dropped == s.dropped
    ensures j in Apply(s, e).rejected <==> j in s.rejected || RejectsJob(s, e, j)
  {
    match e
    case RejectArrives(t) =>
      RejectFrame(s, t);
    case AckArrives(t) =>
      AckFrame(s, t);
      hide Apply, Enabled;
    case Enqueue(t, env, hold) =>
      EnqueueFrame(s, t, env, hold);
      hide Apply, Enabled;
    case ConfirmArrives(t) =>
      ConfirmFrame(s, t);
      hide Apply, Enabled;
    case _ =>
      hide Enabled;
  }

  /** The two records say exactly what they should: a job is on one if and only if, earlier in the
      run, a hold queue was deleted while it owed a message of that job, or a delivery of it was
      rejected. */
  lemma {:induction false} LossesAreExactly(states: seq<State>, events: seq<Event>, r: Topology.Duration, d: Topology.Duration, i: nat, j: JobId)
    requires Run(states, events, r, d) && i < |states|
    ensures j in states[i].dropped <==> exists k | 0 <= k < i :: DropsJob(states[k], events[k], j)
    ensures j in states[i].rejected <==> exists k | 0 <= k < i :: RejectsJob(states[k], events[k], j)
  {
    hide Apply, Enabled, Rounded, DropsJob, RejectsJob;
    if i > 0 {
      LossesAreExactly(states, events, r, d, i - 1, j);
      RecordsStep(states[i - 1], events[i - 1], j);
    }
  }

  /** So with dead-letter queues on and no hold queue deleted while it owes a message, no accepted job
      is ever without a message before its handler has succeeded. */
  lemma NothingLostWithoutThem(states: seq<State>, events: seq<Event>, r: Topology.Duration, d: Topology.Duration, i: nat, j: JobId)
    requires Run(states, events, r, d) && i < |states| && j in states[i].accepted
    requires states[0].ownsDead && forall k | 0 <= k < i :: !DropsJob(states[k], events[k], j)
    ensures j in states[i].succeeded || exists id :: id in states[i].copies && states[i].copies[id].env.jobId == j
  {
    NoJobIsLost(states, events, r, d, i, j);
    LossesAreExactly(states, events, r, d, i, j);
  }

  /** Whenever an original is about to be acked for any reason but success, the broker has already
      stored a younger message for the same job. A failed, returned or refused publish never gets
      that far. */
  lemma AckOnlyAfterSuccessor(states: seq<State>, events: seq<Event>, r: Topology.Duration, d: Topology.Duration, i: nat, t: Task)
    requires Run(states, events, r, d) && i < |states|
    requires t in states[i].tasks && states[i].tasks[t].Acking? && states[i].tasks[t].why.Moved?
    ensures var w := states[i].tasks[t];
            && w.why.successor in states[i].landed
            && w.why.successor > w.src.copy
            && w.src.copy in states[i].landed
            && states[i].landed[w.why.successor].jobId == states[i].landed[w.src.copy].jobId
  {
    RunKeepsInv(states, events, r, d, i);
    assert WorkOk(states[i], states[i].tasks[t]);
  }

  /** Undisturbed, a publish that settles a delivery replaces the original by its successor and
      changes no other message: whichever queue the successor goes to, once it is stored, confirmed
      and the original acked, the broker has exactly the old messages with that one exchanged. */
  lemma UndisturbedMoveReplaces(s: State, t: Task)
    requires Inv(s) && Unpublished(s, t) && s.Exists(s.tasks[t].env, s.tasks[t].place)
    requires s.tasks[t].from.Some? && s.Owns(s.tasks[t].from.value)
    ensures var w := s.tasks[t];
            Enabled(s, BrokerStores(t)) && var s1 := Apply(s, BrokerStores(t));
            Enabled(s1, ConfirmArrives(t)) && var s2 := Apply(s1, ConfirmArrives(t));
            Enabled(s2, AckArrives(t)) && var s3 := Apply(s2, AckArrives(t));
            && s3.copies == (s.copies - {w.from.value.copy})[s.nextId := Copy(w.env, w.place, None)]
            && s3.tasks == s.tasks - {t}
            && s3.succeeded == s.succeeded && s3.accepted == s.accepted && s3.rejected == s.rejected
  {
    var w := s.tasks[t];
    var src := w.from.value;
    assert src.copy in s.landed && src.copy < s.nextId;
    var s1 := Apply(s, BrokerStores(t));
    var s2 := Apply(s1, ConfirmArrives(t));
    ConfirmedMoves(s, t);
    AckEffect(s2, t);
    hide Apply;
    var s3 := Apply(s2, AckArrives(t));
    assert s3.copies == (s.copies - {src.copy})[s.nextId := Copy(w.env, w.place, None)];
    assert s3.tasks == s.tasks - {t};
  }

  /** A publish that is stored and confirmed leaves its message with the broker and the original to ack. */
  lemma ConfirmedMoves(s: State, t: Task)
    requires InvCopies(s) && Unpublished(s, t) && s.Exists(s.tasks[t].env, s.tasks[t].place)
    requires s.tasks[t].from.Some? && s.Owns(s.tasks[t].from.value)
    ensures var w := s.tasks[t];
            var s1 := Apply(s, BrokerStores(t));
            Enabled(s1, ConfirmArrives(t)) && var s2 := Apply(s1, ConfirmArrives(t));
            && s2 == s.Store(w.env, w.place).Move(t, Acking(w.from.value, w.env, Moved(s.nextId)))
            && Enabled(s2, AckArrives(t)) && s2.Owns(w.from.value)
  {
    var w := s.tasks[t];
    assert w.from.value.copy in s.landed && w.from.value.copy < s.nextId;
    var s1 := Apply(s, BrokerStores(t));
    assert s1 == s.Store(w.env, w.place).Move(t, w.(progress := Stored(s.nextId)));
    assert Apply(s1, ConfirmArrives(t)).tasks == s.tasks[t := Acking(w.from.value, w.env, Moved(s.nextId))];
  }

  /** With the dead-letter queues switched off the loss is real: rejecting the only message of a
      job leaves the broker without one. */
  lemma RejectingLosesTheLastCopy(s: State, t: Task)
    requires Enabled(s, RejectArrives(t)) && s.Owns(s.tasks[t].src)
    requires forall id | id in s.copies && id != s.tasks[t].src.copy :: s.copies[id].env.jobId != s.tasks[t].env.jobId
    ensures forall id | id in Apply(s, RejectArrives(t)).copies ::
              Apply(s, RejectArrives(t)).copies[id].env.jobId != s.tasks[t].env.jobId
  {
  }

  /** The price is duplication: a worker that dies between the confirm and the ack leaves two
      messages of one job, both of which will be delivered. */
  lemma DyingBeforeTheAckDuplicates(s: State, t: Task)
    requires Inv(s) && t in s.tasks && s.tasks[t].Acking? && s.tasks[t].why.Moved?
    requires s.tasks[t].src.copy in s.copies && s.tasks[t].why.successor in s.copies
    ensures var s' := Apply(s, Dies(t));
            && Enabled(s', Requeue(s.tasks[t].src.copy))
            && var s'' := Apply(s', Requeue(s.tasks[t].src.copy));
            && s.tasks[t].src.copy != s.tasks[t].why.successor
            && s''.copies[s.tasks[t].src.copy].env.jobId == s''.copies[s.tasks[t].why.successor].env.jobId
            && s''.copies[s.tasks[t].src.copy].owner.None?
  {
    assert WorkOk(s, s.tasks[t]);
  }
}
