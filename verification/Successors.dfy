/** What a settlement publishes and where (crates/core/src/worker.rs:562-631,
    crates/rabbitmq/src/delivery.rs:116-193, publisher.rs:444-504): in every run of Settlement, the
    message that stands in for an acked original is the one the handler's outcome calls for, in the
    queue that outcome calls for. */
module Successors {
  import opened Envelopes
  import opened Retry
  import opened Dispatch
  import opened Settlement
  import Topology

  /** The hold queue for a wait of `delay`, rounded up to `step`. */
  predicate HeldFor(place: Place, delay: nat, step: Topology.Duration) {
    place.Hold? && delay <= Topology.MAX_DURATION && Topology.DeferredTtlMs(delay, step) == Some(place.ttl)
  }

  /** The run gave the job up: nobody handles it, it could not be decoded, it failed for good, or it
      failed on its last attempt. */
  predicate GivesUp(v: Verdict, original: Envelope) {
    || v.handler.None?
    || v.handler.value.outcome.Decode?
    || v.handler.value.outcome.Fatal?
    || (v.handler.value.outcome.Retryable? && original.attempt >= v.handler.value.policy.maxAttempts)
  }

  /** What the outcome of a run calls for: the same envelope on the dead-letter queue;
      one more deferral, at the queue's top priority, held for the delay asked for; or one more attempt,
      at priority 0, held for the policy's backoff; and nothing else changed. */
  predicate Owed(v: Verdict, original: Envelope, next: Envelope, place: Place, retryStep: Topology.Duration,
                 deferStep: Topology.Duration)
  {
    && 0.0 <= v.draw <= 1.0
    && if GivesUp(v, original) then next == original && place == DeadQueue
       else
         var h := v.handler.value;
         match h.outcome
         case Deferred(delay) =>
           && next == original.(deferrals := original.deferrals + 1, priority := h.deferPriority)
           && HeldFor(place, delay, deferStep)
         case Retryable =>
           && next == original.(attempt := original.attempt + 1, priority := 0)
           && HeldFor(place, ComputeDelay(h.policy.backoff, original.attempt, v.draw), retryStep)
         case _ => false
  }

  // ----- what every stage of a task rests on ---------------------------------------------------

  function SourceOf(w: Work): Option<Source> {
    match w
    case Running(src, _) => Some(src)
    case Declaring(from, _, _) => from
    case Publishing(from, _, _, _) => from
    case Acking(src, _, _) => Some(src)
    case Rejecting(src, _) => Some(src)
  }

  /** The original a task is settling is the message as it landed, and the run's outcome is known. */
  ghost predicate Judged(s: State, src: Source) {
    && src.copy in s.landed && src.tag in s.verdicts && s.verdicts[src.tag].copy == src.copy
  }

  ghost predicate OwedNow(s: State, src: Source, next: Envelope, place: Place, r: Topology.Duration, d: Topology.Duration) {
    Judged(s, src) && Owed(s.verdicts[src.tag], s.landed[src.copy], next, place, r, d)
  }

  ghost predicate Promise(s: State, w: Work, r: Topology.Duration, d: Topology.Duration) {
    match w
    case Running(src, env) => src.copy in s.landed && s.landed[src.copy] == env
    case Declaring(from, env, ttl) => from.Some? ==> OwedNow(s, from.value, env, Hold(ttl), r, d)
    case Publishing(from, env, place, progress) =>
      && (from.Some? ==> OwedNow(s, from.value, env, place, r, d))
      && (progress.Stored? ==>
            progress.id in s.landed && s.landed[progress.id] == env
            && progress.id in s.places && s.places[progress.id] == place)
    case Acking(src, env, why) =>
      && Judged(s, src)
      && (why.Handled? ==>
            && s.landed[src.copy] == env
            && s.verdicts[src.tag].handler.Some? && s.verdicts[src.tag].handler.value.outcome.Success?)
      && (why.Moved? ==>
            && why.successor in s.landed && why.successor in s.places
            && OwedNow(s, src, s.landed[why.successor], s.places[why.successor], r, d))
    case Rejecting(src, env) =>
      Judged(s, src) && s.landed[src.copy] == env && GivesUp(s.verdicts[src.tag], env) && !s.ownsDead
  }

  /** Deliveries have tags of their own. */
  ghost predicate TagsOk(s: State) {
    && (forall t | t in s.tasks && SourceOf(s.tasks[t]).Some? :: SourceOf(s.tasks[t]).value.tag < s.nextTag)
    && (forall t, u | t in s.tasks && u in s.tasks && t != u
                      && SourceOf(s.tasks[t]).Some? && SourceOf(s.tasks[u]).Some? ::
          SourceOf(s.tasks[t]).value.tag != SourceOf(s.tasks[u]).value.tag)
  }

  ghost predicate Promises(s: State, r: Topology.Duration, d: Topology.Duration) {
    && TagsOk(s)
    && forall t | t in s.tasks :: Promise(s, s.tasks[t], r, d)
  }

  /** Records only grow, except the verdict on tag g. */
  ghost predicate Extends(s: State, s': State, g: Option<Tag>) {
    && s'.ownsDead == s.ownsDead
    && (forall id | id in s.landed :: id in s'.landed && s'.landed[id] == s.landed[id])
    && (forall id | id in s.places :: id in s'.places && s'.places[id] == s.places[id])
    && (forall h | h in s.verdicts :: h in s'.verdicts && (s'.verdicts[h] == s.verdicts[h] || g == Some(h)))
  }

  lemma PromiseKept(s: State, s': State, g: Option<Tag>, w: Work, r: Topology.Duration, d: Topology.Duration)
    requires Promise(s, w, r, d) && Extends(s, s', g)
    requires g.Some? && SourceOf(w).Some? ==> SourceOf(w).value.tag != g.value
    ensures Promise(s', w, r, d)
  {
    hide Owed;
  }

  /** A step that moves task t on, or ends or starts it, and leaves the other tasks alone. */
  lemma OneTaskMoves(s: State, s': State, t: Task, g: Option<Tag>, r: Topology.Duration, d: Topology.Duration)
    requires Promises(s, r, d) && Extends(s, s', g) && s.nextTag <= s'.nextTag
    requires forall u | u in s'.tasks && u != t :: u in s.tasks && s'.tasks[u] == s.tasks[u]
    requires t in s'.tasks ==> Promise(s', s'.tasks[t], r, d)
    requires t in s'.tasks && SourceOf(s'.tasks[t]).Some? ==>
               || (t in s.tasks && SourceOf(s.tasks[t]) == SourceOf(s'.tasks[t]))
               || s.nextTag <= SourceOf(s'.tasks[t]).value.tag < s'.nextTag
    requires g.Some? ==> t in s.tasks && SourceOf(s.tasks[t]).Some? && SourceOf(s.tasks[t]).value.tag == g.value
    ensures Promises(s', r, d)
  {
    hide Owed, OwedNow, Judged;
    forall u | u in s'.tasks ensures Promise(s', s'.tasks[u], r, d) {
      if u != t {
        PromiseKept(s, s', g, s.tasks[u], r, d);
      }
    }
  }

  // ----- the steps -----------------------------------------------------------------------------

  lemma FinishOwes(s: State, e: Event, r: Topology.Duration, d: Topology.Duration)
    requires Enabled(s, e) && e.Finish? && Rounded(s, e, r, d) && Promise(s, s.tasks[e.t], r, d)
    ensures var s' := Apply(s, e);
            && s' == s.(tasks := s'.tasks, handled := s'.handled,
                        verdicts := s.verdicts[s.tasks[e.t].src.tag := Verdict(s.tasks[e.t].src.copy, e.h, e.draw)])
            && (e.t in s'.tasks ==>
                  Promise(s', s'.tasks[e.t], r, d) && SourceOf(s'.tasks[e.t]) == SourceOf(s.tasks[e.t]))
  {
    hide ComputeDelay, Topology.DeferredTtlMs;
  }

  lemma FinishPromises(s: State, e: Event, r: Topology.Duration, d: Topology.Duration)
    requires Promises(s, r, d) && Enabled(s, e) && e.Finish? && Rounded(s, e, r, d)
    ensures Promises(Apply(s, e), r, d)
  {
    FinishMoves(s, e);
    FinishOwes(s, e, r, d);
    hide Apply, Enabled, Promise, Rounded;
    OneTaskMoves(s, Apply(s, e), e.t, Some(s.tasks[e.t].src.tag), r, d);
  }

  /** The usual step of one task: it keeps its source, and no verdict changes. */
  ghost predicate MovesOn(s: State, s': State, t: Task) {
    && t in s.tasks && s'.nextTag == s.nextTag && Extends(s, s', None)
    && (forall u | u in s'.tasks && u != t :: u in s.tasks && s'.tasks[u] == s.tasks[u])
    && (t in s'.tasks ==> SourceOf(s'.tasks[t]) == SourceOf(s.tasks[t]))
  }

  lemma MovedOn(s: State, s': State, t: Task, r: Topology.Duration, d: Topology.Duration)
    requires Promises(s, r, d) && MovesOn(s, s', t) && (t in s'.tasks ==> Promise(s', s'.tasks[t], r, d))
    ensures Promises(s', r, d)
  {
    hide Promise, Promises, Extends, SourceOf;
    OneTaskMoves(s, s', t, None, r, d);
  }

  lemma EnqueueOwes(s: State, t: Task, env: Envelope, hold: Option<nat>, r: Topology.Duration, d: Topology.Duration)
    requires Enabled(s, Enqueue(t, env, hold))
    ensures var s' := Apply(s, Enqueue(t, env, hold));
            && (t in s'.tasks ==> SourceOf(s'.tasks[t]).None? && Promise(s', s'.tasks[t], r, d))
            && forall u | u in s'.tasks && u != t :: u in s.tasks && s'.tasks[u] == s.tasks[u]
  {
  }

  lemma EnqueuePromises(s: State, t: Task, env: Envelope, hold: Option<nat>, r: Topology.Duration, d: Topology.Duration)
    requires Promises(s, r, d) && Enabled(s, Enqueue(t, env, hold))
    ensures Promises(Apply(s, Enqueue(t, env, hold)), r, d)
  {
    var s' := Apply(s, Enqueue(t, env, hold));
    EnqueueOwes(s, t, env, hold, r, d);
    EnqueueFrame(s, t, env, hold);
    hide Apply, Enabled, Promise, Promises;
    OneTaskMoves(s, s', t, None, r, d);
  }

  lemma DeliverPromises(s: State, id: CopyId, t: Task, r: Topology.Duration, d: Topology.Duration)
    requires Promises(s, r, d) && InvCopies(s) && Enabled(s, Deliver(id, t))
    ensures Promises(Apply(s, Deliver(id, t)), r, d)
  {
    var s' := Apply(s, Deliver(id, t));
    assert s'.tasks == s.tasks[t := Running(Source(id, s.nextTag), s.copies[id].env)];
    assert Promise(s', s'.tasks[t], r, d);
    hide Promise, Promises, InvCopies;
    OneTaskMoves(s, s', t, None, r, d);
  }

  lemma PublishOwes(s: State, e: Event, r: Topology.Duration, d: Topology.Duration)
    requires (e.DeclareHold? || e.BrokerBounces?) && Enabled(s, e) && Promise(s, s.tasks[e.t], r, d)
    ensures MovesOn(s, Apply(s, e), e.t)
    ensures e.t in Apply(s, e).tasks ==> Promise(Apply(s, e), Apply(s, e).tasks[e.t], r, d)
  {
    hide Owed;
  }

  lemma StoreOwes(s: State, e: Event, r: Topology.Duration, d: Topology.Duration)
    requires (e.BrokerStores? || e.BrokerRefuses?) && Enabled(s, e) && Promise(s, s.tasks[e.t], r, d)
    requires s.nextId !in s.landed && s.nextId !in s.places
    ensures MovesOn(s, Apply(s, e), e.t)
    ensures e.t in Apply(s, e).tasks ==> Promise(Apply(s, e), Apply(s, e).tasks[e.t], r, d)
  {
    hide Owed;
  }

  lemma ConfirmOwes(s: State, e: Event, r: Topology.Duration, d: Topology.Duration)
    requires e.ConfirmArrives? && Enabled(s, e) && Promise(s, s.tasks[e.t], r, d)
    ensures MovesOn(s, Apply(s, e), e.t)
    ensures e.t in Apply(s, e).tasks ==> Promise(Apply(s, e), Apply(s, e).tasks[e.t], r, d)
  {
    hide Owed;
  }

  lemma EndOwes(s: State, e: Event)
    requires (e.OperationFails? || e.AckArrives? || e.RejectArrives? || e.Dies?) && Enabled(s, e)
    ensures MovesOn(s, Apply(s, e), e.t) && e.t !in Apply(s, e).tasks
  {
    if e.AckArrives? {
      AckFrame(s, e.t);
      hide Apply;
    } else if e.RejectArrives? {
      RejectFrame(s, e.t);
      hide Apply;
    }
  }

  /** Any of these. */
  lemma TaskPromises(s: State, e: Event, r: Topology.Duration, d: Topology.Duration)
    requires e.DeclareHold? || e.BrokerBounces? || e.BrokerStores? || e.BrokerRefuses? || e.ConfirmArrives?
             || e.OperationFails? || e.AckArrives? || e.RejectArrives? || e.Dies?
    requires Promises(s, r, d) && Enabled(s, e) && s.nextId !in s.landed && s.nextId !in s.places
    ensures Promises(Apply(s, e), r, d)
  {
    assert Promise(s, s.tasks[e.t], r, d);
    hide Promise, Promises, MovesOn, Apply;
    if e.DeclareHold? || e.BrokerBounces? {
      PublishOwes(s, e, r, d);
    } else if e.BrokerStores? || e.BrokerRefuses? {
      StoreOwes(s, e, r, d);
    } else if e.ConfirmArrives? {
      ConfirmOwes(s, e, r, d);
    } else {
      EndOwes(s, e);
    }
    MovedOn(s, Apply(s, e), e.t, r, d);
  }

  lemma NoTaskMoves(s: State, s': State, r: Topology.Duration, d: Topology.Duration)
    requires Promises(s, r, d) && Extends(s, s', None) && s'.nextTag == s.nextTag
    requires s'.tasks == s.tasks || s'.tasks == map[]
    ensures Promises(s', r, d)
  {
    hide Owed, OwedNow, Judged;
    forall u | u in s'.tasks ensures Promise(s', s'.tasks[u], r, d) {
      PromiseKept(s, s', None, s.tasks[u], r, d);
    }
  }

  lemma WorldPromises(s: State, e: Event, r: Topology.Duration, d: Topology.Duration)
    requires Promises(s, r, d) && Enabled(s, e)
    requires e.HoldElapses? || e.Requeue? || e.Crash? || e.DeleteHold? || e.DeleteDead? || e.CreateDead?
    ensures Promises(Apply(s, e), r, d)
  {
    hide Promises;
    NoTaskMoves(s, Apply(s, e), r, d);
  }

  lemma StepPromises(s: State, e: Event, r: Topology.Duration, d: Topology.Duration)
    requires Promises(s, r, d) && InvCopies(s) && s.places.Keys == s.landed.Keys
    requires Enabled(s, e) && Rounded(s, e, r, d)
    ensures Promises(Apply(s, e), r, d)
  {
    assert s.nextId !in s.landed && s.nextId !in s.places;
    hide Promises, InvCopies, Apply, Enabled, Rounded;
    match e
    case Finish(_, _, _, _) => FinishPromises(s, e, r, d);
    case Enqueue(t, env, hold) => EnqueuePromises(s, t, env, hold, r, d);
    case Deliver(id, t) => DeliverPromises(s, id, t, r, d);
    case HoldElapses(_) => WorldPromises(s, e, r, d);
    case Requeue(_) => WorldPromises(s, e, r, d);
    case Crash => WorldPromises(s, e, r, d);
    case DeleteHold(_, _) => WorldPromises(s, e, r, d);
    case DeleteDead(_) => WorldPromises(s, e, r, d);
    case CreateDead(_) => WorldPromises(s, e, r, d);
    case _ => TaskPromises(s, e, r, d);
  }

  /** Every landed message has a place on record. */
  lemma PlacesStep(s: State, e: Event)
    requires Enabled(s, e) && s.places.Keys == s.landed.Keys
    ensures Apply(s, e).places.Keys == Apply(s, e).landed.Keys
  {
    if e.Finish? {
      FinishMoves(s, e);
      hide Apply, Enabled;
    } else if e.BrokerStores? || e.BrokerRefuses? {
      assert forall id :: id in Apply(s, e).places <==> id in Apply(s, e).landed;
    } else {
      RecordsStay(s, e);
      hide Apply, Enabled;
    }
  }

  lemma {:induction false} RunPromises(states: seq<State>, events: seq<Event>, r: Topology.Duration, d: Topology.Duration, i: nat)
    requires Run(states, events, r, d) && i < |states|
    ensures Promises(states[i], r, d) && states[i].places.Keys == states[i].landed.Keys
  {
    if i > 0 {
      RunPromises(states, events, r, d, i - 1);
      RunKeepsInv(states, events, r, d, i - 1);
      assert InvCopies(states[i - 1]);
      hide Promises, InvCopies, Inv, Apply, Enabled, Rounded;
      StepPromises(states[i - 1], events[i - 1], r, d);
      PlacesStep(states[i - 1], events[i - 1]);
    }
  }

  // ----- what every run shows ------------------------------------------------------------------

  /** Step k finished the run of the delivery `src`, with this outcome. */
  ghost predicate FinishedAt(states: seq<State>, events: seq<Event>, k: nat, tag: Tag, v: Verdict)
    requires |states| == |events| + 1 && k < |events|
  {
    && events[k].Finish? && events[k].t in states[k].tasks && states[k].tasks[events[k].t].Running?
    && states[k].tasks[events[k].t].src == Source(v.copy, tag)
    && events[k].h == v.handler && events[k].draw == v.draw
  }

  lemma VerdictStep(s: State, e: Event, tag: Tag)
    requires Enabled(s, e) && tag in Apply(s, e).verdicts
    ensures (tag in s.verdicts && Apply(s, e).verdicts[tag] == s.verdicts[tag])
            || (e.Finish? && s.tasks[e.t].src == Source(Apply(s, e).verdicts[tag].copy, tag)
                && e.h == Apply(s, e).verdicts[tag].handler && e.draw == Apply(s, e).verdicts[tag].draw)
  {
    if e.Finish? {
      FinishVerdict(s, e);
      hide Apply;
    } else if e.BrokerStores? || e.BrokerRefuses? {
      hide Enabled;
    } else {
      RecordsStay(s, e);
      hide Apply, Enabled;
    }
  }

  lemma FinishVerdict(s: State, e: Event)
    requires Enabled(s, e) && e.Finish?
    ensures Apply(s, e).verdicts == s.verdicts[s.tasks[e.t].src.tag := Verdict(s.tasks[e.t].src.copy, e.h, e.draw)]
  {
    hide Plan;
  }

  /** Every verdict on record is the outcome of a run that finished. */
  lemma {:induction false} VerdictsComeFromRuns(states: seq<State>, events: seq<Event>, r: Topology.Duration, d: Topology.Duration,
                                                i: nat, tag: Tag) returns (k: nat)
    requires Run(states, events, r, d) && i < |states| && tag in states[i].verdicts
    ensures k < i && FinishedAt(states, events, k, tag, states[i].verdicts[tag])
  {
    var s, e := states[i - 1], events[i - 1];
    VerdictStep(s, e, tag);
    hide Apply;
    if tag in s.verdicts && states[i].verdicts[tag] == s.verdicts[tag] {
      k := VerdictsComeFromRuns(states, events, r, d, i - 1, tag);
    } else {
      k := i - 1;
    }
  }

  /** What stands in for an acked original, in every run: whenever an original is about to be acked
      because its successor was stored, some earlier step finished the run of just that delivery, and
      the successor is what that outcome calls for, where it calls for it. A retry holds the next
      attempt at priority 0 for the backoff, a deferral holds the same attempt once more deferred for
      the delay asked, and a job given up stands unchanged on the dead-letter queue. */
  lemma SuccessorsAreAsOwed(states: seq<State>, events: seq<Event>, r: Topology.Duration, d: Topology.Duration, i: nat, t: Task)
    returns (k: nat, v: Verdict)
    requires Run(states, events, r, d) && i < |states|
    requires t in states[i].tasks && states[i].tasks[t].Acking? && states[i].tasks[t].why.Moved?
    ensures var w := states[i].tasks[t];
            && k < i && v.copy == w.src.copy && FinishedAt(states, events, k, w.src.tag, v)
            && w.src.copy in states[i].landed
            && w.why.successor in states[i].landed && w.why.successor in states[i].places
            && Owed(v, states[i].landed[w.src.copy], states[i].landed[w.why.successor], states[i].places[w.why.successor], r, d)
  {
    RunPromises(states, events, r, d, i);
    var s := states[i];
    var w := s.tasks[t];
    assert Promise(s, w, r, d);
    hide Owed, Promises;
    v := s.verdicts[w.src.tag];
    k := VerdictsComeFromRuns(states, events, r, d, i, w.src.tag);
  }

  /** ... and an original acked as handled, or rejected, had a run that succeeded, or gave up with the
      dead-letter queues off. */
  lemma OthersAreSettledAsTheyEnded(states: seq<State>, events: seq<Event>, r: Topology.Duration, d: Topology.Duration,
                                    i: nat, t: Task) returns (k: nat, v: Verdict)
    requires Run(states, events, r, d) && i < |states| && t in states[i].tasks
    requires states[i].tasks[t].Rejecting? || (states[i].tasks[t].Acking? && states[i].tasks[t].why.Handled?)
    ensures var w := states[i].tasks[t];
            && k < i && v.copy == w.src.copy && FinishedAt(states, events, k, w.src.tag, v)
            && w.src.copy in states[i].landed && states[i].landed[w.src.copy] == w.env
            && (w.Acking? ==> v.handler.Some? && v.handler.value.outcome.Success?)
            && (w.Rejecting? ==> GivesUp(v, w.env) && !states[0].ownsDead)
  {
    RunPromises(states, events, r, d, i);
    RunKeepsInv(states, events, r, d, i);
    var s := states[i];
    var w := s.tasks[t];
    assert Promise(s, w, r, d);
    hide Promises, Inv;
    v := s.verdicts[w.src.tag];
    k := VerdictsComeFromRuns(states, events, r, d, i, w.src.tag);
  }

  // ----- where messages are --------------------------------------------------------------------

  /** What one step may do to one message the broker has: take it away only by its own ack or
      rejection, or with its hold queue; move it only from a hold to its main queue; and never touch
      what it carries. */
  ghost predicate KeepsMessage(s: State, e: Event, s': State, id: CopyId)
    requires id in s.copies
  {
    var c := s.copies[id];
    if id !in s'.copies then
      || ((e.AckArrives? || e.RejectArrives?) && e.t in s.tasks && SourceOf(s.tasks[e.t]).Some?
          && SourceOf(s.tasks[e.t]).value.copy == id && c.owner == Some(SourceOf(s.tasks[e.t]).value.tag))
      || (e.DeleteHold? && s.HeldIn(id, e.q, e.wait))
    else
      && s'.copies[id].env == c.env
      && (if e == HoldElapses(id) then s'.copies[id].place == Main else s'.copies[id].place == c.place)
  }

  lemma KeepsMessageOfTask(s: State, e: Event, id: CopyId)
    requires Enabled(s, e) && id in s.copies && (e.AckArrives? || e.RejectArrives?)
    ensures KeepsMessage(s, e, Apply(s, e), id)
  {
  }

  lemma KeepsMessageOfBroker(s: State, e: Event, id: CopyId)
    requires InvCopies(s) && Enabled(s, e) && id in s.copies
    requires e.BrokerStores? || e.BrokerRefuses? || e.HoldElapses?
    ensures KeepsMessage(s, e, Apply(s, e), id)
  {
    assert id in s.landed && id < s.nextId;
  }

  lemma KeepsMessageElse(s: State, e: Event, id: CopyId)
    requires Enabled(s, e) && id in s.copies && !TaskFramed(e) && !e.Finish?
    requires !e.BrokerStores? && !e.BrokerRefuses? && !e.HoldElapses?
    ensures KeepsMessage(s, e, Apply(s, e), id)
  {
    hide Enabled;
  }

  lemma MessageStep(s: State, e: Event, id: CopyId)
    requires InvCopies(s) && Enabled(s, e) && id in s.copies
    ensures KeepsMessage(s, e, Apply(s, e), id)
  {
    if e.Finish? {
      FinishMoves(s, e);
      hide Apply;
    } else if e.AckArrives? || e.RejectArrives? {
      KeepsMessageOfTask(s, e, id);
    } else if e.Enqueue? {
      EnqueueFrame(s, e.t, e.env, e.hold);
      hide Apply;
    } else if e.ConfirmArrives? {
      ConfirmFrame(s, e.t);
      hide Apply;
    } else {
      hide Apply, InvCopies;
      if e.BrokerStores? || e.BrokerRefuses? || e.HoldElapses? {
        KeepsMessageOfBroker(s, e, id);
      } else {
        KeepsMessageElse(s, e, id);
      }
    }
  }

  /** Messages, in every run. One leaves the broker only by being acked or rejected by the very delivery
      it is out on, or with its hold queue; a hold that elapses puts it on its main queue, and nothing
      else moves it; it is delivered only from its main queue and only when it is not out already, to
      a run of the envelope it carries; a crash and a requeue take it off its delivery and leave it
      otherwise as it is. */
  lemma MessagesStayPut(states: seq<State>, events: seq<Event>, r: Topology.Duration, d: Topology.Duration, i: nat, id: CopyId)
    requires Run(states, events, r, d) && i < |events| && id in states[i].copies
    ensures KeepsMessage(states[i], events[i], states[i + 1], id)
    ensures events[i].Deliver? && events[i].id == id ==>
              && states[i].copies[id].place == Main && states[i].copies[id].owner == None
              && events[i].t in states[i + 1].tasks && id in states[i + 1].copies
              && states[i + 1].tasks[events[i].t].Running?
              && states[i + 1].tasks[events[i].t].env == states[i].copies[id].env
              && states[i + 1].copies[id].owner == Some(states[i + 1].tasks[events[i].t].src.tag)
              && states[i + 1].tasks[events[i].t].src.copy == id
    ensures events[i].Crash? || events[i] == Requeue(id) ==>
              id in states[i + 1].copies && states[i + 1].copies[id] == states[i].copies[id].(owner := None)
    ensures events[i].Crash? ==> states[i + 1].tasks == map[]
  {
    RunKeepsInv(states, events, r, d, i);
    MessageStep(states[i], events[i], id);
  }

  lemma ArrivalElse(s: State, e: Event, id: CopyId)
    requires Enabled(s, e) && id !in s.copies && !e.BrokerStores? && !e.BrokerRefuses?
    ensures id !in Apply(s, e).copies
  {
    if e.Finish? {
      FinishMoves(s, e);
      hide Apply;
    } else if e.AckArrives? || e.RejectArrives? {
    } else if e.Enqueue? {
      EnqueueFrame(s, e.t, e.env, e.hold);
      hide Apply;
    } else if e.ConfirmArrives? {
      ConfirmFrame(s, e.t);
      hide Apply;
    }
  }

  /** ... and one arrives only as what some task was publishing, where it was publishing it, waiting. */
  lemma MessagesArriveAsPublished(states: seq<State>, events: seq<Event>, r: Topology.Duration, d: Topology.Duration,
                                  i: nat, id: CopyId)
    requires Run(states, events, r, d) && i < |events| && id !in states[i].copies && id in states[i + 1].copies
    ensures (events[i].BrokerStores? || events[i].BrokerRefuses?) && Unpublished(states[i], events[i].t)
    ensures var w := states[i].tasks[events[i].t];
            states[i + 1].copies[id] == Copy(w.env, w.place, None) && states[i].Exists(w.env, w.place)
  {
    if !events[i].BrokerStores? && !events[i].BrokerRefuses? {
      ArrivalElse(states[i], events[i], id);
    }
  }

  /** Undisturbed, an enqueue adds exactly its own message, waiting on the main queue, or in the hold
      queue for its delay on a queue this backend declared, and is then reported as accepted. */
  lemma UndisturbedEnqueueAdds(s: State, t: Task, env: Envelope, hold: Option<nat>)
    requires t !in s.tasks && env.queue in s.queues && (hold.Some? ==> env.queue in s.declared)
    ensures Enabled(s, Enqueue(t, env, hold))
    ensures var asked := Apply(s, Enqueue(t, env, hold));
            var place := if hold.None? then Main else Hold(hold.value);
            && (hold.Some? ==> Enabled(asked, DeclareHold(t)))
            && var ready := if hold.Some? then Apply(asked, DeclareHold(t)) else asked;
            && Enabled(ready, BrokerStores(t))
            && var stored := Apply(ready, BrokerStores(t));
            && Enabled(stored, ConfirmArrives(t))
            && var done := Apply(stored, ConfirmArrives(t));
            && done.copies == s.copies[s.nextId := Copy(env, place, None)]
            && done.accepted == s.accepted + {env.jobId} && done.tasks == s.tasks
            && done.holds == s.holds + (if hold.Some? then {(env.queue, hold.value)} else {})
  {
    var asked := Apply(s, Enqueue(t, env, hold));
    var ready := if hold.Some? then Apply(asked, DeclareHold(t)) else asked;
    var place := if hold.None? then Main else Hold(hold.value);
    assert ready.tasks[t] == Publishing(None, env, place, Sent);
    var stored := Apply(ready, BrokerStores(t));
    assert stored.tasks[t] == Publishing(None, env, place, Stored(s.nextId));
    assert Apply(stored, ConfirmArrives(t)).tasks == s.tasks;
  }

  /** A delayed enqueue on a queue this backend did not declare is refused, and nothing happens. */
  lemma UndeclaredHoldIsRefused(s: State, t: Task, env: Envelope, ttl: nat)
    requires t !in s.tasks && env.queue !in s.declared
    ensures Apply(s, Enqueue(t, env, Some(ttl))) == s
  {
    assert s.tasks - {t} == s.tasks;
  }

  // ----- getting on ----------------------------------------------------------------------------

  lemma GivingUpLeadsTo(s: State, e: Event)
    requires Enabled(s, e) && e.Finish? && GivesUp(Verdict(s.tasks[e.t].src.copy, e.h, e.draw), s.tasks[e.t].env)
    ensures var src, env := s.tasks[e.t].src, s.tasks[e.t].env;
            Apply(s, e).tasks ==
              s.tasks[e.t := if s.ownsDead then Publishing(Some(src), env, DeadQueue, Sent) else Rejecting(src, env)]
  {
    hide ComputeDelay;
  }

  lemma SuccessLeadsTo(s: State, e: Event)
    requires Enabled(s, e) && e.Finish? && e.h.Some? && e.h.value.outcome.Success?
    ensures Apply(s, e).tasks == s.tasks[e.t := Acking(s.tasks[e.t].src, s.tasks[e.t].env, Handled)]
    ensures s.tasks[e.t].env.jobId in Apply(s, e).handled
  {
  }

  lemma HoldingLeadsTo(s: State, e: Event)
    requires Enabled(s, e) && e.Finish? && !GivesUp(Verdict(s.tasks[e.t].src.copy, e.h, e.draw), s.tasks[e.t].env)
    requires !e.h.value.outcome.Success?
    ensures if s.tasks[e.t].env.queue in s.declared && e.ttl.Some? then
              e.t in Apply(s, e).tasks && Apply(s, e).tasks[e.t].Declaring?
            else Apply(s, e).tasks == s.tasks - {e.t}
  {
    PlanKeepsTheJob(s.tasks[e.t].env, e.h, e.draw);
    hide ComputeDelay, Plan;
  }

  /** What a finished run leads to next: an ack for a success; for a job given up, the publish to its
      dead-letter queue, or a rejection where those are off; else the declaration of the hold queue for
      what is owed, unless the queue was never declared or the delay cannot be held, which ends the
      call with nothing done. */
  lemma WhatARunLeadsTo(s: State, e: Event, r: Topology.Duration, d: Topology.Duration)
    requires Enabled(s, e) && e.Finish? && Rounded(s, e, r, d) && Promise(s, s.tasks[e.t], r, d)
    ensures var src, env := s.tasks[e.t].src, s.tasks[e.t].env;
            var v := Verdict(src.copy, e.h, e.draw);
            var s' := Apply(s, e);
            && s'.copies == s.copies
            && if GivesUp(v, env) then
                 s'.tasks == s.tasks[e.t := if s.ownsDead then Publishing(Some(src), env, DeadQueue, Sent) else Rejecting(src, env)]
               else if e.h.value.outcome.Success? then
                 s'.tasks == s.tasks[e.t := Acking(src, env, Handled)] && env.jobId in s'.handled
               else if env.queue in s.declared && e.ttl.Some? then
                 && e.t in s'.tasks && s'.tasks[e.t].Declaring? && s'.tasks[e.t].from == Some(src)
                 && Owed(v, env, s'.tasks[e.t].env, Hold(s'.tasks[e.t].ttl), r, d)
               else s'.tasks == s.tasks - {e.t}
  {
    FinishOwes(s, e, r, d);
    if GivesUp(Verdict(s.tasks[e.t].src.copy, e.h, e.draw), s.tasks[e.t].env) {
      GivingUpLeadsTo(s, e);
    } else if e.h.value.outcome.Success? {
      SuccessLeadsTo(s, e);
    } else {
      HoldingLeadsTo(s, e);
    }
    hide Apply, Owed, GivesUp, Rounded, Enabled;
  }

  function StepsLeft(s: State, t: Task): nat {
    if t !in s.tasks then 0
    else
      match s.tasks[t]
      case Running(_, _) => 6
      case Declaring(_, _, _) => 5
      case Publishing(_, _, _, progress) => if progress.Sent? then 4 else 3
      case Acking(_, _, _) => 2
      case Rejecting(_, _) => 2
  }

  predicate StepOf(e: Event, t: Task) {
    || (e.Finish? && e.t == t) || e == DeclareHold(t) || e == BrokerStores(t) || e == BrokerBounces(t)
    || (e.BrokerRefuses? && e.t == t) || e == ConfirmArrives(t) || e == OperationFails(t)
    || e == AckArrives(t) || e == RejectArrives(t) || e == Dies(t)
  }

  lemma FinishIsAStep(s: State, e: Event)
    requires Enabled(s, e) && e.Finish?
    ensures StepsLeft(Apply(s, e), e.t) < 6
  {
    hide Plan;
  }

  /** Every step of a settlement, failures included, brings it nearer to its end; an operation that fails
      or a process that dies ends it at once; and an ack or a rejection that takes effect removes just
      the original, an ack of a handled job being its success. */
  lemma EveryStepBringsTheEndNearer(s: State, e: Event, t: Task)
    requires Enabled(s, e) && StepOf(e, t)
    ensures StepsLeft(Apply(s, e), t) < StepsLeft(s, t)
    ensures e == OperationFails(t) || e == Dies(t) ==> Apply(s, e) == s.(tasks := s.tasks - {t})
  {
    if e.Finish? {
      FinishIsAStep(s, e);
      hide Apply;
    } else if e.AckArrives? {
      AckFrame(s, t);
      hide Apply;
    } else if e.RejectArrives? {
      RejectFrame(s, t);
      hide Apply;
    }
  }

  lemma AcksAndRejections(s: State, t: Task)
    ensures Enabled(s, AckArrives(t)) && s.Owns(s.tasks[t].src) ==>
              var s', w := Apply(s, AckArrives(t)), s.tasks[t];
              && s'.copies == s.copies - {w.src.copy}
              && s'.succeeded == (if w.why.Handled? then s.succeeded + {w.env.jobId} else s.succeeded)
    ensures Enabled(s, AckArrives(t)) && !s.Owns(s.tasks[t].src) ==>
              Apply(s, AckArrives(t)) == s.(tasks := s.tasks - {t})
    ensures Enabled(s, RejectArrives(t)) && s.Owns(s.tasks[t].src) ==>
              var s', w := Apply(s, RejectArrives(t)), s.tasks[t];
              s'.copies == s.copies - {w.src.copy} && s'.rejected == s.rejected + {w.env.jobId}
    ensures Enabled(s, RejectArrives(t)) && !s.Owns(s.tasks[t].src) ==>
              Apply(s, RejectArrives(t)) == s.(tasks := s.tasks - {t})
  {
  }

  /** The broker returns a publish only where there is no queue for it. */
  lemma BouncesOnlyWithoutAQueue(s: State, t: Task)
    requires Enabled(s, BrokerBounces(t))
    ensures !s.Exists(s.tasks[t].env, s.tasks[t].place)
    ensures Apply(s, BrokerBounces(t)) == s.(tasks := s.tasks[t := s.tasks[t].(progress := Bounced)])
  {
  }

  /** Queues come and go as the events say. */
  lemma QueuesComeAndGo(s: State, q: Text, ttl: nat)
    ensures q in Apply(s, CreateDead(q)).deads
    ensures Enabled(s, DeleteDead(q)) ==> q !in Apply(s, DeleteDead(q)).deads
    ensures (q, ttl) !in Apply(s, DeleteHold(q, ttl)).holds
  {
  }

  lemma HoldsAreDeclared(s: State, t: Task)
    requires Enabled(s, DeclareHold(t))
    ensures (s.tasks[t].env.queue, s.tasks[t].ttl) in Apply(s, DeclareHold(t)).holds
  {
  }

  /** Anything may go wrong at any step: every process may die, alone or all at once; every operation a
      settlement waits for may fail; every message may come back; every hold may elapse and every hold
      queue be deleted; and the broker may refuse any publish, having stored it or not. */
  lemma AnythingMayGoWrong(s: State, t: Task, id: CopyId, q: Text, ttl: nat)
    ensures Enabled(s, Crash) && Enabled(s, DeleteHold(q, ttl)) && Enabled(s, CreateDead(q))
    ensures t in s.tasks ==> Enabled(s, Dies(t)) && (!s.tasks[t].Running? ==> Enabled(s, OperationFails(t)))
    ensures id in s.copies ==> Enabled(s, Requeue(id)) && (s.copies[id].place.Hold? ==> Enabled(s, HoldElapses(id)))
    ensures Unpublished(s, t) ==>
              && Enabled(s, BrokerRefuses(t, false))
              && (s.Exists(s.tasks[t].env, s.tasks[t].place) ==> Enabled(s, BrokerRefuses(t, true)))
  {
  }

  /** And everybody can get on: a message waiting on a main queue can be delivered, a run can end with any
      outcome, a publish is stored where its queue exists and bounces where it does not, and an answer
      that is there can arrive. */
  lemma EverybodyCanGetOn(s: State, t: Task, id: CopyId, env: Envelope, h: Option<Handler>, ttl: Option<nat>)
    ensures t !in s.tasks ==>
              && Enabled(s, Enqueue(t, env, ttl))
              && (id in s.copies && s.copies[id].place.Main? && s.copies[id].owner.None? ==> Enabled(s, Deliver(id, t)))
    ensures t in s.tasks ==>
              match s.tasks[t]
              case Running(_, _) => Enabled(s, Finish(t, h, 0.5, ttl))
              case Declaring(_, _, _) => Enabled(s, DeclareHold(t))
              case Publishing(_, out, place, progress) =>
                if progress.Sent? then
                  if s.Exists(out, place) then Enabled(s, BrokerStores(t)) else Enabled(s, BrokerBounces(t))
                else Enabled(s, ConfirmArrives(t))
              case Acking(_, _, _) => Enabled(s, AckArrives(t))
              case Rejecting(_, _) => Enabled(s, RejectArrives(t))
  {
  }
}
