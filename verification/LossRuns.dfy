/** Runs in which an accepted job ends without a message and without success, one for each way
    Settlement.NoJobIsLost leaves open: rejected with the dead-letter queues switched off
    (crates/rabbitmq/src/delivery.rs:116-131), and in a hold queue that is deleted while it owes the
    message (crates/rabbitmq/src/publisher.rs:444-492). */
module LossRuns {
  import opened Envelopes
  import opened Dispatch
  import opened Settlement

  const JOB := Envelope(5, [], [], 1, 0, 0, 0, None, [])

  ghost predicate Reachable(s: State) {
    exists states, events :: Run(states, events, 0, 0) && states[|events|] == s
  }

  lemma ReachStep(s: State, e: Event, s': State)
    requires Reachable(s) && Enabled(s, e) && Rounded(s, e, 0, 0) && s' == Apply(s, e)
    ensures Reachable(s')
  {
    var states, events :| Run(states, events, 0, 0) && states[|events|] == s;
    var more, longer := states + [s'], events + [e];
    forall i | 0 <= i < |longer|
      ensures Enabled(more[i], longer[i]) && Rounded(more[i], longer[i], 0, 0) && more[i + 1] == Apply(more[i], longer[i])
    {
      if i < |events| {
        assert more[i] == states[i] && more[i + 1] == states[i + 1] && longer[i] == events[i];
      }
    }
    assert Run(more, longer, 0, 0) && more[|longer|] == s';
  }

  /** A broker with one declared queue, no dead-letter queue of ours, and at most one message. */
  function Shot(holds: set<(Text, nat)>, copies: map<CopyId, Copy>, stored: Option<Place>, tag: Tag, tasks: map<Task, Work>,
                accepted: set<JobId>, dropped: set<JobId>): State {
    State(false, {[]}, {[]}, {}, holds, copies,
          if stored.Some? then map[0 := JOB] else map[], if stored.Some? then map[0 := stored.value] else map[],
          map[], if stored.Some? then 1 else 0, tag, tasks, accepted, {}, {}, {}, dropped)
  }

  const EMPTY := Shot({}, map[], None, 0, map[], {}, {})

  lemma ReachesTheStart()
    ensures Reachable(EMPTY)
  {
    var none: seq<Event> := [];
    assert Run([EMPTY], none, 0, 0) && [EMPTY][|none|] == EMPTY;
  }

  function Out(place: Place, progress: Progress): map<Task, Work> { map[1 := Publishing(None, JOB, place, progress)] }

  /** The publish of a new job, stored and confirmed. */
  lemma ReachesAccepted(holds: set<(Text, nat)>, place: Place)
    requires Reachable(Shot(holds, map[], None, 0, Out(place, Sent), {}, {}))
    requires place.Main? || (place.Hold? && ([], place.ttl) in holds)
    ensures Reachable(Shot(holds, map[0 := Copy(JOB, place, None)], Some(place), 0, map[], {5}, {}))
  {
    hide Reachable;
    var s0 := Shot(holds, map[], None, 0, Out(place, Sent), {}, {});
    var s1 := Shot(holds, map[0 := Copy(JOB, place, None)], Some(place), 0, Out(place, Stored(0)), {}, {});
    ReachStep(s0, BrokerStores(1), s1);
    ReachStep(s1, ConfirmArrives(1), Shot(holds, map[0 := Copy(JOB, place, None)], Some(place), 0, map[], {5}, {}));
  }

  lemma ReachesAnEnqueuedJob()
    ensures Reachable(Shot({}, map[0 := Copy(JOB, Main, None)], Some(Main), 0, map[], {5}, {}))
  {
    ReachesTheStart();
    hide Reachable;
    ReachStep(EMPTY, Enqueue(1, JOB, None), Shot({}, map[], None, 0, Out(Main, Sent), {}, {}));
    ReachesAccepted({}, Main);
  }

  /** The job out on a delivery that has found no handler. */
  function Unhandled(): State {
    Shot({}, map[0 := Copy(JOB, Main, Some(0))], Some(Main), 1, map[1 := Rejecting(Source(0, 0), JOB)], {5}, {})
      .(verdicts := map[0 := Verdict(0, None, 0.0)])
  }

  lemma ReachesADelivery()
    ensures Reachable(Unhandled())
  {
    ReachesAnEnqueuedJob();
    hide Reachable;
    var s0 := Shot({}, map[0 := Copy(JOB, Main, None)], Some(Main), 0, map[], {5}, {});
    var s1 := Shot({}, map[0 := Copy(JOB, Main, Some(0))], Some(Main), 1, map[1 := Running(Source(0, 0), JOB)], {5}, {});
    ReachStep(s0, Deliver(0, 1), s1);
    assert Plan(JOB, None, 0.0) == DeadLetter(NoHandler);
    ReachStep(s1, Finish(1, None, 0.0, None), Unhandled());
  }

  /** A job without a handler, with the dead-letter queues off: accepted, rejected, gone. */
  lemma RejectionLosesAnAcceptedJob() returns (s: State)
    ensures Reachable(s) && 5 in s.accepted && s.copies == map[] && s.succeeded == {} && s.dropped == {}
  {
    ReachesADelivery();
    hide Reachable;
    s := Apply(Unhandled(), RejectArrives(1));
    ReachStep(Unhandled(), RejectArrives(1), s);
  }

  lemma ReachesAHeldJob()
    ensures Reachable(Shot({([], 9)}, map[0 := Copy(JOB, Hold(9), None)], Some(Hold(9)), 0, map[], {5}, {}))
  {
    ReachesTheStart();
    hide Reachable;
    var s1 := Shot({}, map[], None, 0, map[1 := Declaring(None, JOB, 9)], {}, {});
    ReachStep(EMPTY, Enqueue(1, JOB, Some(9)), s1);
    ReachStep(s1, DeclareHold(1), Shot({([], 9)}, map[], None, 0, Out(Hold(9), Sent), {}, {}));
    ReachesAccepted({([], 9)}, Hold(9));
  }

  /** A delayed job whose hold queue is deleted before its time: accepted, dropped, gone. */
  lemma DeletionLosesAnAcceptedJob() returns (s: State)
    ensures Reachable(s) && 5 in s.accepted && s.copies == map[] && s.succeeded == {} && s.rejected == {}
  {
    ReachesAHeldJob();
    hide Reachable;
    var s0 := Shot({([], 9)}, map[0 := Copy(JOB, Hold(9), None)], Some(Hold(9)), 0, map[], {5}, {});
    s := Apply(s0, DeleteHold([], 9));
    assert s0.HeldIn(0, [], 9);
    ReachStep(s0, DeleteHold([], 9), s);
  }
}
