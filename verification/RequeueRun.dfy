/** A run of the in-memory backend in which a dropped stream puts a queue out of priority order
    (crates/core/src/memory.rs:676-702): a consumer reads an unimportant message and then an important
    one, and its stream is dropped with both unread. */
module RequeueRun {
  import opened Envelopes
  import opened MemoryBackend
  import opened PriorityQueue

  const LOW := Envelope(1, [], [], 1, 0, 0, 0, None, [])
  const HIGH := Envelope(2, [], [], 1, 0, 0, 9, None, [])

  ghost predicate Reachable(s: State) {
    exists states, events :: Run(states, events) && states[|events|] == s
  }

  lemma ReachStep(s: State, e: Event, s': State)
    requires Reachable(s) && Enabled(s, e) && s' == Apply(s, e)
    ensures Reachable(s')
  {
    var states, events :| Run(states, events) && states[|events|] == s;
    var more, longer := states + [s'], events + [e];
    forall i | 0 <= i < |longer| ensures Enabled(more[i], longer[i]) && more[i + 1] == Apply(more[i], longer[i]) {
      if i < |events| {
        assert more[i] == states[i] && more[i + 1] == states[i + 1] && longer[i] == events[i];
      }
    }
    assert Run(more, longer) && more[|longer|] == s';
  }

  /** One queue, and one consumer whose stream is open. */
  function Shot(pending: seq<Envelope>, signal: nat, calls: seq<Call>, permits: nat, pc: Pc, stream: seq<Envelope>): State {
    State([Queue([], pending, [], [], 0, signal)], false, [], calls,
          [Consumer(0, 2, permits, false, pc, 0, stream, true, [])], [],
          seq(|calls|, i requires 0 <= i < |calls| => calls[i].env), [])
  }

  function Sent(e: Envelope, live: bool): Call { Call(e, false, false, live) }

  lemma ReachesAConsumer()
    ensures Reachable(Shot([], 0, [], 2, WantPermit, []))
  {
    var s0 := State([], false, [], [], [], [], [], []);
    var none: seq<Event> := [];
    assert Run([s0], none) && [s0][|none|] == s0;
    var s1 := s0.(queues := [Queue([], [], [], [], 0, 0)]);
    ReachStep(s0, Create([]), s1);
    ReachStep(s1, Consume(0, 2), Shot([], 0, [], 2, WantPermit, []));
  }

  /** One more message published and taken into the stream. */
  lemma ReachesOneMore(signal: nat, calls: seq<Call>, permits: nat, stream: seq<Envelope>, e: Envelope)
    requires Reachable(Shot([], signal, calls, permits, WantPermit, stream)) && e.queue == [] && permits > 0
    ensures Reachable(Shot([e], signal + 1, calls + [Sent(e, false)], permits, WantPermit, stream))
  {
    hide Reachable;
    var s0 := Shot([], signal, calls, permits, WantPermit, stream);
    var s1 := Shot([], signal, calls + [Sent(e, true)], permits, WantPermit, stream);
    assert s1.accepted == s0.accepted + [e];
    ReachStep(s0, Publish(e, false, false), s1);
    var s2 := Shot([e], signal + 1, calls + [Sent(e, false)], permits, WantPermit, stream);
    assert s2.accepted == s1.accepted;
    assert Insert([], e) == [e];
    assert s2.calls == s1.calls[|calls| := Sent(e, false)];
    ReachStep(s1, RunCall(|calls|, 0), s2);
  }

  lemma ReachesItsStream(signal: nat, calls: seq<Call>, permits: nat, stream: seq<Envelope>, e: Envelope)
    requires Reachable(Shot([e], signal, calls, permits, WantPermit, stream)) && permits > 0
    ensures Reachable(Shot([], signal, calls, permits - 1, WantPermit, stream + [e]))
  {
    hide Reachable;
    var s2 := Shot([e], signal, calls, permits, WantPermit, stream);
    var s3 := Shot([e], signal, calls, permits - 1, Looking, stream);
    ReachStep(s2, Acquire(0), s3);
    var s4 := Shot([], signal, calls, permits - 1, Sending(e), stream);
    assert [e][1..] == [];
    ReachStep(s3, Look(0), s4);
    ReachStep(s4, Send(0), Shot([], signal, calls, permits - 1, WantPermit, stream + [e]));
  }

  lemma ReachesBothUnread()
    ensures Reachable(Shot([], 2, [Sent(LOW, false), Sent(HIGH, false)], 0, WantPermit, [LOW, HIGH]))
  {
    ReachesAConsumer();
    ReachesOneMore(0, [], 2, [], LOW);
    assert [] + [Sent(LOW, false)] == [Sent(LOW, false)] && [] + [LOW] == [LOW];
    ReachesItsStream(1, [Sent(LOW, false)], 2, [], LOW);
    ReachesOneMore(1, [Sent(LOW, false)], 1, [LOW], HIGH);
    assert [Sent(LOW, false)] + [Sent(HIGH, false)] == [Sent(LOW, false), Sent(HIGH, false)] && [LOW] + [HIGH] == [LOW, HIGH];
    ReachesItsStream(2, [Sent(LOW, false), Sent(HIGH, false)], 1, [LOW], HIGH);
  }

  /** The queue was empty in front, and is out of order behind: no multi-level queue looks like it. */
  lemma ADroppedStreamBreaksTheOrder() returns (s: State, e: Event)
    ensures Reachable(s) && Enabled(s, e) && e.RequeueUnread? && s.queues[0].pending == []
    ensures Reachable(Apply(s, e)) && Apply(s, e).queues[0].pending == [LOW, HIGH]
    ensures !IsLevelled([LOW, HIGH])
  {
    ReachesBothUnread();
    hide Reachable;
    var s0 := Shot([], 2, [Sent(LOW, false), Sent(HIGH, false)], 0, WantPermit, [LOW, HIGH]);
    s := Apply(s0, DropStream(0));
    ReachStep(s0, DropStream(0), s);
    e := RequeueUnread(0);
    assert s.consumers[0].unread == [LOW, HIGH];
    ReachStep(s, e, Apply(s, e));
    assert [LOW, HIGH] + [] == [LOW, HIGH];
    LevelledExactlyWhenDescending([LOW, HIGH]);
    assert [LOW, HIGH][0].priority < [LOW, HIGH][1].priority;
  }
}
