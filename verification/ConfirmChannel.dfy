/** One AMQP channel in confirm mode, as the client library drives it
    (crates/rabbitmq/src/publisher.rs:25-50, 599-631). Returned messages are queued per channel,
    not keyed to a delivery tag, and are attached to whichever pending tag resolves next. */
module ConfirmChannel {
  import opened Envelopes

  type Tag = nat

  /** What the broker did with one publish. */
  datatype Fate = Sent | Routed | Returned | Refused

  datatype Confirmation = Ack(returned: Option<Tag>) | Nack(returned: Option<Tag>) | NotRequested

  datatype PublishResult = Ok | ReturnedToSender | Nacked | ConfirmsNotEnabled

  /** Only a bare ack means "stored in a real queue". */
  function ConfirmationToResult(c: Confirmation): PublishResult {
    match c
    case Ack(None) => Ok
    case Ack(Some(_)) => ReturnedToSender
    case Nack(Some(_)) => ReturnedToSender
    case Nack(None) => Nacked
    case NotRequested => ConfirmsNotEnabled
  }

  /** What each result tells the publisher: only a bare ack is success, a return is reported as one
      whether it came with an ack or a nack, and a refusal without a return as a refusal. */
  lemma ResultsTellApart(c: Confirmation)
    ensures ConfirmationToResult(c) == Ok <==> c == Ack(None)
    ensures ConfirmationToResult(c) == ReturnedToSender <==> !c.NotRequested? && c.returned.Some?
    ensures ConfirmationToResult(c) == Nacked <==> c == Nack(None)
    ensures ConfirmationToResult(c) == ConfirmsNotEnabled <==> c.NotRequested?
  {
  }

  datatype Channel = Channel(
    connected: bool,
    nextTag: Tag,
    pending: map<Tag, Fate>,
    returned: seq<Tag>)
  {
    function Publish(): Channel {
      this.(nextTag := nextTag + 1, pending := pending[nextTag := Sent])
    }

    predicate CanDecide(tag: Tag) { connected && tag in pending && pending[tag] == Sent }

    /** The broker routes, returns or refuses a message it has been sent. */
    function Decide(tag: Tag, fate: Fate): Channel {
      this.(pending := pending[tag := fate],
            returned := if fate == Returned then returned + [tag] else returned)
    }

    /** The broker's ack or nack may cover several tags; the library resolves them in any order. */
    predicate CanResolve(tag: Tag) { connected && tag in pending && pending[tag] != Sent }

    function Resolve(tag: Tag): Channel {
      this.(pending := pending - {tag},
            returned := if returned == [] then [] else returned[1..])
    }

    function Resolution(tag: Tag): Confirmation
      requires tag in pending
    {
      var attached := if returned == [] then None else Some(returned[0]);
      if pending[tag] == Refused then Nack(attached) else Ack(attached)
    }

    predicate Quiet() { pending == map[] && returned == [] }

    /** `tag` is the one publish outstanding, and a waiting return can only be its own. */
    predicate Exclusive(tag: Tag) {
      && pending.Keys == {tag}
      && returned == if pending[tag] == Returned then [tag] else []
    }
  }

  datatype Event = Decide(tag: Tag, fate: Fate) | Resolve(tag: Tag)

  predicate Enabled(ch: Channel, e: Event) {
    match e
    case Decide(tag, fate) => ch.CanDecide(tag) && fate != Sent
    case Resolve(tag) => ch.CanResolve(tag)
  }

  function Apply(ch: Channel, e: Event): Channel {
    match e
    case Decide(tag, fate) => ch.Decide(tag, fate)
    case Resolve(tag) => ch.Resolve(tag)
  }

  /** Returns wait in a queue of the channel's own, not of a tag's: whichever tag resolves next gets the
      oldest one, and takes it away. */
  lemma TheOldestReturnIsAttached(ch: Channel, tag: Tag)
    requires ch.CanResolve(tag)
    ensures var answer := ch.Resolution(tag);
            && !answer.NotRequested?
            && answer.returned == (if ch.returned == [] then None else Some(ch.returned[0]))
            && (answer.Nack? <==> ch.pending[tag] == Refused)
    ensures ch.returned != [] ==> [ch.returned[0]] + ch.Resolve(tag).returned == ch.returned
    ensures ch.Resolve(tag).pending == ch.pending - {tag}
  {
  }

  /** The result reported for `tag` is success although the message went nowhere. */
  predicate FalseSuccess(ch: Channel, e: Event) {
    && e.Resolve? && e.tag in ch.pending
    && ConfirmationToResult(ch.Resolution(e.tag)) == Ok
    && ch.pending[e.tag] != Routed
  }

  /** Some way the broker and the library can go on from `ch` reports a false success. */
  ghost predicate CanMisreport(ch: Channel, events: seq<Event>)
    decreases events
  {
    && events != []
    && Enabled(ch, events[0])
    && (FalseSuccess(ch, events[0]) || CanMisreport(Apply(ch, events[0]), events[1..]))
  }

  /** With one publish outstanding the reported result is the truth, and leaves nothing behind. */
  lemma ExclusiveIsTruthful(ch: Channel, tag: Tag)
    requires ch.Exclusive(tag) && ch.CanResolve(tag)
    ensures ConfirmationToResult(ch.Resolution(tag)) == Ok <==> ch.pending[tag] == Routed
    ensures ch.Resolve(tag).Quiet()
  {
    assert ch.Resolve(tag).pending.Keys == {};
  }

  lemma DecideKeepsExclusive(ch: Channel, tag: Tag, fate: Fate)
    requires ch.Exclusive(tag) && ch.CanDecide(tag) && fate != Sent
    ensures ch.Decide(tag, fate).Exclusive(tag)
  {
  }

  lemma {:induction false} AtMostOneNeverMisreports(ch: Channel, events: seq<Event>)
    requires ch.Quiet() || exists tag :: ch.Exclusive(tag)
    ensures !CanMisreport(ch, events)
    decreases events
  {
    if events != [] && Enabled(ch, events[0]) {
      var tag :| ch.Exclusive(tag);
      match events[0]
      case Decide(t, fate) =>
        DecideKeepsExclusive(ch, tag, fate);
        AtMostOneNeverMisreports(ch.Decide(t, fate), events[1..]);
      case Resolve(t) =>
        ExclusiveIsTruthful(ch, tag);
        AtMostOneNeverMisreports(ch.Resolve(t), events[1..]);
    }
  }

  /** With two, an unroutable publish can be reported as stored: its return is handed to the other
      one, whose ack is resolved first. */
  lemma TwoOutstandingCanMisreport(ch: Channel, lost: Tag, stored: Tag)
    requires ch.connected && lost != stored && lost in ch.pending && stored in ch.pending
    requires ch.pending[lost] == Sent && ch.pending[stored] == Sent && ch.returned == []
    ensures CanMisreport(ch, [Decide(lost, Returned), Decide(stored, Routed), Resolve(stored), Resolve(lost)])
  {
    var c1 := ch.Decide(lost, Returned);
    var c2 := c1.Decide(stored, Routed);
    var c3 := c2.Resolve(stored);
    var e4 := [Resolve(lost)];
    var e3 := [Resolve(stored)] + e4;
    var e2 := [Decide(stored, Routed)] + e3;
    assert FalseSuccess(c3, Resolve(lost));
    assert CanMisreport(c3, e4);
    assert e3[1..] == e4 && CanMisreport(c2, e3);
    assert e2[1..] == e3 && CanMisreport(c1, e2);
    var e1 := [Decide(lost, Returned), Decide(stored, Routed), Resolve(stored), Resolve(lost)];
    assert e1[1..] == e2;
  }

  ghost predicate Unreliable(ch: Channel) {
    exists events :: CanMisreport(ch, events)
  }

  /** One publish per channel is exactly what truthful confirms need: a channel whose outstanding
      publishes the broker has not looked at yet can end in a false success if and only if more
      than one is outstanding. */
  lemma OneOutstandingIsExact(ch: Channel)
    requires ch.connected && ch.returned == [] && (forall t | t in ch.pending :: ch.pending[t] == Sent)
    ensures Unreliable(ch) <==> |ch.pending.Keys| > 1
  {
    var tags := ch.pending.Keys;
    if |tags| > 1 {
      var a :| a in tags;
      assert |tags - {a}| == |tags| - 1;
      var b :| b in tags - {a};
      TwoOutstandingCanMisreport(ch, a, b);
    } else {
      if tags != {} {
        var a :| a in tags;
        assert |tags - {a}| == 0;
        assert tags == {a};
        assert ch.Exclusive(a);
      }
      forall events ensures !CanMisreport(ch, events) {
        AtMostOneNeverMisreports(ch, events);
      }
    }
  }

  // ----- the publish that is awaited ---------------------------------------------------------

  /** Some way the broker and the library can go on from `ch` ends with the confirm of `mine` saying
      success although that message went nowhere. Other tags may resolve however they like. */
  ghost predicate CanMislead(ch: Channel, mine: Tag, events: seq<Event>)
    decreases events
  {
    && events != []
    && Enabled(ch, events[0])
    && (if events[0] == Resolve(mine) then FalseSuccess(ch, events[0])
        else CanMislead(Apply(ch, events[0]), mine, events[1..]))
  }

  ghost predicate Misleading(ch: Channel, mine: Tag) {
    exists events :: CanMislead(ch, mine, events)
  }

  /** How many of the other pending tags are left once each has taken one of the returns that are
      waiting, or still to come for `mine`. */
  function Spare(ch: Channel, mine: Tag): int
    requires mine in ch.pending
  {
    |ch.pending.Keys - {mine}| - |ch.returned| - (if ch.pending[mine] == Sent then 1 else 0)
  }

  predicate MayYetBeReturned(ch: Channel, mine: Tag) {
    mine in ch.pending && (ch.pending[mine] == Sent || ch.pending[mine] == Returned)
  }

  lemma SpareNeverGrows(ch: Channel, mine: Tag, e: Event)
    requires mine in ch.pending && Enabled(ch, e) && e != Resolve(mine)
    ensures mine in Apply(ch, e).pending
    ensures MayYetBeReturned(Apply(ch, e), mine) ==>
              MayYetBeReturned(ch, mine) && Spare(Apply(ch, e), mine) <= Spare(ch, mine)
  {
    var next := Apply(ch, e);
    if e.Decide? {
      assert next.pending.Keys == ch.pending.Keys;
    } else {
      assert next.pending.Keys - {mine} == ch.pending.Keys - {mine} - {e.tag};
    }
  }

  lemma {:induction false} MisleadingNeedsSpare(ch: Channel, mine: Tag, events: seq<Event>)
    requires mine in ch.pending && CanMislead(ch, mine, events)
    ensures MayYetBeReturned(ch, mine) && Spare(ch, mine) >= 0
    decreases events
  {
    if events[0] == Resolve(mine) {
      assert ch.pending[mine] == Returned && ch.returned == [];
    } else {
      SpareNeverGrows(ch, mine, events[0]);
      MisleadingNeedsSpare(Apply(ch, events[0]), mine, events[1..]);
    }
  }

  lemma Prepend(ch: Channel, mine: Tag, e: Event, events: seq<Event>) returns (all: seq<Event>)
    requires Enabled(ch, e) && e != Resolve(mine) && CanMislead(Apply(ch, e), mine, events)
    ensures CanMislead(ch, mine, all)
  {
    all := [e] + events;
    assert all[1..] == events;
  }

  /** Another tag resolving, routed if nothing was decided for it, takes a return along. */
  lemma OtherResolves(ch: Channel, mine: Tag, tag: Tag)
    requires mine in ch.pending && ch.pending[mine] == Returned && tag in ch.pending && tag != mine
    ensures var decided := if ch.pending[tag] == Sent then ch.Decide(tag, Routed) else ch;
            var resolved := decided.Resolve(tag);
            && mine in resolved.pending && resolved.pending[mine] == Returned
            && resolved.pending.Keys == ch.pending.Keys - {tag}
            && resolved.connected == decided.connected == ch.connected
            && (Spare(ch, mine) >= 0 ==> Spare(resolved, mine) >= 0)
  {
    var decided := if ch.pending[tag] == Sent then ch.Decide(tag, Routed) else ch;
    assert decided.pending.Keys == ch.pending.Keys;
    assert decided.Resolve(tag).pending.Keys - {mine} == ch.pending.Keys - {mine} - {tag};
  }

  /** Once returned, `mine` waits until every other tag has resolved, each taking a return along. */
  lemma {:induction false} DrainReturns(ch: Channel, mine: Tag) returns (events: seq<Event>)
    requires ch.connected && mine in ch.pending && ch.pending[mine] == Returned && Spare(ch, mine) >= 0
    ensures CanMislead(ch, mine, events)
    decreases |ch.pending.Keys|
  {
    var others := ch.pending.Keys - {mine};
    if others == {} {
      events := [Resolve(mine)];
      assert FalseSuccess(ch, Resolve(mine));
    } else {
      hide CanMislead, Spare;
      var tag :| tag in others;
      OtherResolves(ch, mine, tag);
      var decided := if ch.pending[tag] == Sent then ch.Decide(tag, Routed) else ch;
      events := DrainReturns(decided.Resolve(tag), mine);
      events := Prepend(decided, mine, Resolve(tag), events);
      if ch.pending[tag] == Sent {
        events := Prepend(ch, mine, Decide(tag, Routed), events);
      }
    }
  }

  /** Exactly when the awaited publish can be misreported, whatever else is on the channel: it can
      still be returned, and there are enough other pending tags to take every return, its own
      included, before it resolves. */
  lemma MisleadingExactlyWhen(ch: Channel, mine: Tag)
    requires ch.connected && mine in ch.pending
    ensures Misleading(ch, mine) <==> MayYetBeReturned(ch, mine) && Spare(ch, mine) >= 0
  {
    if MayYetBeReturned(ch, mine) && Spare(ch, mine) >= 0 {
      hide CanMislead;
      if ch.pending[mine] == Sent {
        assert ch.Decide(mine, Returned).pending.Keys == ch.pending.Keys;
        var rest := DrainReturns(ch.Decide(mine, Returned), mine);
        var events := Prepend(ch, mine, Decide(mine, Returned), rest);
        assert CanMislead(ch, mine, events);
      } else {
        var events := DrainReturns(ch, mine);
        assert CanMislead(ch, mine, events);
      }
    } else {
      forall events ensures !CanMislead(ch, mine, events) {
        if CanMislead(ch, mine, events) { MisleadingNeedsSpare(ch, mine, events); }
      }
    }
  }

  /** A publish that goes out on a channel as it stands can be misreported exactly when more tags
      are pending there than returns are waiting. */
  lemma NextPublishIsMisleadingExactlyWhen(ch: Channel)
    requires ch.connected && ch.nextTag !in ch.pending
    ensures Misleading(ch.Publish(), ch.nextTag) <==> |ch.pending.Keys| > |ch.returned|
  {
    MisleadingExactlyWhen(ch.Publish(), ch.nextTag);
    assert ch.Publish().pending.Keys - {ch.nextTag} == ch.pending.Keys;
  }
}
