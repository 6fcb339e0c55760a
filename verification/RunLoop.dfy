/** The sequential skeleton of `Worker::run` and of its consumer tasks
    (crates/core/src/worker.rs:349-460, 467-492): which messages are forwarded, dispatched and
    blamed, given what the streams, the channel and the shutdown signal deliver. The interleaving
    is the subject of WorkerRun; a message is handled here as that machine's step handles it. */
module RunLoop {
  import opened Envelopes
  import opened WorkerRun

  // ----- one consumer task -------------------------------------------------------------------

  /** What one turn of the consumer's select yields. */
  datatype Turn = StopSeen | Item(d: DeliveryId) | Broken(err: Error) | EndOfStream

  predicate Leaves(turn: Turn) { turn.StopSeen? || turn.EndOfStream? }

  function Forward(turn: Turn, consumer: nat): Message
    requires !turn.StopSeen?
  {
    match turn
    case Item(d) => Delivery(d)
    case Broken(err) => Failed(err)
    case EndOfStream => Ended(consumer)
  }

  /** `consume_into`: everything taken off the stream is sent, in order, up to the turn that ends
      the task; the end of the stream is itself reported, a stop is not. */
  method ConsumeInto(consumer: nat, turns: seq<Turn>) returns (sent: seq<Message>, used: nat)
    ensures used <= |turns|
    ensures forall i | 0 <= i < used - 1 :: !Leaves(turns[i])
    ensures used < |turns| ==> used > 0 && Leaves(turns[used - 1])
    ensures |sent| == (if used > 0 && turns[used - 1].StopSeen? then used - 1 else used)
    ensures forall i | 0 <= i < |sent| :: !turns[i].StopSeen? && sent[i] == Forward(turns[i], consumer)
    ensures forall i | 0 <= i < |sent| ::
              && (turns[i].Item? ==> sent[i] == Delivery(turns[i].d))
              && (turns[i].Broken? ==> sent[i] == Failed(turns[i].err))
              && (turns[i].EndOfStream? ==> sent[i] == Ended(consumer))
  {
    sent, used := [], 0;
    while used < |turns|
      invariant used <= |turns| && |sent| == used
      invariant forall i | 0 <= i < used :: !Leaves(turns[i]) && sent[i] == Forward(turns[i], consumer)
    {
      var turn := turns[used];
      used := used + 1;
      if turn.StopSeen? {
        return;
      }
      sent := sent + [Forward(turn, consumer)];
      if turn.EndOfStream? {
        return;
      }
    }
  }

  // ----- the dispatch loop and the drain -----------------------------------------------------

  function Carried(m: Message): seq<DeliveryId> { if m.Delivery? then [m.d] else [] }

  /** The deliveries of a run of messages. */
  function Deliveries(inbox: seq<Message>): seq<DeliveryId> {
    if inbox == [] then [] else Carried(inbox[0]) + Deliveries(inbox[1..])
  }

  lemma Regroup(a: seq<DeliveryId>, b: seq<DeliveryId>, c: seq<DeliveryId>)
    ensures (a + b) + c == a + (b + c)
  {
  }

  lemma {:induction false} DeliveriesAppend(inbox: seq<Message>, m: Message)
    ensures Deliveries(inbox + [m]) == Deliveries(inbox) + Carried(m)
  {
    if inbox == [] {
      assert inbox + [m] == [m] && [m][1..] == [];
    } else {
      assert (inbox + [m])[1..] == inbox[1..] + [m];
      DeliveriesAppend(inbox[1..], m);
      Regroup(Carried(inbox[0]), Deliveries(inbox[1..]), Carried(m));
    }
  }

  /** A failed stream is an error whenever it is seen; an ended one only before the drain. */
  predicate IsError(m: Message, draining: bool) { m.Failed? || (m.Ended? && !draining) }

  function ErrorOf(m: Message): Error
    requires !m.Delivery?
  {
    match m
    case Failed(err) => err
    case Ended(consumer) => ConsumerStopped(consumer)
  }

  /** Message i is an error, given that the dispatch loop sees the shutdown after `patience`
      messages. */
  predicate Blamed(inbox: seq<Message>, patience: nat, i: nat) {
    i < |inbox| && IsError(inbox[i], i >= patience)
  }

  predicate BlameFree(inbox: seq<Message>, patience: nat, n: nat) {
    forall i | 0 <= i < n :: !Blamed(inbox, patience, i)
  }

  /** What one message does to the machine: a delivery is dispatched, a failed stream is an error at any
      time, an ended one only before the drain, and the first error stands. */
  lemma WhatAMessageDoes(s: State, m: Message)
    ensures OnMessage(s, m).dispatched == s.dispatched + (if m.Delivery? then [m.d] else [])
    ensures OnMessage(s, m).outcome ==
              if s.outcome.Some? then s.outcome
              else if m.Failed? then Some(m.err)
              else if m.Ended? && !s.main.DrainMessage? then Some(ConsumerStopped(m.consumer))
              else None
  {
  }

  class Loop {
    var outcome: Option<Error>
    var dispatched: seq<DeliveryId>

    constructor ()
      ensures outcome == None && dispatched == []
    {
      outcome, dispatched := None, [];
    }

    /** One message, against the machine's step: it leaves the same outcome and the same history. */
    method Handle(m: Message, draining: bool, ghost s: State)
      requires s.outcome == outcome && s.dispatched == dispatched && s.main.DrainMessage? == draining
      modifies this
      ensures outcome == OnMessage(s, m).outcome && dispatched == OnMessage(s, m).dispatched
      ensures dispatched == old(dispatched) + Carried(m)
      ensures outcome == if old(outcome).None? && IsError(m, draining) then Some(ErrorOf(m)) else old(outcome)
    {
      match m
      case Delivery(d) => dispatched := dispatched + [d];
      case Failed(err) => if outcome.None? { outcome := Some(err); }
      case Ended(consumer) => if !draining && outcome.None? { outcome := Some(ConsumerStopped(consumer)); }
    }

    ghost function AsState(s: State, draining: bool): State
      reads this
    {
      s.(outcome := outcome, dispatched := dispatched, main := if draining then DrainMessage else WantMessage)
    }

    /** The loop itself: dispatch until an error, the shutdown or the end of the channel, then drain
        the rest. Whatever ended it, every delivery in the channel is dispatched exactly once, in
        channel order, and the outcome is the first error: a consumer that failed to start, else
        the first blamed message, else whatever closing the backend reports. */
    method Run(startError: Option<Error>, inbox: seq<Message>, patience: nat, closeError: Option<Error>, ghost s: State)
      requires outcome == None && dispatched == []
      modifies this
      ensures dispatched == Deliveries(inbox)
      ensures startError.Some? ==> outcome == startError
      ensures startError.None? && BlameFree(inbox, patience, |inbox|) ==> outcome == closeError
      ensures startError.None? ==>
                forall i | 0 <= i < |inbox| && Blamed(inbox, patience, i) && BlameFree(inbox, patience, i) ::
                  outcome == Some(ErrorOf(inbox[i]))
    {
      outcome := startError;
      var k := 0;
      while outcome.None? && k < patience && k < |inbox|
        invariant k <= |inbox| && dispatched == Deliveries(inbox[..k])
        invariant startError.Some? ==> outcome == startError
        invariant startError.None? && outcome.None? ==> BlameFree(inbox, patience, k)
        invariant startError.None? && outcome.Some? ==>
                    k > 0 && Blamed(inbox, patience, k - 1) && BlameFree(inbox, patience, k - 1)
                    && outcome.value == ErrorOf(inbox[k - 1])
        decreases |inbox| - k
      {
        Handle(inbox[k], false, AsState(s, false));
        assert inbox[..k + 1] == inbox[..k] + [inbox[k]];
        DeliveriesAppend(inbox[..k], inbox[k]);
        k := k + 1;
      }
      Drain(inbox, patience, k, s);
      if closeError.Some? && outcome.None? {
        outcome := closeError;
      }
      assert inbox[..|inbox|] == inbox;
    }

    /** The drain, from message k on. */
    method Drain(inbox: seq<Message>, patience: nat, k: nat, ghost s: State)
      requires k <= |inbox| && dispatched == Deliveries(inbox[..k])
      requires outcome.None? ==> (k >= patience || k == |inbox|) && BlameFree(inbox, patience, k)
      modifies this
      ensures dispatched == Deliveries(inbox[..|inbox|])
      ensures old(outcome).Some? ==> outcome == old(outcome)
      ensures old(outcome).None? && BlameFree(inbox, patience, |inbox|) ==> outcome.None?
      ensures old(outcome).None? ==>
                forall i | 0 <= i < |inbox| && Blamed(inbox, patience, i) && BlameFree(inbox, patience, i) ::
                  outcome == Some(ErrorOf(inbox[i]))
    {
      for j := k to |inbox|
        invariant dispatched == Deliveries(inbox[..j])
        invariant old(outcome).Some? ==> outcome == old(outcome)
        invariant old(outcome).None? && outcome.None? ==> BlameFree(inbox, patience, j)
        invariant old(outcome).None? ==>
                    forall i | 0 <= i < j && Blamed(inbox, patience, i) && BlameFree(inbox, patience, i) ::
                      outcome == Some(ErrorOf(inbox[i]))
        invariant old(outcome).None? && outcome.Some? ==> !BlameFree(inbox, patience, j)
      {
        Handle(inbox[j], true, AsState(s, true));
        assert old(outcome).None? ==> (Blamed(inbox, patience, j) <==> inbox[j].Failed?);
        assert !BlameFree(inbox, patience, j) ==> !BlameFree(inbox, patience, j + 1);
        assert inbox[..j + 1] == inbox[..j] + [inbox[j]];
        DeliveriesAppend(inbox[..j], inbox[j]);
      }
    }
  }
}
