/** One queue of the in-memory backend, ordered by priority (crates/core/src/memory.rs:80-131). */
module PriorityQueue {
  import opened Envelopes

  const LEVELS: nat := 256

  datatype AckKind = Succeeded | Retried | Deferred

  /** One past the last pending envelope of at least priority `p`. */
  function InsertPosition(pending: seq<Envelope>, p: nat): (i: nat)
    ensures i <= |pending|
  {
    if pending == [] then 0
    else if pending[|pending| - 1].priority >= p then |pending|
    else InsertPosition(pending[..|pending| - 1], p)
  }

  function Insert(pending: seq<Envelope>, e: Envelope): seq<Envelope> {
    var i := InsertPosition(pending, e.priority);
    pending[..i] + [e] + pending[i..]
  }

  /** In every queue, sorted or not: the new envelope lands behind every envelope of equal or higher
      priority, and only strictly lower ones are behind it. */
  lemma {:induction false} InsertLandsBehindItsEquals(pending: seq<Envelope>, p: nat)
    ensures var i := InsertPosition(pending, p);
            && (forall k | i <= k < |pending| :: pending[k].priority < p)
            && (i > 0 ==> pending[i - 1].priority >= p)
  {
    if pending != [] && pending[|pending| - 1].priority < p {
      InsertLandsBehindItsEquals(pending[..|pending| - 1], p);
    }
  }

  // ----- the multi-level queue it refines ----------------------------------------------------

  /** A FIFO queue per priority level, lowest level first. */
  type Levels = seq<seq<Envelope>>

  ghost predicate LevelsOk(levels: Levels) {
    forall l, k | 0 <= l < |levels| && 0 <= k < |levels[l]| :: levels[l][k].priority == l
  }

  /** The levels from highest to lowest, one after the other. */
  function Flatten(levels: Levels): seq<Envelope> {
    if levels == [] then [] else levels[|levels| - 1] + Flatten(levels[..|levels| - 1])
  }

  /** Enqueue at the back of the envelope's own level. */
  function Enqueue(levels: Levels, e: Envelope): Levels
    requires e.priority < |levels|
  {
    levels[e.priority := levels[e.priority] + [e]]
  }

  /** Dequeue from the front of the highest level that has anything. */
  function Dequeue(levels: Levels): Levels {
    if levels == [] then []
    else
      var n := |levels| - 1;
      if levels[n] != [] then levels[n := levels[n][1..]] else Dequeue(levels[..n]) + [[]]
  }

  lemma {:induction false} PositionBehind(front: seq<Envelope>, back: seq<Envelope>, p: nat)
    requires forall k | 0 <= k < |front| :: front[k].priority >= p
    ensures InsertPosition(front + back, p) == |front| + InsertPosition(back, p)
  {
    var all := front + back;
    if back == [] {
      assert all == front;
      if front != [] { assert front[|front| - 1].priority >= p; }
    } else {
      var n := |back| - 1;
      assert all[..|all| - 1] == front + back[..n];
      assert all[|all| - 1] == back[n];
      PositionBehind(front, back[..n], p);
    }
  }

  lemma {:induction false} FlattenBelow(levels: Levels, p: nat)
    requires LevelsOk(levels) && |levels| <= p
    ensures forall k | 0 <= k < |Flatten(levels)| :: Flatten(levels)[k].priority < p
  {
    if levels != [] {
      var n := |levels| - 1;
      FlattenBelow(levels[..n], p);
    }
  }

  lemma NothingAbove(pending: seq<Envelope>, p: nat)
    requires forall k | 0 <= k < |pending| :: pending[k].priority < p
    ensures InsertPosition(pending, p) == 0
  {
    InsertLandsBehindItsEquals(pending, p);
  }

  lemma SpliceBehind<T>(a: seq<T>, b: seq<T>, i: nat, x: T)
    requires i <= |b|
    ensures (a + b)[..|a| + i] + [x] + (a + b)[|a| + i..] == a + (b[..i] + [x] + b[i..])
  {
    assert (a + b)[..|a| + i] == a + b[..i];
    assert (a + b)[|a| + i..] == b[i..];
  }

  /** An envelope below everything in `front` is inserted into what follows it. */
  lemma InsertBehind(front: seq<Envelope>, back: seq<Envelope>, e: Envelope)
    requires forall k | 0 <= k < |front| :: front[k].priority >= e.priority
    ensures Insert(front + back, e) == front + Insert(back, e)
  {
    PositionBehind(front, back, e.priority);
    SpliceBehind(front, back, InsertPosition(back, e.priority), e);
  }

  /** Inserting by `rposition` is enqueueing on the envelope's own level. */
  lemma {:induction false} InsertRefinesEnqueue(levels: Levels, e: Envelope)
    requires LevelsOk(levels) && e.priority < |levels|
    ensures Insert(Flatten(levels), e) == Flatten(Enqueue(levels, e))
    ensures LevelsOk(Enqueue(levels, e))
  {
    var n := |levels| - 1;
    var top, rest := levels[n], Flatten(levels[..n]);
    InsertBehind(top, rest, e);
    var all := Enqueue(levels, e);
    if e.priority == n {
      FlattenBelow(levels[..n], n);
      NothingAbove(rest, n);
      assert all[..n] == levels[..n];
      assert Insert(rest, e) == [e] + rest;
      assert top + ([e] + rest) == top + [e] + rest;
    } else {
      InsertRefinesEnqueue(levels[..n], e);
      assert all[..n] == Enqueue(levels[..n], e);
    }
  }

  /** `pop_front` is dequeueing from the highest non-empty level. */
  lemma {:induction false} PopRefinesDequeue(levels: Levels)
    requires LevelsOk(levels) && Flatten(levels) != []
    ensures Flatten(levels)[1..] == Flatten(Dequeue(levels))
    ensures LevelsOk(Dequeue(levels)) && |Dequeue(levels)| == |levels|
  {
    var n := |levels| - 1;
    var down := Dequeue(levels);
    if levels[n] != [] {
      assert down[..n] == levels[..n];
      assert (levels[n] + Flatten(levels[..n]))[1..] == levels[n][1..] + Flatten(levels[..n]);
    } else {
      assert Flatten(levels) == Flatten(levels[..n]);
      PopRefinesDequeue(levels[..n]);
      assert down[..n] == Dequeue(levels[..n]);
      assert [] + Flatten(down[..n]) == Flatten(down[..n]);
    }
  }

  /** What happens to a queue under its lock while nothing is put back. */
  datatype Op = Put(e: Envelope) | Pop

  function Replay(ops: seq<Op>): seq<Envelope> {
    if ops == [] then []
    else
      var before := Replay(ops[..|ops| - 1]);
      match ops[|ops| - 1]
      case Put(e) => Insert(before, e)
      case Pop => if before == [] then [] else before[1..]
  }

  function ReplayLevels(ops: seq<Op>): (levels: Levels)
    ensures |levels| == LEVELS
  {
    if ops == [] then NoEnvelopes(LEVELS)
    else
      var before := ReplayLevels(ops[..|ops| - 1]);
      match ops[|ops| - 1]
      case Put(e) => Enqueue(before, e)
      case Pop => DequeueLength(before); Dequeue(before)
  }

  lemma {:induction false} DequeueLength(levels: Levels)
    ensures |Dequeue(levels)| == |levels|
  {
    if levels != [] && levels[|levels| - 1] == [] {
      DequeueLength(levels[..|levels| - 1]);
    }
  }

  function NoEnvelopes(n: nat): Levels {
    seq(n, _ => [])
  }

  lemma {:induction false} EmptyLevels(n: nat)
    ensures Flatten(NoEnvelopes(n)) == [] && LevelsOk(NoEnvelopes(n))
  {
    if n > 0 {
      EmptyLevels(n - 1);
      assert NoEnvelopes(n)[..n - 1] == NoEnvelopes(n - 1);
    }
  }

  lemma {:induction false} DequeueEmpty(levels: Levels)
    requires Flatten(levels) == []
    ensures Dequeue(levels) == levels
  {
    if levels != [] {
      var n := |levels| - 1;
      assert levels[n] == [];
      DequeueEmpty(levels[..n]);
      assert levels == levels[..n] + [[]];
    }
  }

  /** Priority refinement, for every sequence of insertions and pops: the one deque is the levels
      from highest to lowest, each FIFO. */
  lemma {:induction false} DequeRefinesLevels(ops: seq<Op>)
    ensures LevelsOk(ReplayLevels(ops)) && Replay(ops) == Flatten(ReplayLevels(ops))
  {
    if ops == [] {
      EmptyLevels(LEVELS);
    } else {
      var n := |ops| - 1;
      DequeRefinesLevels(ops[..n]);
      var before := ReplayLevels(ops[..n]);
      match ops[n]
      case Put(e) => InsertRefinesEnqueue(before, e);
      case Pop =>
        if Flatten(before) == [] {
          DequeueEmpty(before);
        } else {
          PopRefinesDequeue(before);
        }
    }
  }

  ghost predicate Descending(s: seq<Envelope>) {
    forall i, j | 0 <= i <= j < |s| :: s[i].priority >= s[j].priority
  }

  lemma {:induction false} FlattenDescends(levels: Levels)
    requires LevelsOk(levels)
    ensures Descending(Flatten(levels))
  {
    if levels != [] {
      var n := |levels| - 1;
      FlattenDescends(levels[..n]);
      FlattenBelow(levels[..n], n);
    }
  }

  /** ... and every queue ordered by priority is some levels, flattened. */
  lemma {:induction false} DescendingHasLevels(s: seq<Envelope>) returns (levels: Levels)
    requires Descending(s)
    ensures |levels| == LEVELS && LevelsOk(levels) && Flatten(levels) == s
  {
    if s == [] {
      EmptyLevels(LEVELS);
      levels := NoEnvelopes(LEVELS);
    } else {
      var n := |s| - 1;
      var front := DescendingHasLevels(s[..n]);
      InsertBehind(s[..n], [], s[n]);
      InsertRefinesEnqueue(front, s[n]);
      levels := Enqueue(front, s[n]);
      assert s[..n] + [] == s[..n] && Insert([], s[n]) == [s[n]];
    }
  }

  /** Some multi-level queue looks like this. */
  ghost predicate IsLevelled(s: seq<Envelope>) {
    exists levels: Levels :: |levels| == LEVELS && LevelsOk(levels) && Flatten(levels) == s
  }

  lemma LevelledExactlyWhenDescending(s: seq<Envelope>)
    ensures IsLevelled(s) <==> Descending(s)
  {
    if Descending(s) {
      var levels := DescendingHasLevels(s);
    }
    if IsLevelled(s) {
      var levels: Levels :| |levels| == LEVELS && LevelsOk(levels) && Flatten(levels) == s;
      FlattenDescends(levels);
    }
  }

  /** Messages put back at the front fit there when they are in priority order themselves and the
      last of them is at least as important as what waits behind it. */
  ghost predicate FitsInFront(unread: seq<Envelope>, pending: seq<Envelope>) {
    && Descending(unread)
    && (unread != [] && pending != [] ==> unread[|unread| - 1].priority >= pending[0].priority)
  }

  /** Putting messages back at the front of a levelled queue, one or many, as a dropped stream does,
      leaves a levelled queue exactly when they fit there. */
  lemma RequeueKeepsLevelsExactlyWhen(unread: seq<Envelope>, pending: seq<Envelope>)
    requires IsLevelled(pending)
    ensures IsLevelled(unread + pending) <==> FitsInFront(unread, pending)
  {
    LevelledExactlyWhenDescending(pending);
    LevelledExactlyWhenDescending(unread + pending);
    var all := unread + pending;
    if Descending(all) {
      forall i, j | 0 <= i <= j < |unread| ensures unread[i].priority >= unread[j].priority {
        assert all[i] == unread[i] && all[j] == unread[j];
      }
      if unread != [] && pending != [] {
        assert all[|unread| - 1].priority >= all[|unread|].priority;
      }
    }
    if FitsInFront(unread, pending) {
      forall i, j | 0 <= i <= j < |all| ensures all[i].priority >= all[j].priority {
        if i < |unread| <= j {
          assert unread[i].priority >= unread[|unread| - 1].priority;
          assert pending[0].priority >= pending[j - |unread|].priority;
        }
      }
    }
  }

  // ----- the object --------------------------------------------------------------------------

  /** `QueueState`, mutated under the backend's lock. */
  class QueueState {
    var pending: seq<Envelope>
    var settled: seq<(Envelope, AckKind)>
    var dead: seq<Envelope>
    var held: nat
    var signal: nat

    constructor ()
      ensures pending == [] && settled == [] && dead == [] && held == 0 && signal == 0
    {
      pending, settled, dead, held, signal := [], [], [], 0, 0;
    }

    /** Scan from the back for the last envelope at least as important. */
    method InsertByPriority(e: Envelope)
      modifies this`pending
      ensures pending == Insert(old(pending), e)
    {
      var i := |pending|;
      assert pending[..i] == pending;
      while i > 0 && pending[i - 1].priority < e.priority
        invariant pending == old(pending) && 0 <= i <= |pending|
        invariant InsertPosition(pending[..i], e.priority) == InsertPosition(pending, e.priority)
      {
        assert pending[..i][..i - 1] == pending[..i - 1];
        i := i - 1;
      }
      assert InsertPosition(pending[..i], e.priority) == i;
      pending := pending[..i] + [e] + pending[i..];
    }

    method PopFront() returns (e: Option<Envelope>)
      modifies this`pending
      ensures old(pending) == [] ==> e == None && pending == []
      ensures old(pending) != [] ==> e == Some(old(pending)[0]) && pending == old(pending)[1..]
    {
      if pending == [] {
        e := None;
      } else {
        e := Some(pending[0]);
        pending := pending[1..];
      }
    }

    /** A dropped stream's unread messages, pushed to the front in reverse so that they keep their
        order, and one wake-up for all of them. */
    method RequeueUnread(unread: seq<Envelope>)
      modifies this`pending, this`signal
      ensures pending == unread + old(pending)
      ensures signal == old(signal) + 1
    {
      var i := |unread|;
      assert unread[i..] + pending == pending;
      while i > 0
        invariant 0 <= i <= |unread| && signal == old(signal)
        invariant pending == unread[i..] + old(pending)
      {
        i := i - 1;
        pending := [unread[i]] + pending;
        assert unread[i..] == [unread[i]] + unread[i + 1..];
      }
      assert unread[0..] == unread;
      signal := signal + 1;
    }

    /** The projection behind `acked`, `succeeded` and `retried`. */
    method SettledBy(kind: Option<AckKind>) returns (envelopes: seq<Envelope>)
      ensures envelopes == Project(settled, kind)
    {
      envelopes := [];
      for i := 0 to |settled|
        invariant envelopes == Project(settled[..i], kind)
      {
        assert settled[..i + 1][..i] == settled[..i];
        if kind.None? || settled[i].1 == kind.value {
          envelopes := envelopes + [settled[i].0];
        }
      }
      assert settled[..|settled|] == settled;
    }
  }

  function Project(settled: seq<(Envelope, AckKind)>, kind: Option<AckKind>): seq<Envelope> {
    if settled == [] then []
    else
      var last := settled[|settled| - 1];
      Project(settled[..|settled| - 1], kind)
      + (if kind.None? || last.1 == kind.value then [last.0] else [])
  }

  ghost predicate OfKind(ack: (Envelope, AckKind), kind: Option<AckKind>) {
    kind == None || kind == Some(ack.1)
  }

  /** `projected` reads off `settled` at `places`, in order, at exactly those where the kind matches. */
  ghost predicate ReadsOff(settled: seq<(Envelope, AckKind)>, kind: Option<AckKind>, projected: seq<Envelope>, places: seq<nat>) {
    && |places| == |projected|
    && (forall m | 0 <= m < |places| ::
          places[m] < |settled| && OfKind(settled[places[m]], kind) && projected[m] == settled[places[m]].0)
    && (forall m, n | 0 <= m < n < |places| :: places[m] < places[n])
    && (forall i: nat | i < |settled| && OfKind(settled[i], kind) :: i in places)
  }

  lemma ReadsOffOneMore(settled: seq<(Envelope, AckKind)>, kind: Option<AckKind>, projected: seq<Envelope>, places: seq<nat>,
                        ack: (Envelope, AckKind))
    requires ReadsOff(settled, kind, projected, places)
    ensures if OfKind(ack, kind) then ReadsOff(settled + [ack], kind, projected + [ack.0], places + [|settled|])
            else ReadsOff(settled + [ack], kind, projected, places)
  {
    var more := places + [|settled|];
    if OfKind(ack, kind) {
      forall i: nat | i < |settled + [ack]| && OfKind((settled + [ack])[i], kind) ensures i in more {
        if i < |settled| {
          assert i in places;
        } else {
          assert more[|places|] == i;
        }
      }
    }
  }

  /** The projection is the acks of that kind, all of them and no other, in settle order. */
  lemma {:induction false} ProjectionReadsInOrder(settled: seq<(Envelope, AckKind)>, kind: Option<AckKind>)
    returns (places: seq<nat>)
    ensures ReadsOff(settled, kind, Project(settled, kind), places)
  {
    if settled == [] {
      places := [];
    } else {
      var n := |settled| - 1;
      var front := ProjectionReadsInOrder(settled[..n], kind);
      ReadsOffOneMore(settled[..n], kind, Project(settled[..n], kind), front, settled[n]);
      hide ReadsOff;
      assert settled[..n] + [settled[n]] == settled;
      places := if OfKind(settled[n], kind) then front + [n] else front;
    }
  }

  /** Every ack is exactly one of the three kinds, so the three projections account for them all. */
  lemma {:induction false} KindsPartitionAcks(settled: seq<(Envelope, AckKind)>)
    ensures |Project(settled, None)| == |settled|
    ensures multiset(Project(settled, None))
            == multiset(Project(settled, Some(Succeeded))) + multiset(Project(settled, Some(Retried)))
               + multiset(Project(settled, Some(Deferred)))
  {
    if settled != [] {
      KindsPartitionAcks(settled[..|settled| - 1]);
    }
  }
}
