/** `ConnectionHandle` (crates/rabbitmq/src/connection.rs:244-347, 442-468): the connection slot
    that any number of tasks share, repair one at a time and finally close. One step per lock,
    atomic access or await; a connection may die at any step. */
module Connection {
  import opened Envelopes

  type Task = nat
  type Conn = nat

  /** Where a task stands inside `ensure_connected`. */
  datatype Pc =
    | Check1
    | Peek1
    | Status1(c: Conn)
    | WantLock
    | Check2
    | Peek2
    | Status2(c: Conn)
    | Ask
    | Sleeping
    | Check3
    | Dialing
    | CheckDialled(c: Conn)
    | Swap(c: Conn)
    | Bump(c: Conn)
    | Redeclare(c: Conn)
    | Connected(c: Conn)
    | Failed
  {
    predicate HoldsLock() {
      || Check2? || Peek2? || Status2? || Ask? || Sleeping? || Check3? || Dialing? || CheckDialled? || Swap? || Bump?
      || Redeclare?
    }

    /** Has found the current connection dead, under the lock, and is replacing it. */
    predicate Replacing() { Ask? || Sleeping? || Check3? || Dialing? || CheckDialled? || Swap? }

    predicate Over() { Connected? || Failed? }
  }

  /** The one call of `close`: mark, look at the current connection, close it. */
  datatype Closer = Waiting | Peeked(c: Conn, index: nat) | Done(c: Conn, index: nat)

  datatype State = State(
    current: Conn,
    installed: nat,          // how many connections have been current, this one included
    generation: nat,
    dead: set<Conn>,
    known: set<Conn>,        // every connection ever dialled
    closing: bool,
    lock: Option<Task>,
    tasks: map<Task, Pc>,
    late: set<Task>,         // calls that started after `mark_closing`
    lateInstalls: nat,       // installs that happened after `mark_closing`
    closer: Closer)
  {
    predicate At(t: Task, pc: Pc) { t in tasks && tasks[t] == pc }

    function Go(t: Task, pc: Pc): State { this.(tasks := tasks[t := pc]) }

    /** Returning drops the lock guard, if there is one. */
    function Return(t: Task, pc: Pc): State
      requires t in tasks
    {
      this.(tasks := tasks[t := pc], lock := if tasks[t].HoldsLock() then None else lock)
    }
  }

  datatype Event =
    | Call(t: Task)
    | CheckOpen(t: Task)
    | Peek(t: Task)
    | Status(t: Task)
    | Lock(t: Task)
    | PolicyStops(t: Task)                 // declines, or reconnection is off
    | PolicyAllows(t: Task, sleep: bool)
    | WakesUp(t: Task)
    | WokenToClose(t: Task)
    | DialFails(t: Task)
    | DialSucceeds(t: Task, c: Conn)
    | CheckAfterDial(t: Task)
    | Install(t: Task)                     // the swap ...
    | BumpGeneration(t: Task)              // ... and then the counter
    | Redeclared(t: Task)
    | Dies(c: Conn)
    | MarkClosing
    | ClosePeeks
    | CloseCloses

  predicate Enabled(s: State, e: Event) {
    match e
    case Call(t) => t in s.tasks ==> s.tasks[t].Over()
    case CheckOpen(t) => s.At(t, Check1) || s.At(t, Check2) || s.At(t, Check3)
    case Peek(t) => s.At(t, Peek1) || s.At(t, Peek2)
    case Status(t) => t in s.tasks && (s.tasks[t].Status1? || s.tasks[t].Status2?)
    case Lock(t) => s.At(t, WantLock) && s.lock.None?
    case PolicyStops(t) => s.At(t, Ask)
    case PolicyAllows(t, _) => s.At(t, Ask)
    case WakesUp(t) => s.At(t, Sleeping)
    case WokenToClose(t) => s.At(t, Sleeping) && s.closing
    case DialFails(t) => s.At(t, Dialing)
    case DialSucceeds(t, c) => s.At(t, Dialing) && c !in s.known
    case CheckAfterDial(t) => t in s.tasks && s.tasks[t].CheckDialled?
    case Install(t) => t in s.tasks && s.tasks[t].Swap?
    case BumpGeneration(t) => t in s.tasks && s.tasks[t].Bump?
    case Redeclared(t) => t in s.tasks && s.tasks[t].Redeclare?
    case Dies(c) => c in s.known
    case MarkClosing => true
    case ClosePeeks => s.closing && s.closer.Waiting?
    case CloseCloses => s.closer.Peeked?
  }

  function Apply(s: State, e: Event): State
    requires Enabled(s, e)
  {
    match e
    case Call(t) => s.Go(t, Check1).(late := if s.closing then s.late + {t} else s.late - {t})
    case CheckOpen(t) =>
      if s.closing then s.Return(t, Failed)
      else s.Go(t, if s.tasks[t].Check1? then Peek1 else if s.tasks[t].Check2? then Peek2 else Dialing)
    case Peek(t) => s.Go(t, if s.tasks[t].Peek1? then Status1(s.current) else Status2(s.current))
    case Status(t) =>
      if s.tasks[t].c !in s.dead then s.Return(t, Connected(s.tasks[t].c))
      else s.Go(t, if s.tasks[t].Status1? then WantLock else Ask)
    case Lock(t) => s.Go(t, Check2).(lock := Some(t))
    case PolicyStops(t) => s.Return(t, Failed)
    case PolicyAllows(t, sleep) => s.Go(t, if sleep then Sleeping else Check3)
    case WakesUp(t) => if s.closing then s.Return(t, Failed) else s.Go(t, Check3)
    case WokenToClose(t) => s.Return(t, Failed)
    case DialFails(t) => s.Go(t, Ask)
    case DialSucceeds(t, c) => s.Go(t, CheckDialled(c)).(known := s.known + {c})
    case CheckAfterDial(t) =>
      if s.closing then s.Return(t, Failed).(dead := s.dead + {s.tasks[t].c})
      else s.Go(t, Swap(s.tasks[t].c))
    case Install(t) =>
      s.Go(t, Bump(s.tasks[t].c))
        .(current := s.tasks[t].c, installed := s.installed + 1,
          lateInstalls := s.lateInstalls + (if s.closing then 1 else 0))
    case BumpGeneration(t) => s.Go(t, Redeclare(s.tasks[t].c)).(generation := s.generation + 1)
    case Redeclared(t) => s.Return(t, Connected(s.tasks[t].c))
    case Dies(c) => s.(dead := s.dead + {c})
    case MarkClosing => s.(closing := true)
    case ClosePeeks => s.(closer := Peeked(s.current, s.installed))
    case CloseCloses => s.(dead := s.dead + {s.closer.c}, closer := Done(s.closer.c, s.closer.index))
  }

  ghost predicate Init(s: State) {
    && s.installed == 1 && s.generation == 1 && s.dead == {} && s.known == {s.current}
    && !s.closing && s.lock == None && s.tasks == map[] && s.late == {} && s.lateInstalls == 0
    && s.closer == Waiting
  }

  // ----- the invariant -----------------------------------------------------------------------

  function HolderPc(s: State): Pc {
    if s.lock.Some? && s.lock.value in s.tasks then s.tasks[s.lock.value] else Failed
  }

  ghost predicate InvLock(s: State) {
    && (forall t | t in s.tasks :: s.tasks[t].HoldsLock() <==> s.lock == Some(t))
    && (s.lock.Some? ==> s.lock.value in s.tasks)
  }

  ghost predicate InvSlot(s: State) {
    && (HolderPc(s).Replacing() ==> s.current in s.dead)
    && (HolderPc(s).Status2? ==> HolderPc(s).c == s.current)
    && s.installed == s.generation + (if HolderPc(s).Bump? then 1 else 0)
    && s.current in s.known
    && (HolderPc(s).CheckDialled? || HolderPc(s).Swap? ==> HolderPc(s).c in s.known)
  }

  ghost predicate InvClosing(s: State) {
    && (forall t | t in s.late :: s.closing && t in s.tasks && (s.tasks[t].Check1? || s.tasks[t].Failed?))
    && s.lateInstalls + (if s.closing && HolderPc(s).Swap? then 1 else 0) <= 1
    && (!s.closing ==> s.lateInstalls == 0 && s.closer.Waiting?)
    && (!s.closer.Waiting? ==>
          && s.closer.index <= s.installed <= s.closer.index + 1
          && s.installed - s.closer.index <= s.lateInstalls
          && (s.installed == s.closer.index ==> s.current == s.closer.c))
    && (s.closer.Done? ==> s.closer.c in s.dead)
  }

  ghost predicate Inv(s: State) {
    InvLock(s) && InvSlot(s) && InvClosing(s)
  }

  predicate Global(e: Event) { e.Dies? || e.MarkClosing? || e.ClosePeeks? || e.CloseCloses? }

  lemma LockStep(s: State, e: Event)
    requires InvLock(s) && Enabled(s, e)
    ensures InvLock(Apply(s, e))
  {
  }

  /** A step of the task that holds the lock. */
  lemma HolderKeeps(s: State, e: Event)
    requires Inv(s) && Enabled(s, e) && !Global(e) && s.lock == Some(e.t)
    ensures InvSlot(Apply(s, e)) && InvClosing(Apply(s, e))
  {
    LockStep(s, e);
  }

  /** A step of a task that does not. */
  lemma OtherKeeps(s: State, e: Event)
    requires Inv(s) && Enabled(s, e) && !Global(e) && s.lock != Some(e.t)
    ensures InvSlot(Apply(s, e)) && InvClosing(Apply(s, e))
  {
    LockStep(s, e);
    if e.t in s.tasks {
      assert !s.tasks[e.t].HoldsLock();
    }
  }

  lemma GlobalKeeps(s: State, e: Event)
    requires Inv(s) && Enabled(s, e) && Global(e)
    ensures InvSlot(Apply(s, e)) && InvClosing(Apply(s, e))
  {
    assert HolderPc(Apply(s, e)) == HolderPc(s);
  }

  lemma StepKeeps(s: State, e: Event)
    requires Inv(s) && Enabled(s, e)
    ensures Inv(Apply(s, e))
    ensures s.generation <= Apply(s, e).generation && s.installed <= Apply(s, e).installed
  {
    LockStep(s, e);
    if Global(e) {
      GlobalKeeps(s, e);
    } else if s.lock == Some(e.t) {
      HolderKeeps(s, e);
    } else {
      OtherKeeps(s, e);
    }
  }

  // ----- whole runs --------------------------------------------------------------------------

  ghost predicate Run(states: seq<State>, events: seq<Event>) {
    && |states| == |events| + 1
    && Init(states[0])
    && forall i | 0 <= i < |events| ::
         Enabled(states[i], events[i]) && states[i + 1] == Apply(states[i], events[i])
  }

  lemma InitHolds(s: State)
    requires Init(s)
    ensures Inv(s)
  {
  }

  lemma {:induction false} RunKeeps(states: seq<State>, events: seq<Event>, i: nat)
    requires Run(states, events) && i < |states|
    ensures Inv(states[i])
  {
    hide Inv, Apply;
    if i == 0 {
      InitHolds(states[0]);
    } else {
      RunKeeps(states, events, i - 1);
      StepKeeps(states[i - 1], events[i - 1]);
    }
  }

  /** Reconnection is single-flight: at most one task is past the lock, and so at most one dials;
      and an install only ever replaces a connection that has died. */
  lemma SingleFlight(states: seq<State>, events: seq<Event>, i: nat)
    requires Run(states, events) && i < |states|
    ensures forall t, u | t in states[i].tasks && u in states[i].tasks
                          && states[i].tasks[t].Dialing? && states[i].tasks[u].Dialing? :: t == u
    ensures forall t: Task | Enabled(states[i], Install(t)) :: states[i].current in states[i].dead
  {
    RunKeeps(states, events, i);
    var s := states[i];
    forall t: Task | Enabled(s, Install(t)) ensures s.current in s.dead {
      assert s.lock == Some(t) && HolderPc(s).Replacing();
    }
  }

  /** The generation is the index of the current connection, or one behind it while an install is
      between its swap and its bump; so whoever reads a new generation finds a connection at least
      that new. Both only grow. */
  lemma {:induction false} GenerationTracksCurrent(states: seq<State>, events: seq<Event>, i: nat, j: nat)
    requires Run(states, events) && i <= j < |states|
    ensures states[j].generation <= states[j].installed <= states[j].generation + 1
    ensures states[i].generation <= states[j].generation && states[i].installed <= states[j].installed
    decreases j
  {
    RunKeeps(states, events, j);
    if i < j {
      GenerationTracksCurrent(states, events, i, j - 1);
      RunKeeps(states, events, j - 1);
      StepKeeps(states[j - 1], events[j - 1]);
    }
  }

  /** Closing is final: a call that starts after `mark_closing` never dials and never gets a
      connection, and no more than one connection is installed from then on. */
  lemma ClosingIsFinal(states: seq<State>, events: seq<Event>, i: nat)
    requires Run(states, events) && i < |states|
    ensures forall t | t in states[i].late :: t in states[i].tasks && (states[i].tasks[t].Check1? || states[i].tasks[t].Failed?)
    ensures states[i].lateInstalls <= 1
  {
    RunKeeps(states, events, i);
  }

  /** When `close` is done the slot is dead, unless an install slipped in after `close` had looked
      at the current connection; at most one can. */
  lemma CloseClosesTheSlotUnless(states: seq<State>, events: seq<Event>, i: nat)
    requires Run(states, events) && i < |states| && states[i].closer.Done?
    ensures states[i].installed == states[i].closer.index ==> states[i].current in states[i].dead
    ensures states[i].installed <= states[i].closer.index + 1
  {
    RunKeeps(states, events, i);
  }

  /** That install is possible, because the check after dialling and the swap are two steps: a task
      that passed the check before `mark_closing` and swaps after `close` is done leaves a live
      connection that nobody is left to close. */
  lemma LateInstallLeaks(s: State, t: Task)
    requires Inv(s) && s.closer.Done? && t in s.tasks && s.tasks[t].Swap? && s.tasks[t].c !in s.dead
    ensures Enabled(s, Install(t))
    ensures var s' := Apply(s, Install(t));
            && s'.current !in s'.dead && s'.closing && s'.closer == s.closer
            && !Enabled(s', ClosePeeks) && !Enabled(s', CloseCloses)
            && s'.installed == s'.closer.index + 1
  {
    assert s.lock == Some(t) && HolderPc(s).Swap?;
  }

  // ----- exactly when a close can leak ---------------------------------------------------------

  /** Some way to go on ends with `close` done and a live connection in the slot. */
  ghost predicate CanLeak(s: State, events: seq<Event>)
    decreases events
  {
    if events == [] then s.closer.Done? && s.current !in s.dead
    else Enabled(s, events[0]) && CanLeak(Apply(s, events[0]), events[1..])
  }

  ghost predicate MayLeak(s: State) {
    exists events :: CanLeak(s, events)
  }

  /** `close` has looked, and no live connection can get into the slot any more. */
  ghost predicate Sealed(s: State) {
    && s.closing && !s.closer.Waiting?
    && (HolderPc(s).Swap? ==> HolderPc(s).c in s.dead)
    && (s.installed != s.closer.index ==> s.current in s.dead)
  }

  lemma SealedGlobal(s: State, e: Event)
    requires Inv(s) && Sealed(s) && Enabled(s, e) && Global(e)
    ensures Sealed(Apply(s, e))
  {
    assert HolderPc(Apply(s, e)) == HolderPc(s);
  }

  lemma SealedTask(s: State, e: Event)
    requires Inv(s) && Sealed(s) && Enabled(s, e) && !Global(e)
    ensures Sealed(Apply(s, e))
  {
    LockStep(s, e);
    if e.t in s.tasks && s.lock != Some(e.t) {
      assert !s.tasks[e.t].HoldsLock();
    }
  }

  lemma {:induction false} SealedNeverLeaks(s: State, events: seq<Event>)
    requires Inv(s) && Sealed(s)
    ensures !CanLeak(s, events)
    decreases events
  {
    if events != [] && Enabled(s, events[0]) {
      StepKeeps(s, events[0]);
      if Global(events[0]) { SealedGlobal(s, events[0]); } else { SealedTask(s, events[0]); }
      hide Inv, Sealed, Apply;
      SealedNeverLeaks(Apply(s, events[0]), events[1..]);
    }
  }

  lemma OpenSwapLeaks(s: State, t: Task) returns (events: seq<Event>)
    requires Inv(s) && s.closing && s.closer == Peeked(s.current, s.installed)
    requires s.lock == Some(t) && s.At(t, HolderPc(s)) && HolderPc(s).Swap? && HolderPc(s).c !in s.dead
    ensures CanLeak(s, events)
  {
    var closed := Apply(s, CloseCloses);
    var tail := [Install(t)];
    assert HolderPc(closed) == HolderPc(s);
    assert Apply(closed, Install(t)).current == HolderPc(s).c;
    assert tail[1..] == [] && CanLeak(Apply(closed, Install(t)), []);
    assert CanLeak(closed, tail);
    events := [CloseCloses] + tail;
    assert events[1..] == tail;
  }

  /** A close can leave a live connection behind if and only if, when it looks at the slot, some
      task stands between its check of the closing flag and its swap with a live connection. */
  lemma CloseLeaksExactlyWhen(s: State)
    requires Inv(s) && s.closing && s.closer == Peeked(s.current, s.installed)
    ensures MayLeak(s) <==> HolderPc(s).Swap? && HolderPc(s).c !in s.dead
  {
    if HolderPc(s).Swap? && HolderPc(s).c !in s.dead {
      hide CanLeak;
      var events := OpenSwapLeaks(s, s.lock.value);
      assert CanLeak(s, events);
    } else {
      assert Sealed(s);
      hide CanLeak, Sealed;
      forall events ensures !CanLeak(s, events) {
        SealedNeverLeaks(s, events);
      }
    }
  }

  // ----- a run in which the leak happens -------------------------------------------------------

  ghost predicate Reachable(s: State) {
    exists states, events :: Run(states, events) && states[|events|] == s
  }

  lemma ReachStep(s: State, e: Event, s': State)
    requires Reachable(s) && Enabled(s, e) && s' == Apply(s, e)
    ensures Reachable(s')
  {
    var states, events :| Run(states, events) && states[|events|] == s;
    var more, longer := states + [s'], events + [e];
    forall i | 0 <= i < |longer| ensures Enabled(more[i], longer[i]) && more[i + 1] == Apply(more[i], longer[i]) {
      if i < |events| {
        assert more[i] == states[i] && more[i + 1] == states[i + 1] && longer[i] == events[i];
      }
    }
    assert Run(more, longer) && more[|longer|] == s';
  }

  /** One task repairing a connection that has died. */
  function Repairing(pc: Pc, lock: Option<Task>): State {
    State(0, 1, 1, {0}, {0}, false, lock, map[1 := pc], {}, 0, Waiting)
  }

  lemma ReachesACall()
    ensures Reachable(Repairing(Check1, None))
  {
    var s0 := State(0, 1, 1, {}, {0}, false, None, map[], {}, 0, Waiting);
    var none: seq<Event> := [];
    assert Run([s0], none) && [s0][|none|] == s0;
    var s1 := s0.(dead := {0});
    ReachStep(s0, Dies(0), s1);
    ReachStep(s1, Call(1), Repairing(Check1, None));
  }

  lemma ReachesTheLock()
    ensures Reachable(Repairing(WantLock, None))
  {
    hide Reachable;
    ReachesACall();
    ReachStep(Repairing(Check1, None), CheckOpen(1), Repairing(Peek1, None));
    ReachStep(Repairing(Peek1, None), Peek(1), Repairing(Status1(0), None));
    ReachStep(Repairing(Status1(0), None), Status(1), Repairing(WantLock, None));
  }

  lemma ReachesTheSecondLook()
    ensures Reachable(Repairing(Status2(0), Some(1)))
  {
    hide Reachable;
    ReachesTheLock();
    ReachStep(Repairing(WantLock, None), Lock(1), Repairing(Check2, Some(1)));
    ReachStep(Repairing(Check2, Some(1)), CheckOpen(1), Repairing(Peek2, Some(1)));
    ReachStep(Repairing(Peek2, Some(1)), Peek(1), Repairing(Status2(0), Some(1)));
  }

  lemma ReachesTheDial()
    ensures Reachable(Repairing(Dialing, Some(1)))
  {
    hide Reachable;
    ReachesTheSecondLook();
    ReachStep(Repairing(Status2(0), Some(1)), Status(1), Repairing(Ask, Some(1)));
    ReachStep(Repairing(Ask, Some(1)), PolicyAllows(1, false), Repairing(Check3, Some(1)));
    ReachStep(Repairing(Check3, Some(1)), CheckOpen(1), Repairing(Dialing, Some(1)));
  }

  lemma ReachesCloseDuringTheSwap() returns (s: State)
    ensures Reachable(s) && Inv(s) && s.closer.Done? && s.At(1, Swap(1)) && 1 !in s.dead
  {
    hide Reachable;
    ReachesTheDial();
    var dialled := Repairing(CheckDialled(1), Some(1)).(known := {0, 1});
    ReachStep(Repairing(Dialing, Some(1)), DialSucceeds(1, 1), dialled);
    var swapping := dialled.(tasks := map[1 := Swap(1)]);
    ReachStep(dialled, CheckAfterDial(1), swapping);
    var marked := swapping.(closing := true);
    ReachStep(swapping, MarkClosing, marked);
    var peeked := marked.(closer := Peeked(0, 1));
    ReachStep(marked, ClosePeeks, peeked);
    s := peeked.(closer := Done(0, 1));
    ReachStep(peeked, CloseCloses, s);
    assert HolderPc(s) == Swap(1);
  }

  /** The documented promise that nothing stays connected after `close` fails in a run of the code:
      `close` is done, closing was marked before, and the current connection is live. */
  lemma CloseCanLeaveAConnectionOpen() returns (s: State)
    ensures Reachable(s) && s.closer.Done? && s.closing && s.current !in s.dead
  {
    hide Reachable;
    var before := ReachesCloseDuringTheSwap();
    LateInstallLeaks(before, 1);
    s := Apply(before, Install(1));
    ReachStep(before, Install(1), s);
  }

  // ----- the object --------------------------------------------------------------------------

  /** The slot's fields, as its methods update them, against the machine's steps. */
  class ConnectionHandle {
    var current: Conn
    var generation: nat
    var closing: bool

    /** The fields show what the machine's state says. */
    ghost predicate Shows(s: State)
      reads this
    {
      current == s.current && generation == s.generation && closing == s.closing
    }

    constructor (first: Conn)
      ensures forall s | Init(s) && s.current == first :: Shows(s)
    {
      current, generation, closing := first, 1, false;
    }

    /** `install`, by the task that holds the lock: the machine's swap and then its bump. What is
        replaced is dead, and the generation handed out is the index of the new connection. */
    method Install(c: Conn, ghost s: State, ghost t: Task) returns (g: nat)
      requires Shows(s) && Inv(s) && s.At(t, Swap(c))
      modifies this`current, this`generation
      ensures var s1 := Apply(s, Event.Install(t));
              Shows(Apply(s1, BumpGeneration(t))) && g == s1.installed
      ensures old(current) in s.dead
      ensures g == generation > old(generation)
    {
      assert HolderPc(s) == Swap(c);
      current := c;
      generation := generation + 1;
      g := generation;
    }

    /** `mark_closing`: the machine's step. No call that starts from now on gets past its first check,
        and a second call changes nothing. */
    method MarkClosing(ghost s: State)
      requires Shows(s)
      modifies this`closing
      ensures var s' := Apply(s, Event.MarkClosing);
              && Shows(s')
              && (forall t | Enabled(s', Call(t)) :: Apply(Apply(s', Call(t)), CheckOpen(t)).At(t, Failed))
              && (s.closing ==> s' == s)
    {
      closing := true;
    }

    /** `live`, undisturbed, before the lock or under it: what it answers is where the machine's three
        steps take the task. An error is a call that is over; a connection is a call that is over and
        has it; neither is a call that goes on, to the lock or to the policy. */
    method Live(connected: set<Conn>, ghost s: State, ghost t: Task) returns (open: bool, c: Option<Conn>)
      requires Shows(s) && (s.At(t, Check1) || s.At(t, Check2)) && forall x :: x in connected <==> x !in s.dead && x in s.known
      requires s.current in s.known
      ensures var s1 := Apply(s, CheckOpen(t));
              if !open then c == None && s1.At(t, Failed)
              else
                && Enabled(s1, Peek(t)) && var s2 := Apply(s1, Peek(t));
                && Enabled(s2, Status(t)) && var s3 := Apply(s2, Status(t));
                && (c.Some? <==> s3.At(t, Connected(s.current))) && (c.Some? ==> c.value == s.current && s.current !in s.dead)
                && (c.None? <==> s3.At(t, if s.At(t, Check1) then WantLock else Ask))
    {
      open := !closing;
      c := if open && current in connected then Some(current) else None;
    }
  }
}
