/** What the calls of `ensure_connected` answer, and what becomes of every connection they dial
    (crates/rabbitmq/src/connection.rs:244-347), in every run of Connection. */
module ConnectionCalls {
  import opened Envelopes
  import opened Connection

  // ----- what a call answers -----------------------------------------------------------------

  /** Task t's call is over with this step. */
  predicate Answers(s: State, e: Event, t: Task)
    requires Enabled(s, e)
  {
    t in s.tasks && !s.tasks[t].Over() && t in Apply(s, e).tasks && Apply(s, e).tasks[t].Over()
  }

  /** A call fails only because the handle is closing or the policy declines; it hands out only a
      connection it has just seen alive, or the one it has dialled and installed itself. And no dial
      begins once the handle is closing, and a wait that ends then ends the call. */
  lemma CallsAnswerTruthfully(s: State, e: Event, t: Task)
    requires Enabled(s, e)
    ensures Answers(s, e, t) && Apply(s, e).tasks[t].Failed? ==> s.closing || e == PolicyStops(t)
    ensures Answers(s, e, t) && Apply(s, e).tasks[t].Connected? ==>
              var c := Apply(s, e).tasks[t].c;
              || (c !in s.dead && (s.tasks[t] == Status1(c) || s.tasks[t] == Status2(c)))
              || s.tasks[t] == Redeclare(c)
    ensures t in Apply(s, e).tasks && Apply(s, e).tasks[t].Dialing? && !s.At(t, Dialing) ==> !s.closing
    ensures s.At(t, Sleeping) && t in Apply(s, e).tasks && !Apply(s, e).At(t, Sleeping) ==>
              Apply(s, e).tasks[t] == if s.closing then Failed else Check3
    ensures e == PolicyStops(t) ==> Apply(s, e).At(t, Failed)
    ensures e == DialFails(t) ==> Apply(s, e).At(t, Ask)
    ensures e == PolicyAllows(t, true) ==> Apply(s, e).At(t, Sleeping)
    ensures e == PolicyAllows(t, false) ==> Apply(s, e).At(t, Check3)
  {
  }

  lemma ClosingStays(s: State, e: Event)
    requires Enabled(s, e)
    ensures s.closing ==> Apply(s, e).closing
    ensures e.MarkClosing? ==> Apply(s, e).closing
    ensures !e.MarkClosing? ==> Apply(s, e).closing == s.closing
    ensures s.lateInstalls <= Apply(s, e).lateInstalls
    ensures e.Install? && s.closing ==> Apply(s, e).lateInstalls == s.lateInstalls + 1
  {
  }

  /** A call that begins once the handle is closing never gets past its first check, however long it and
      everybody else go on: it has not begun to look for a connection, or it has failed. */
  lemma {:induction false} CallsAfterTheCloseFail(states: seq<State>, events: seq<Event>, k: nat, i: nat, t: Task)
    requires Run(states, events) && k < i < |states| && events[k] == Call(t) && states[k].closing
    requires forall j | k < j < i :: events[j] != Call(t)
    ensures t in states[i].tasks && (states[i].tasks[t].Check1? || states[i].tasks[t].Failed?) && states[i].closing
    ensures t in states[i].late
    decreases i
  {
    ClosingStays(states[i - 1], events[i - 1]);
    if i > k + 1 {
      CallsAfterTheCloseFail(states, events, k, i - 1, t);
      FailedStays(states[i - 1], events[i - 1], t);
    }
  }

  lemma FailedStays(s: State, e: Event, t: Task)
    requires Enabled(s, e) && e != Call(t) && s.closing
    requires t in s.tasks && (s.tasks[t].Check1? || s.tasks[t].Failed?)
    ensures t in Apply(s, e).tasks && (Apply(s, e).tasks[t].Check1? || Apply(s, e).tasks[t].Failed?)
    ensures t in s.late ==> t in Apply(s, e).late
  {
  }

  lemma {:induction false} InstallsAreCounted(states: seq<State>, events: seq<Event>, k: nat, i: nat)
    requires Run(states, events) && k < i < |states| && events[k].Install? && states[k].closing
    ensures states[i].closing && states[i].lateInstalls > states[k].lateInstalls
    decreases i
  {
    ClosingStays(states[i - 1], events[i - 1]);
    hide Apply, Enabled;
    if i > k + 1 {
      InstallsAreCounted(states, events, k, i - 1);
    }
  }

  /** At most one connection is installed once the handle is closing: after the first, none. */
  lemma OneInstallAfterTheClose(states: seq<State>, events: seq<Event>, k: nat, i: nat)
    requires Run(states, events) && k < i < |events| && events[k].Install? && states[k].closing
    ensures !events[i].Install?
  {
    InstallsAreCounted(states, events, k, i);
    ClosingIsFinal(states, events, i + 1);
    ClosingStays(states[i], events[i]);
  }

  /** The connection a task holds on to because it was, or has been made, the current one. */
  predicate Holds(pc: Pc, c: Conn) {
    pc == Status1(c) || pc == Status2(c) || pc == Bump(c) || pc == Redeclare(c) || pc == Connected(c)
  }

  lemma HoldsStep(s: State, e: Event, t: Task, c: Conn)
    requires Enabled(s, e) && t in Apply(s, e).tasks && Holds(Apply(s, e).tasks[t], c)
    ensures (t in s.tasks && Holds(s.tasks[t], c)) || s.current == c || Apply(s, e).current == c
  {
  }

  /** Whatever a call hands out has been the current connection at some point of the run. */
  lemma {:induction false} CallsHandOutCurrentConnections(states: seq<State>, events: seq<Event>, i: nat, t: Task, c: Conn)
    returns (k: nat)
    requires Run(states, events) && i < |states| && t in states[i].tasks && Holds(states[i].tasks[t], c)
    ensures k <= i && states[k].current == c
  {
    if states[i].current == c {
      k := i;
    } else {
      HoldsStep(states[i - 1], events[i - 1], t, c);
      hide Apply;
      if states[i - 1].current == c {
        k := i - 1;
      } else {
        k := CallsHandOutCurrentConnections(states, events, i - 1, t, c);
      }
    }
  }

  // ----- what becomes of a connection --------------------------------------------------------

  /** Connection c is in the hands of the task that holds the lock and has just dialled it. */
  predicate InHand(s: State, c: Conn) {
    HolderPc(s) == CheckDialled(c) || HolderPc(s) == Swap(c)
  }

  ghost predicate NoStrays(s: State) {
    forall c | c in s.known && c !in s.dead :: c == s.current || InHand(s, c)
  }

  lemma HolderMoves(s: State, e: Event)
    requires NoStrays(s) && Inv(s) && Enabled(s, e) && !Global(e) && s.lock == Some(e.t)
    ensures NoStrays(Apply(s, e))
  {
    LockStep(s, e);
  }

  lemma OtherMoves(s: State, e: Event)
    requires NoStrays(s) && Inv(s) && Enabled(s, e) && !Global(e) && s.lock != Some(e.t)
    ensures NoStrays(Apply(s, e))
  {
    LockStep(s, e);
    if e.t in s.tasks {
      assert !s.tasks[e.t].HoldsLock();
    }
  }

  lemma WorldMoves(s: State, e: Event)
    requires NoStrays(s) && Enabled(s, e) && Global(e)
    ensures NoStrays(Apply(s, e))
  {
    assert HolderPc(Apply(s, e)) == HolderPc(s);
  }

  lemma {:induction false} RunStrays(states: seq<State>, events: seq<Event>, i: nat)
    requires Run(states, events) && i < |states|
    ensures NoStrays(states[i])
  {
    if i > 0 {
      RunStrays(states, events, i - 1);
      RunKeeps(states, events, i - 1);
      hide NoStrays, Inv, Apply, Enabled;
      var s, e := states[i - 1], events[i - 1];
      if Global(e) {
        WorldMoves(s, e);
      } else if s.lock == Some(e.t) {
        HolderMoves(s, e);
      } else {
        OtherMoves(s, e);
      }
    }
  }

  /** No connection is leaked on the way: in every run, whatever was ever dialled and is still alive is
      the current connection, or in the hands of the one task that is about to install it; one that is
      dialled while the handle closes is closed again. */
  lemma NoConnectionGoesAstray(states: seq<State>, events: seq<Event>, i: nat, c: Conn)
    requires Run(states, events) && i < |states| && c in states[i].known && c !in states[i].dead
    ensures c == states[i].current
            || exists t | t in states[i].tasks :: states[i].lock == Some(t)
                 && (states[i].tasks[t] == CheckDialled(c) || states[i].tasks[t] == Swap(c))
  {
    RunStrays(states, events, i);
  }

  /** Anything may go wrong at any time: a connection may die, and `close` may begin and go on. A dial may
      fail and the policy decline wherever they are asked. */
  lemma AnythingMayGoWrong(s: State, t: Task, c: Conn)
    ensures s.At(t, Dialing) ==> Enabled(s, DialFails(t))
    ensures s.At(t, Ask) ==> Enabled(s, PolicyStops(t))
    ensures c in s.known ==> Enabled(s, Dies(c)) && c in Apply(s, Dies(c)).dead
    ensures Enabled(s, Event.MarkClosing)
    ensures s.closing && s.closer.Waiting? ==> Enabled(s, ClosePeeks)
    ensures s.closer.Peeked? ==> Enabled(s, CloseCloses)
  {
  }

  /** Every call that is not waiting for the lock can take its next step. */
  lemma CallsCanGetOn(s: State, t: Task, c: Conn, sleep: bool)
    ensures t !in s.tasks ==> Enabled(s, Call(t))
    ensures t in s.tasks ==>
              match s.tasks[t]
              case Check1 => Enabled(s, CheckOpen(t))
              case Check2 => Enabled(s, CheckOpen(t))
              case Check3 => Enabled(s, CheckOpen(t))
              case Peek1 => Enabled(s, Peek(t))
              case Peek2 => Enabled(s, Peek(t))
              case Status1(_) => Enabled(s, Status(t))
              case Status2(_) => Enabled(s, Status(t))
              case WantLock => s.lock.None? ==> Enabled(s, Lock(t))
              case Ask => Enabled(s, PolicyStops(t)) && Enabled(s, PolicyAllows(t, sleep))
              case Sleeping => Enabled(s, WakesUp(t)) && (s.closing ==> Enabled(s, WokenToClose(t)))
              case Dialing => Enabled(s, DialFails(t)) && (c !in s.known ==> Enabled(s, DialSucceeds(t, c)))
              case CheckDialled(_) => Enabled(s, CheckAfterDial(t))
              case Swap(_) => Enabled(s, Event.Install(t))
              case Bump(_) => Enabled(s, BumpGeneration(t))
              case Redeclare(_) => Enabled(s, Redeclared(t))
              case Connected(_) => Enabled(s, Call(t))
              case Failed => Enabled(s, Call(t))
  {
  }

  /** ... and the lock is always somebody's who can go on, so it is handed back. */
  lemma TheLockComesBack(states: seq<State>, events: seq<Event>, i: nat, t: Task)
    requires Run(states, events) && i < |states| && states[i].lock == Some(t)
    ensures t in states[i].tasks && states[i].tasks[t].HoldsLock()
  {
    RunKeeps(states, events, i);
  }
}
