/** Backoff sleeps against `mark_closing` (crates/rabbitmq/src/connection.rs:357-368, 442-447). A
    notification wakes only waiters that already exist, so the order of arming the waiter and
    checking the flag decides whether a close can be missed. */
module CloseNotify {
  type Task = nat

  /** One call of `sleep_unless_closing`. */
  datatype Sleep =
    | Entered
    | Armed(notified: bool)      // waiter registered, flag not yet checked
    | Checked                    // flag checked, waiter not yet registered
    | Asleep(notified: bool)
    | Refused                    // returned `Closed`
    | Slept

  /** One call of `mark_closing`: the one that found the flag down still has to notify. A call that
      is over remembers whether it was that one. */
  datatype Marker = MustNotify | Returned(first: bool)

  datatype State = State(
    armFirst: bool,
    closing: bool,
    notifyDone: bool,
    sleeps: map<Task, Sleep>,
    markers: map<Task, Marker>)

  datatype Event =
    | Enter(t: Task)
    | Arm(t: Task)
    | Check(t: Task)
    | Woken(t: Task)
    | Elapses(t: Task)
    | MarkSwaps(m: Task)
    | MarkNotifies(m: Task)

  predicate At(s: State, t: Task, w: Sleep) { t in s.sleeps && s.sleeps[t] == w }

  predicate Enabled(s: State, e: Event) {
    match e
    case Enter(t) => t in s.sleeps ==> s.sleeps[t].Refused? || s.sleeps[t].Slept?
    case Arm(t) => At(s, t, if s.armFirst then Entered else Checked)
    case Check(t) => t in s.sleeps && (if s.armFirst then s.sleeps[t].Armed? else s.sleeps[t].Entered?)
    case Woken(t) => At(s, t, Asleep(true))
    case Elapses(t) => t in s.sleeps && s.sleeps[t].Asleep?
    case MarkSwaps(m) => m !in s.markers
    case MarkNotifies(m) => m in s.markers && s.markers[m].MustNotify?
  }

  /** `notify_waiters`: whoever is registered now. */
  function Notify(w: Sleep): Sleep {
    match w
    case Armed(_) => Armed(true)
    case Asleep(_) => Asleep(true)
    case _ => w
  }

  function Apply(s: State, e: Event): State
    requires Enabled(s, e)
  {
    match e
    case Enter(t) => s.(sleeps := s.sleeps[t := Entered])
    case Arm(t) => s.(sleeps := s.sleeps[t := if s.armFirst then Armed(false) else Asleep(false)])
    case Check(t) =>
      var next :=
        if s.closing then Refused
        else if s.armFirst then Asleep(s.sleeps[t].notified) else Checked;
      s.(sleeps := s.sleeps[t := next])
    case Woken(t) => s.(sleeps := s.sleeps[t := Refused])
    case Elapses(t) => s.(sleeps := s.sleeps[t := if s.closing then Refused else Slept])
    case MarkSwaps(m) =>
      s.(closing := true, markers := s.markers[m := if s.closing then Returned(false) else MustNotify])
    case MarkNotifies(m) =>
      s.(markers := s.markers[m := Returned(true)], notifyDone := true,
         sleeps := map t | t in s.sleeps :: Notify(s.sleeps[t]))
  }

  ghost predicate Init(s: State) {
    !s.closing && !s.notifyDone && s.sleeps == map[] && s.markers == map[]
  }

  /** Every call of `mark_closing` that has begun has returned. */
  ghost predicate AllMarked(s: State) {
    forall m | m in s.markers :: s.markers[m].Returned?
  }

  ghost predicate NobodyLeftAsleep(s: State) {
    forall t | t in s.sleeps && s.sleeps[t].Asleep? :: s.sleeps[t].notified
  }

  ghost predicate NobodyAsleep(s: State) {
    forall t | t in s.sleeps :: !s.sleeps[t].Asleep?
  }

  ghost predicate NobodyNotified(s: State) {
    forall t | t in s.sleeps && (s.sleeps[t].Armed? || s.sleeps[t].Asleep?) :: !s.sleeps[t].notified
  }

  /** The call that found the flag down has not notified yet. */
  ghost predicate FirstPending(s: State) {
    exists m :: m in s.markers && s.markers[m].MustNotify?
  }

  ghost predicate Inv(s: State) {
    && (s.notifyDone ==> s.closing && NobodyLeftAsleep(s) && !FirstPending(s))
    && (!s.notifyDone ==> NobodyNotified(s))
    && (s.closing ==> s.notifyDone || FirstPending(s))
    && (s.markers != map[] ==> s.closing)
    && (forall m | m in s.markers && s.markers[m].Returned? && s.markers[m].first :: s.notifyDone)
    && (forall m, n | m in s.markers && n in s.markers && s.markers[m].MustNotify? && s.markers[n].MustNotify? :: m == n)
  }

  lemma MarkerKeeps(s: State, e: Event)
    requires Inv(s) && Enabled(s, e) && (e.MarkSwaps? || e.MarkNotifies?)
    ensures Inv(Apply(s, e))
  {
    var s' := Apply(s, e);
    if e.MarkSwaps? {
      assert s'.markers[e.m] != Returned(true);
      if s.closing && !s.notifyDone {
        var m :| m in s.markers && s.markers[m].MustNotify?;
        assert s'.markers[m].MustNotify?;
      } else if !s.closing {
        assert s'.markers[e.m].MustNotify?;
      }
    } else {
      assert s.markers[e.m].MustNotify?;
      assert FirstPending(s);
    }
  }

  lemma StepKeeps(s: State, e: Event)
    requires Inv(s) && Enabled(s, e) && s.armFirst
    ensures Inv(Apply(s, e)) && Apply(s, e).armFirst
  {
    if e.MarkSwaps? || e.MarkNotifies? {
      MarkerKeeps(s, e);
    } else {
      assert Apply(s, e).markers == s.markers;
    }
  }

  ghost predicate Run(states: seq<State>, events: seq<Event>) {
    && |states| == |events| + 1
    && Init(states[0])
    && forall i | 0 <= i < |events| ::
         Enabled(states[i], events[i]) && states[i + 1] == Apply(states[i], events[i])
  }

  lemma {:induction false} RunKeeps(states: seq<State>, events: seq<Event>, i: nat)
    requires Run(states, events) && i < |states| && states[0].armFirst
    ensures Inv(states[i]) && states[i].armFirst
  {
    if i > 0 {
      RunKeeps(states, events, i - 1);
      StepKeeps(states[i - 1], events[i - 1]);
    }
  }

  /** No lost close notification: with the waiter armed before the flag is checked, in every
      interleaving and however often `mark_closing` is called, once the calls that have begun are
      through every task still in a backoff has its wake-up, and can take it. */
  lemma NoSleeperIsForgotten(states: seq<State>, events: seq<Event>, i: nat)
    requires Run(states, events) && i < |states| && states[0].armFirst
    requires states[i].closing && AllMarked(states[i])
    ensures NobodyLeftAsleep(states[i])
    ensures forall t | t in states[i].sleeps && states[i].sleeps[t].Asleep? :: Enabled(states[i], Woken(t))
  {
    RunKeeps(states, events, i);
  }

  /** Exactly when nobody is left to sleep out a backoff: in every run, at every point after the flag
      is up, all sleepers have their wake-up if and only if the call that set the flag has notified,
      or nobody is asleep. */
  lemma SleepersAreWokenExactlyWhen(states: seq<State>, events: seq<Event>, i: nat)
    requires Run(states, events) && i < |states| && states[0].armFirst && states[i].closing
    ensures NobodyLeftAsleep(states[i]) <==> states[i].notifyDone || NobodyAsleep(states[i])
    ensures states[i].notifyDone <==> !FirstPending(states[i])
  {
    RunKeeps(states, events, i);
  }

  /** Per call: the one that found the flag down has woken everyone by the time it returns; one that
      found it up returns without that, and can promise it only if the first has notified (or there
      is nobody to wake). */
  lemma WhatOneCallPromises(states: seq<State>, events: seq<Event>, i: nat, m: Task)
    requires Run(states, events) && i < |states| && states[0].armFirst
    requires m in states[i].markers && states[i].markers[m].Returned?
    ensures states[i].closing
    ensures states[i].markers[m].first ==> NobodyLeftAsleep(states[i])
    ensures !states[i].markers[m].first ==>
              (NobodyLeftAsleep(states[i]) <==> !FirstPending(states[i]) || NobodyAsleep(states[i]))
  {
    RunKeeps(states, events, i);
  }

  /** What one step may answer a sleeper. */
  lemma AnswerStep(s: State, e: Event, t: Task)
    requires Inv(s) && s.armFirst && Enabled(s, e) && t in s.sleeps && t in Apply(s, e).sleeps
    ensures Apply(s, e).sleeps[t].Refused? && !s.sleeps[t].Refused? ==> s.closing
    ensures Apply(s, e).sleeps[t].Slept? && !s.sleeps[t].Slept? ==> !s.closing && s.sleeps[t].Asleep?
    ensures Apply(s, e).sleeps[t].Asleep? && !s.sleeps[t].Asleep? ==> !s.closing
  {
  }

  /** What a sleep answers, in every run: it is refused only once the flag is up, it is reported as slept
      out only while the flag is down, and it does not begin once the flag is up. */
  lemma SleepsAnswerTruthfully(states: seq<State>, events: seq<Event>, i: nat, t: Task)
    requires Run(states, events) && i < |events| && states[0].armFirst
    requires t in states[i].sleeps && t in states[i + 1].sleeps
    ensures var was, now := states[i].sleeps[t], states[i + 1].sleeps[t];
            && (now.Refused? && !was.Refused? ==> states[i].closing)
            && (now.Slept? && !was.Slept? ==> !states[i].closing)
            && (now.Asleep? && !was.Asleep? ==> !states[i].closing)
  {
    RunKeeps(states, events, i);
    AnswerStep(states[i], events[i], t);
  }

  function Shot(armFirst: bool, closing: bool, done: bool, sleep: Sleep, markers: map<Task, Marker>): State {
    State(armFirst, closing, done, map[7 := sleep], markers)
  }

  lemma SleepingShots() returns (states: seq<State>, events: seq<Event>)
    ensures |states| == 4 && |events| == 3 && Init(states[0]) && states[0].armFirst
    ensures forall i | 0 <= i < 3 :: Enabled(states[i], events[i]) && states[i + 1] == Apply(states[i], events[i])
    ensures states[3] == Shot(true, false, false, Asleep(false), map[])
  {
    events := [Enter(7), Arm(7), Check(7)];
    states := [
      State(true, false, false, map[], map[]),
      Shot(true, false, false, Entered, map[]),
      Shot(true, false, false, Armed(false), map[]),
      Shot(true, false, false, Asleep(false), map[])];
  }

  /** It is the call that sets the flag that matters: a second call can return while the first has
      not notified yet and a task is asleep. */
  lemma SecondCallMayReturnEarly() returns (states: seq<State>, events: seq<Event>)
    ensures Run(states, events) && states[0].armFirst
    ensures 2 in states[|events|].markers && states[|events|].markers[2] == Returned(false)
    ensures !NobodyLeftAsleep(states[|events|])
  {
    var s, e := SleepingShots();
    var marked := Apply(s[3], MarkSwaps(1));
    states, events := s + [marked, Apply(marked, MarkSwaps(2))], e + [MarkSwaps(1), MarkSwaps(2)];
    forall i | 0 <= i < 5 ensures Enabled(states[i], events[i]) && states[i + 1] == Apply(states[i], events[i]) {
      if i < 3 { assert states[i] == s[i] && states[i + 1] == s[i + 1] && events[i] == e[i]; }
    }
    assert states[5].sleeps[7] == Asleep(false);
  }

  lemma CheckedShots() returns (states: seq<State>, events: seq<Event>)
    ensures |states| == 5 && |events| == 4 && Init(states[0]) && !states[0].armFirst
    ensures forall i | 0 <= i < 4 :: Enabled(states[i], events[i]) && states[i + 1] == Apply(states[i], events[i])
    ensures states[4] == Shot(false, true, true, Checked, map[1 := Returned(true)])
  {
    events := [Enter(7), Check(7), MarkSwaps(1), MarkNotifies(1)];
    var marked := Shot(false, true, false, Checked, map[1 := MustNotify]);
    assert Apply(marked, MarkNotifies(1)) == Shot(false, true, true, Checked, map[1 := Returned(true)]);
    states := [
      State(false, false, false, map[], map[]),
      Shot(false, false, false, Entered, map[]),
      Shot(false, false, false, Checked, map[]),
      marked,
      Shot(false, true, true, Checked, map[1 := Returned(true)])];
  }

  /** With the two steps the other way round a close is missed: every call of `mark_closing` has
      returned, and the task sleeps on with nothing to wake it. */
  lemma CheckingFirstForgetsASleeper() returns (states: seq<State>, events: seq<Event>)
    ensures Run(states, events) && !states[0].armFirst
    ensures states[|events|].closing && AllMarked(states[|events|]) && !NobodyLeftAsleep(states[|events|])
  {
    var s, e := CheckedShots();
    states, events := s + [Apply(s[4], Arm(7))], e + [Arm(7)];
    forall i | 0 <= i < 5 ensures Enabled(states[i], events[i]) && states[i + 1] == Apply(states[i], events[i]) {
      if i < 4 { assert states[i] == s[i] && states[i + 1] == s[i + 1] && events[i] == e[i]; }
    }
    assert states[5].sleeps[7] == Asleep(false);
  }

  // ----- the object --------------------------------------------------------------------------

  /** The closing flag and the waiters of one handle, as its methods update them. */
  class CloseSignal {
    var closing: bool
    var sleeps: map<Task, Sleep>

    /** The fields show what the machine's state says. */
    ghost predicate Shows(s: State)
      reads this
    {
      closing == s.closing && sleeps == s.sleeps && s.armFirst
    }

    constructor ()
      ensures forall s | Init(s) && s.armFirst :: Shows(s)
    {
      closing, sleeps := false, map[];
    }

    /** `mark_closing`, undisturbed, takes the machine's one or two steps: with the flag down it leaves
        it up and nobody un-notified; with the flag up it changes nothing at all. */
    method MarkClosing(m: Task, ghost s: State)
      requires Shows(s) && Inv(s) && m !in s.markers
      modifies this
      ensures var s1 := Apply(s, MarkSwaps(m));
              if s.closing then Shows(s1) && s1.sleeps == s.sleeps
              else Enabled(s1, MarkNotifies(m)) && Shows(Apply(s1, MarkNotifies(m)))
      ensures closing
      ensures !old(closing) ==>
                forall t | t in sleeps && (sleeps[t].Asleep? || sleeps[t].Armed?) :: sleeps[t].notified
    {
      var was := closing;
      closing := true;
      if !was {
        sleeps := map t | t in sleeps :: Notify(sleeps[t]);
      }
    }

    /** The start of `sleep_unless_closing`, undisturbed: arm, then look. The task goes to sleep with a
        waiter that a later notification reaches, exactly when the flag is down. */
    method ArmThenCheck(t: Task, ghost s: State) returns (asleep: bool)
      requires Shows(s) && At(s, t, Entered)
      modifies this`sleeps
      ensures var s2 := Apply(Apply(s, Arm(t)), Check(t));
              Shows(s2) && (asleep <==> At(s2, t, Asleep(false))) && (!asleep <==> At(s2, t, Refused))
      ensures asleep <==> !closing
    {
      sleeps := sleeps[t := Armed(false)];
      if closing {
        sleeps := sleeps[t := Refused];
      } else {
        sleeps := sleeps[t := Asleep(false)];
      }
      asleep := !closing;
    }
  }
}
