/** `Worker::run` (crates/core/src/worker.rs:183-200, 309-530): consumer tasks feeding a bounded
    channel, a dispatch loop under a concurrency semaphore, and the graceful drain. One step per
    await point; the consumers, the jobs, the streams and the caller's shutdown interleave freely. */
module WorkerRun {
  import opened Envelopes
  import opened Sums

  type DeliveryId = nat

  /** A backend error, or `ConsumerStopped` for the queue of one consumer. */
  datatype Error = Backend(code: nat) | ConsumerStopped(consumer: nat)

  datatype Message = Delivery(d: DeliveryId) | Failed(err: Error) | Ended(consumer: nat)

  datatype Consumer = Checking | Pulling | Sending(m: Message) | Exited

  datatype Main =
    | Starting
    | LoopTop
    | WantPermit
    | WantMessage       // holds a permit
    | Stopping
    | DrainPermit
    | DrainMessage      // holds a permit
    | Joining
    | Closing
    | Returned
  {
    predicate HoldsPermit() { WantMessage? || DrainMessage? }
  }

  /** How far `process` has come with one delivery. In `Handling` and `Aborting` the handler's task
      is alive: a timed-out task is awaited before its job goes on. */
  datatype Stage = Preparing | Handling | Aborting | Settling

  datatype Job = Job(d: DeliveryId, stage: Stage)

  datatype JobStep = HandlerStarts | HandlerSkipped | HandlerReturns | TimesOut | AbortLands

  predicate CanStep(from: Stage, s: JobStep) {
    match s
    case HandlerStarts => from.Preparing?
    case HandlerSkipped => from.Preparing?
    case HandlerReturns => from.Handling?
    case TimesOut => from.Handling?
    case AbortLands => from.Aborting?
  }

  function After(s: JobStep): Stage {
    match s
    case HandlerStarts => Handling
    case TimesOut => Aborting
    case _ => Settling
  }

  /** The handler's task lives from its start until it returns, or until its abort has landed. */
  function AliveAfter(alive: set<DeliveryId>, d: DeliveryId, s: JobStep): set<DeliveryId> {
    match s
    case HandlerStarts => alive + {d}
    case HandlerReturns => alive - {d}
    case AbortLands => alive - {d}
    case _ => alive
  }

  // ----- the worker --------------------------------------------------------------------------

  datatype State = State(
    queues: nat,
    concurrency: nat,
    closesBackend: bool,
    main: Main,
    shutdown: bool,
    stop: bool,
    consumers: seq<Consumer>,
    buffer: seq<Message>,
    permits: nat,
    jobs: seq<Job>,
    alive: set<DeliveryId>,   // deliveries whose handler's task has been started and has not ended
    outcome: Option<Error>,
    settleFailures: nat,
    // what has happened so far
    pulled: set<DeliveryId>,
    dispatched: seq<DeliveryId>,
    settles: seq<DeliveryId>,
    settled: map<DeliveryId, bool>,
    received: nat,
    errors: seq<Error>)
  {
    function Capacity(): nat { if queues == 0 then 1 else queues }

    predicate AllExited() { forall i | 0 <= i < |consumers| :: consumers[i].Exited? }

    predicate At(i: nat, c: Consumer) { i < |consumers| && consumers[i] == c }

    function Put(i: nat, c: Consumer): State
      requires i < |consumers|
    {
      this.(consumers := consumers[i := c])
    }

    /** Note an error; only the first one becomes the outcome. */
    function See(e: Error): State {
      this.(errors := errors + [e], outcome := if outcome.None? then Some(e) else outcome)
    }

    function DropPermit(): State { this.(permits := permits + 1) }

    /** Spawn `process` for a delivery, handing it the permit. */
    function Spawn(d: DeliveryId): State {
      this.(jobs := jobs + [Job(d, Preparing)], dispatched := dispatched + [d])
    }
  }

  datatype Event =
    | Shutdown
    | StartOk
    | StartFails(e: Error)
    | StartDone
    | Top
    | ShutdownSeen
    | TakePermit
    | Receive
    | ReceiveNone
    | Stop
    | Join
    | CloseBackend(failure: Option<Error>)
    | CheckStop(i: nat)
    | StopNoticed(i: nat)
    | PullDelivery(i: nat, d: DeliveryId)
    | PullError(i: nat, e: Error)
    | StreamEnds(i: nat)
    | Send(i: nat)
    | JobSteps(k: nat, step: JobStep)
    | Settle(k: nat, ok: bool)

  predicate Enabled(s: State, e: Event) {
    match e
    case Shutdown => !s.shutdown
    case StartOk => s.main.Starting? && |s.consumers| < s.queues
    case StartFails(_) => s.main.Starting? && |s.consumers| < s.queues
    case StartDone => s.main.Starting? && |s.consumers| == s.queues
    case Top => s.main.LoopTop?
    case ShutdownSeen => s.shutdown && (s.main.WantPermit? || s.main.WantMessage?)
    case TakePermit => s.permits > 0 && (s.main.WantPermit? || s.main.DrainPermit?)
    case Receive => s.buffer != [] && s.main.HoldsPermit()
    case ReceiveNone => s.buffer == [] && s.AllExited() && s.main.HoldsPermit()
    case Stop => s.main.Stopping?
    case Join => s.main.Joining? && s.AllExited() && s.jobs == []
    case CloseBackend(failure) => s.main.Closing? && (failure.Some? ==> s.closesBackend)
    case CheckStop(i) => s.At(i, Checking)
    case StopNoticed(i) => s.At(i, Pulling) && s.stop
    case PullDelivery(i, d) => s.At(i, Pulling) && d !in s.pulled
    case PullError(i, _) => s.At(i, Pulling)
    case StreamEnds(i) => s.At(i, Pulling)
    case Send(i) => i < |s.consumers| && s.consumers[i].Sending? && |s.buffer| < s.Capacity()
    case JobSteps(k, step) => k < |s.jobs| && CanStep(s.jobs[k].stage, step)
    case Settle(k, _) => k < |s.jobs| && s.jobs[k].stage.Settling?
  }

  /** One message off the channel, in the dispatch loop or in the drain. */
  function OnMessage(s: State, m: Message): State {
    var draining := s.main.DrainMessage?;
    var next := s.(main := if draining then DrainPermit else LoopTop);
    match m
    case Delivery(d) => next.Spawn(d)
    case Failed(err) => next.See(err).DropPermit()
    case Ended(c) => (if draining then next else next.See(ConsumerStopped(c))).DropPermit()
  }

  function Apply(s: State, e: Event): State
    requires Enabled(s, e)
  {
    match e
    case Shutdown => s.(shutdown := true)
    case StartOk => s.(consumers := s.consumers + [Checking])
    case StartFails(err) => s.See(err).(main := Stopping)
    case StartDone => s.(main := LoopTop)
    case Top => s.(main := if s.outcome.Some? || s.shutdown then Stopping else WantPermit)
    case ShutdownSeen => (if s.main.WantMessage? then s.DropPermit() else s).(main := Stopping)
    case TakePermit =>
      s.(permits := s.permits - 1, main := if s.main.DrainPermit? then DrainMessage else WantMessage)
    case Receive =>
      OnMessage(s.(buffer := s.buffer[1..], received := s.received + 1), s.buffer[0])
    case ReceiveNone => s.DropPermit().(main := if s.main.DrainMessage? then Joining else Stopping)
    case Stop => s.(stop := true, main := DrainPermit)
    case Join => s.(main := Closing)
    case CloseBackend(failure) =>
      (if failure.Some? then s.See(failure.value) else s).(main := Returned)
    case CheckStop(i) => s.Put(i, if s.stop then Exited else Pulling)
    case StopNoticed(i) => s.Put(i, Exited)
    case PullDelivery(i, d) => s.Put(i, Sending(Delivery(d))).(pulled := s.pulled + {d})
    case PullError(i, err) => s.Put(i, Sending(Failed(err)))
    case StreamEnds(i) => s.Put(i, Sending(Ended(i)))
    case Send(i) =>
      var m := s.consumers[i].m;
      s.Put(i, if m.Ended? then Exited else Checking).(buffer := s.buffer + [m])
    case JobSteps(k, step) =>
      s.(jobs := s.jobs[k := Job(s.jobs[k].d, After(step))], alive := AliveAfter(s.alive, s.jobs[k].d, step))
    case Settle(k, ok) =>
      s.(jobs := s.jobs[..k] + s.jobs[k + 1..],
         settles := s.settles + [s.jobs[k].d], settled := s.settled[s.jobs[k].d := ok],
         settleFailures := s.settleFailures + (if ok then 0 else 1), permits := s.permits + 1)
  }

  ghost predicate Init(s: State) {
    && s.concurrency >= 1 && s.permits == s.concurrency
    && s.main == Starting && !s.stop && s.consumers == [] && s.buffer == []
    && s.jobs == [] && s.alive == {} && s.outcome == None && s.settleFailures == 0
    && s.pulled == {} && s.dispatched == [] && s.settles == [] && s.settled == map[] && s.received == 0 && s.errors == []
  }

  // ----- conservation ------------------------------------------------------------------------

  function One(b: bool): nat { if b then 1 else 0 }

  function InMessage(d: DeliveryId): Message -> nat {
    (m: Message) => One(m == Delivery(d))
  }

  function InConsumer(d: DeliveryId): Consumer -> nat {
    (c: Consumer) => One(c == Sending(Delivery(d)))
  }

  function InJob(d: DeliveryId): Job -> nat {
    (j: Job) => One(j.d == d)
  }

  function Same(d: DeliveryId): DeliveryId -> nat {
    (x: DeliveryId) => One(x == d)
  }

  /** In how many places a delivery is: consumers' hands, the channel, jobs, the settled. */
  function Places(s: State, d: DeliveryId): nat {
    Sum(s.consumers, InConsumer(d)) + Sum(s.buffer, InMessage(d)) + Sum(s.jobs, InJob(d)) + One(d in s.settled)
  }

  /** Every delivery pulled off a stream is in exactly one place, every other in none. */
  ghost predicate Conserved(s: State) {
    forall d :: Places(s, d) == One(d in s.pulled)
  }

  /** A delivery was dispatched once if a job has it or had it, and otherwise never. */
  ghost predicate DispatchedOnce(s: State) {
    forall d :: Sum(s.dispatched, Same(d)) == Sum(s.jobs, InJob(d)) + One(d in s.settled)
  }

  /** A delivery has been settled once if its verdict is on record, and otherwise never. */
  ghost predicate SettledOnce(s: State) {
    forall d :: Sum(s.settles, Same(d)) == One(d in s.settled)
  }

  function Failures(settled: map<DeliveryId, bool>): set<DeliveryId> {
    set d | d in settled && !settled[d]
  }

  ghost predicate InvPermits(s: State) {
    && s.permits + |s.jobs| + One(s.main.HoldsPermit()) == s.concurrency
    && s.concurrency >= 1
    && |Failures(s.settled)| == s.settleFailures
  }

  ghost predicate InvMain(s: State) {
    && s.outcome == (if s.errors == [] then None else Some(s.errors[0]))
    && (s.stop <==> s.main.DrainPermit? || s.main.DrainMessage? || s.main.Joining? || s.main.Closing? || s.main.Returned?)
    && (s.main.Joining? || s.main.Closing? || s.main.Returned? ==> s.AllExited() && s.buffer == [])
    && (s.main.Closing? || s.main.Returned? ==> s.jobs == [])
  }

  ghost predicate Inv(s: State) {
    Conserved(s) && DispatchedOnce(s) && SettledOnce(s) && InvPermits(s) && InvMain(s)
  }

  /** Where a consumer that moves from `c` to `c'` leaves the count of `d`. */
  lemma MoveConsumer(s: State, i: nat, c: Consumer, d: DeliveryId)
    requires i < |s.consumers|
    ensures Sum(s.consumers[i := c], InConsumer(d)) + One(s.consumers[i] == Sending(Delivery(d)))
            == Sum(s.consumers, InConsumer(d)) + One(c == Sending(Delivery(d)))
  {
    SumUpdate(s.consumers, i, c, InConsumer(d));
  }

  lemma SendConserves(s: State, i: nat)
    requires Conserved(s) && Enabled(s, Send(i))
    ensures Conserved(Apply(s, Send(i)))
  {
    var s' := Apply(s, Send(i));
    var m := s.consumers[i].m;
    forall d ensures Places(s', d) == One(d in s'.pulled) {
      assert Places(s, d) == One(d in s.pulled);
      MoveConsumer(s, i, s'.consumers[i], d);
      SumAppend(s.buffer, m, InMessage(d));
      assert InMessage(d)(m) == One(s.consumers[i] == Sending(Delivery(d)));
    }
  }

  lemma PullConserves(s: State, i: nat, x: DeliveryId)
    requires Conserved(s) && Enabled(s, PullDelivery(i, x))
    ensures Conserved(Apply(s, PullDelivery(i, x)))
  {
    var s' := Apply(s, PullDelivery(i, x));
    forall d ensures Places(s', d) == One(d in s'.pulled) {
      assert Places(s, d) == One(d in s.pulled);
      MoveConsumer(s, i, Sending(Delivery(x)), d);
    }
  }

  /** A consumer that neither takes nor gives a delivery. */
  lemma IdleConserves(s: State, i: nat, c: Consumer)
    requires Conserved(s) && i < |s.consumers|
    requires !s.consumers[i].Sending? && (c.Sending? ==> !c.m.Delivery?)
    ensures Conserved(s.Put(i, c))
  {
    forall d ensures Places(s.Put(i, c), d) == One(d in s.pulled) {
      assert Places(s, d) == One(d in s.pulled);
      MoveConsumer(s, i, c, d);
    }
  }

  /** Nothing else in the invariant looks at a consumer that is still running. */
  lemma ConsumerKeeps(s: State, s': State, i: nat, c: Consumer)
    requires Inv(s) && i < |s.consumers| && !s.consumers[i].Exited? && Conserved(s')
    requires s' == s.(consumers := s.consumers[i := c], buffer := s'.buffer, pulled := s'.pulled)
    ensures Inv(s')
  {
    assert !s.AllExited();
  }

  /** Taking the head of the channel removes one count of what it carries. */
  lemma TakeHead(s: State, d: DeliveryId)
    requires s.buffer != []
    ensures Sum(s.buffer, InMessage(d)) == One(s.buffer[0] == Delivery(d)) + Sum(s.buffer[1..], InMessage(d))
  {
  }

  lemma SpawnKeeps(s: State, x: DeliveryId, main: Main)
    requires Inv(s) && s.buffer != [] && s.buffer[0] == Delivery(x) && s.main.HoldsPermit()
    requires main == if s.main.DrainMessage? then DrainPermit else LoopTop
    ensures Inv(s.(buffer := s.buffer[1..], received := s.received + 1, main := main).Spawn(x))
  {
    var s' := s.(buffer := s.buffer[1..], received := s.received + 1, main := main).Spawn(x);
    forall d
      ensures Places(s', d) == One(d in s'.pulled)
      ensures Sum(s'.dispatched, Same(d)) == Sum(s'.jobs, InJob(d)) + One(d in s'.settled)
    {
      assert Places(s, d) == One(d in s.pulled);
      assert Sum(s.dispatched, Same(d)) == Sum(s.jobs, InJob(d)) + One(d in s.settled);
      TakeHead(s, d);
      SumAppend(s.jobs, Job(x, Preparing), InJob(d));
      SumAppend(s.dispatched, x, Same(d));
    }
  }

  /** A message without a delivery gives its permit back. */
  lemma NoteKeeps(s: State, s': State, main: Main)
    requires Inv(s) && s.buffer != [] && !s.buffer[0].Delivery? && s.main.HoldsPermit()
    requires main == if s.main.DrainMessage? then DrainPermit else LoopTop
    requires s' == s.(buffer := s.buffer[1..], received := s.received + 1, main := main, permits := s.permits + 1,
                      errors := s'.errors, outcome := s'.outcome)
    requires s'.outcome == if s'.errors == [] then None else Some(s'.errors[0])
    ensures Inv(s')
  {
    forall d
      ensures Places(s', d) == One(d in s'.pulled)
      ensures Sum(s'.dispatched, Same(d)) == Sum(s'.jobs, InJob(d)) + One(d in s'.settled)
    {
      assert Places(s, d) == One(d in s.pulled);
      assert Sum(s.dispatched, Same(d)) == Sum(s.jobs, InJob(d)) + One(d in s.settled);
      TakeHead(s, d);
    }
  }

  function AfterReceive(s: State): Main { if s.main.DrainMessage? then DrainPermit else LoopTop }

  lemma ReceiveDelivery(s: State)
    requires Enabled(s, Receive) && s.buffer[0].Delivery?
    ensures Apply(s, Receive)
            == s.(buffer := s.buffer[1..], received := s.received + 1, main := AfterReceive(s)).Spawn(s.buffer[0].d)
  {
  }

  /** Noting an error keeps the outcome the first one noted. */
  lemma SeeKeepsFirst(s: State, err: Error)
    requires s.outcome == (if s.errors == [] then None else Some(s.errors[0]))
    ensures var s' := s.See(err);
            && s' == s.(errors := s'.errors, outcome := s'.outcome)
            && s'.errors != [] && s'.outcome == Some(s'.errors[0])
  {
  }

  lemma ReceiveNote(s: State)
    requires Enabled(s, Receive) && !s.buffer[0].Delivery? && InvMain(s)
    ensures var s' := Apply(s, Receive);
            && s' == s.(buffer := s.buffer[1..], received := s.received + 1, main := AfterReceive(s),
                        permits := s.permits + 1, errors := s'.errors, outcome := s'.outcome)
            && s'.outcome == if s'.errors == [] then None else Some(s'.errors[0])
  {
    assert s.outcome == (if s.errors == [] then None else Some(s.errors[0]));
    hide InvMain, Enabled;
    var next := s.(buffer := s.buffer[1..], received := s.received + 1, main := AfterReceive(s));
    match s.buffer[0]
    case Failed(err) => SeeKeepsFirst(next, err);
    case Ended(c) => SeeKeepsFirst(next, ConsumerStopped(c));
  }

  lemma ReceiveKeeps(s: State)
    requires Inv(s) && Enabled(s, Receive)
    ensures Inv(Apply(s, Receive))
  {
    assert InvMain(s);
    hide Inv, InvMain, Apply;
    if s.buffer[0].Delivery? {
      ReceiveDelivery(s);
      SpawnKeeps(s, s.buffer[0].d, AfterReceive(s));
    } else {
      ReceiveNote(s);
      NoteKeeps(s, Apply(s, Receive), AfterReceive(s));
    }
  }

  lemma JobKeeps(s: State, k: nat, step: JobStep)
    requires Inv(s) && Enabled(s, JobSteps(k, step))
    ensures Inv(Apply(s, JobSteps(k, step)))
  {
    var s' := Apply(s, JobSteps(k, step));
    forall d
      ensures Places(s', d) == One(d in s'.pulled)
      ensures Sum(s'.dispatched, Same(d)) == Sum(s'.jobs, InJob(d)) + One(d in s'.settled)
    {
      assert Places(s, d) == One(d in s.pulled);
      assert Sum(s.dispatched, Same(d)) == Sum(s.jobs, InJob(d)) + One(d in s.settled);
      SumUpdate(s.jobs, k, Job(s.jobs[k].d, After(step)), InJob(d));
    }
  }

  lemma SettleConserves(s: State, k: nat, ok: bool)
    requires Inv(s) && Enabled(s, Settle(k, ok))
    ensures Conserved(Apply(s, Settle(k, ok))) && DispatchedOnce(Apply(s, Settle(k, ok)))
    ensures SettledOnce(Apply(s, Settle(k, ok)))
    ensures s.jobs[k].d !in s.settled
  {
    var s' := Apply(s, Settle(k, ok));
    SumSplit(s.jobs, k, InJob(s.jobs[k].d));
    assert Places(s, s.jobs[k].d) <= 1;
    forall d
      ensures Places(s', d) == One(d in s'.pulled)
      ensures Sum(s'.dispatched, Same(d)) == Sum(s'.jobs, InJob(d)) + One(d in s'.settled)
      ensures Sum(s'.settles, Same(d)) == One(d in s'.settled)
    {
      assert Sum(s.settles, Same(d)) == One(d in s.settled);
      SumAppend(s.settles, s.jobs[k].d, Same(d));
      assert Places(s, d) == One(d in s.pulled);
      assert Sum(s.dispatched, Same(d)) == Sum(s.jobs, InJob(d)) + One(d in s.settled);
      SumRemove(s.jobs, k, InJob(d));
    }
  }

  lemma SettleFailures(settled: map<DeliveryId, bool>, d: DeliveryId, ok: bool)
    requires d !in settled
    ensures |Failures(settled[d := ok])| == |Failures(settled)| + (if ok then 0 else 1)
  {
    assert Failures(settled[d := ok]) == if ok then Failures(settled) else Failures(settled) + {d};
  }

  lemma SettleKeeps(s: State, k: nat, ok: bool)
    requires Inv(s) && Enabled(s, Settle(k, ok))
    ensures Inv(Apply(s, Settle(k, ok)))
  {
    SettleConserves(s, k, ok);
    SettleFailures(s.settled, s.jobs[k].d, ok);
  }

  predicate MainStep(e: Event) {
    || e.Shutdown? || e.StartOk? || e.StartFails? || e.StartDone? || e.Top? || e.ShutdownSeen?
    || e.TakePermit? || e.ReceiveNone? || e.Stop? || e.Join? || e.CloseBackend?
  }

  /** Steps of the run loop that take nothing off the channel: they leave every delivery where it is,
      and a consumer that starts has none. */
  lemma MainFrame(s: State, e: Event)
    requires Enabled(s, e) && MainStep(e)
    ensures var s' := Apply(s, e);
            && s'.consumers == (if e.StartOk? then s.consumers + [Checking] else s.consumers)
            && s'.buffer == s.buffer && s'.jobs == s.jobs && s'.settled == s.settled && s'.pulled == s.pulled
            && s'.dispatched == s.dispatched && s'.settles == s.settles && s'.alive == s.alive && s'.queues == s.queues
            && s'.settleFailures == s.settleFailures && s'.concurrency == s.concurrency
  {
  }

  lemma MainConserves(s: State, e: Event)
    requires Inv(s) && Enabled(s, e) && MainStep(e)
    ensures Conserved(Apply(s, e)) && DispatchedOnce(Apply(s, e)) && SettledOnce(Apply(s, e))
  {
    var s' := Apply(s, e);
    MainFrame(s, e);
    hide Apply, Enabled, InvMain, InvPermits;
    forall d
      ensures Places(s', d) == One(d in s'.pulled)
      ensures Sum(s'.dispatched, Same(d)) == Sum(s'.jobs, InJob(d)) + One(d in s'.settled)
      ensures Sum(s'.settles, Same(d)) == One(d in s'.settled)
    {
      assert Places(s, d) == One(d in s.pulled);
      assert Sum(s.dispatched, Same(d)) == Sum(s.jobs, InJob(d)) + One(d in s.settled);
      assert Sum(s.settles, Same(d)) == One(d in s.settled);
      if e.StartOk? { SumAppend(s.consumers, Checking, InConsumer(d)); }
    }
  }

  lemma MainPermits(s: State, e: Event)
    requires InvPermits(s) && Enabled(s, e) && MainStep(e)
    ensures InvPermits(Apply(s, e))
  {
    hide Failures;
  }

  lemma MainMain(s: State, e: Event)
    requires InvMain(s) && Enabled(s, e) && MainStep(e)
    ensures InvMain(Apply(s, e))
  {
  }

  lemma MainKeeps(s: State, e: Event)
    requires Inv(s) && Enabled(s, e) && MainStep(e)
    ensures Inv(Apply(s, e))
  {
    hide Conserved, DispatchedOnce, SettledOnce, InvPermits, InvMain, Apply, Enabled;
    MainConserves(s, e);
    MainPermits(s, e);
    MainMain(s, e);
  }

  lemma IdleStep(s: State, e: Event, c: Consumer)
    requires Inv(s) && Enabled(s, e) && (e.CheckStop? || e.StopNoticed? || e.PullError? || e.StreamEnds?)
    requires Apply(s, e) == s.Put(e.i, c) && (c.Sending? ==> !c.m.Delivery?)
    ensures Inv(Apply(s, e))
  {
    IdleConserves(s, e.i, c);
    ConsumerKeeps(s, s.Put(e.i, c), e.i, c);
  }

  lemma StepKeeps(s: State, e: Event)
    requires Inv(s) && Enabled(s, e)
    ensures Inv(Apply(s, e))
  {
    assert Conserved(s);
    hide Inv, Conserved;
    match e
    case Receive => ReceiveKeeps(s);
    case JobSteps(k, step) => JobKeeps(s, k, step);
    case Settle(k, ok) => SettleKeeps(s, k, ok);
    case CheckStop(i) => IdleStep(s, e, if s.stop then Exited else Pulling);
    case StopNoticed(i) => IdleStep(s, e, Exited);
    case PullError(i, err) => IdleStep(s, e, Sending(Failed(err)));
    case StreamEnds(i) => IdleStep(s, e, Sending(Ended(i)));
    case PullDelivery(i, d) =>
      PullConserves(s, i, d);
      ConsumerKeeps(s, Apply(s, e), i, Sending(Delivery(d)));
    case Send(i) =>
      SendConserves(s, i);
      ConsumerKeeps(s, Apply(s, e), i, Apply(s, e).consumers[i]);
    case _ => MainKeeps(s, e);
  }

  // ----- whole runs: nothing is dropped --------------------------------------------------------

  ghost predicate Run(states: seq<State>, events: seq<Event>) {
    && |states| == |events| + 1
    && Init(states[0])
    && forall i | 0 <= i < |events| ::
         Enabled(states[i], events[i]) && states[i + 1] == Apply(states[i], events[i])
  }

  lemma InitHolds(s: State)
    requires Init(s)
    ensures Inv(s)
  {
    assert Failures(s.settled) == {};
  }

  lemma ConcurrencyIsFixed(s: State, e: Event)
    requires Enabled(s, e)
    ensures Apply(s, e).concurrency == s.concurrency
  {
    hide Enabled;
  }

  lemma {:induction false} RunKeeps(states: seq<State>, events: seq<Event>, i: nat)
    requires Run(states, events) && i < |states|
    ensures Inv(states[i]) && states[i].concurrency == states[0].concurrency
  {
    hide Inv, Apply;
    if i == 0 {
      InitHolds(states[0]);
    } else {
      RunKeeps(states, events, i - 1);
      StepKeeps(states[i - 1], events[i - 1]);
      ConcurrencyIsFixed(states[i - 1], events[i - 1]);
    }
  }

  function Successes(settled: map<DeliveryId, bool>): set<DeliveryId> {
    set d | d in settled && settled[d]
  }

  lemma SettledSplits(settled: map<DeliveryId, bool>)
    ensures |settled.Keys| == |Successes(settled)| + |Failures(settled)|
  {
    assert settled.Keys == Successes(settled) + Failures(settled);
    assert Successes(settled) !! Failures(settled);
  }

  /** The drain is lossless. When `run` returns, whatever stopped it, every delivery that was ever
      pulled from a stream was dispatched exactly once and settled exactly once, nothing else was, so the deliveries
      pulled are the successful settles plus the counted failures; and the result is the first
      error that was seen, if any. */
  lemma DrainIsLossless(states: seq<State>, events: seq<Event>, i: nat)
    requires Run(states, events) && i < |states| && states[i].main.Returned?
    ensures var s := states[i];
            && s.settled.Keys == s.pulled
            && (forall d :: Sum(s.dispatched, Same(d)) == One(d in s.pulled))
            && (forall d :: Sum(s.settles, Same(d)) == One(d in s.pulled))
            && |s.pulled| == |Successes(s.settled)| + s.settleFailures
            && s.outcome == (if s.errors == [] then None else Some(s.errors[0]))
  {
    RunKeeps(states, events, i);
    var s := states[i];
    forall d ensures d in s.settled <==> d in s.pulled {
      assert Places(s, d) == One(d in s.pulled);
      SumZero(s.consumers, InConsumer(d));
    }
    forall d
      ensures Sum(s.dispatched, Same(d)) == One(d in s.pulled)
      ensures Sum(s.settles, Same(d)) == One(d in s.pulled)
    {
      assert Sum(s.dispatched, Same(d)) == Sum(s.jobs, InJob(d)) + One(d in s.settled);
      assert Sum(s.settles, Same(d)) == One(d in s.settled);
    }
    assert s.settled.Keys == s.pulled;
    SettledSplits(s.settled);
  }

  function Live(d: DeliveryId): Job -> nat {
    (j: Job) => One(j.d == d && (j.stage.Handling? || j.stage.Aborting?))
  }

  /** A handler's task is alive exactly while a job waits for it. */
  ghost predicate AliveOk(s: State) {
    forall d :: Sum(s.jobs, Live(d)) == One(d in s.alive)
  }

  lemma AliveOfJob(s: State, e: Event)
    requires AliveOk(s) && Conserved(s) && Enabled(s, e) && (e.JobSteps? || e.Settle?)
    ensures AliveOk(Apply(s, e))
  {
    var s' := Apply(s, e);
    var x := s.jobs[e.k].d;
    forall d ensures Sum(s'.jobs, Live(d)) == One(d in s'.alive) {
      assert Sum(s.jobs, Live(d)) == One(d in s.alive);
      if e.JobSteps? {
        SumUpdate(s.jobs, e.k, Job(x, After(e.step)), Live(d));
        if d == x && s.jobs[e.k].stage.Preparing? {
          OneJobEach(s, e.k);
        }
      } else {
        SumRemove(s.jobs, e.k, Live(d));
      }
    }
  }

  /** The job at k is the only one of its delivery: while it prepares, nothing of it is alive. */
  lemma OneJobEach(s: State, k: nat)
    requires Conserved(s) && k < |s.jobs| && s.jobs[k].stage.Preparing?
    ensures Sum(s.jobs, Live(s.jobs[k].d)) == 0
  {
    var d := s.jobs[k].d;
    assert Places(s, d) <= 1;
    SumRemove(s.jobs, k, InJob(d));
    SumRemove(s.jobs, k, Live(d));
    LiveAtMostJobs(s.jobs[..k] + s.jobs[k + 1..], d);
  }

  lemma {:induction false} LiveAtMostJobs(jobs: seq<Job>, d: DeliveryId)
    ensures Sum(jobs, Live(d)) <= Sum(jobs, InJob(d))
  {
    if jobs != [] {
      LiveAtMostJobs(jobs[1..], d);
    }
  }

  predicate ConsumerStep(e: Event) {
    e.CheckStop? || e.StopNoticed? || e.PullDelivery? || e.PullError? || e.StreamEnds? || e.Send?
  }

  /** A consumer task touches nothing but itself, the channel and the record of what was pulled. */
  lemma ConsumerFrame(s: State, e: Event)
    requires Enabled(s, e) && ConsumerStep(e)
    ensures var s' := Apply(s, e);
            && s' == s.(consumers := s'.consumers, buffer := s'.buffer, pulled := s'.pulled)
            && (s'.buffer == s.buffer || (|s'.buffer| == |s.buffer| + 1 && |s.buffer| < s.Capacity()))
  {
  }

  lemma ReceiveFrame(s: State)
    requires Enabled(s, Receive)
    ensures var s' := Apply(s, Receive);
            && s'.alive == s.alive && s'.queues == s.queues && s'.buffer == s.buffer[1..]
            && s'.jobs == (if s.buffer[0].Delivery? then s.jobs + [Job(s.buffer[0].d, Preparing)] else s.jobs)
  {
  }

  lemma AliveStep(s: State, e: Event)
    requires AliveOk(s) && Conserved(s) && Enabled(s, e)
    ensures AliveOk(Apply(s, e))
  {
    if e.JobSteps? || e.Settle? {
      AliveOfJob(s, e);
    } else {
      if e.Receive? {
        ReceiveFrame(s);
      } else if MainStep(e) {
        MainFrame(s, e);
      } else {
        ConsumerFrame(s, e);
      }
      hide Apply, Enabled;
      forall d ensures Sum(Apply(s, e).jobs, Live(d)) == One(d in s.alive) {
        assert Sum(s.jobs, Live(d)) == One(d in s.alive);
        if Apply(s, e).jobs != s.jobs { SumAppend(s.jobs, Job(s.buffer[0].d, Preparing), Live(d)); }
      }
    }
  }

  lemma {:induction false} RunAlive(states: seq<State>, events: seq<Event>, i: nat)
    requires Run(states, events) && i < |states|
    ensures AliveOk(states[i])
  {
    if i > 0 {
      RunAlive(states, events, i - 1);
      RunKeeps(states, events, i - 1);
      assert Conserved(states[i - 1]);
      hide AliveOk, Apply, Inv, Conserved;
      AliveStep(states[i - 1], events[i - 1]);
    }
  }

  /** No more live tasks than jobs. */
  lemma {:induction false} AliveFits(alive: set<DeliveryId>, jobs: seq<Job>)
    requires forall d | d in alive :: Sum(jobs, Live(d)) >= 1
    ensures |alive| <= |jobs|
    decreases |jobs|
  {
    if jobs == [] {
      forall d ensures d !in alive {
        assert d in alive ==> Sum(jobs, Live(d)) >= 1;
      }
      assert alive == {};
    } else {
      var rest := alive - {jobs[0].d};
      forall d | d in rest ensures Sum(jobs[1..], Live(d)) >= 1 {
        assert Sum(jobs, Live(d)) == Live(d)(jobs[0]) + Sum(jobs[1..], Live(d));
      }
      AliveFits(rest, jobs[1..]);
    }
  }

  lemma {:induction false} BufferIsBounded(states: seq<State>, events: seq<Event>, i: nat)
    requires Run(states, events) && i < |states|
    ensures states[i].queues == states[0].queues && |states[i].buffer| <= states[i].Capacity()
  {
    if i > 0 {
      BufferIsBounded(states, events, i - 1);
      BufferStep(states[i - 1], events[i - 1]);
    }
  }

  lemma BufferStep(s: State, e: Event)
    requires Enabled(s, e) && |s.buffer| <= s.Capacity()
    ensures Apply(s, e).queues == s.queues && |Apply(s, e).buffer| <= s.Capacity()
  {
    if e.Receive? {
      ReceiveFrame(s);
      hide Apply, Enabled;
    } else if MainStep(e) {
      MainFrame(s, e);
      hide Apply, Enabled;
    } else if ConsumerStep(e) {
      ConsumerFrame(s, e);
      hide Apply, Enabled;
    }
  }

  /** The caps, at every step, including timeouts and the drain: handler tasks that have been started
      and have not ended, timed-out ones that have not yet stopped included, never exceed
      `concurrency`; the channel never holds more than one message per queue; and no delivery is ever
      in two places. */
  lemma CapsHold(states: seq<State>, events: seq<Event>, i: nat)
    requires Run(states, events) && i < |states|
    ensures |states[i].alive| <= states[0].concurrency
    ensures forall d :: d in states[i].alive <==> Sum(states[i].jobs, Live(d)) == 1
    ensures |states[i].buffer| <= (if states[0].queues == 0 then 1 else states[0].queues)
    ensures forall d :: Places(states[i], d) <= 1
  {
    RunKeeps(states, events, i);
    RunAlive(states, events, i);
    AliveFits(states[i].alive, states[i].jobs);
    BufferIsBounded(states, events, i);
    assert forall d :: Places(states[i], d) == One(d in states[i].pulled);
  }

  // ----- whole runs: the drain ends --------------------------------------------------------------

  /** Messages a consumer may still forward once the stop flag is up. */
  function Owed(): Consumer -> nat {
    (c: Consumer) => One(c.Pulling? || c.Sending?)
  }

  function Running(): Consumer -> nat {
    (c: Consumer) => One(!c.Exited?)
  }

  /** Received so far, waiting in the channel, or still owed by a consumer. */
  function Potential(s: State): nat {
    s.received + |s.buffer| + Sum(s.consumers, Owed())
  }

  function ConsumerWork(): Consumer -> nat {
    (c: Consumer) => match c case Pulling => 9 case Sending(_) => 8 case Checking => 1 case Exited => 0
  }

  function JobWork(): Job -> nat {
    (j: Job) => match j.stage case Preparing => 4 case Handling => 3 case Aborting => 2 case Settling => 1
  }

  function MainWork(m: Main): nat {
    match m
    case DrainPermit => 4
    case DrainMessage => 3
    case Joining => 2
    case Closing => 1
    case _ => 0
  }

  /** An upper bound on the steps a draining worker can still take. */
  function Measure(s: State): nat {
    Sum(s.consumers, ConsumerWork()) + 6 * |s.buffer| + Sum(s.jobs, JobWork()) + MainWork(s.main) + One(!s.shutdown)
  }

  /** One consumer moved, perhaps putting a message on the channel. */
  lemma ConsumerProgress(s: State, s': State, i: nat, c: Consumer)
    requires i < |s.consumers|
    requires s' == s.(consumers := s.consumers[i := c], buffer := s'.buffer, pulled := s'.pulled)
    requires ConsumerWork()(c) + 6 * |s'.buffer| < ConsumerWork()(s.consumers[i]) + 6 * |s.buffer|
    requires Owed()(c) + |s'.buffer| <= Owed()(s.consumers[i]) + |s.buffer|
    ensures Measure(s') < Measure(s) && Potential(s') <= Potential(s)
  {
    SumUpdate(s.consumers, i, c, ConsumerWork());
    SumUpdate(s.consumers, i, c, Owed());
  }

  lemma ReceiveProgress(s: State)
    requires Enabled(s, Receive) && s.main.DrainMessage?
    ensures Measure(Apply(s, Receive)) < Measure(s) && Potential(Apply(s, Receive)) <= Potential(s)
  {
    var s' := Apply(s, Receive);
    assert |s'.buffer| == |s.buffer| - 1 && s'.consumers == s.consumers && s'.main == DrainPermit;
    if s.buffer[0].Delivery? {
      var job := Job(s.buffer[0].d, Preparing);
      SumAppend(s.jobs, job, JobWork());
      assert s'.jobs == s.jobs + [job];
    } else {
      assert s'.jobs == s.jobs;
    }
    assert s'.shutdown == s.shutdown;
    assert Potential(s') <= Potential(s);
    assert Sum(s'.jobs, JobWork()) <= Sum(s.jobs, JobWork()) + 4;
    assert Measure(s') < Measure(s);
  }

  lemma JobProgress(s: State, e: Event)
    requires Enabled(s, e) && (e.JobSteps? || e.Settle?)
    ensures Measure(Apply(s, e)) < Measure(s)
    ensures Potential(Apply(s, e)) == Potential(s)
  {
    match e
    case JobSteps(k, step) => SumUpdate(s.jobs, k, Job(s.jobs[k].d, After(step)), JobWork());
    case Settle(k, ok) => SumRemove(s.jobs, k, JobWork());
  }

  lemma MainProgress(s: State, e: Event)
    requires InvMain(s) && s.stop && Enabled(s, e) && MainStep(e)
    ensures Measure(Apply(s, e)) < Measure(s)
    ensures Potential(Apply(s, e)) == Potential(s)
  {
    assert Apply(s, e).consumers == s.consumers && Apply(s, e).jobs == s.jobs;
  }

  lemma ConsumersProgress(s: State, e: Event)
    requires s.stop && Enabled(s, e)
    requires e.CheckStop? || e.StopNoticed? || e.PullDelivery? || e.PullError? || e.StreamEnds? || e.Send?
    ensures Measure(Apply(s, e)) < Measure(s)
    ensures Potential(Apply(s, e)) <= Potential(s)
  {
    hide Measure, Potential;
    ConsumerProgress(s, Apply(s, e), e.i, Apply(s, e).consumers[e.i]);
  }

  lemma StopStays(s: State, e: Event)
    requires s.stop && Enabled(s, e)
    ensures Apply(s, e).stop
  {
    hide Enabled;
  }

  /** Once the stop flag is up, every step brings the end nearer, and a consumer forwards at most
      one more message. */
  lemma DrainProgress(s: State, e: Event)
    requires Inv(s) && s.stop && Enabled(s, e)
    ensures Measure(Apply(s, e)) < Measure(s)
    ensures Potential(Apply(s, e)) <= Potential(s)
    ensures Apply(s, e).stop
  {
    assert InvMain(s);
    hide Inv, Apply, Measure, Potential;
    StopStays(s, e);
    match e
    case Receive => ReceiveProgress(s);
    case JobSteps(_, _) => JobProgress(s, e);
    case Settle(_, _) => JobProgress(s, e);
    case CheckStop(_) => ConsumersProgress(s, e);
    case StopNoticed(_) => ConsumersProgress(s, e);
    case PullDelivery(_, _) => ConsumersProgress(s, e);
    case PullError(_, _) => ConsumersProgress(s, e);
    case StreamEnds(_) => ConsumersProgress(s, e);
    case Send(_) => ConsumersProgress(s, e);
    case _ => MainProgress(s, e);
  }

  /** A draining worker that has not returned can always take a step of its own. */
  lemma DrainNeverStuck(s: State) returns (e: Event)
    requires Inv(s) && s.stop && !s.main.Returned?
    ensures Enabled(s, e) && !e.Shutdown?
  {
    if s.jobs != [] {
      match s.jobs[0].stage
      case Preparing => e := JobSteps(0, HandlerStarts);
      case Handling => e := JobSteps(0, HandlerReturns);
      case Aborting => e := JobSteps(0, AbortLands);
      case Settling => e := Settle(0, true);
    } else if s.main.DrainPermit? {
      e := TakePermit;
    } else if s.main.Joining? {
      e := Join;
    } else if s.main.Closing? {
      e := CloseBackend(None);
    } else if s.buffer != [] {
      e := Receive;
    } else if s.AllExited() {
      e := ReceiveNone;
    } else {
      var i :| 0 <= i < |s.consumers| && !s.consumers[i].Exited?;
      match s.consumers[i]
      case Checking => e := CheckStop(i);
      case Pulling => e := StopNoticed(i);
      case Sending(_) => e := Send(i);
    }
  }

  lemma {:induction false} DrainBounds(states: seq<State>, events: seq<Event>, i: nat, j: nat)
    requires Run(states, events) && i <= j < |states| && states[i].stop
    ensures states[j].stop
    ensures Measure(states[j]) + (j - i) <= Measure(states[i])
    ensures Potential(states[j]) <= Potential(states[i])
    decreases j
  {
    hide Apply, Enabled, Inv, Measure, Potential;
    if i < j {
      DrainBounds(states, events, i, j - 1);
      RunKeeps(states, events, j - 1);
      DrainProgress(states[j - 1], events[j - 1]);
    }
  }

  lemma {:induction false} OwedAtMostRunning(cs: seq<Consumer>)
    ensures Sum(cs, Owed()) <= Sum(cs, Running())
  {
    if cs != [] {
      OwedAtMostRunning(cs[1..]);
    }
  }

  /** The drain ends. From the moment the stop flag is up a run takes at most `Measure` further
      steps, it can only stop by returning, and the channel hands over at most the messages it
      held plus one for each consumer still running. */
  lemma DrainEnds(states: seq<State>, events: seq<Event>, i: nat, j: nat)
    requires Run(states, events) && i <= j < |states| && states[i].stop
    ensures j - i <= Measure(states[i])
    ensures states[j].main.Returned? || exists e :: Enabled(states[j], e) && !e.Shutdown?
    ensures states[j].received - states[i].received <= |states[i].buffer| + Sum(states[i].consumers, Running())
  {
    DrainBounds(states, events, i, j);
    OwedAtMostRunning(states[i].consumers);
    RunKeeps(states, events, j);
    if !states[j].main.Returned? {
      var e := DrainNeverStuck(states[j]);
    }
  }
}
