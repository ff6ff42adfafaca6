/** The charger client as a state machine.

    Every stretch of code between two awaits is one atomic step, and steps of
    different tasks, transport callbacks, timers and cancellations interleave
    freely. Futures live in one sequence and are named by their index. */
module Client {
  import opened Bytes
  import opened Errors
  import opened Frames

  type TaskId = nat
  type FutureId = nat

  /** `BULK_IDLE_TIMEOUT`, in milliseconds. */
  const IDLE_WINDOW := 400

  // ---- Calls ----

  /** One lock-protected call of the client. */
  datatype Op =
    | Request(frame: Frame)       // _exchange
    | Write(frames: seq<Frame>)   // _write_frames
    | History(frame: Frame)       // the locked part of async_get_history
  {
    predicate WellFormed() {
      Write? ==> frames != []
    }

    function Length(): nat {
      if Write? then |frames| else 1
    }

    function FrameAt(i: nat): Frame
      requires i < Length()
    {
      if Write? then frames[i] else frame
    }
  }

  /** What a transport's send may raise. `Stopped` is `CancelledError`. */
  datatype Failure = Package(error: Error) | PlainTimeout | Foreign | Stopped

  datatype Outcome = Delivered | Raised(failure: Failure)

  /** The send of the frame being delivered. `begun` says it reached the transport. */
  datatype Send = Unstarted | Open | Done(outcome: Outcome, begun: bool)

  /** Why a task is being interrupted: its `asyncio.timeout` expired, or
      somebody cancelled it. */
  datatype Why = Deadline | External

  /** `Thrown`: the task gets a `CancelledError` when it next runs. `Asked`: it
      was awaiting its send, so the send was cancelled and its outcome decides. */
  datatype Interruption = Calm | Asked(why: Why) | Thrown(why: Why)

  /** The await at which a task holding the lock is suspended. */
  datatype Stage =
    | Delivering      // asyncio.wait((send, abort)) in _deliver
    | AwaitingSend    // await send
    | AwaitingReply   // await future
    | Collecting      // wait_for(bulk_event) in _collect_bulk

  datatype Phase =
    | Idle      // between two calls of its program
    | Queued    // link checked, waiting for the lock
    | Active(stage: Stage, future: FutureId, index: nat, send: Send,
             interruption: Interruption, deadline: nat, until: nat)
    | Finished

  /** How a call ended. A reply names the future that carried it; a collection
      names the call's abort future, made when it cleared the buffer, and the
      number of notifications seen when it stopped. */
  datatype Answer =
    | Returned(payload: Bytes, future: FutureId)
    | Completed
    | Collected(records: seq<Bytes>, future: FutureId, upto: nat)
    | Failed(error: Error)
    | Cancelled
  {
    predicate Success() {
      Returned? || Completed? || Collected?
    }
  }

  /** A task makes the calls of its program in turn and stops at the first
      that fails. */
  datatype Task = Task(program: seq<Op>, answers: seq<Answer>, phase: Phase) {
    predicate Busy() {
      |answers| < |program|
    }

    function Current(): Op
      requires Busy()
    {
      program[|answers|]
    }
  }

  // ---- Futures and the whole state ----

  datatype FutureState =
    | Pending
    | Valued(payload: Bytes, at: nat)   // completed by notification number `at`
    | Broken(error: Error)
    | Voided                            // cancelled

  /** A reply future or an abort future, with the call that created it and the
      number of notifications seen before it existed. */
  datatype Future = Future(task: TaskId, op: nat, frame: Frame, birth: nat, state: FutureState)

  datatype Waiter = Waiter(future: FutureId, flag: byte)

  /** One frame handed to the connected transport, and whether its send has
      completed. */
  datatype Sent = Sent(task: TaskId, op: nat, index: nat, frame: Frame, acked: bool)

  datatype State = State(
    timeout: nat,
    owner: Option<TaskId>,
    tasks: map<TaskId, Task>,
    waiters: map<byte, Waiter>,
    sends: set<FutureId>,
    futures: seq<Future>,
    bulk: seq<Bytes>,
    bulkEvent: bool,
    connected: bool,
    now: nat,
    since: nat,            // when the lock was last taken
    stale: nat,            // abandoned sends still running in the transport
    wire: seq<Sent>,
    notes: seq<Bytes>,     // every notification, in order
    fault: bool            // a future that was already done has been completed
  )

  function Init(timeout: nat): State {
    State(timeout, None, map[], map[], {}, [], [], false, false, 0, 0, 0, [], [], false)
  }

  predicate IsActive(s: State, t: TaskId) {
    t in s.tasks && s.tasks[t].phase.Active? && s.tasks[t].Busy()
    && s.tasks[t].phase.index < s.tasks[t].Current().Length()
    && s.tasks[t].phase.future < |s.futures|
  }

  function FutureOf(s: State, t: TaskId): Future
    requires IsActive(s, t)
  {
    s.futures[s.tasks[t].phase.future]
  }

  function SetPhase(s: State, t: TaskId, phase: Phase): State
    requires t in s.tasks
  {
    s.(tasks := s.tasks[t := s.tasks[t].(phase := phase)])
  }

  function SetFuture(s: State, f: FutureId, state: FutureState): State
    requires f < |s.futures|
  {
    s.(futures := s.futures[f := s.futures[f].(state := state)])
  }

  // ---- Entering and leaving the locked section ----

  /** Create the future for frame `i` of the current call, enter its deadline
      and suspend in `_deliver`. */
  function Launch(s: State, t: TaskId, i: nat): State
    requires t in s.tasks && s.tasks[t].Busy() && i < s.tasks[t].Current().Length()
  {
    var k := s.tasks[t];
    var frame := k.Current().FrameAt(i);
    var f := |s.futures|;
    var phase := Active(Delivering, f, i, Unstarted, Calm, s.now + s.timeout, 0);
    SetPhase(s, t, phase).(
      futures := s.futures + [Future(t, |k.answers|, frame, |s.notes|, Pending)],
      waiters := if k.Current().Request? then s.waiters[frame[2] := Waiter(f, frame[3])] else s.waiters,
      sends := if k.Current().Request? then s.sends else s.sends + {f})
  }

  /** Take the free lock and run to the first await. */
  function Enter(s: State, t: TaskId): State
    requires t in s.tasks && s.tasks[t].Busy() && s.tasks[t].Current().WellFormed()
  {
    var locked := s.(owner := Some(t), since := s.now);
    Launch(if s.tasks[t].Current().History? then locked.(bulk := [], bulkEvent := false) else locked, t, 0)
  }

  /** Run the `finally` blocks, release the lock and record the answer. */
  function Leave(s: State, t: TaskId, answer: Answer): State
    requires IsActive(s, t)
  {
    var k := s.tasks[t];
    var more := answer.Success() && |k.answers| + 1 < |k.program|;
    var k' := k.(answers := k.answers + [answer], phase := if more then Idle else Finished);
    s.(owner := None,
       tasks := s.tasks[t := k'],
       waiters := if k.Current().Request? then s.waiters - {k.Current().frame[2]} else s.waiters,
       sends := if k.Current().Request? then s.sends else s.sends - {k.phase.future},
       bulk := if answer.Collected? then [] else s.bulk,
       stale := if k.phase.send.Open? then s.stale + 1 else s.stale)
  }

  // ---- Resuming a task that holds the lock ----

  function Unwound(why: Why): Answer {
    if why.Deadline? then Failed(TimeoutError) else Cancelled
  }

  /** The `except` clauses around a delivery. */
  function Mapped(failure: Failure, interruption: Interruption): Answer {
    match failure
    case Package(error) => Failed(error)
    case PlainTimeout => Failed(TimeoutError)
    case Foreign => Failed(ConnectionError)
    case Stopped => if interruption == Asked(Deadline) then Failed(TimeoutError) else Cancelled
  }

  predicate Resumable(s: State, t: TaskId) {
    && IsActive(s, t)
    && var p := s.tasks[t].phase;
       (|| p.interruption.Thrown?
        || match p.stage
           case Delivering => p.send.Done? || !FutureOf(s, t).state.Pending?
           case AwaitingSend => p.send.Done?
           case AwaitingReply => !FutureOf(s, t).state.Pending?
           case Collecting => s.bulkEvent)
  }

  function TakeReply(s: State, t: TaskId): State
    requires IsActive(s, t)
  {
    var p := s.tasks[t].phase;
    match FutureOf(s, t).state
    case Pending => SetPhase(s, t, p.(stage := AwaitingReply))
    case Valued(payload, _) => Leave(s, t, Returned(payload, p.future))
    case Broken(error) => Leave(s, t, Failed(error))
    case Voided => Leave(s, t, Cancelled)
  }

  function Collection(s: State, t: TaskId): Answer
    requires IsActive(s, t)
  {
    Collected(s.bulk, s.tasks[t].phase.future, |s.notes|)
  }

  /** When the next idle window closes: after `BULK_IDLE_TIMEOUT`, or at the
      deadline of the whole collection if that comes first. */
  function WindowEnd(now: nat, deadline: nat): (until: nat)
    requires now <= deadline
    ensures now <= until <= deadline && until <= now + IDLE_WINDOW
    ensures until == deadline || until == now + IDLE_WINDOW
  {
    if deadline < now + IDLE_WINDOW then deadline else now + IDLE_WINDOW
  }

  /** One turn of the collection loop: clear the event, then stop at the
      deadline or wait for the next idle window. */
  function WaitForRecords(s: State, t: TaskId): State
    requires IsActive(s, t)
  {
    var p := s.tasks[t].phase;
    var cleared := s.(bulkEvent := false);
    if p.deadline <= s.now then Leave(cleared, t, Collection(s, t))
    else SetPhase(cleared, t, p.(until := WindowEnd(s.now, p.deadline)))
  }

  function StartCollecting(s: State, t: TaskId): (s': State)
    requires IsActive(s, t)
    ensures IsActive(s', t)
  {
    var p := s.tasks[t].phase;
    SetPhase(s, t, p.(stage := Collecting, deadline := s.now + s.timeout)).(sends := s.sends - {p.future})
  }

  /** The frame was delivered. */
  function AfterDelivery(s: State, t: TaskId): State
    requires IsActive(s, t)
  {
    var k := s.tasks[t];
    var p := k.phase;
    match k.Current()
    case Request(_) => TakeReply(s, t)
    case Write(frames) =>
      if p.index + 1 < |frames| then Launch(s.(sends := s.sends - {p.future}), t, p.index + 1)
      else Leave(s, t, Completed)
    case History(_) => WaitForRecords(StartCollecting(s, t), t)
  }

  function ResumeCalm(s: State, t: TaskId): State
    requires Resumable(s, t) && !s.tasks[t].phase.interruption.Thrown?
  {
    var p := s.tasks[t].phase;
    match p.stage
    case Delivering =>
      if p.send.Done? then
        if p.send.outcome.Delivered? then AfterDelivery(s, t)
        else Leave(s, t, Mapped(p.send.outcome.failure, p.interruption))
      else if FutureOf(s, t).state.Broken? then Leave(s, t, Failed(FutureOf(s, t).state.error))
      else SetPhase(s, t, p.(stage := AwaitingSend))
    case AwaitingSend =>
      if p.send.outcome.Delivered? then AfterDelivery(s, t)
      else Leave(s, t, Mapped(p.send.outcome.failure, p.interruption))
    case AwaitingReply => TakeReply(s, t)
    case Collecting => WaitForRecords(s, t)
  }

  function Resumed(s: State, t: TaskId): State
    requires Resumable(s, t)
  {
    var p := s.tasks[t].phase;
    if p.interruption.Thrown? then Leave(s, t, Unwound(p.interruption.why)) else ResumeCalm(s, t)
  }

  // ---- Events around the task ----

  function Worse(interruption: Interruption, why: Why): Why {
    if interruption.Calm? then why else if interruption.why.External? then External else why
  }

  /** `Task.cancel`, from an expired deadline or from outside. */
  function Interrupted(s: State, t: TaskId, why: Why): State
    requires IsActive(s, t)
  {
    var p := s.tasks[t].phase;
    var w := Worse(p.interruption, why);
    if p.stage.AwaitingSend? && !p.send.Done? then SetPhase(s, t, p.(interruption := Asked(w)))
    else
      var s' := SetPhase(s, t, p.(interruption := Thrown(w)));
      if p.stage.AwaitingReply? && FutureOf(s, t).state.Pending? then SetFuture(s', p.future, Voided) else s'
  }

  /** The event loop runs the send for the first time. */
  function SendBegun(s: State, t: TaskId): State
    requires IsActive(s, t)
  {
    var k := s.tasks[t];
    var p := k.phase;
    if p.interruption.Asked? then SetPhase(s, t, p.(send := Done(Raised(Stopped), false)))
    else if !s.connected then SetPhase(s, t, p.(send := Done(Raised(Package(ConnectionError)), false)))
    else SetPhase(s, t, p.(send := Open)).(
      wire := s.wire + [Sent(t, |k.answers|, p.index, k.Current().FrameAt(p.index), false)])
  }

  /** The transport's send returned or raised. Frames go out one at a time, so
      the one it belongs to is the last on the wire. */
  function SendEnded(s: State, t: TaskId, outcome: Outcome): State
    requires IsActive(s, t)
  {
    SetPhase(s, t, s.tasks[t].phase.(send := Done(outcome, true))).(
      wire := if outcome.Delivered? && s.wire != []
              then s.wire[|s.wire| - 1 := s.wire[|s.wire| - 1].(acked := true)] else s.wire)
  }

  /** Only `set_exception` on a pending future is legal. */
  function Fail(future: Future): Future {
    if future.state.Pending? then future.(state := Broken(ConnectionError)) else future
  }

  predicate IsWaiting(s: State, f: FutureId) {
    exists r :: r in s.waiters && s.waiters[r].future == f
  }

  /** `_on_disconnect`: reply futures are guarded by `done()`, aborts are not. */
  function Disconnected(s: State): State {
    s.(futures := seq(|s.futures|, f requires 0 <= f < |s.futures| =>
                        if IsWaiting(s, f) || f in s.sends then Fail(s.futures[f]) else s.futures[f]),
       fault := s.fault || exists f :: f in s.sends && f < |s.futures| && !s.futures[f].state.Pending?,
       waiters := map[],
       sends := {},
       bulkEvent := true)
  }

  predicate Matches(s: State, payload: Bytes) {
    IsReply(payload) && payload[2] in s.waiters && payload[3] == s.waiters[payload[2]].flag
  }

  /** `_on_notify`. */
  function Notified(s: State, payload: Bytes): State {
    var s' := s.(notes := s.notes + [payload]);
    if IsHistoryRecord(payload) then
      s'.(bulk := s.bulk + [payload], bulkEvent := true)
    else if Matches(s, payload) then
      var f := s.waiters[payload[2]].future;
      var taken := s'.(waiters := s.waiters - {payload[2]});
      if f < |s.futures| && s.futures[f].state.Pending? then SetFuture(taken, f, Valued(payload, |s.notes|))
      else taken
    else s'
  }

  // ---- Steps and runs ----

  datatype Step =
    | Spawn(task: TaskId, program: seq<Op>)
    | Begin(task: TaskId)                  // _require_transport, then ask for the lock
    | Acquire(task: TaskId)
    | BeginSend(task: TaskId)
    | EndSend(task: TaskId, outcome: Outcome)
    | Resume(task: TaskId)
    | Interrupt(task: TaskId, why: Why)
    | CancelQueued(task: TaskId)
    | IdleOut(task: TaskId)                // the idle window of a collection ran out
    | Notify(payload: Bytes)
    | Drop                                 // the link is lost
    | Connect
    | Disconnect                           // on request: no callback
    | StaleEnd                             // an abandoned send finishes unwinding
    | Tick(delta: nat)

  ghost predicate Enabled(s: State, step: Step) {
    match step
    case Spawn(t, program) => t !in s.tasks && program != [] && forall op <- program :: op.WellFormed()
    case Begin(t) => t in s.tasks && s.tasks[t].phase.Idle? && s.tasks[t].Busy()
    case Acquire(t) =>
      t in s.tasks && s.tasks[t].phase.Queued? && s.owner.None? && s.tasks[t].Busy()
      && s.tasks[t].Current().WellFormed()
    case BeginSend(t) =>
      IsActive(s, t) && s.tasks[t].phase.send.Unstarted?
      && (s.tasks[t].phase.stage.Delivering? || s.tasks[t].phase.stage.AwaitingSend?)
    case EndSend(t, _) => IsActive(s, t) && s.tasks[t].phase.send.Open?
    case Resume(t) => Resumable(s, t)
    case Interrupt(t, why) =>
      IsActive(s, t)
      && (why.Deadline? ==> !s.tasks[t].phase.stage.Collecting? && s.tasks[t].phase.deadline <= s.now)
    case CancelQueued(t) => t in s.tasks && s.tasks[t].phase.Queued?
    case IdleOut(t) =>
      IsActive(s, t) && s.tasks[t].phase.stage.Collecting? && s.tasks[t].phase.until <= s.now
      && !s.tasks[t].phase.interruption.Thrown?
    case StaleEnd => s.stale > 0
    case _ => true
  }

  function Refused(k: Task, answer: Answer): Task {
    k.(answers := k.answers + [answer], phase := Finished)
  }

  ghost function Apply(s: State, step: Step): State
    requires Enabled(s, step)
  {
    match step
    case Spawn(t, program) => s.(tasks := s.tasks[t := Task(program, [], Idle)])
    case Begin(t) =>
      if s.connected then SetPhase(s, t, Queued)
      else s.(tasks := s.tasks[t := Refused(s.tasks[t], Failed(ConnectionError))])
    case Acquire(t) => Enter(s, t)
    case BeginSend(t) => SendBegun(s, t)
    case EndSend(t, outcome) => SendEnded(s, t, outcome)
    case Resume(t) => Resumed(s, t)
    case Interrupt(t, why) => Interrupted(s, t, why)
    case CancelQueued(t) => s.(tasks := s.tasks[t := Refused(s.tasks[t], Cancelled)])
    case IdleOut(t) => Leave(s, t, Collection(s, t))
    case Notify(payload) => Notified(s, payload)
    case Drop => Disconnected(s).(connected := false)
    case Connect => s.(connected := true)
    case Disconnect => s.(connected := false)
    case StaleEnd => s.(stale := s.stale - 1)
    case Tick(delta) => s.(now := s.now + delta)
  }

  ghost predicate Legal(s: State, steps: seq<Step>)
    decreases |steps|
  {
    steps == [] || (Enabled(s, steps[0]) && Legal(Apply(s, steps[0]), steps[1..]))
  }

  ghost function Run(s: State, steps: seq<Step>): State
    requires Legal(s, steps)
    decreases |steps|
  {
    if steps == [] then s else Run(Apply(s, steps[0]), steps[1..])
  }
}
