/** Deadlines and cancellations are told apart, though both reach a task as the
    same `CancelledError`. */
module ClientInterrupt {
  import opened Errors
  import opened Client
  import opened ClientInvariant
  import opened ClientDrop

  /** A transport's own way to say that time ran out. */
  predicate MeansTimeout(failure: Failure) {
    failure == PlainTimeout || failure == Package(TimeoutError)
  }

  /** This step gives task `t` no reason to end a call as interrupted by `why`: it
      is no such interruption, and no error of its send that means the same. A
      send that was cancelled because the deadline expired may well say so. */
  ghost predicate Spares(s: State, step: Step, t: TaskId, why: Why)
    requires Enabled(s, step)
  {
    && step != Interrupt(t, why)
    && (why.External? ==> step != CancelQueued(t))
    && (step.EndSend? && step.task == t && step.outcome.Raised? ==>
          if why.Deadline? then !MeansTimeout(step.outcome.failure)
          else step.outcome.failure.Stopped? ==> s.tasks[t].phase.interruption.Asked?)
  }

  ghost predicate SparesAlways(s: State, steps: seq<Step>, t: TaskId, why: Why)
    requires Legal(s, steps)
    decreases |steps|
  {
    steps == [] || (Spares(s, steps[0], t, why) && SparesAlways(Apply(s, steps[0]), steps[1..], t, why))
  }

  ghost predicate PhaseSpared(p: Phase, why: Why) {
    p.Active? ==>
      && (!p.interruption.Calm? ==> p.interruption.why != why)
      && (p.send.Done? && p.send.outcome.Raised? && !p.interruption.Thrown? ==>
            if why.Deadline? then !MeansTimeout(p.send.outcome.failure)
            else p.send.outcome.failure.Stopped? ==> p.interruption.Asked?)
  }

  /** What the caller is told: a deadline is a timeout error of the package, a
      cancellation stays one. */
  predicate Tells(answer: Answer, why: Why) {
    match why
    case Deadline => answer == Failed(TimeoutError)
    case External => answer == Cancelled
  }

  ghost predicate NeverTold(answers: seq<Answer>, why: Why) {
    forall a <- answers :: !Tells(a, why)
  }

  /** No call of `t` has ended that way and none is about to. */
  ghost predicate Spared(s: State, t: TaskId, why: Why) {
    t in s.tasks ==> NeverTold(s.tasks[t].answers, why) && PhaseSpared(s.tasks[t].phase, why)
  }

  lemma LeaveSpares(s: State, u: TaskId, answer: Answer, t: TaskId, why: Why)
    requires Spared(s, t, why) && IsActive(s, u) && (u == t ==> !Tells(answer, why))
    ensures Spared(Leave(s, u, answer), t, why)
  {
  }

  lemma TakeReplySpares(s: State, u: TaskId, t: TaskId, why: Why)
    requires Inv(s) && Spared(s, t, why) && s.owner == Some(u) && IsActive(s, u)
    requires s.tasks[u].Current().Request? && !s.tasks[u].phase.interruption.Thrown?
    ensures Spared(TakeReply(s, u), t, why)
  {
    assert HeldTables(s, u);
    match FutureOf(s, u).state
    case Pending =>
    case Valued(payload, _) => LeaveSpares(s, u, Returned(payload, s.tasks[u].phase.future), t, why);
    case Broken(error) => LeaveSpares(s, u, Failed(error), t, why);
    case Voided => assert false;
  }

  lemma TurnSpares(s: State, u: TaskId, t: TaskId, why: Why)
    requires Spared(s, t, why) && IsActive(s, u)
    ensures Spared(WaitForRecords(s, u), t, why)
  {
    if s.tasks[u].phase.deadline <= s.now {
      LeaveSpares(s.(bulkEvent := false), u, Collection(s, u), t, why);
    }
  }

  lemma NextFrameSpares(s: State, u: TaskId, t: TaskId, why: Why)
    requires Spared(s, t, why) && IsActive(s, u) && s.tasks[u].phase.index + 1 < s.tasks[u].Current().Length()
    ensures Spared(Launch(s.(sends := s.sends - {s.tasks[u].phase.future}), u, s.tasks[u].phase.index + 1), t, why)
  {
  }

  lemma DeliverySpares(s: State, u: TaskId, t: TaskId, why: Why)
    requires Inv(s) && Spared(s, t, why) && s.owner == Some(u) && IsActive(s, u)
    requires !s.tasks[u].phase.interruption.Thrown?
    ensures Spared(AfterDelivery(s, u), t, why)
  {
    match s.tasks[u].Current()
    case Request(_) => TakeReplySpares(s, u, t, why);
    case Write(frames) =>
      if s.tasks[u].phase.index + 1 < |frames| {
        NextFrameSpares(s, u, t, why);
      } else {
        LeaveSpares(s, u, Completed, t, why);
      }
    case History(_) => TurnSpares(StartCollecting(s, u), u, t, why);
  }

  lemma ResumeSpares(s: State, u: TaskId, t: TaskId, why: Why)
    requires Inv(s) && Spared(s, t, why) && Resumable(s, u)
    ensures Spared(Resumed(s, u), t, why)
  {
    assert HeldTables(s, u);
    var p := s.tasks[u].phase;
    if p.interruption.Thrown? {
      LeaveSpares(s, u, Unwound(p.interruption.why), t, why);
    } else if p.stage.Collecting? {
      TurnSpares(s, u, t, why);
    } else if p.stage.AwaitingReply? {
      TakeReplySpares(s, u, t, why);
    } else if p.send.Done? && p.send.outcome.Delivered? {
      DeliverySpares(s, u, t, why);
    } else if p.send.Done? {
      LeaveSpares(s, u, Mapped(p.send.outcome.failure, p.interruption), t, why);
    } else if FutureOf(s, u).state.Broken? {
      LeaveSpares(s, u, Failed(FutureOf(s, u).state.error), t, why);
    }
  }

  lemma InterruptSpares(s: State, u: TaskId, cause: Why, t: TaskId, why: Why)
    requires Spared(s, t, why) && IsActive(s, u) && (u == t ==> cause != why)
    ensures Spared(Interrupted(s, u, cause), t, why)
  {
    InterruptMarks(s, u, cause);
  }

  lemma StepSpares(s: State, step: Step, t: TaskId, why: Why)
    requires Inv(s) && Spared(s, t, why) && Enabled(s, step) && Spares(s, step, t, why)
    ensures Spared(Apply(s, step), t, why)
  {
    if step.Resume? {
      ResumeSpares(s, step.task, t, why);
    } else if step.Interrupt? {
      InterruptSpares(s, step.task, step.why, t, why);
    } else if step.IdleOut? {
      LeaveSpares(s, step.task, Collection(s, step.task), t, why);
    } else if step.Acquire? {
      EnterSpares(s, step.task, t, why);
    } else if step.BeginSend? || step.EndSend? {
      SendSpares(s, step, t, why);
    } else {
      OtherStepSpares(s, step, t, why);
    }
  }

  lemma EnterSpares(s: State, u: TaskId, t: TaskId, why: Why)
    requires Spared(s, t, why) && Enabled(s, Acquire(u))
    ensures Spared(Enter(s, u), t, why)
  {
  }

  lemma SendSpares(s: State, step: Step, t: TaskId, why: Why)
    requires Spared(s, t, why) && Enabled(s, step) && Spares(s, step, t, why)
    requires step.BeginSend? || step.EndSend?
    ensures Spared(Apply(s, step), t, why)
  {
  }

  lemma OtherStepSpares(s: State, step: Step, t: TaskId, why: Why)
    requires Spared(s, t, why) && Enabled(s, step) && Spares(s, step, t, why)
    requires !step.Resume? && !step.Interrupt? && !step.IdleOut? && !step.Acquire? && !step.BeginSend? && !step.EndSend?
    ensures Spared(Apply(s, step), t, why)
  {
    StepTouches(s, step);
    if IsTaskStep(step) {
      OutsiderStepSpares(s, step, t, why);
    }
  }

  lemma OutsiderStepSpares(s: State, step: Step, t: TaskId, why: Why)
    requires Spared(s, t, why) && Enabled(s, step) && Spares(s, step, t, why)
    requires step.Spawn? || step.Begin? || step.CancelQueued?
    ensures Spared(Apply(s, step), t, why)
  {
  }

  lemma {:induction false} RunSpares(s: State, steps: seq<Step>, t: TaskId, why: Why)
    requires Inv(s) && Spared(s, t, why) && Legal(s, steps) && SparesAlways(s, steps, t, why)
    ensures Spared(Run(s, steps), t, why)
    decreases |steps|
  {
    if steps != [] {
      StepInv(s, steps[0]);
      StepSpares(s, steps[0], t, why);
      RunSpares(Apply(s, steps[0]), steps[1..], t, why);
    }
  }

  /** In any run a call ends as cancelled only if it was cancelled, and as a
      timeout error only if its deadline expired, or else its own send raised an
      error that means the same. */
  lemma InterruptionsAreToldApart(timeout: nat, steps: seq<Step>, t: TaskId, why: Why)
    requires Legal(Init(timeout), steps) && SparesAlways(Init(timeout), steps, t, why)
    requires t in Run(Init(timeout), steps).tasks
    ensures forall answer <- Run(Init(timeout), steps).tasks[t].answers ::
              answer != if why.Deadline? then Failed(TimeoutError) else Cancelled
  {
    InitInv(timeout);
    RunSpares(Init(timeout), steps, t, why);
  }

  // ---- And an interruption is not lost ----

  /** Interrupted while not waiting for its send. */
  ghost predicate Doomed(s: State, t: TaskId, why: Why, i: nat) {
    && Inv(s) && s.owner == Some(t) && IsActive(s, t) && |s.tasks[t].answers| == i
    && s.tasks[t].phase.interruption == Thrown(why)
    && (s.tasks[t].phase.stage.AwaitingSend? ==> s.tasks[t].phase.send.Done?)
  }

  /** A deadline that expires, or a cancellation, dooms the call there and then,
      unless it awaits its send, which is cancelled first. Of two interruptions
      the cancellation prevails, in either order. */
  lemma InterruptionDooms(s: State, t: TaskId, why: Why)
    requires Inv(s) && s.owner == Some(t) && IsActive(s, t) && Enabled(s, Interrupt(t, why))
    ensures var p := s.tasks[t].phase;
            var cancelled := why.External? || (!p.interruption.Calm? && p.interruption.why.External?);
            var s' := Apply(s, Interrupt(t, why));
            if p.stage.AwaitingSend? && !p.send.Done? then
              && Inv(s') && IsActive(s', t) && s'.owner == Some(t)
              && s'.tasks[t].answers == s.tasks[t].answers && s'.tasks[t].phase.send == p.send
              && s'.tasks[t].phase.interruption == Asked(if cancelled then External else Deadline)
            else Doomed(s', t, if cancelled then External else Deadline, |s.tasks[t].answers|)
  {
    InterruptedInv(s, t, why);
    InterruptMarks(s, t, why);
  }

  /** What may land before the task runs again: for a call doomed by its deadline
      anything but a cancellation, for a cancelled one anything at all. */
  predicate Lands(step: Step, t: TaskId, why: Why) {
    step != Resume(t) && (why.Deadline? ==> step != Interrupt(t, External))
  }

  lemma ThrownStep(s: State, step: Step, t: TaskId, why: Why, i: nat)
    requires Doomed(s, t, why, i) && Enabled(s, step) && Lands(step, t, why)
    ensures Doomed(Apply(s, step), t, why, i) && Apply(s, step).tasks[t].answers == s.tasks[t].answers
  {
    if step.Interrupt? && step.task == t {
      StepTouches(s, step);
      InterruptionDooms(s, t, step.why);
    } else if Touches(step, t) {
      ThrownSends(s, step, t, why, i);
    } else {
      StepInv(s, step);
      OthersLeaveOwnerAlone(s, step, t);
    }
  }

  lemma ThrownSends(s: State, step: Step, t: TaskId, why: Why, i: nat)
    requires Doomed(s, t, why, i) && Enabled(s, step) && Touches(step, t) && Lands(step, t, why) && !step.Interrupt?
    ensures Doomed(Apply(s, step), t, why, i) && Apply(s, step).tasks[t].answers == s.tasks[t].answers
  {
    StepInv(s, step);
  }

  lemma DoomedEnds(s: State, t: TaskId, why: Why, i: nat)
    requires Doomed(s, t, why, i)
    ensures Enabled(s, Resume(t))
    ensures var s' := Apply(s, Resume(t));
            && s'.owner.None? && t in s'.tasks && s'.tasks[t].phase.Finished?
            && s'.tasks[t].answers == s.tasks[t].answers + [if why.Deadline? then Failed(TimeoutError) else Cancelled]
  {
  }

  /** Once thrown, whatever lands before the task runs again, a reply included,
      its call ends as the interruption says, and so does its task: a deadline as
      the package's timeout error, a cancellation as such. */
  lemma {:induction false} ThrownCallUnwinds(s: State, steps: seq<Step>, t: TaskId, why: Why, i: nat)
    requires Doomed(s, t, why, i) && Legal(s, steps) && forall step <- steps :: Lands(step, t, why)
    ensures var s' := Run(s, steps);
            && Enabled(s', Resume(t))
            && var ended := Apply(s', Resume(t));
               && ended.owner.None? && t in ended.tasks && ended.tasks[t].phase.Finished?
               && ended.tasks[t].answers
                  == s.tasks[t].answers + [if why.Deadline? then Failed(TimeoutError) else Cancelled]
    decreases |steps|
  {
    if steps == [] {
      DoomedEnds(s, t, why, i);
    } else {
      ThrownStep(s, steps[0], t, why, i);
      ThrownCallUnwinds(Apply(s, steps[0]), steps[1..], t, why, i);
    }
  }

  /** A call still queued for the lock can be cancelled too, and touches nothing. */
  lemma QueuedCallIsCancelled(s: State, t: TaskId)
    requires Inv(s) && t in s.tasks && s.tasks[t].phase.Queued?
    ensures Enabled(s, CancelQueued(t))
    ensures var s' := Apply(s, CancelQueued(t));
            && s'.tasks[t].answers == s.tasks[t].answers + [Cancelled] && s'.tasks[t].phase.Finished?
            && s' == s.(tasks := s.tasks[t := s'.tasks[t]])
  {
  }

  // ---- What a send that raised is reported as ----

  /** Its own errors pass, a plain timeout becomes the package's, anything else a
      connection error; `CancelledError` is the deadline's if the deadline
      cancelled the send, and a cancellation otherwise. */
  predicate Reports(answer: Answer, failure: Failure, interruption: Interruption) {
    match failure
    case Package(error) => answer == Failed(error)
    case PlainTimeout => answer == Failed(TimeoutError)
    case Foreign => answer == Failed(ConnectionError)
    case Stopped => answer == if interruption == Asked(Deadline) then Failed(TimeoutError) else Cancelled
  }

  /** The send of the frame being delivered has raised, and its task is to run. */
  ghost predicate SendRaised(s: State, t: TaskId, failure: Failure, interruption: Interruption, i: nat) {
    && Inv(s) && s.owner == Some(t) && IsActive(s, t) && |s.tasks[t].answers| == i
    && var p := s.tasks[t].phase;
       && (p.stage.Delivering? || p.stage.AwaitingSend?)
       && p.send.Done? && p.send.outcome == Raised(failure) && p.interruption == interruption
  }

  lemma RaisedStays(s: State, step: Step, t: TaskId, failure: Failure, interruption: Interruption, i: nat)
    requires SendRaised(s, t, failure, interruption, i) && Enabled(s, step) && !Touches(step, t)
    ensures SendRaised(Apply(s, step), t, failure, interruption, i) && Apply(s, step).tasks[t] == s.tasks[t]
  {
    OthersLeaveOwnerAlone(s, step, t);
    StepInv(s, step);
  }

  lemma RaisedEnds(s: State, t: TaskId, failure: Failure, interruption: Interruption, i: nat)
    requires SendRaised(s, t, failure, interruption, i) && !interruption.Thrown?
    ensures Enabled(s, Resume(t))
    ensures var s' := Apply(s, Resume(t));
            && s'.owner.None? && t in s'.tasks && |s'.tasks[t].answers| == i + 1
            && Reports(s'.tasks[t].answers[i], failure, interruption)
  {
  }

  /** A transport may let any error out of an open send, and whatever lands before
      the task runs, drops and replies included, the call ends with that error. */
  lemma {:induction false} RaisedSendEndsCall(s: State, steps: seq<Step>, t: TaskId, failure: Failure,
                                              interruption: Interruption, i: nat)
    requires SendRaised(s, t, failure, interruption, i) && !interruption.Thrown?
    requires Legal(s, steps) && forall step <- steps :: !Touches(step, t)
    ensures var s' := Run(s, steps);
            && Enabled(s', Resume(t))
            && var ended := Apply(s', Resume(t));
               && ended.owner.None? && t in ended.tasks && |ended.tasks[t].answers| == i + 1
               && Reports(ended.tasks[t].answers[i], failure, interruption)
    decreases |steps|
  {
    if steps == [] {
      RaisedEnds(s, t, failure, interruption, i);
    } else {
      RaisedStays(s, steps[0], t, failure, interruption, i);
      RaisedSendEndsCall(Apply(s, steps[0]), steps[1..], t, failure, interruption, i);
    }
  }

  lemma SendMayRaise(s: State, t: TaskId, failure: Failure)
    requires Inv(s) && IsActive(s, t) && s.tasks[t].phase.send.Open?
    ensures Enabled(s, EndSend(t, Raised(failure)))
    ensures SendRaised(Apply(s, EndSend(t, Raised(failure))), t, failure, s.tasks[t].phase.interruption,
                       |s.tasks[t].answers|)
  {
    StepInv(s, EndSend(t, Raised(failure)));
    assert HeldTables(s, t);
  }
}
