/** A lost link also ends the calls that have not taken the lock: those that
    passed the connection check and queue, and those yet to check. */
module ClientQueued {
  import opened Errors
  import opened Client
  import opened ClientInvariant
  import opened ClientDrop

  predicate NotSent(send: Send) {
    send.Unstarted? || send == REFUSED_SEND
  }

  /** Call number `i` of `t` finds the link down: it has sent nothing and will
      not be able to. A late reply can still match its waiter. */
  ghost predicate Barred(s: State, t: TaskId, i: nat) {
    && Inv(s) && !s.connected && t in s.tasks && s.tasks[t].Busy() && |s.tasks[t].answers| == i
    && match s.tasks[t].phase
       case Idle => true
       case Queued => true
       case Active(stage, _, index, send, interruption, _, _) =>
         index == 0 && interruption.Calm? && NotSent(send) && (stage.Delivering? || stage.AwaitingSend?)
       case Finished => false
  }

  /** Steps of the event loop for the call `t` is in or about to make. */
  predicate Progress(step: Step, t: TaskId) {
    step == Begin(t) || step == Acquire(t) || Own(step, t)
  }

  /** No reconnect, no deadline or cancellation of `t`. */
  predicate WhileDown(step: Step, t: TaskId) {
    !step.Connect? && !(step.Interrupt? && step.task == t) && step != CancelQueued(t)
  }

  /** An upper bound on the steps such a call still takes. */
  function Remaining(p: Phase): nat {
    match p
    case Idle => 1
    case Queued => 4
    case Active(stage, _, _, send, _, _, _) =>
      if send.Done? then 1 else if stage.AwaitingSend? then 2 else 3
    case Finished => 0
  }

  ghost predicate Refusal(s: State, t: TaskId, i: nat) {
    t in s.tasks && i < |s.tasks[t].answers| && s.tasks[t].answers[i] == Failed(ConnectionError)
  }

  /** Where a step leaves a barred call. */
  ghost predicate GoesOn(s: State, s': State, t: TaskId, i: nat, spent: nat)
    requires t in s.tasks
  {
    Barred(s', t, i) && Remaining(s'.tasks[t].phase) + spent <= Remaining(s.tasks[t].phase)
  }

  lemma BarredResume(s: State, t: TaskId, i: nat)
    requires Barred(s, t, i) && Resumable(s, t)
    ensures Refusal(Resumed(s, t), t, i) || GoesOn(s, Resumed(s, t), t, i, 1)
  {
    assert HeldTables(s, t);
    StepInv(s, Resume(t));
    var p := s.tasks[t].phase;
    if p.send.Done? {
      assert Resumed(s, t) == Leave(s, t, Failed(ConnectionError));
    } else if FutureOf(s, t).state.Broken? {
      assert Resumed(s, t) == Leave(s, t, Failed(ConnectionError));
    } else {
      assert Resumed(s, t) == SetPhase(s, t, p.(stage := AwaitingSend));
    }
  }

  lemma BarredAcquire(s: State, t: TaskId, i: nat)
    requires Barred(s, t, i) && Enabled(s, Acquire(t))
    ensures GoesOn(s, Enter(s, t), t, i, 1)
  {
    StepInv(s, Acquire(t));
  }

  lemma BarredBeginSend(s: State, t: TaskId, i: nat)
    requires Barred(s, t, i) && Enabled(s, BeginSend(t))
    ensures GoesOn(s, SendBegun(s, t), t, i, 1)
  {
    StepInv(s, BeginSend(t));
  }

  lemma BarredStandsStill(s: State, step: Step, t: TaskId, i: nat)
    requires Barred(s, t, i) && Enabled(s, step) && WhileDown(step, t) && !Progress(step, t)
    ensures GoesOn(s, Apply(s, step), t, i, 0)
  {
    StepInv(s, step);
    BarredUntouched(s, step, t, i);
    SameTaskStaysBarred(s, Apply(s, step), t, i);
  }

  lemma BarredUntouched(s: State, step: Step, t: TaskId, i: nat)
    requires Barred(s, t, i) && Enabled(s, step) && WhileDown(step, t) && !Progress(step, t)
    ensures !Apply(s, step).connected && t in Apply(s, step).tasks && Apply(s, step).tasks[t] == s.tasks[t]
  {
    StepTouches(s, step);
    if s.tasks[t].phase.Active? {
      OthersLeaveOwnerAlone(s, step, t);
    }
  }

  lemma SameTaskStaysBarred(s: State, s': State, t: TaskId, i: nat)
    requires Barred(s, t, i) && Inv(s') && !s'.connected && t in s'.tasks && s'.tasks[t] == s.tasks[t]
    ensures GoesOn(s, s', t, i, 0)
  {
  }

  lemma BarredStep(s: State, step: Step, t: TaskId, i: nat)
    requires Barred(s, t, i) && Enabled(s, step) && WhileDown(step, t)
    ensures var s' := Apply(s, step);
            || (Progress(step, t) && Refusal(s', t, i))
            || GoesOn(s, s', t, i, if Progress(step, t) then 1 else 0)
  {
    if step == Resume(t) {
      BarredResume(s, t, i);
    } else if step == Acquire(t) {
      BarredAcquire(s, t, i);
    } else if step == BeginSend(t) {
      BarredBeginSend(s, t, i);
    } else if step == Begin(t) {
      BarredBegins(s, t, i);
    } else {
      BarredHasNoSendToEnd(s, step, t, i);
      BarredStandsStill(s, step, t, i);
    }
  }

  lemma BarredBegins(s: State, t: TaskId, i: nat)
    requires Barred(s, t, i) && Enabled(s, Begin(t))
    ensures Refusal(Apply(s, Begin(t)), t, i)
  {
  }

  lemma BarredHasNoSendToEnd(s: State, step: Step, t: TaskId, i: nat)
    requires Barred(s, t, i) && Enabled(s, step)
    ensures !(step.EndSend? && step.task == t)
  {
  }

  function ProgressIn(steps: seq<Step>, t: TaskId): nat {
    if steps == [] then 0 else (if Progress(steps[0], t) then 1 else 0) + ProgressIn(steps[1..], t)
  }

  lemma {:induction false} BarredRun(s: State, steps: seq<Step>, t: TaskId, i: nat)
    requires Barred(s, t, i) && Legal(s, steps) && forall step <- steps :: WhileDown(step, t)
    ensures Refusal(Run(s, steps), t, i) || GoesOn(s, Run(s, steps), t, i, ProgressIn(steps, t))
    decreases |steps|
  {
    if steps != [] {
      BarredStep(s, steps[0], t, i);
      var s1 := Apply(s, steps[0]);
      if Refusal(s1, t, i) {
        AnswersAreKept(s1, steps[1..], t);
      } else {
        BarredRun(s1, steps[1..], t, i);
      }
    }
  }

  /** What keeps such a call from going on at once: only another lock holder. */
  lemma BarredCanGoOn(s: State, t: TaskId, i: nat)
    requires Barred(s, t, i)
    ensures Remaining(s.tasks[t].phase) > 0
    ensures || Enabled(s, Begin(t)) || Enabled(s, BeginSend(t)) || Enabled(s, Resume(t)) || Enabled(s, Acquire(t))
            || (s.tasks[t].phase.Queued? && s.owner.Some? && s.owner != Some(t))
  {
    if s.tasks[t].phase.Active? {
      assert HeldTables(s, t);
    }
  }

  /** Fail-fast for the calls without the lock. Whatever else happens after the
      drop while the link stays down, a call that queues for the lock, or is
      still to check the link, takes at most four more steps of its own, needs
      no timer, waits for nothing but the lock, and ends as a connection error. */
  lemma DropEndsWaitingCalls(s: State, t: TaskId, steps: seq<Step>)
    requires Inv(s) && t in s.tasks && (s.tasks[t].phase.Queued? || s.tasks[t].phase.Idle?)
    requires Legal(Apply(s, Drop), steps) && forall step <- steps :: WhileDown(step, t)
    ensures var i := |s.tasks[t].answers|;
            var s' := Run(Apply(s, Drop), steps);
            || Refusal(s', t, i)
            || (&& Barred(s', t, i) && ProgressIn(steps, t) < 4
                && (|| Enabled(s', Begin(t)) || Enabled(s', BeginSend(t)) || Enabled(s', Resume(t))
                    || Enabled(s', Acquire(t)) || (s'.tasks[t].phase.Queued? && s'.owner.Some? && s'.owner != Some(t))))
  {
    var i := |s.tasks[t].answers|;
    StepInv(s, Drop);
    assert Barred(Apply(s, Drop), t, i);
    BarredRun(Apply(s, Drop), steps, t, i);
    if Barred(Run(Apply(s, Drop), steps), t, i) {
      BarredCanGoOn(Run(Apply(s, Drop), steps), t, i);
    }
  }
}
