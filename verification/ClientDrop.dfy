/** A lost link ends calls at once instead of leaving them to their deadline. */
module ClientDrop {
  import opened Errors
  import opened Frames
  import opened Client
  import opened ClientInvariant

  /** Steps of the event loop for the call task `t` is in: no timers. */
  predicate Own(step: Step, t: TaskId) {
    step == BeginSend(t) || step == Resume(t) || (step.EndSend? && step.task == t)
  }

  predicate Touches(step: Step, t: TaskId) {
    Own(step, t) || (step.Interrupt? && step.task == t) || step == IdleOut(t)
  }

  /** While `t` holds the lock nobody else moves it. */
  lemma OthersLeaveOwnerAlone(s: State, step: Step, t: TaskId)
    requires Inv(s) && s.owner == Some(t) && Enabled(s, step) && !Touches(step, t)
    ensures var s' := Apply(s, step);
            && s'.owner == s.owner && s'.tasks[t] == s.tasks[t] && IsActive(s', t)
            && (FutureOf(s', t) != FutureOf(s, t) ==> (step.Notify? || step.Drop?) && FutureOf(s, t).state.Pending?)
            && FutureOf(s', t) == FutureOf(s, t).(state := FutureOf(s', t).state)
            && (s'.connected == s.connected || step.Connect? || step.Disconnect? || step.Drop?)
  {
    StepTouches(s, step);
    if step.Notify? {
      NotificationReachesOnlyItsWaiter(s, step.payload);
    } else if step.Drop? {
      assert Disconnected(s).owner == s.owner && |Disconnected(s).futures| == |s.futures|;
    } else {
      QuietStepLeavesFutures(s, step, t);
    }
  }

  lemma QuietStepLeavesFutures(s: State, step: Step, t: TaskId)
    requires Inv(s) && s.owner == Some(t) && Enabled(s, step) && !Touches(step, t) && !step.Notify? && !step.Drop?
    ensures Apply(s, step).owner == s.owner && Apply(s, step).futures == s.futures
    ensures s.bulkEvent ==> Apply(s, step).bulkEvent
  {
  }

  lemma {:induction false} AnswersAreKept(s: State, steps: seq<Step>, t: TaskId)
    requires Legal(s, steps) && t in s.tasks
    ensures t in Run(s, steps).tasks && s.tasks[t].answers <= Run(s, steps).tasks[t].answers
    ensures Run(s, steps).tasks[t].program == s.tasks[t].program
    decreases |steps|
  {
    if steps != [] {
      StepTouches(s, steps[0]);
      AnswersAreKept(Apply(s, steps[0]), steps[1..], t);
    }
  }

  // ---- The drop itself ----

  /** After a drop both tables are empty and nothing a task waits for is still
      pending, so the lock holder can run at once: unless its reply is already
      in hand and it waits for its send. */
  lemma DropLeavesNothingPending(s: State)
    requires Inv(s)
    ensures var s' := Apply(s, Drop);
            && s'.waiters == map[] && s'.sends == {} && !s'.fault
            && (s'.owner.Some? ==>
                  var t := s'.owner.value;
                  && IsActive(s', t)
                  && (!s'.tasks[t].phase.stage.Collecting? ==> !FutureOf(s', t).state.Pending?)
                  && (Resumable(s', t) <==>
                        || !s'.tasks[t].phase.stage.AwaitingSend?
                        || s'.tasks[t].phase.send.Done?
                        || s'.tasks[t].phase.interruption.Thrown?))
  {
    StepInv(s, Drop);
    var s' := Apply(s, Drop);
    if s.owner.Some? {
      var t := s.owner.value;
      assert HeldTables(s, t) && IsActive(s', t);
      if s.tasks[t].Current().Request? && FutureOf(s, t).state.Pending? {
        assert s.waiters[FutureOf(s, t).frame[2]].future == s.tasks[t].phase.future;
        assert IsWaiting(s, s.tasks[t].phase.future);
      }
    }
  }

  // ---- What is left of a struck call ----

  const REFUSED_SEND := Done(Raised(Package(ConnectionError)), false)

  /** The send has not raised, was refused, or raised one of `raised`. */
  predicate SendIn(send: Send, raised: set<Failure>) {
    send.Done? && send.outcome.Raised? ==> send == REFUSED_SEND || send.outcome.failure in raised
  }

  /** Call number `i` of `t` was at frame `j` when the link was lost, and the
      link is still down: its future is broken, or it has moved on to a frame
      that the transport refuses, or it has been woken from collecting. The
      transport itself may have raised one of `raised` for the frame. */
  ghost predicate Struck(s: State, t: TaskId, i: nat, j: nat, raised: set<Failure>) {
    && Inv(s) && s.owner == Some(t) && IsActive(s, t) && !s.connected && |s.tasks[t].answers| == i
    && var p := s.tasks[t].phase;
       && p.interruption.Calm? && SendIn(p.send, raised)
       && match p.stage
          case Delivering =>
            || (FutureOf(s, t).state.Broken? && p.index == j)
            || (s.tasks[t].Current().Write? && p.index > j
                && (p.send.Unstarted? || p.send == REFUSED_SEND))
          case AwaitingReply => FutureOf(s, t).state.Broken? && p.index == j
          case Collecting => s.bulkEvent
          case AwaitingSend => false
  }

  /** An upper bound on the steps such a call still takes. */
  function StepsLeft(p: Phase): nat
    requires p.Active?
  {
    if p.stage.AwaitingReply? || p.stage.Collecting? then 1
    else match p.send
         case Open => 4
         case Done(Delivered, _) => 3
         case Unstarted => 2
         case Done(Raised(_), _) => 1
  }

  /** How a struck call may end: as a connection error or the transport's own
      one, as success for a write whose last frame was delivered all the same,
      or with what a history read has collected. */
  ghost predicate StruckAnswer(op: Op, j: nat, raised: set<Failure>, answer: Answer) {
    || answer == Failed(ConnectionError)
    || (exists failure :: failure in raised && answer == Mapped(failure, Calm))
    || (answer == Completed && op.Write? && j + 1 == |op.frames|)
    || (answer.Collected? && op.History?)
  }

  ghost predicate Ended(s: State, t: TaskId, i: nat, j: nat, raised: set<Failure>) {
    && t in s.tasks && i < |s.tasks[t].answers| && i < |s.tasks[t].program|
    && StruckAnswer(s.tasks[t].program[i], j, raised, s.tasks[t].answers[i])
  }

  /** A history read that waits out its last idle window. */
  ghost predicate Draining(s: State, t: TaskId, i: nat) {
    && IsActive(s, t) && |s.tasks[t].answers| == i && Quiet(s, t, s.tasks[t].phase.until)
    && s.tasks[t].phase.until <= s.now + IDLE_WINDOW
  }

  /** The event loop can always take a step of the call itself. */
  lemma StruckCallCanRun(s: State, t: TaskId, i: nat, j: nat, raised: set<Failure>)
    requires Struck(s, t, i, j, raised)
    ensures Enabled(s, Resume(t)) || Enabled(s, BeginSend(t))
    ensures StepsLeft(s.tasks[t].phase) <= 4
  {
    assert HeldTables(s, t);
  }

  /** A step the drop may be followed by, as far as call `op` of `t` is
      concerned: no reconnect, no deadline or cancellation; its send may end in
      any way, raising one of `raised`; no record reaches a history read. */
  predicate AfterDrop(step: Step, t: TaskId, op: Op, raised: set<Failure>) {
    && !step.Connect? && !(step.Interrupt? && step.task == t)
    && (step.EndSend? && step.task == t && step.outcome.Raised? ==> step.outcome.failure in raised)
    && (op.History? ==> !Wakes(step))
  }

  lemma StruckStep(s: State, step: Step, t: TaskId, i: nat, j: nat, raised: set<Failure>)
    requires Struck(s, t, i, j, raised) && Enabled(s, step) && AfterDrop(step, t, s.tasks[t].Current(), raised)
    ensures var s' := Apply(s, step);
            || ((Own(step, t) || step == IdleOut(t)) && Ended(s', t, i, j, raised))
            || (step == Resume(t) && Draining(s', t, i))
            || StruckOn(s, s', t, i, j, raised, if Own(step, t) then 1 else 0)
  {
    if step == Resume(t) {
      StruckResume(s, t, i, j, raised);
    } else if step == IdleOut(t) {
      StruckIdleOut(s, t, i, j, raised);
    } else if Own(step, t) {
      StruckSends(s, step, t, i, j, raised);
    } else {
      StruckStandsStill(s, step, t, i, j, raised);
    }
  }

  /** The call goes on, having spent some of the steps left to it. */
  ghost predicate StruckOn(s: State, s': State, t: TaskId, i: nat, j: nat, raised: set<Failure>, spent: nat) {
    && IsActive(s, t) && Struck(s', t, i, j, raised) && SameCall(s, s', t)
    && StepsLeft(s'.tasks[t].phase) + spent <= StepsLeft(s.tasks[t].phase)
  }

  lemma StruckSends(s: State, step: Step, t: TaskId, i: nat, j: nat, raised: set<Failure>)
    requires Struck(s, t, i, j, raised) && Enabled(s, step) && AfterDrop(step, t, s.tasks[t].Current(), raised)
    requires Own(step, t) && step != Resume(t)
    ensures StruckOn(s, Apply(s, step), t, i, j, raised, 1)
  {
    StepInv(s, step);
    assert HeldTables(s, t);
    assert FutureOf(Apply(s, step), t) == FutureOf(s, t);
  }

  lemma StruckStandsStill(s: State, step: Step, t: TaskId, i: nat, j: nat, raised: set<Failure>)
    requires Struck(s, t, i, j, raised) && Enabled(s, step) && AfterDrop(step, t, s.tasks[t].Current(), raised)
    requires !Own(step, t) && step != IdleOut(t)
    ensures StruckOn(s, Apply(s, step), t, i, j, raised, 0)
  {
    StepInv(s, step);
    StepTouches(s, step);
    OthersLeaveOwnerAlone(s, step, t);
    OthersKeepEvent(s, step, t);
  }

  predicate SameCall(s: State, s': State, t: TaskId) {
    && t in s.tasks && t in s'.tasks
    && s'.tasks[t].answers == s.tasks[t].answers && s'.tasks[t].program == s.tasks[t].program
  }

  /** Only the lock holder clears the event. */
  lemma OthersKeepEvent(s: State, step: Step, t: TaskId)
    requires Inv(s) && s.owner == Some(t) && Enabled(s, step) && !Touches(step, t)
    ensures s.bulkEvent ==> Apply(s, step).bulkEvent
  {
    if step.Notify? {
      assert s.bulkEvent ==> Notified(s, step.payload).bulkEvent;
    } else if !step.Drop? {
      QuietStepLeavesFutures(s, step, t);
    }
  }

  lemma StruckIdleOut(s: State, t: TaskId, i: nat, j: nat, raised: set<Failure>)
    requires Struck(s, t, i, j, raised) && Enabled(s, IdleOut(t))
    ensures Ended(Apply(s, IdleOut(t)), t, i, j, raised)
  {
    assert HeldTables(s, t);
  }

  lemma StruckResume(s: State, t: TaskId, i: nat, j: nat, raised: set<Failure>)
    requires Struck(s, t, i, j, raised) && Resumable(s, t)
    ensures var s' := Resumed(s, t);
            || Ended(s', t, i, j, raised)
            || Draining(s', t, i)
            || StruckOn(s, s', t, i, j, raised, 1)
  {
    var k := s.tasks[t];
    if k.phase.stage.AwaitingReply? || !k.phase.send.Done? {
      StruckEnds(s, t, i, j, raised);
    } else if k.phase.stage.Collecting? || (k.phase.send.outcome.Delivered? && k.Current().History?) {
      StruckCollects(s, t, i, j, raised);
    } else if k.phase.send.outcome.Delivered? && k.Current().Write? && k.phase.index + 1 < k.Current().Length() {
      StruckGoesOn(s, t, i, j, raised);
    } else {
      StruckEnds(s, t, i, j, raised);
    }
  }

  /** A frame delivered all the same, but not the last: the next one is refused. */
  lemma StruckGoesOn(s: State, t: TaskId, i: nat, j: nat, raised: set<Failure>)
    requires Struck(s, t, i, j, raised) && Resumable(s, t)
    requires s.tasks[t].phase.send.Done? && s.tasks[t].phase.send.outcome.Delivered?
    requires s.tasks[t].Current().Write? && s.tasks[t].phase.index + 1 < s.tasks[t].Current().Length()
    requires s.tasks[t].phase.stage.Delivering?
    ensures StruckOn(s, Resumed(s, t), t, i, j, raised, 1)
  {
    assert Resumed(s, t) == Launch(s.(sends := s.sends - {s.tasks[t].phase.future}), t, s.tasks[t].phase.index + 1);
    NextFramePhase(s.(sends := s.sends - {s.tasks[t].phase.future}), t, s.tasks[t].phase.index + 1);
    ResumedInv(s, t);
    NextFrameStruck(s, Resumed(s, t), t, i, j, raised);
  }

  lemma NextFrameStruck(s: State, s': State, t: TaskId, i: nat, j: nat, raised: set<Failure>)
    requires Struck(s, t, i, j, raised) && s.tasks[t].phase.stage.Delivering? && s.tasks[t].Current().Write?
    requires s.tasks[t].phase.send.Done? && s.tasks[t].phase.send.outcome.Delivered?
    requires Inv(s') && s'.owner == s.owner && s'.connected == s.connected && IsActive(s', t) && SameCall(s, s', t)
    requires var p' := s'.tasks[t].phase;
             && p'.stage.Delivering? && p'.index == s.tasks[t].phase.index + 1
             && p'.send.Unstarted? && p'.interruption.Calm?
    ensures StruckOn(s, s', t, i, j, raised, 1)
  {
  }

  lemma NextFramePhase(s: State, t: TaskId, n: nat)
    requires t in s.tasks && s.tasks[t].Busy() && n < s.tasks[t].Current().Length()
    ensures var s' := Launch(s, t, n);
            && s'.owner == s.owner && s'.connected == s.connected && IsActive(s', t) && SameCall(s, s', t)
            && s'.wire == s.wire && s'.tasks.Keys == s.tasks.Keys
            && s'.tasks[t].phase == Active(Delivering, |s.futures|, n, Unstarted, Calm, s.now + s.timeout, 0)
  {
  }

  /** A history read turns to what it has, or goes on doing so. */
  lemma StruckCollects(s: State, t: TaskId, i: nat, j: nat, raised: set<Failure>)
    requires Struck(s, t, i, j, raised) && Resumable(s, t) && s.tasks[t].phase.send.Done?
    requires s.tasks[t].phase.stage.Collecting? || s.tasks[t].phase.send.outcome.Delivered?
    requires s.tasks[t].Current().History? || s.tasks[t].phase.stage.Collecting?
    requires !s.tasks[t].phase.stage.AwaitingReply?
    ensures Ended(Resumed(s, t), t, i, j, raised) || Draining(Resumed(s, t), t, i)
  {
    assert HeldTables(s, t);
    if s.tasks[t].phase.stage.Collecting? {
      CollectingTurns(s, t);
    } else {
      StartCollectingInv(s, t);
      CollectingTurns(StartCollecting(s, t), t);
      assert Resumed(s, t) == WaitForRecords(StartCollecting(s, t), t);
    }
  }

  /** A turn of a collecting read stops it, or has it wait out a window. */
  lemma CollectingTurns(s: State, t: TaskId)
    requires Inv(s) && s.owner == Some(t) && IsActive(s, t) && s.tasks[t].Current().History?
    requires s.tasks[t].phase.stage.Collecting? && s.tasks[t].phase.interruption.Calm?
    ensures var s' := WaitForRecords(s, t);
            || s' == Leave(s.(bulkEvent := false), t, Collection(s, t))
            || Draining(s', t, |s.tasks[t].answers|)
  {
    WaitForRecordsInv(s, t);
  }

  lemma StruckEnds(s: State, t: TaskId, i: nat, j: nat, raised: set<Failure>)
    requires Struck(s, t, i, j, raised) && Resumable(s, t) && !s.tasks[t].phase.stage.Collecting?
    requires s.tasks[t].phase.stage.Delivering? && s.tasks[t].phase.send.Done?
             && s.tasks[t].phase.send.outcome.Delivered?
             ==> s.tasks[t].phase.index + 1 == s.tasks[t].Current().Length() && !s.tasks[t].Current().History?
    ensures Ended(Resumed(s, t), t, i, j, raised)
  {
    assert HeldTables(s, t);
  }

  /** Nothing but the window running out ends the wait. */
  lemma DrainingStep(s: State, step: Step, t: TaskId, i: nat, j: nat, raised: set<Failure>)
    requires Draining(s, t, i) && Enabled(s, step) && AfterDrop(step, t, s.tasks[t].Current(), raised)
    ensures var s' := Apply(s, step);
            Ended(s', t, i, j, raised) || (Draining(s', t, i) && SameCall(s, s', t))
  {
    assert HeldTables(s, t);
    if !Touches(step, t) {
      OthersLeaveOwnerAlone(s, step, t);
      StepInv(s, step);
      StepTouches(s, step);
    }
  }

  lemma {:induction false} DrainingRun(s: State, steps: seq<Step>, t: TaskId, op: Op, i: nat, j: nat,
                                       raised: set<Failure>)
    requires Draining(s, t, i) && Legal(s, steps) && op == s.tasks[t].Current()
    requires forall step <- steps :: AfterDrop(step, t, op, raised)
    ensures Ended(Run(s, steps), t, i, j, raised) || Draining(Run(s, steps), t, i)
    decreases |steps|
  {
    if steps != [] {
      DrainingStep(s, steps[0], t, i, j, raised);
      var s1 := Apply(s, steps[0]);
      if Draining(s1, t, i) && SameCall(s, s1, t) {
        DrainingRun(s1, steps[1..], t, op, i, j, raised);
      } else {
        AnswersAreKept(s1, steps[1..], t);
      }
    }
  }

  function OwnSteps(steps: seq<Step>, t: TaskId): nat {
    if steps == [] then 0 else (if Own(steps[0], t) then 1 else 0) + OwnSteps(steps[1..], t)
  }

  ghost predicate StruckUpTo(s: State, t: TaskId, i: nat, j: nat, raised: set<Failure>, left: nat, spent: nat) {
    || Ended(s, t, i, j, raised)
    || Draining(s, t, i)
    || (Struck(s, t, i, j, raised) && StepsLeft(s.tasks[t].phase) + spent <= left)
  }

  lemma {:induction false} StruckRun(s: State, steps: seq<Step>, t: TaskId, op: Op, i: nat, j: nat,
                                     raised: set<Failure>)
    requires Struck(s, t, i, j, raised) && Legal(s, steps) && op == s.tasks[t].Current()
    requires forall step <- steps :: AfterDrop(step, t, op, raised)
    ensures StruckUpTo(Run(s, steps), t, i, j, raised, StepsLeft(s.tasks[t].phase), OwnSteps(steps, t))
    decreases |steps|
  {
    if steps != [] {
      StruckStep(s, steps[0], t, i, j, raised);
      StepTouches(s, steps[0]);
      var s1 := Apply(s, steps[0]);
      if Ended(s1, t, i, j, raised) {
        AnswersAreKept(s1, steps[1..], t);
      } else if Draining(s1, t, i) {
        assert s1.tasks[t].Current() == op;
        DrainingRun(s1, steps[1..], t, op, i, j, raised);
      } else {
        assert StruckOn(s, s1, t, i, j, raised, if Own(steps[0], t) then 1 else 0);
        assert s1.tasks[t].Current() == op;
        StruckRun(s1, steps[1..], t, op, i, j, raised);
        StruckLonger(Run(s1, steps[1..]), t, i, j, raised, StepsLeft(s1.tasks[t].phase), OwnSteps(steps[1..], t),
                     StepsLeft(s.tasks[t].phase), OwnSteps(steps, t));
      }
    }
  }

  lemma StruckLonger(s: State, t: TaskId, i: nat, j: nat, raised: set<Failure>, left: nat, spent: nat,
                     left': nat, spent': nat)
    requires StruckUpTo(s, t, i, j, raised, left, spent) && spent <= spent' && left + (spent' - spent) <= left'
    ensures StruckUpTo(s, t, i, j, raised, left', spent')
  {
  }

  /** A call in progress that is not being interrupted; a request still waits for
      its reply. Its send may already have raised one of `raised`. */
  ghost predicate InFlight(s: State, t: TaskId, raised: set<Failure>) {
    && Inv(s) && s.owner == Some(t) && IsActive(s, t)
    && var k := s.tasks[t];
       && k.phase.interruption.Calm? && SendIn(k.phase.send, raised)
       && (k.Current().Request? ==> FutureOf(s, t).state.Pending?)
  }

  lemma DropStrikes(s: State, t: TaskId, raised: set<Failure>)
    requires InFlight(s, t, raised)
    ensures var s' := Apply(s, Drop);
            && Struck(s', t, |s.tasks[t].answers|, s.tasks[t].phase.index, raised) && SameCall(s, s', t)
            && StepsLeft(s'.tasks[t].phase) <= 4
  {
    StepInv(s, Drop);
    DropLeavesNothingPending(s);
    StepTouches(s, Drop);
    assert HeldTables(s, t) && HeldTables(Apply(s, Drop), t);
  }

  lemma DrainingCallIsHistory(s: State, t: TaskId, i: nat)
    requires Draining(s, t, i)
    ensures s.tasks[t].Current().History?
    ensures Enabled(s, IdleOut(t)) <==> s.tasks[t].phase.until <= s.now
  {
    assert HeldTables(s, t);
  }

  /** The call that was struck has ended, goes on, or drains. */
  ghost predicate EndsFast(s: State, t: TaskId, op: Op, i: nat, j: nat, raised: set<Failure>, spent: nat) {
    || Ended(s, t, i, j, raised)
    || (Struck(s, t, i, j, raised) && spent < 4 && (Enabled(s, Resume(t)) || Enabled(s, BeginSend(t))))
    || (&& op.History? && Draining(s, t, i)
        && (Enabled(s, IdleOut(t)) <==> s.tasks[t].phase.until <= s.now))
  }

  lemma StruckCallEndsFast(s: State, steps: seq<Step>, t: TaskId, op: Op, i: nat, j: nat, raised: set<Failure>)
    requires Struck(s, t, i, j, raised) && StepsLeft(s.tasks[t].phase) <= 4
    requires Legal(s, steps) && op == s.tasks[t].Current()
    requires forall step <- steps :: AfterDrop(step, t, op, raised)
    ensures EndsFast(Run(s, steps), t, op, i, j, raised, OwnSteps(steps, t))
  {
    StruckRun(s, steps, t, op, i, j, raised);
    var s' := Run(s, steps);
    if Struck(s', t, i, j, raised) {
      StruckCallCanRun(s', t, i, j, raised);
    } else if Draining(s', t, i) {
      AnswersAreKept(s, steps, t);
      DrainingCallIsHistory(s', t, i);
    }
  }

  /** Fail-fast. Whatever else happens after the drop while the link stays down,
      the call takes at most four more steps of its own and no timer; it is never
      stuck; and it ends as a connection error or the error its own send raised,
      except that a write whose last frame was delivered succeeds. A history read
      that has its frame delivered ends with what it collected, after at most
      one idle window. */
  lemma DropEndsCallsFast(s: State, t: TaskId, raised: set<Failure>, steps: seq<Step>)
    requires InFlight(s, t, raised)
    requires Legal(Apply(s, Drop), steps)
    requires forall step <- steps :: AfterDrop(step, t, s.tasks[t].Current(), raised)
    ensures EndsFast(Run(Apply(s, Drop), steps), t, s.tasks[t].Current(), |s.tasks[t].answers|,
                     s.tasks[t].phase.index, raised, OwnSteps(steps, t))
  {
    DropStrikes(s, t, raised);
    StruckCallEndsFast(Apply(s, Drop), steps, t, s.tasks[t].Current(), |s.tasks[t].answers|,
                       s.tasks[t].phase.index, raised);
  }

  // ---- A delivered write is not undone by a drop ----

  ghost predicate LastFrameDelivered(s: State, t: TaskId) {
    && Inv(s) && s.owner == Some(t) && IsActive(s, t) && s.tasks[t].Current().Write?
    && var p := s.tasks[t].phase;
       p.interruption.Calm? && p.stage.Delivering? && p.send.Done? && p.send.outcome.Delivered?
       && p.index + 1 == s.tasks[t].Current().Length()
  }

  lemma DeliveredWriteResumes(s: State, t: TaskId)
    requires LastFrameDelivered(s, t)
    ensures Enabled(s, Resume(t)) && Apply(s, Resume(t)) == Leave(s, t, Completed)
  {
  }

  lemma DeliveryIsStable(s: State, t: TaskId, step: Step)
    requires LastFrameDelivered(s, t) && Enabled(s, step) && !Touches(step, t)
    ensures LastFrameDelivered(Apply(s, step), t) && Apply(s, step).tasks[t] == s.tasks[t]
  {
    OthersLeaveOwnerAlone(s, step, t);
    StepInv(s, step);
  }

  /** Once the last frame was delivered the write succeeds, whatever lands before
      its task runs again: drops, notifications, reconnects, the clock. */
  lemma {:induction false} DeliveredWriteSucceeds(s: State, t: TaskId, steps: seq<Step>)
    requires LastFrameDelivered(s, t) && Legal(s, steps) && forall step <- steps :: !Touches(step, t)
    ensures var s' := Run(s, steps);
            && Enabled(s', Resume(t)) && IsActive(s', t)
            && Apply(s', Resume(t)) == Leave(s', t, Completed)
            && s'.tasks[t] == s.tasks[t]
    decreases |steps|
  {
    if steps == [] {
      DeliveredWriteResumes(s, t);
    } else {
      DeliveryIsStable(s, t, steps[0]);
      DeliveredWriteSucceeds(Apply(s, steps[0]), t, steps[1..]);
    }
  }

  // ---- A history read ends within one idle window ----

  /** Collecting, with no record or drop since its last turn. */
  ghost predicate Quiet(s: State, t: TaskId, until: nat) {
    && Inv(s) && s.owner == Some(t) && IsActive(s, t) && !s.bulkEvent
    && s.tasks[t].phase.stage.Collecting? && s.tasks[t].phase.until == until
    && s.tasks[t].phase.interruption.Calm?
  }

  predicate Wakes(step: Step) {
    step.Drop? || (step.Notify? && IsHistoryRecord(step.payload))
  }

  lemma {:induction false} QuietRun(s: State, t: TaskId, until: nat, steps: seq<Step>)
    requires Quiet(s, t, until) && Legal(s, steps)
    requires forall step <- steps :: !Touches(step, t) && !Wakes(step)
    ensures Quiet(Run(s, steps), t, until)
    decreases |steps|
  {
    if steps != [] {
      OthersLeaveOwnerAlone(s, steps[0], t);
      StepInv(s, steps[0]);
      QuietRun(Apply(s, steps[0]), t, until, steps[1..]);
    }
  }

  lemma TurnIsQuiet(s: State, t: TaskId)
    requires Inv(s) && s.owner == Some(t) && IsActive(s, t) && s.bulkEvent
    requires s.tasks[t].phase.stage.Collecting? && s.tasks[t].phase.interruption.Calm?
    ensures Enabled(s, Resume(t))
    ensures var s' := Apply(s, Resume(t));
            || s'.owner.None?
            || (IsActive(s', t) && s'.tasks[t].phase.until <= s.now + IDLE_WINDOW
                && Quiet(s', t, s'.tasks[t].phase.until))
  {
    StepInv(s, Resume(t));
  }

  /** Woken and run at once. */
  ghost function Turned(s: State, t: TaskId): State
    requires Resumable(s, t)
  {
    Apply(s, Resume(t))
  }

  lemma WokenEndsWithinIdleWindow(s: State, t: TaskId, steps: seq<Step>)
    requires Inv(s) && s.owner == Some(t) && IsActive(s, t) && s.bulkEvent
    requires s.tasks[t].phase.stage.Collecting? && s.tasks[t].phase.interruption.Calm?
    requires Resumable(s, t) && Legal(Turned(s, t), steps)
    requires forall step <- steps :: !Touches(step, t) && !Wakes(step)
    ensures var s' := Run(Turned(s, t), steps);
            || Turned(s, t).owner.None?
            || (s'.now >= s.now + IDLE_WINDOW ==> Enabled(s', IdleOut(t)))
  {
    TurnIsQuiet(s, t);
    if Turned(s, t).owner.Some? {
      QuietRun(Turned(s, t), t, Turned(s, t).tasks[t].phase.until, steps);
    }
  }

  lemma DropWakesCollecting(s: State, t: TaskId)
    requires Inv(s) && s.owner == Some(t) && IsActive(s, t)
    requires s.tasks[t].phase.stage.Collecting? && s.tasks[t].phase.interruption.Calm?
    ensures var s' := Apply(s, Drop);
            && Inv(s') && s'.owner == Some(t) && IsActive(s', t) && s'.bulkEvent && s'.now == s.now
            && s'.tasks == s.tasks && Resumable(s', t)
  {
    DropInv(s);
  }

  /** A drop wakes a collecting read; it then ends on the spot or, with no more
      records, as soon as one idle window has passed. */
  lemma HistoryEndsWithinIdleWindow(s: State, t: TaskId, steps: seq<Step>)
    requires Inv(s) && s.owner == Some(t) && IsActive(s, t)
    requires s.tasks[t].phase.stage.Collecting? && s.tasks[t].phase.interruption.Calm?
    requires Resumable(Apply(s, Drop), t) ==> Legal(Turned(Apply(s, Drop), t), steps)
    requires forall step <- steps :: !Touches(step, t) && !Wakes(step)
    ensures Resumable(Apply(s, Drop), t)
    ensures var turned := Turned(Apply(s, Drop), t);
            || turned.owner.None?
            || (Run(turned, steps).now >= s.now + 400 ==> Enabled(Run(turned, steps), IdleOut(t)))
  {
    DropWakesCollecting(s, t);
    WokenEndsWithinIdleWindow(Apply(s, Drop), t, steps);
  }
}
