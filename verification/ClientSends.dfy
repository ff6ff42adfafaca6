/** How many sends run inside the transport at once.

    The interface text promises transports never more than one. */
module ClientSends {
  import opened Bytes
  import opened Errors
  import opened Frames
  import opened Client
  import opened ClientInvariant

  /** Sends running inside the transport: the lock holder's, and abandoned ones
      that have not finished unwinding. */
  function SendsInTransport(s: State): nat {
    s.stale + if s.owner.Some? && IsActive(s, s.owner.value) && s.tasks[s.owner.value].phase.send.Open? then 1 else 0
  }

  // ---- When a send is abandoned ----

  /** The task leaves `_deliver` while its send is still open: interrupted in
      `asyncio.wait`, or told by its future that the link is gone. */
  predicate Abandons(s: State, step: Step) {
    && step.Resume? && Resumable(s, step.task)
    && var p := s.tasks[step.task].phase;
       && p.send.Open?
       && (p.interruption.Thrown? || (p.stage.Delivering? && FutureOf(s, step.task).state.Broken?))
  }

  lemma ResumeAbandons(s: State, t: TaskId)
    requires Inv(s) && Resumable(s, t)
    ensures Resumed(s, t).stale == if Abandons(s, Resume(t)) then s.stale + 1 else s.stale
  {
    assert HeldTables(s, t);
    var p := s.tasks[t].phase;
    if p.send.Done? && !p.interruption.Thrown? {
      if p.stage.Collecting? {
        assert WaitForRecords(s, t).stale == s.stale;
      } else if p.stage.AwaitingReply? {
        assert TakeReply(s, t).stale == s.stale;
      } else if p.send.outcome.Delivered? {
        DeliveryAbandonsNothing(s, t);
      }
    }
  }

  lemma DeliveryAbandonsNothing(s: State, t: TaskId)
    requires IsActive(s, t) && s.tasks[t].phase.send.Done?
    ensures AfterDelivery(s, t).stale == s.stale
  {
    match s.tasks[t].Current()
    case Request(_) => assert TakeReply(s, t).stale == s.stale;
    case Write(_) =>
    case History(_) => assert WaitForRecords(StartCollecting(s, t), t).stale == s.stale;
  }

  /** A send joins the abandoned ones exactly when its task leaves it open. */
  lemma AbandonedExactlyWhenLeftOpen(s: State, step: Step)
    requires Inv(s) && Enabled(s, step)
    ensures Apply(s, step).stale
         == if Abandons(s, step) then s.stale + 1 else if step.StaleEnd? then s.stale - 1 else s.stale
  {
    if step.Resume? {
      ResumeAbandons(s, step.task);
    } else if step.IdleOut? {
      CollectorHasSent(s, step.task);
    } else {
      OtherStepsAbandonNothing(s, step);
    }
  }

  lemma CollectorHasSent(s: State, t: TaskId)
    requires Inv(s) && Enabled(s, IdleOut(t))
    ensures s.tasks[t].phase.send.Done?
  {
    assert HeldTables(s, t);
  }

  lemma OtherStepsAbandonNothing(s: State, step: Step)
    requires Enabled(s, step) && !step.Resume? && !step.IdleOut?
    ensures Apply(s, step).stale == if step.StaleEnd? then s.stale - 1 else s.stale
  {
    if step.Interrupt? {
      assert Interrupted(s, step.task, step.why).stale == s.stale;
    } else if step.Notify? {
      assert Notified(s, step.payload).stale == s.stale;
    }
  }

  // ---- What leads to it ----

  /** An interruption, or a drop before the reply, that lands while the lock
      holder waits in `_deliver` and its send is not over. */
  predicate Strikes(s: State, step: Step) {
    && s.owner.Some? && IsActive(s, s.owner.value)
    && var p := s.tasks[s.owner.value].phase;
       && p.stage.Delivering? && !p.send.Done?
       && (|| (step.Interrupt? && step.task == s.owner.value)
           || (step.Drop? && !FutureOf(s, s.owner.value).state.Valued?))
  }

  ghost predicate Unstruck(s: State, steps: seq<Step>)
    requires Legal(s, steps)
    decreases |steps|
  {
    steps == [] || (!Strikes(s, steps[0]) && Unstruck(Apply(s, steps[0]), steps[1..]))
  }

  /** No send is abandoned and the lock holder is not about to abandon its own. */
  ghost predicate Alone(s: State) {
    && s.stale == 0
    && (s.owner.Some? && IsActive(s, s.owner.value) ==>
          var p := s.tasks[s.owner.value].phase;
          !p.send.Done? ==>
            && !p.interruption.Thrown?
            && (p.stage.Delivering? ==> p.interruption.Calm? && !FutureOf(s, s.owner.value).state.Broken?))
  }

  lemma ResumeStaysAlone(s: State, t: TaskId)
    requires Inv(s) && Alone(s) && Resumable(s, t)
    ensures Alone(Resumed(s, t))
  {
    assert HeldTables(s, t);
    ResumeAbandons(s, t);
    var p := s.tasks[t].phase;
    if p.interruption.Thrown? || p.stage.AwaitingReply? || p.stage.Collecting? {
      LeavesOrStays(s, t);
    } else if p.send.Done? && p.send.outcome.Delivered? {
      DeliveryStaysAlone(s, t);
    }
  }

  lemma LeavesOrStays(s: State, t: TaskId)
    requires Inv(s) && Alone(s) && Resumable(s, t) && s.tasks[t].phase.send.Done?
    requires var p := s.tasks[t].phase; p.interruption.Thrown? || p.stage.AwaitingReply? || p.stage.Collecting?
    ensures Alone(Resumed(s, t))
  {
    assert HeldTables(s, t);
    var p := s.tasks[t].phase;
    if p.interruption.Thrown? {
      assert Resumed(s, t).owner.None?;
    } else if p.stage.AwaitingReply? {
      assert TakeReply(s, t).owner.None?;
    } else {
      TurnStaysAlone(s, t);
    }
  }

  lemma TurnStaysAlone(s: State, t: TaskId)
    requires s.stale == 0 && IsActive(s, t) && s.owner == Some(t) && s.tasks[t].phase.send.Done?
    ensures Alone(WaitForRecords(s, t))
  {
  }

  lemma DeliveryStaysAlone(s: State, t: TaskId)
    requires Inv(s) && s.stale == 0 && IsActive(s, t) && s.owner == Some(t) && s.tasks[t].phase.send.Done?
    requires s.tasks[t].phase.stage.Delivering? || s.tasks[t].phase.stage.AwaitingSend?
    ensures Alone(AfterDelivery(s, t))
  {
    assert HeldTables(s, t);
    match s.tasks[t].Current()
    case Request(_) =>
    case Write(_) =>
    case History(_) => TurnStaysAlone(StartCollecting(s, t), t);
  }

  lemma DropStaysAlone(s: State)
    requires Inv(s) && Alone(s) && !Strikes(s, Drop)
    ensures Alone(Apply(s, Drop))
  {
  }

  lemma NotifyStaysAlone(s: State, payload: Bytes)
    requires Inv(s) && Alone(s)
    ensures Alone(Notified(s, payload))
  {
    NotificationReachesOnlyItsWaiter(s, payload);
  }

  lemma InterruptStaysAlone(s: State, t: TaskId, why: Why)
    requires Inv(s) && Alone(s) && IsActive(s, t) && !Strikes(s, Interrupt(t, why))
    ensures Alone(Interrupted(s, t, why))
  {
    assert HeldTables(s, t);
    var s' := Interrupted(s, t, why);
    assert s'.stale == s.stale && s'.owner == s.owner;
    assert s'.tasks[t].phase == s.tasks[t].phase.(interruption := s'.tasks[t].phase.interruption);
  }

  lemma StepStaysAlone(s: State, step: Step)
    requires Inv(s) && Alone(s) && Enabled(s, step) && !Strikes(s, step)
    ensures Alone(Apply(s, step))
  {
    if step.Resume? {
      ResumeStaysAlone(s, step.task);
    } else if step.Interrupt? {
      InterruptStaysAlone(s, step.task, step.why);
    } else if step.Notify? {
      NotifyStaysAlone(s, step.payload);
    } else if step.Drop? {
      DropStaysAlone(s);
    } else if step.Acquire? || step.IdleOut? {
      LockStepStaysAlone(s, step);
    } else {
      QuietStepStaysAlone(s, step);
    }
  }

  lemma LockStepStaysAlone(s: State, step: Step)
    requires Inv(s) && Alone(s) && Enabled(s, step) && (step.Acquire? || step.IdleOut?)
    ensures Alone(Apply(s, step))
  {
    if step.IdleOut? {
      assert HeldTables(s, step.task);
    }
  }

  lemma QuietStepStaysAlone(s: State, step: Step)
    requires Inv(s) && Alone(s) && Enabled(s, step)
    requires !step.Resume? && !step.Interrupt? && !step.Notify? && !step.Drop? && !step.Acquire? && !step.IdleOut?
    ensures Alone(Apply(s, step))
  {
    if step.BeginSend? || step.EndSend? {
      SendStaysAlone(s, step);
    } else {
      OutsiderStaysAlone(s, step);
    }
  }

  lemma SendStaysAlone(s: State, step: Step)
    requires Inv(s) && Alone(s) && Enabled(s, step) && (step.BeginSend? || step.EndSend?)
    ensures Alone(Apply(s, step))
  {
    assert s.owner == Some(step.task);
  }

  lemma OutsiderStaysAlone(s: State, step: Step)
    requires Inv(s) && Alone(s) && Enabled(s, step)
    requires || step.Spawn? || step.Begin? || step.CancelQueued? || step.Connect? || step.Disconnect? || step.StaleEnd?
             || step.Tick?
    ensures Alone(Apply(s, step))
  {
  }

  lemma {:induction false} RunStaysAlone(s: State, steps: seq<Step>)
    requires Inv(s) && Alone(s) && Legal(s, steps) && Unstruck(s, steps)
    ensures Inv(Run(s, steps)) && Alone(Run(s, steps))
    decreases |steps|
  {
    if steps != [] {
      StepInv(s, steps[0]);
      StepStaysAlone(s, steps[0]);
      RunStaysAlone(Apply(s, steps[0]), steps[1..]);
    }
  }

  // ---- Runs that lead to it ----

  function Asks(t: TaskId): seq<Step> {
    [Spawn(t, [Request(PROBE)])] + [Begin(t)] + [Acquire(t)] + [BeginSend(t)]
  }

  lemma OneStep(s: State, before: seq<Step>, step: Step)
    requires Legal(s, before) && Enabled(Run(s, before), step)
    ensures Legal(s, before + [step]) && Run(s, before + [step]) == Apply(Run(s, before), step)
    decreases |before|
  {
    if before != [] {
      OneStep(Apply(s, before[0]), before[1..], step);
      assert (before + [step])[1..] == before[1..] + [step];
    }
  }

  lemma {:induction false} RunsJoin(s: State, a: seq<Step>, b: seq<Step>)
    requires Legal(s, a) && Legal(Run(s, a), b)
    ensures Legal(s, a + b) && Run(s, a + b) == Run(Run(s, a), b)
    decreases |a|, 1
  {
    if a == [] {
      assert a + b == b;
    } else {
      assert a + b == [a[0]] + (a[1..] + b);
      RunsJoinFrom(s, a[0], a[1..], b);
    }
  }

  lemma {:induction false} RunsJoinFrom(s: State, first: Step, a: seq<Step>, b: seq<Step>)
    requires Enabled(s, first) && Legal(Apply(s, first), a) && Legal(Run(Apply(s, first), a), b)
    ensures Legal(s, [first] + (a + b)) && Run(s, [first] + (a + b)) == Run(Run(Apply(s, first), a), b)
    decreases |a|, 2
  {
    RunsJoin(Apply(s, first), a, b);
    RunFirst(s, [first] + (a + b), first, a + b);
  }

  lemma RunFirst(s: State, steps: seq<Step>, first: Step, rest: seq<Step>)
    requires steps == [first] + rest && Enabled(s, first) && Legal(Apply(s, first), rest)
    ensures Legal(s, steps) && Run(s, steps) == Run(Apply(s, first), rest)
  {
    assert steps[0] == first && steps[1..] == rest;
  }

  lemma Queues(s: State, t: TaskId, op: Op)
    requires s.connected && t !in s.tasks && op.WellFormed()
    ensures var steps := [Spawn(t, [op])] + [Begin(t)];
            Legal(s, steps) && Run(s, steps) == s.(tasks := s.tasks[t := Task([op], [], Queued)])
  {
    OneStep(s, [], Spawn(t, [op]));
    assert [] + [Spawn(t, [op])] == [Spawn(t, [op])];
    OneStep(s, [Spawn(t, [op])], Begin(t));
  }

  const PROBE := BuildRead(0x84)

  /** A request has just had its frame handed over. */
  ghost predicate JustSent(s: State, t: TaskId) {
    && s.owner == Some(t) && IsActive(s, t) && s.connected && s.since == s.now
    && s.tasks[t].program == [Request(PROBE)] && s.tasks[t].answers == [] && FutureOf(s, t).state.Pending?
    && s.tasks[t].phase == Active(Delivering, s.tasks[t].phase.future, 0, Open, Calm, s.now + s.timeout, 0)
  }

  lemma TakesLockAndSends(s: State, t: TaskId)
    requires s.owner.None? && s.connected && t in s.tasks && s.tasks[t] == Task([Request(PROBE)], [], Queued)
    ensures Enabled(s, Acquire(t)) && Enabled(Enter(s, t), BeginSend(t))
    ensures var s' := SendBegun(Enter(s, t), t);
            JustSent(s', t) && s'.stale == s.stale && s'.tasks.Keys == s.tasks.Keys && s'.timeout == s.timeout
  {
    assert Enter(s, t).tasks[t].phase == Active(Delivering, |s.futures|, 0, Unstarted, Calm, s.now + s.timeout, 0);
  }

  /** Alone on a free lock, a request gets its send open. */
  lemma AskOpensSend(s: State, t: TaskId)
    requires s.owner.None? && s.connected && t !in s.tasks
    ensures Legal(s, Asks(t))
    ensures var s' := Run(s, Asks(t));
            JustSent(s', t) && s'.stale == s.stale && s'.tasks.Keys == s.tasks.Keys + {t} && s'.timeout == s.timeout
  {
    var op := Request(PROBE);
    var queueing := [Spawn(t, [op])] + [Begin(t)];
    Queues(s, t, op);
    TakesLockAndSends(Run(s, queueing), t);
    OneStep(s, queueing, Acquire(t));
    OneStep(s, queueing + [Acquire(t)], BeginSend(t));
  }

  // ---- Exactly when ----

  /** Struck: the next turn of `t` leaves its send behind. */
  ghost predicate Parting(s: State, t: TaskId) {
    && s.owner == Some(t) && IsActive(s, t) && s.tasks[t].phase.stage.Delivering? && !s.tasks[t].phase.send.Done?
    && !s.tasks[t].phase.interruption.Asked?
    && (s.tasks[t].phase.interruption.Thrown? || FutureOf(s, t).state.Broken?)
  }

  lemma StrikeParts(s: State, step: Step)
    requires Inv(s) && Alone(s) && Enabled(s, step) && Strikes(s, step)
    ensures Parting(Apply(s, step), s.owner.value) && Apply(s, step).tasks.Keys == s.tasks.Keys
  {
    var t := s.owner.value;
    assert HeldTables(s, t);
    if step.Drop? {
      StrikingDrop(s, t);
    }
  }

  lemma StrikingDrop(s: State, t: TaskId)
    requires Inv(s) && Alone(s) && s.owner == Some(t) && IsActive(s, t) && Strikes(s, Drop)
    ensures Parting(Apply(s, Drop), t)
  {
    assert HeldTables(s, t);
    var f := s.tasks[t].phase.future;
    if s.tasks[t].Current().Request? && s.futures[f].state.Pending? {
      assert s.waiters[s.futures[f].frame[2]].future == f;
      assert IsWaiting(s, f);
    }
  }

  /** The link comes back, the send gets going if it had not, and its task
      leaves it behind. */
  function Leaves(s: State, t: TaskId): seq<Step>
    requires IsActive(s, t)
  {
    [Connect] + (if s.tasks[t].phase.send.Unstarted? then [BeginSend(t)] else []) + [Resume(t)]
  }

  lemma PartingLeaves(s: State, t: TaskId)
    requires Parting(s, t)
    ensures Legal(s, Leaves(s, t))
    ensures var s' := Run(s, Leaves(s, t));
            s'.owner.None? && s'.connected && s'.stale == s.stale + 1 && s'.tasks.Keys == s.tasks.Keys
  {
    OneStep(s, [], Connect);
    assert [] + [Connect] == [Connect];
    var linked := s.(connected := true);
    assert Run(s, [Connect]) == linked && Parting(linked, t);
    if s.tasks[t].phase.send.Unstarted? {
      PartingOpens(linked, t);
      OneStep(s, [Connect], BeginSend(t));
      PartingGoes(SendBegun(linked, t), t);
      OneStep(s, [Connect] + [BeginSend(t)], Resume(t));
    } else {
      PartingGoes(linked, t);
      OneStep(s, [Connect], Resume(t));
      assert [Connect] + [] + [Resume(t)] == [Connect] + [Resume(t)];
    }
  }

  lemma PartingOpens(s: State, t: TaskId)
    requires Parting(s, t) && s.connected && s.tasks[t].phase.send.Unstarted?
    ensures Enabled(s, BeginSend(t))
    ensures var s' := SendBegun(s, t);
            && Parting(s', t) && s'.connected && s'.tasks[t].phase.send.Open? && s'.stale == s.stale
            && s'.tasks.Keys == s.tasks.Keys
  {
    assert SendBegun(s, t).futures == s.futures && SendBegun(s, t).owner == s.owner;
  }

  lemma PartingGoes(s: State, t: TaskId)
    requires Parting(s, t) && s.connected && s.tasks[t].phase.send.Open?
    ensures Enabled(s, Resume(t))
    ensures var s' := Resumed(s, t);
            s'.owner.None? && s'.connected && s'.stale == s.stale + 1 && s'.tasks.Keys == s.tasks.Keys
  {
  }

  predicate Peaceful(steps: seq<Step>) {
    forall step <- steps :: !step.Interrupt? && !step.Drop?
  }

  lemma {:induction false} PeaceDoesNotStrike(s: State, steps: seq<Step>)
    requires Legal(s, steps) && Peaceful(steps)
    ensures Unstruck(s, steps)
    decreases |steps|
  {
    if steps != [] {
      PeaceDoesNotStrike(Apply(s, steps[0]), steps[1..]);
    }
  }

  lemma AskingIsPeaceful(s: State, t: TaskId, u: TaskId)
    requires IsActive(s, t)
    ensures Peaceful(Leaves(s, t) + Asks(u)) && Peaceful([Connect] + Asks(u))
  {
  }

  /** A call that leaves its send behind is followed by the next caller's send. */
  lemma PartingOverlaps(s: State, t: TaskId, u: TaskId)
    requires Parting(s, t) && u !in s.tasks
    ensures Legal(s, Leaves(s, t) + Asks(u))
    ensures SendsInTransport(Run(s, Leaves(s, t) + Asks(u))) == s.stale + 2
  {
    PartingLeaves(s, t);
    AskOpensSend(Run(s, Leaves(s, t)), u);
    RunsJoin(s, Leaves(s, t), Asks(u));
  }

  lemma StrikeIsFollowedByOverlap(s: State, step: Step, u: TaskId)
    requires Inv(s) && Alone(s) && Enabled(s, step) && Strikes(s, step) && u !in s.tasks
    ensures exists more :: Legal(Apply(s, step), more) && Unstruck(Apply(s, step), more)
                           && SendsInTransport(Run(Apply(s, step), more)) > 1
  {
    StrikeParts(s, step);
    PartingOverlaps(Apply(s, step), s.owner.value, u);
    AskingIsPeaceful(Apply(s, step), s.owner.value, u);
    PeaceDoesNotStrike(Apply(s, step), Leaves(Apply(s, step), s.owner.value) + Asks(u));
  }

  lemma AloneSendsSingly(s: State)
    requires Alone(s)
    ensures SendsInTransport(s) <= 1
  {
  }

  /** Whatever happens, the transport sees one send at a time until the first
      strike: an interruption, or a drop before the reply, that lands while the
      lock holder is in `_deliver` with its send not over. And any such strike
      may be followed by two sends at once. */
  lemma SendsOverlapExactlyAfterStrike(timeout: nat, before: seq<Step>, step: Step, u: TaskId)
    requires Legal(Init(timeout), before) && Unstruck(Init(timeout), before)
    requires Enabled(Run(Init(timeout), before), step) && u !in Run(Init(timeout), before).tasks
    ensures var s := Run(Init(timeout), before);
            && SendsInTransport(s) <= 1
            && (Strikes(s, step) <==>
                  exists more :: Legal(Apply(s, step), more) && Unstruck(Apply(s, step), more)
                                 && SendsInTransport(Run(Apply(s, step), more)) > 1)
  {
    InitInv(timeout);
    RunStaysAlone(Init(timeout), before);
    var s := Run(Init(timeout), before);
    AloneSendsSingly(s);
    if Strikes(s, step) {
      StrikeIsFollowedByOverlap(s, step, u);
    } else {
      StepInv(s, step);
      StepStaysAlone(s, step);
      forall more | Legal(Apply(s, step), more) && Unstruck(Apply(s, step), more)
        ensures SendsInTransport(Run(Apply(s, step), more)) <= 1
      {
        RunStaysAlone(Apply(s, step), more);
        AloneSendsSingly(Run(Apply(s, step), more));
      }
    }
  }

  /** A request on a fresh client, with its send open. */
  lemma FirstRequest(timeout: nat)
    ensures Legal(Init(timeout), [Connect] + Asks(0))
    ensures var s := Run(Init(timeout), [Connect] + Asks(0));
            JustSent(s, 0) && s.tasks.Keys == {0} && s.timeout == timeout
  {
    var s0 := Init(timeout);
    OneStep(s0, [], Connect);
    assert [] + [Connect] == [Connect];
    AskOpensSend(Run(s0, [Connect]), 0);
    RunsJoin(s0, [Connect], Asks(0));
  }

  /** And it does happen: a cancelled request is followed by another while the
      transport is still unwinding the first send. */
  lemma SendsCanOverlap(timeout: nat)
    ensures exists steps :: Legal(Init(timeout), steps) && SendsInTransport(Run(Init(timeout), steps)) > 1
  {
    var asked, strike := [Connect] + Asks(0), Interrupt(0, External);
    FirstRequest(timeout);
    var s := Run(Init(timeout), asked);
    assert Enabled(s, strike);
    OneStep(Init(timeout), asked, strike);
    var struck := Apply(s, strike);
    assert Parting(struck, 0) && 1 !in struck.tasks;
    PartingOverlaps(struck, 0, 1);
    RunsJoin(Init(timeout), asked + [strike], Leaves(struck, 0) + Asks(1));
    assert Legal(Init(timeout), asked + [strike] + (Leaves(struck, 0) + Asks(1)));
  }
}
