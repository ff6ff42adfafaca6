/** How long one call may hold the lock. */
module ClientTiming {
  import opened Errors
  import opened Client
  import opened ClientInvariant
  import opened ClientDrop
  import opened ClientSends

  /** The timer the lock holder has set. */
  function Alarm(p: Phase): nat
    requires p.Active?
  {
    if p.stage.Collecting? then p.until else p.deadline
  }

  /** Interrupted while awaiting its send, which was cancelled and has to unwind:
      the one wait without a timer. */
  predicate Unwinding(p: Phase) {
    p.Active? && p.stage.AwaitingSend? && !p.interruption.Calm?
  }

  /** Zero scheduling latency: time passes only while the lock holder has nothing
      to do, and up to its timer, if it has one. */
  ghost predicate Punctual(s: State, step: Step) {
    step.Tick? && step.delta > 0 && s.owner.Some? && IsActive(s, s.owner.value) ==>
      var p := s.tasks[s.owner.value].phase;
      && !Resumable(s, s.owner.value)
      && (s.now + step.delta <= Alarm(p) || Unwinding(p))
  }

  ghost predicate PunctualRun(s: State, steps: seq<Step>)
    requires Legal(s, steps)
    decreases |steps|
  {
    steps == [] || (Punctual(s, steps[0]) && PunctualRun(Apply(s, steps[0]), steps[1..]))
  }

  function Times(n: nat, timeout: nat): nat {
    n * timeout
  }

  /** One deadline per frame; a history read also gets one for collecting. */
  function HoldLimit(op: Op, timeout: nat): nat {
    match op
    case Request(_) => timeout
    case Write(frames) => Times(|frames|, timeout)
    case History(_) => 2 * timeout
  }

  ghost predicate PhaseInTime(s: State, k: Task) {
    k.phase.Active? && k.Busy() ==>
      var p := k.phase;
      && s.since <= s.now && Alarm(p) <= p.deadline && (s.now <= Alarm(p) || Unwinding(p))
      && match k.Current()
         case Request(_) => p.deadline <= s.since + s.timeout
         case Write(_) => p.deadline <= s.since + Times(p.index + 1, s.timeout)
         case History(_) => p.deadline <= s.since + if p.stage.Collecting? then 2 * s.timeout else s.timeout
  }

  ghost predicate InTime(s: State) {
    s.owner.Some? && s.owner.value in s.tasks ==> PhaseInTime(s, s.tasks[s.owner.value])
  }

  lemma TimesGrows(n: nat, m: nat, timeout: nat)
    requires n <= m
    ensures Times(n, timeout) <= Times(m, timeout) && Times(n + 1, timeout) == Times(n, timeout) + timeout
  {
    assert Times(m, timeout) == Times(n, timeout) + (m - n) * timeout;
  }

  lemma AcquireInTime(s: State, t: TaskId)
    requires Inv(s) && Enabled(s, Acquire(t))
    ensures InTime(Enter(s, t))
  {
    TimesGrows(0, 1, s.timeout);
  }

  lemma TurnInTime(s: State, t: TaskId)
    requires IsActive(s, t) && s.owner == Some(t) && s.tasks[t].phase.stage.Collecting?
    requires s.tasks[t].Current().History?
    requires s.since <= s.now && s.tasks[t].phase.deadline <= s.since + 2 * s.timeout
    ensures InTime(WaitForRecords(s, t))
  {
  }

  lemma WriteInTime(s: State, t: TaskId)
    requires InTime(s) && s.owner == Some(t) && IsActive(s, t) && s.tasks[t].Current().Write?
    requires s.tasks[t].phase.stage.Delivering?
    ensures InTime(AfterDelivery(s, t))
  {
    var p := s.tasks[t].phase;
    TimesGrows(p.index + 1, p.index + 2, s.timeout);
  }

  lemma DeliveryInTime(s: State, t: TaskId)
    requires Inv(s) && InTime(s) && s.owner == Some(t) && IsActive(s, t)
    requires s.tasks[t].phase.stage.Delivering? || s.tasks[t].phase.stage.AwaitingSend?
    ensures InTime(AfterDelivery(s, t))
  {
    var p := s.tasks[t].phase;
    assert HeldTables(s, t);
    match s.tasks[t].Current()
    case Request(_) =>
    case Write(frames) =>
      WriteInTime(s, t);
    case History(_) => TurnInTime(StartCollecting(s, t), t);
  }

  lemma ResumeInTime(s: State, t: TaskId)
    requires Inv(s) && InTime(s) && Resumable(s, t)
    ensures InTime(Resumed(s, t))
  {
    assert HeldTables(s, t);
    var p := s.tasks[t].phase;
    if p.interruption.Thrown? {
    } else if p.stage.Collecting? {
      TurnInTime(s, t);
    } else if p.send.Done? && p.send.outcome.Delivered? && !p.stage.AwaitingReply? {
      DeliveryInTime(s, t);
    }
  }

  lemma StepInTime(s: State, step: Step)
    requires Inv(s) && InTime(s) && Enabled(s, step) && Punctual(s, step)
    ensures InTime(Apply(s, step))
  {
    if step.Resume? {
      ResumeInTime(s, step.task);
    } else if step.Acquire? {
      AcquireInTime(s, step.task);
    } else if s.owner.None? {
      IdleLock(s, step);
    } else if !Touches(step, s.owner.value) {
      UntouchedInTime(s, step);
    } else if step.IdleOut? {
    } else {
      TouchedInTime(s, step);
    }
  }

  lemma IdleLock(s: State, step: Step)
    requires Inv(s) && Enabled(s, step) && s.owner.None? && !step.Acquire?
    ensures Apply(s, step).owner.None?
  {
  }

  lemma UntouchedInTime(s: State, step: Step)
    requires Inv(s) && InTime(s) && Enabled(s, step) && Punctual(s, step)
    requires s.owner.Some? && !Touches(step, s.owner.value)
    ensures InTime(Apply(s, step))
  {
    OthersLeaveOwnerAlone(s, step, s.owner.value);
    StepTouches(s, step);
  }

  lemma TouchedInTime(s: State, step: Step)
    requires Inv(s) && InTime(s) && Enabled(s, step) && s.owner.Some?
    requires Touches(step, s.owner.value) && !step.Resume? && !step.IdleOut?
    ensures InTime(Apply(s, step))
  {
    if step.Interrupt? {
      StepTouches(s, step);
      InterruptMarks(s, step.task, step.why);
    } else {
      SendKeepsTimers(s, step);
    }
  }

  lemma SendKeepsTimers(s: State, step: Step)
    requires Enabled(s, step) && (step.BeginSend? || step.EndSend?) && InTime(s) && s.owner == Some(step.task)
    ensures InTime(Apply(s, step))
  {
    var s' := Apply(s, step);
    assert s'.owner == s.owner && s'.now == s.now && s'.since == s.since && s'.timeout == s.timeout;
    assert s'.tasks[step.task] == s.tasks[step.task].(
        phase := s.tasks[step.task].phase.(send := s'.tasks[step.task].phase.send));
  }

  lemma {:induction false} RunInTime(s: State, steps: seq<Step>)
    requires Inv(s) && InTime(s) && Legal(s, steps) && PunctualRun(s, steps)
    ensures Inv(Run(s, steps)) && InTime(Run(s, steps)) && Run(s, steps).timeout == s.timeout
    decreases |steps|
  {
    if steps != [] {
      StepInv(s, steps[0]);
      StepInTime(s, steps[0]);
      StepTouches(s, steps[0]);
      RunInTime(Apply(s, steps[0]), steps[1..]);
    }
  }

  /** With timeout T and no scheduling latency a request holds the lock for at
      most T, delivery and reply together; a write of n frames for at most n T;
      a history read for at most 2 T. The one exception is a request with its
      reply in hand that was interrupted and waits for its send to unwind. */
  lemma LockHoldIsBounded(timeout: nat, steps: seq<Step>)
    requires Legal(Init(timeout), steps) && PunctualRun(Init(timeout), steps)
    ensures var s := Run(Init(timeout), steps);
            s.owner.Some? ==>
              && IsActive(s, s.owner.value)
              && var k := s.tasks[s.owner.value];
                 || s.now - s.since <= HoldLimit(k.Current(), timeout)
                 || (&& k.Current().Request? && FutureOf(s, s.owner.value).state.Valued?
                     && k.phase.stage.AwaitingSend? && !k.phase.interruption.Calm?)
  {
    InitInv(timeout);
    RunInTime(Init(timeout), steps);
    var s := Run(Init(timeout), steps);
    if s.owner.Some? {
      var k := s.tasks[s.owner.value];
      assert HeldTables(s, s.owner.value);
      if k.Current().Write? {
        TimesGrows(k.phase.index + 1, k.Current().Length(), s.timeout);
      }
    }
  }

  /** Such runs are never stuck: when time may not pass, something can happen
      that needs no time. */
  lemma TimeIsNeverLocked(s: State)
    requires Inv(s) && !Punctual(s, Tick(1))
    ensures s.owner.Some?
    ensures var t := s.owner.value;
            Enabled(s, Resume(t)) || Enabled(s, Interrupt(t, Deadline)) || Enabled(s, IdleOut(t))
  {
    assert HeldTables(s, s.owner.value);
  }

  // ---- Deadlines are not early either ----

  /** The lock holder's deadline leaves it at least its whole timeout. */
  ghost predicate Fair(s: State) {
    s.owner.Some? && s.owner.value in s.tasks && s.tasks[s.owner.value].phase.Active? ==>
      s.since <= s.now && s.tasks[s.owner.value].phase.deadline >= s.since + s.timeout
  }

  lemma FairResume(s: State, t: TaskId)
    requires Inv(s) && Fair(s) && Resumable(s, t)
    ensures Fair(Resumed(s, t))
  {
    assert HeldTables(s, t);
    var p := s.tasks[t].phase;
    if !p.interruption.Thrown? && !p.stage.Collecting? && p.send.Done? && p.send.outcome.Delivered? {
      FairDelivery(s, t);
    }
  }

  lemma FairDelivery(s: State, t: TaskId)
    requires Fair(s) && s.owner == Some(t) && IsActive(s, t)
    ensures Fair(AfterDelivery(s, t))
  {
    match s.tasks[t].Current()
    case Request(_) =>
    case Write(_) =>
    case History(_) => assert Fair(WaitForRecords(StartCollecting(s, t), t));
  }

  lemma FairStep(s: State, step: Step)
    requires Inv(s) && Fair(s) && Enabled(s, step)
    ensures Fair(Apply(s, step))
  {
    if step.Resume? {
      FairResume(s, step.task);
    } else if step.Acquire? {
      FairAcquire(s, step.task);
    } else if s.owner.None? {
      IdleLock(s, step);
    } else if !Touches(step, s.owner.value) {
      FairOthers(s, step);
    } else {
      FairOwner(s, step);
    }
  }

  lemma FairOthers(s: State, step: Step)
    requires Inv(s) && Fair(s) && Enabled(s, step) && s.owner.Some? && !Touches(step, s.owner.value)
    ensures Fair(Apply(s, step))
  {
    StepTouches(s, step);
    OthersLeaveOwnerAlone(s, step, s.owner.value);
  }

  lemma FairOwner(s: State, step: Step)
    requires Fair(s) && Enabled(s, step) && s.owner.Some? && Touches(step, s.owner.value) && !step.Resume?
    ensures Fair(Apply(s, step))
  {
    if step.Interrupt? {
      StepTouches(s, step);
      InterruptMarks(s, step.task, step.why);
    } else if !step.IdleOut? {
      FairSend(s, step);
    }
  }

  lemma FairAcquire(s: State, t: TaskId)
    requires Enabled(s, Acquire(t))
    ensures Fair(Enter(s, t))
  {
  }

  lemma FairSend(s: State, step: Step)
    requires Fair(s) && Enabled(s, step) && (step.BeginSend? || step.EndSend?) && s.owner == Some(step.task)
    ensures Fair(Apply(s, step))
  {
    SendKeepsPlace(s, step);
    StepTouches(s, step);
    assert Apply(s, step).owner == s.owner;
  }

  lemma {:induction false} RunIsFair(s: State, steps: seq<Step>)
    requires Inv(s) && Fair(s) && Legal(s, steps)
    ensures Inv(Run(s, steps)) && Fair(Run(s, steps)) && Run(s, steps).timeout == s.timeout
    decreases |steps|
  {
    if steps != [] {
      StepInv(s, steps[0]);
      StepTouches(s, steps[0]);
      FairStep(s, steps[0]);
      RunIsFair(Apply(s, steps[0]), steps[1..]);
    }
  }

  /** In no run does a deadline interrupt a call before it has held the lock for
      the whole timeout. */
  lemma DeadlinesAreNotEarly(timeout: nat, steps: seq<Step>, t: TaskId)
    requires Legal(Init(timeout), steps) && Enabled(Run(Init(timeout), steps), Interrupt(t, Deadline))
    ensures var s := Run(Init(timeout), steps);
            s.owner == Some(t) && s.now >= s.since + timeout && !s.tasks[t].phase.stage.Collecting?
  {
    InitInv(timeout);
    RunIsFair(Init(timeout), steps);
  }

  // ---- When the bound fails ----

  /** The lock holder, if there is one, is within its bound. */
  ghost predicate WithinLimit(s: State) {
    s.owner.Some? ==>
      IsActive(s, s.owner.value) && s.now - s.since <= HoldLimit(s.tasks[s.owner.value].Current(), s.timeout)
  }

  /** An interruption that lands while the lock holder, its reply in hand, awaits
      a send that is not over. */
  predicate Snags(s: State, step: Step) {
    && s.owner.Some? && IsActive(s, s.owner.value) && step.Interrupt? && step.task == s.owner.value
    && s.tasks[step.task].phase.stage.AwaitingSend? && !s.tasks[step.task].phase.send.Done?
  }

  ghost predicate Unsnagged(s: State, steps: seq<Step>)
    requires Legal(s, steps)
    decreases |steps|
  {
    steps == [] || (!Snags(s, steps[0]) && Unsnagged(Apply(s, steps[0]), steps[1..]))
  }

  /** The lock holder is not waiting for a cancelled send. */
  ghost predicate Tidy(s: State) {
    s.owner.Some? && IsActive(s, s.owner.value) ==>
      var p := s.tasks[s.owner.value].phase;
      && (p.stage.Delivering? ==> !p.interruption.Asked?)
      && (Unwinding(p) ==> p.send.Done? && s.now <= p.deadline)
  }

  lemma TidyStep(s: State, step: Step)
    requires Inv(s) && InTime(s) && Tidy(s) && Enabled(s, step) && Punctual(s, step) && !Snags(s, step)
    ensures Tidy(Apply(s, step))
  {
    if step.Resume? {
      TidyResume(s, step.task);
    } else if step.Acquire? {
      TidyAcquire(s, step.task);
    } else if s.owner.None? {
      IdleLock(s, step);
    } else if !Touches(step, s.owner.value) {
      TidyOthers(s, step);
    } else {
      TidyOwner(s, step);
    }
  }

  lemma TidyAcquire(s: State, t: TaskId)
    requires Enabled(s, Acquire(t))
    ensures Tidy(Enter(s, t))
  {
  }

  lemma TidyResume(s: State, t: TaskId)
    requires Inv(s) && Tidy(s) && Resumable(s, t)
    ensures Tidy(Resumed(s, t))
  {
    assert HeldTables(s, t);
    var p := s.tasks[t].phase;
    if !p.interruption.Thrown? && p.send.Done? && p.send.outcome.Delivered?
       && (p.stage.Delivering? || p.stage.AwaitingSend?) {
      TidyDelivery(s, t);
    }
  }

  lemma TidyDelivery(s: State, t: TaskId)
    requires Inv(s) && s.owner == Some(t) && IsActive(s, t) && s.tasks[t].phase.send.Done?
    ensures Tidy(AfterDelivery(s, t))
  {
    match s.tasks[t].Current()
    case Request(_) =>
    case Write(_) =>
    case History(_) => assert Tidy(WaitForRecords(StartCollecting(s, t), t));
  }

  lemma TidyOthers(s: State, step: Step)
    requires Inv(s) && Tidy(s) && Enabled(s, step) && Punctual(s, step)
    requires s.owner.Some? && !Touches(step, s.owner.value)
    ensures Tidy(Apply(s, step))
  {
    OthersLeaveOwnerAlone(s, step, s.owner.value);
    StepTouches(s, step);
  }

  lemma TidyOwner(s: State, step: Step)
    requires Inv(s) && InTime(s) && Tidy(s) && Enabled(s, step) && !Snags(s, step)
    requires s.owner.Some? && Touches(step, s.owner.value) && !step.Resume?
    ensures Tidy(Apply(s, step))
  {
    StepTouches(s, step);
    if step.Interrupt? {
      InterruptMarks(s, step.task, step.why);
    } else if !step.IdleOut? {
      TidySend(s, step);
    }
  }

  lemma TidySend(s: State, step: Step)
    requires Tidy(s) && Enabled(s, step) && (step.BeginSend? || step.EndSend?) && s.owner == Some(step.task)
    ensures Tidy(Apply(s, step))
  {
    SendKeepsPlace(s, step);
    StepTouches(s, step);
    assert Apply(s, step).owner == s.owner;
  }

  lemma SendKeepsPlace(s: State, step: Step)
    requires Enabled(s, step) && (step.BeginSend? || step.EndSend?)
    ensures var (k, k') := (s.tasks[step.task], Apply(s, step).tasks[step.task]);
            k'.phase.Active? && k'.phase == k.phase.(send := k'.phase.send)
            && (k.phase.send.Done? ==> k' == k)
  {
  }

  lemma {:induction false} TidyRun(s: State, steps: seq<Step>)
    requires Inv(s) && InTime(s) && Tidy(s) && Legal(s, steps) && PunctualRun(s, steps) && Unsnagged(s, steps)
    ensures var s' := Run(s, steps); Inv(s') && InTime(s') && Tidy(s')
    decreases |steps|
  {
    if steps != [] {
      StepInv(s, steps[0]);
      StepInTime(s, steps[0]);
      TidyStep(s, steps[0]);
      TidyRun(Apply(s, steps[0]), steps[1..]);
    }
  }

  lemma TidyIsWithinLimit(s: State)
    requires Inv(s) && InTime(s) && Tidy(s)
    ensures WithinLimit(s)
  {
    if s.owner.Some? {
      var k := s.tasks[s.owner.value];
      assert HeldTables(s, s.owner.value);
      if k.Current().Write? {
        TimesGrows(k.phase.index + 1, k.Current().Length(), s.timeout);
      }
    }
  }

  /** After a snag time may pass without bound and the lock stays held. */
  lemma SnagHoldsLock(s: State, step: Step, n: nat)
    requires Inv(s) && Enabled(s, step) && Snags(s, step)
    ensures var snagged := Apply(s, step);
            && Legal(snagged, [Tick(n)]) && PunctualRun(snagged, [Tick(n)]) && Unsnagged(snagged, [Tick(n)])
            && var s' := Run(snagged, [Tick(n)]);
               && s'.owner == s.owner && IsActive(s', s.owner.value) && s'.tasks[s.owner.value].Current().Request?
               && s'.now == s.now + n && s'.since == s.since && s'.timeout == s.timeout
  {
    assert HeldTables(s, s.owner.value);
    InterruptMarks(s, step.task, step.why);
    StepTouches(s, step);
    var snagged := Apply(s, step);
    assert !Resumable(snagged, s.owner.value);
    assert Apply(snagged, Tick(n)) == snagged.(now := snagged.now + n);
    assert [Tick(n)][1..] == [];
  }

  /** With no scheduling latency the bounds are kept until an interruption, be it
      its deadline, lands while a request with its reply in hand awaits a send
      that is not over; and any such interruption may be followed by a hold past
      the limit. */
  lemma LockHoldIsBoundedExactlyUntilSnag(timeout: nat, before: seq<Step>, step: Step)
    requires Legal(Init(timeout), before) && PunctualRun(Init(timeout), before) && Unsnagged(Init(timeout), before)
    requires Enabled(Run(Init(timeout), before), step) && Punctual(Run(Init(timeout), before), step)
    ensures var s := Run(Init(timeout), before);
            && WithinLimit(s)
            && (Snags(s, step) <==>
                  exists more :: Legal(Apply(s, step), more) && PunctualRun(Apply(s, step), more)
                                 && Unsnagged(Apply(s, step), more) && !WithinLimit(Run(Apply(s, step), more)))
  {
    InitInv(timeout);
    TidyRun(Init(timeout), before);
    var s := Run(Init(timeout), before);
    TidyIsWithinLimit(s);
    if Snags(s, step) {
      SnagHoldsLock(s, step, s.timeout + 1);
      SnaggedIsPastLimit(s, step);
    } else {
      StepInv(s, step);
      StepInTime(s, step);
      TidyStep(s, step);
      forall more | Legal(Apply(s, step), more) && PunctualRun(Apply(s, step), more) && Unsnagged(Apply(s, step), more)
        ensures WithinLimit(Run(Apply(s, step), more))
      {
        TidyRun(Apply(s, step), more);
        TidyIsWithinLimit(Run(Apply(s, step), more));
      }
    }
  }

  lemma SnaggedIsPastLimit(s: State, step: Step)
    requires Inv(s) && InTime(s) && Enabled(s, step) && Snags(s, step)
    requires Legal(Apply(s, step), [Tick(s.timeout + 1)])
    ensures !WithinLimit(Run(Apply(s, step), [Tick(s.timeout + 1)]))
  {
    SnagHoldsLock(s, step, s.timeout + 1);
    assert s.since <= s.now;
  }

  // ---- And it does fail ----

  /** A punctual run without a snag, so far, from `s` to `s'`. */
  ghost predicate Leads(s: State, steps: seq<Step>, s': State) {
    Legal(s, steps) && PunctualRun(s, steps) && Unsnagged(s, steps) && Run(s, steps) == s'
  }

  lemma {:induction false} LeadsOn(s: State, steps: seq<Step>, mid: State, step: Step)
    requires Leads(s, steps, mid) && Enabled(mid, step) && Punctual(mid, step) && !Snags(mid, step)
    ensures Leads(s, steps + [step], Apply(mid, step))
    decreases |steps|
  {
    if steps != [] {
      LeadsOn(Apply(s, steps[0]), steps[1..], mid, step);
      assert (steps + [step])[0] == steps[0] && (steps + [step])[1..] == steps[1..] + [step];
    }
  }

  lemma {:induction false} LeadsJoin(s: State, a: seq<Step>, mid: State, b: seq<Step>, after: State)
    requires Leads(s, a, mid) && Leads(mid, b, after)
    ensures Leads(s, a + b, after)
    decreases |b|
  {
    if b == [] {
      assert a + b == a;
    } else {
      LeadsOn(s, a, mid, b[0]);
      assert (a + [b[0]]) + b[1..] == a + b;
      LeadsJoin(s, a + [b[0]], Apply(mid, b[0]), b[1..], after);
    }
  }

  lemma LeadsOne(s: State, step: Step)
    requires Enabled(s, step) && Punctual(s, step) && !Snags(s, step)
    ensures Leads(s, [step], Apply(s, step))
  {
    assert [step][1..] == [];
  }

  lemma {:induction false} QuietLeads(s: State, steps: seq<Step>)
    requires Legal(s, steps) && forall step <- steps :: !step.Tick? && !step.Interrupt?
    ensures Leads(s, steps, Run(s, steps))
    decreases |steps|
  {
    if steps != [] {
      QuietLeads(Apply(s, steps[0]), steps[1..]);
    }
  }

  lemma SendsAtOnce(timeout: nat) returns (steps: seq<Step>, s: State)
    ensures Leads(Init(timeout), steps, s) && forall step <- steps :: !step.Interrupt?
    ensures Inv(s) && JustSent(s, 0) && s.timeout == timeout
  {
    steps := [Connect] + Asks(0);
    FirstRequest(timeout);
    InitInv(timeout);
    RunInv(Init(timeout), steps);
    QuietLeads(Init(timeout), steps);
    s := Run(Init(timeout), steps);
  }

  /** The request's reply arrives while its send is open, ... */
  lemma HearsEarly(s: State) returns (steps: seq<Step>, s': State)
    requires Inv(s) && JustSent(s, 0)
    ensures Leads(s, steps, s') && Inv(s') && forall step <- steps :: !step.Interrupt?
    ensures s'.owner == Some(0) && IsActive(s', 0) && s'.tasks == s.tasks && FutureOf(s', 0).state.Valued?
    ensures s'.now == s.now && s'.since == s.since && s'.timeout == s.timeout
  {
    NotificationReachesOnlyItsWaiter(s, PROBE);
    StepTouches(s, Notify(PROBE));
    assert HeldTables(s, 0);
    NotifiedInv(s, PROBE);
    LeadsOne(s, Notify(PROBE));
    steps, s' := [Notify(PROBE)], Notified(s, PROBE);
  }

  /** In its request, with the reply in hand and the send open. */
  ghost predicate AwaitsOpenSend(s: State) {
    && Inv(s) && s.owner == Some(0) && IsActive(s, 0)
    && s.tasks[0].phase == Active(AwaitingSend, s.tasks[0].phase.future, 0, Open, Calm, s.since + s.timeout, 0)
  }

  /** ... it goes on to await its send, ... */
  lemma AwaitsSend(s: State) returns (steps: seq<Step>, s': State)
    requires Inv(s) && s.owner == Some(0) && IsActive(s, 0) && FutureOf(s, 0).state.Valued?
    requires s.tasks[0].phase == Active(Delivering, s.tasks[0].phase.future, 0, Open, Calm, s.since + s.timeout, 0)
    ensures Leads(s, steps, s') && forall step <- steps :: !step.Interrupt?
    ensures AwaitsOpenSend(s') && s'.now == s.now && s'.since == s.since && s'.timeout == s.timeout
  {
    ResumedInv(s, 0);
    LeadsOne(s, Resume(0));
    steps, s' := [Resume(0)], Resumed(s, 0);
    assert s' == SetPhase(s, 0, s.tasks[0].phase.(stage := AwaitingSend));
  }

  /** ... and its deadline comes. */
  lemma DeadlineComes(s: State) returns (steps: seq<Step>, s': State)
    requires AwaitsOpenSend(s) && s.now == s.since
    ensures Leads(s, steps, s') && forall step <- steps :: !step.Interrupt?
    ensures AwaitsOpenSend(s') && s'.now == s'.since + s'.timeout && s'.timeout == s.timeout
  {
    s' := s.(now := s.now + s.timeout);
    LinkAndClockInv(s, s');
    assert HeldTables(s, 0);
    LeadsOne(s, Tick(s.timeout));
    steps := [Tick(s.timeout)];
  }

  lemma ReachesSnag(timeout: nat) returns (steps: seq<Step>, s: State)
    ensures Leads(Init(timeout), steps, s) && forall step <- steps :: !step.Interrupt?
    ensures AwaitsOpenSend(s) && s.now == s.since + timeout && s.timeout == timeout
  {
    var send, sent := SendsAtOnce(timeout);
    var hear, heard := HearsEarly(sent);
    LeadsJoin(Init(timeout), send, sent, hear, heard);
    var await, awaiting := AwaitsSend(heard);
    LeadsJoin(Init(timeout), send + hear, heard, await, awaiting);
    var tick, late := DeadlineComes(awaiting);
    LeadsJoin(Init(timeout), send + hear + await, awaiting, tick, late);
    steps, s := send + hear + await + tick, late;
  }

  /** From a fresh client, with nobody cancelling anything: a request has its
      reply at once, its transport holds the send open, its deadline comes, and
      the lock stays held for as long again as the transport takes to let go. */
  lemma LockCanBeHeldTooLong(timeout: nat, n: nat) returns (before: seq<Step>, s: State)
    ensures Leads(Init(timeout), before, s) && forall step <- before :: !step.Interrupt?
    ensures Enabled(s, Interrupt(0, Deadline)) && Snags(s, Interrupt(0, Deadline))
    ensures var snagged := Apply(s, Interrupt(0, Deadline));
            && Legal(snagged, [Tick(n)]) && PunctualRun(snagged, [Tick(n)]) && Unsnagged(snagged, [Tick(n)])
            && var held := Run(snagged, [Tick(n)]);
               && held.owner == Some(0) && IsActive(held, 0) && held.tasks[0].Current().Request?
               && held.now - held.since == timeout + n
  {
    before, s := ReachesSnag(timeout);
    SnagHoldsLock(s, Interrupt(0, Deadline), n);
  }
}
