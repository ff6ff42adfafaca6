/** What every step of every interleaving keeps, and the safety results that
    follow for whole runs. */
module ClientInvariant {
  import opened Bytes
  import opened Errors
  import opened Frames
  import opened Client

  // ---- The invariant ----

  /** Programs run in order, up to the first failure. */
  ghost predicate TaskOk(k: Task) {
    && |k.answers| <= |k.program|
    && (forall op <- k.program :: op.WellFormed())
    && (forall i | 0 <= i < |k.answers| - 1 :: k.answers[i].Success())
    && (!k.phase.Finished? ==> |k.answers| < |k.program| && forall a <- k.answers :: a.Success())
    && (k.phase.Finished? ==>
          |k.answers| > 0 && (|k.answers| == |k.program| || !k.answers[|k.answers| - 1].Success()))
    && (k.phase.Active? ==>
          k.phase.index < k.Current().Length() && (!k.Current().Write? ==> k.phase.index == 0))
  }

  ghost predicate TasksOk(s: State) {
    forall t | t in s.tasks :: TaskOk(s.tasks[t])
  }

  /** A task is inside the locked section exactly when it owns the lock. */
  ghost predicate LockOk(s: State) {
    && (s.owner.Some? ==> s.owner.value in s.tasks)
    && (forall t | t in s.tasks :: s.tasks[t].phase.Active? <==> s.owner == Some(t))
  }

  /** The tables while `t` holds the lock. */
  ghost predicate HeldTables(s: State, t: TaskId)
    requires t in s.tasks && s.tasks[t].phase.Active? && TaskOk(s.tasks[t])
  {
    var k := s.tasks[t];
    var p := k.phase;
    && p.future < |s.futures|
    && var future := s.futures[p.future];
       && future.task == t && future.op == |k.answers| && future.frame == k.Current().FrameAt(p.index)
       && future.birth <= |s.notes|
       && (p.stage.AwaitingReply? || p.stage.Collecting? ==> p.send.Done? && p.send.outcome.Delivered?)
       && if k.Current().Request? then
            var entry := map[future.frame[2] := Waiter(p.future, future.frame[3])];
            && s.sends == {} && !p.stage.Collecting?
            && match future.state
               case Pending => s.waiters == entry && !p.stage.AwaitingSend?
               case Valued(_, _) => s.waiters == map[]
               case Broken(error) => s.waiters == map[] && error == ConnectionError && !p.stage.AwaitingSend?
               case Voided =>
                 (s.waiters == entry || s.waiters == map[]) && p.stage.AwaitingReply? && p.interruption.Thrown?
          else
            && s.waiters == map[]
            && match p.stage
               case Delivering =>
                 (s.sends == {p.future} && future.state.Pending?)
                 || (s.sends == {} && future.state == Broken(ConnectionError))
               case Collecting => s.sends == {} && k.Current().History?
               case _ => false
  }

  ghost predicate TablesOk(s: State)
    requires TasksOk(s) && LockOk(s)
  {
    match s.owner
    case None => s.waiters == map[] && s.sends == {}
    case Some(t) => HeldTables(s, t)
  }

  /** A value is a reply, notified after the future was made, that carries the
      register and flag of the frame sent. */
  ghost predicate FutureOk(notes: seq<Bytes>, future: Future) {
    future.state.Valued? ==>
      && future.birth <= future.state.at < |notes|
      && notes[future.state.at] == future.state.payload
      && Answers(future.state.payload, future.frame)
  }

  ghost predicate FuturesOk(futures: seq<Future>, notes: seq<Bytes>) {
    && (forall f | 0 <= f < |futures| :: FutureOk(notes, futures[f]))
    && (forall f, g | 0 <= f < g < |futures| ::
          futures[f].state.Valued? && futures[g].state.Valued?
          ==> futures[f].state.at != futures[g].state.at)
  }

  /** A returned payload is the value of a future made by that very call. */
  ghost predicate AnswerOk(futures: seq<Future>, t: TaskId, k: Task, i: nat) {
    && i < |k.answers| <= |k.program|
    && match k.answers[i]
       case Returned(payload, f) =>
         && f < |futures| && futures[f].task == t && futures[f].op == i
         && k.program[i] == Request(futures[f].frame)
         && futures[f].state.Valued? && futures[f].state.payload == payload
       case Completed => k.program[i].Write?
       case Collected(_, _, _) => k.program[i].History?
       case _ => true
  }

  ghost predicate AnswersOk(futures: seq<Future>, tasks: map<TaskId, Task>) {
    forall t, i | t in tasks && 0 <= i < |tasks[t].answers| :: AnswerOk(futures, t, tasks[t], i)
  }

  ghost predicate Inv(s: State) {
    && TasksOk(s) && LockOk(s) && TablesOk(s) && FuturesOk(s.futures, s.notes) && AnswersOk(s.futures, s.tasks)
    && !s.fault
  }

  lemma InitInv(timeout: nat)
    ensures Inv(Init(timeout))
  {
  }

  // ---- What a step can touch at all ----

  /** A step of task `t`, or of its send. */
  predicate IsTaskStep(step: Step) {
    || step.Spawn? || step.Begin? || step.Acquire? || step.BeginSend? || step.EndSend? || step.Resume?
    || step.Interrupt? || step.CancelQueued? || step.IdleOut?
  }

  /** Answers given are kept. */
  predicate Keeps(s: State, s': State, t: TaskId)
    requires t in s.tasks
  {
    t in s'.tasks && s.tasks[t].answers <= s'.tasks[t].answers && s'.tasks[t].program == s.tasks[t].program
  }

  /** A turn of task `t`: its own record, the tables, the buffer, the lock. */
  ghost predicate TurnOf(s: State, s': State, t: TaskId)
    requires t in s.tasks
  {
    && Keeps(s, s', t) && |s.futures| <= |s'.futures|
    && s' == s.(owner := s'.owner, tasks := s.tasks[t := s'.tasks[t]], waiters := s'.waiters, sends := s'.sends,
                futures := s'.futures, bulk := s'.bulk, bulkEvent := s'.bulkEvent, stale := s'.stale)
  }

  lemma LeaveIsTurn(s: State, t: TaskId, answer: Answer)
    requires IsActive(s, t)
    ensures TurnOf(s, Leave(s, t, answer), t)
  {
  }

  lemma WaitIsTurn(s: State, t: TaskId)
    requires IsActive(s, t)
    ensures TurnOf(s, WaitForRecords(s, t), t)
  {
    LeaveIsTurn(s.(bulkEvent := false), t, Collection(s, t));
  }

  lemma TakeReplyIsTurn(s: State, t: TaskId)
    requires IsActive(s, t)
    ensures TurnOf(s, TakeReply(s, t), t)
  {
  }

  lemma DeliveryIsTurn(s: State, t: TaskId)
    requires IsActive(s, t)
    ensures TurnOf(s, AfterDelivery(s, t), t)
  {
    match s.tasks[t].Current()
    case Request(_) => TakeReplyIsTurn(s, t);
    case Write(_) => LeaveIsTurn(s, t, Completed);
    case History(_) => WaitIsTurn(StartCollecting(s, t), t);
  }

  lemma ResumeIsTurn(s: State, t: TaskId)
    requires Resumable(s, t)
    ensures TurnOf(s, Resumed(s, t), t)
  {
    var p := s.tasks[t].phase;
    if p.interruption.Thrown? {
      LeaveIsTurn(s, t, Unwound(p.interruption.why));
    } else if p.stage.Collecting? {
      WaitIsTurn(s, t);
    } else if p.stage.AwaitingReply? {
      TakeReplyIsTurn(s, t);
    } else if p.send.Done? && p.send.outcome.Delivered? {
      DeliveryIsTurn(s, t);
    }
  }

  ghost predicate Touched(s: State, s': State, step: Step) {
    && s'.timeout == s.timeout && |s.futures| <= |s'.futures|
    && s'.now == s.now + (if step.Tick? then step.delta else 0)
    && (step.Acquire? || s'.since == s.since)
    && s'.connected == (if step.Connect? then true else if step.Disconnect? || step.Drop? then false else s.connected)
    && (step.BeginSend? || step.EndSend? || s'.wire == s.wire)
    && (if IsTaskStep(step) then step.task in s'.tasks && s'.tasks == s.tasks[step.task := s'.tasks[step.task]]
        else s'.tasks == s.tasks)
    && forall t | t in s.tasks :: Keeps(s, s', t)
  }

  lemma StepTouches(s: State, step: Step)
    requires Enabled(s, step)
    ensures Touched(s, Apply(s, step), step)
  {
    if step.Resume? {
      ResumeIsTurn(s, step.task);
    } else if step.IdleOut? {
      LeaveIsTurn(s, step.task, Collection(s, step.task));
    } else if step.Acquire? {
      EnterTouches(s, step.task);
    } else if step.Interrupt? {
      InterruptTouches(s, step.task, step.why);
    } else if step.BeginSend? || step.EndSend? {
      SendTouches(s, step);
    } else if step.Notify? {
      NotifyTouches(s, step.payload);
    } else {
      EventTouches(s, step);
    }
  }

  lemma NotifyTouches(s: State, payload: Bytes)
    ensures Touched(s, Notified(s, payload), Notify(payload))
  {
  }

  lemma EnterTouches(s: State, t: TaskId)
    requires Enabled(s, Acquire(t))
    ensures Touched(s, Enter(s, t), Acquire(t))
  {
  }

  lemma InterruptTouches(s: State, t: TaskId, why: Why)
    requires IsActive(s, t)
    ensures Touched(s, Interrupted(s, t, why), Interrupt(t, why))
  {
  }

  /** An interruption is noted in the task's phase, and may cancel its future. */
  lemma InterruptMarks(s: State, t: TaskId, why: Why)
    requires IsActive(s, t)
    ensures var s' := Interrupted(s, t, why);
            && s'.owner == s.owner && s'.wire == s.wire && |s'.futures| == |s.futures|
            && s'.bulk == s.bulk && s'.notes == s.notes && s'.stale == s.stale && s'.connected == s.connected
            && t in s'.tasks && s'.tasks[t].phase.Active? && s'.tasks == s.tasks[t := s'.tasks[t]]
            && s'.tasks[t] == s.tasks[t].(phase := s.tasks[t].phase.(interruption := s'.tasks[t].phase.interruption))
  {
    var p := s.tasks[t].phase;
    var w := Worse(p.interruption, why);
    var mark := if p.stage.AwaitingSend? && !p.send.Done? then Asked(w) else Thrown(w);
    var marked := SetPhase(s, t, p.(interruption := mark));
    assert Interrupted(s, t, why) == marked.(futures := Interrupted(s, t, why).futures);
  }

  lemma SendTouches(s: State, step: Step)
    requires Enabled(s, step) && (step.BeginSend? || step.EndSend?)
    ensures Touched(s, Apply(s, step), step)
  {
  }

  lemma EventTouches(s: State, step: Step)
    requires Enabled(s, step) && !step.Resume? && !step.IdleOut? && !step.Acquire? && !step.Interrupt?
    requires !step.BeginSend? && !step.EndSend? && !step.Notify?
    ensures Touched(s, Apply(s, step), step)
  {
  }

  // ---- Preservation, one building block at a time ----

  lemma LeaveInv(s: State, t: TaskId, answer: Answer)
    requires Inv(s) && s.owner == Some(t) && IsActive(s, t)
    requires match answer
             case Returned(payload, f) =>
               s.tasks[t].Current().Request? && f == s.tasks[t].phase.future
               && FutureOf(s, t).state.Valued? && FutureOf(s, t).state.payload == payload
             case Completed => s.tasks[t].Current().Write?
             case Collected(_, _, _) => s.tasks[t].Current().History?
             case _ => true
    ensures Inv(Leave(s, t, answer))
  {
    var s' := Leave(s, t, answer);
    assert TasksOk(s');
    assert LockOk(s');
    assert s'.waiters == map[] && s'.sends == {};
    assert FuturesOk(s'.futures, s'.notes);
    forall u, i | u in s'.tasks && 0 <= i < |s'.tasks[u].answers|
      ensures AnswerOk(s'.futures, u, s'.tasks[u], i)
    {
      if u != t || i < |s.tasks[t].answers| {
        assert AnswerOk(s.futures, u, s.tasks[u], i);
      }
    }
  }

  /** The tables are clear of this task's previous frame. */
  lemma LaunchInv(s: State, t: TaskId, i: nat)
    requires TasksOk(s) && FuturesOk(s.futures, s.notes) && AnswersOk(s.futures, s.tasks) && !s.fault
    requires t in s.tasks && s.tasks[t].Busy() && i < s.tasks[t].Current().Length()
    requires !s.tasks[t].Current().Write? ==> i == 0
    requires !s.tasks[t].phase.Finished?
    requires s.owner == Some(t) && forall u | u in s.tasks && s.tasks[u].phase.Active? :: u == t
    requires s.waiters == map[] && s.sends == {}
    ensures Inv(Launch(s, t, i))
  {
    var s' := Launch(s, t, i);
    assert TasksOk(s');
    assert LockOk(s');
    assert forall f | 0 <= f < |s.futures| :: s'.futures[f] == s.futures[f] && FutureOk(s.notes, s.futures[f]);
    assert FuturesOk(s'.futures, s'.notes);
    forall u, j | u in s'.tasks && 0 <= j < |s'.tasks[u].answers|
      ensures AnswerOk(s'.futures, u, s'.tasks[u], j)
    {
      assert AnswerOk(s.futures, u, s.tasks[u], j);
    }
    assert HeldTables(s', t);
  }

  /** The owner moves to another await, keeping its place in its program. */
  lemma RephaseInv(s: State, s': State, t: TaskId, phase: Phase)
    requires Inv(s) && s.owner == Some(t)
    requires phase.Active? && phase.index == s.tasks[t].phase.index
    requires s' == s.(tasks := s.tasks[t := s.tasks[t].(phase := phase)],
                      sends := s'.sends, wire := s'.wire, bulkEvent := s'.bulkEvent)
    requires HeldTables(s', t)
    ensures Inv(s')
  {
    RephaseAnswers(s.futures, s.tasks, s'.tasks);
  }

  lemma RephaseAnswers(futures: seq<Future>, tasks: map<TaskId, Task>, tasks': map<TaskId, Task>)
    requires AnswersOk(futures, tasks) && tasks'.Keys == tasks.Keys
    requires forall t | t in tasks :: tasks'[t].program == tasks[t].program && tasks'[t].answers == tasks[t].answers
    ensures AnswersOk(futures, tasks')
  {
    forall t, i | t in tasks' && 0 <= i < |tasks'[t].answers|
      ensures AnswerOk(futures, t, tasks'[t], i)
    {
      assert AnswerOk(futures, t, tasks[t], i);
    }
  }

  lemma SettleInv(s: State, f: FutureId, state: FutureState)
    requires FuturesOk(s.futures, s.notes) && TasksOk(s) && AnswersOk(s.futures, s.tasks)
    requires f < |s.futures| && !s.futures[f].state.Valued?
    requires !state.Valued?
    ensures FuturesOk(SetFuture(s, f, state).futures, s.notes) && AnswersOk(SetFuture(s, f, state).futures, s.tasks)
  {
    var s' := SetFuture(s, f, state);
    assert forall g | 0 <= g < |s.futures| :: FutureOk(s.notes, s.futures[g]);
    forall u, j | u in s'.tasks && 0 <= j < |s'.tasks[u].answers|
      ensures AnswerOk(s'.futures, u, s'.tasks[u], j)
    {
      assert AnswerOk(s.futures, u, s.tasks[u], j);
    }
  }

  lemma TakeReplyInv(s: State, t: TaskId)
    requires Inv(s) && s.owner == Some(t) && IsActive(s, t) && s.tasks[t].Current().Request?
    requires s.tasks[t].phase.send.Done? && s.tasks[t].phase.send.outcome.Delivered?
    ensures Inv(TakeReply(s, t))
  {
    var p := s.tasks[t].phase;
    match FutureOf(s, t).state
    case Pending => RephaseInv(s, TakeReply(s, t), t, p.(stage := AwaitingReply));
    case Valued(payload, _) => LeaveInv(s, t, Returned(payload, p.future));
    case Broken(error) => LeaveInv(s, t, Failed(error));
    case Voided => LeaveInv(s, t, Cancelled);
  }

  lemma WaitForRecordsInv(s: State, t: TaskId)
    requires Inv(s) && s.owner == Some(t) && IsActive(s, t) && s.tasks[t].Current().History?
    requires s.tasks[t].phase.stage.Collecting?
    ensures Inv(WaitForRecords(s, t))
  {
    var cleared := s.(bulkEvent := false);
    RephaseInv(s, cleared, t, s.tasks[t].phase);
    if s.tasks[t].phase.deadline <= s.now {
      LeaveInv(cleared, t, Collection(s, t));
    } else {
      RephaseInv(s, WaitForRecords(s, t), t, WaitForRecords(s, t).tasks[t].phase);
    }
  }

  lemma NextFrameInv(s: State, t: TaskId, i: nat)
    requires Inv(s) && s.owner == Some(t) && IsActive(s, t) && s.tasks[t].phase.stage.Delivering?
    requires s.tasks[t].Current().Write? && i < s.tasks[t].Current().Length()
    ensures Inv(Launch(s.(sends := s.sends - {s.tasks[t].phase.future}), t, i))
  {
    assert HeldTables(s, t);
    var cleared := s.(sends := s.sends - {s.tasks[t].phase.future});
    assert cleared.sends == {} && cleared.waiters == map[];
    LaunchInv(cleared, t, i);
  }

  lemma StartCollectingInv(s: State, t: TaskId)
    requires Inv(s) && s.owner == Some(t) && IsActive(s, t) && s.tasks[t].phase.stage.Delivering?
    requires s.tasks[t].Current().History? && s.tasks[t].phase.send.Done? && s.tasks[t].phase.send.outcome.Delivered?
    ensures Inv(StartCollecting(s, t))
  {
    var s' := StartCollecting(s, t);
    assert HeldTables(s, t);
    assert s'.sends == {};
    RephaseInv(s, s', t, s'.tasks[t].phase);
  }

  lemma AfterDeliveryInv(s: State, t: TaskId)
    requires Inv(s) && s.owner == Some(t) && IsActive(s, t)
    requires s.tasks[t].phase.stage.Delivering? || s.tasks[t].phase.stage.AwaitingSend?
    requires s.tasks[t].phase.send.Done? && s.tasks[t].phase.send.outcome.Delivered?
    ensures Inv(AfterDelivery(s, t))
  {
    if s.tasks[t].Current().Request? {
      TakeReplyInv(s, t);
    } else {
      assert HeldTables(s, t);
      if s.tasks[t].Current().History? {
        StartCollectingInv(s, t);
        WaitForRecordsInv(StartCollecting(s, t), t);
      } else {
        WriteDeliveryInv(s, t);
      }
    }
  }

  lemma WriteDeliveryInv(s: State, t: TaskId)
    requires Inv(s) && s.owner == Some(t) && IsActive(s, t) && s.tasks[t].phase.stage.Delivering?
    requires s.tasks[t].Current().Write?
    ensures Inv(AfterDelivery(s, t))
  {
    if s.tasks[t].phase.index + 1 < s.tasks[t].Current().Length() {
      NextFrameInv(s, t, s.tasks[t].phase.index + 1);
    } else {
      LeaveInv(s, t, Completed);
    }
  }

  lemma ResumedInv(s: State, t: TaskId)
    requires Inv(s) && Resumable(s, t)
    ensures Inv(Resumed(s, t))
  {
    var p := s.tasks[t].phase;
    if p.interruption.Thrown? {
      LeaveInv(s, t, Unwound(p.interruption.why));
    } else if (p.stage.Delivering? || p.stage.AwaitingSend?) && p.send.Done? {
      if p.send.outcome.Delivered? {
        AfterDeliveryInv(s, t);
      } else {
        LeaveInv(s, t, Mapped(p.send.outcome.failure, p.interruption));
      }
    } else if p.stage.Delivering? {
      if FutureOf(s, t).state.Broken? {
        LeaveInv(s, t, Failed(FutureOf(s, t).state.error));
      } else {
        RephaseInv(s, Resumed(s, t), t, p.(stage := AwaitingSend));
      }
    } else if p.stage.AwaitingReply? {
      TakeReplyInv(s, t);
    } else {
      WaitForRecordsInv(s, t);
    }
  }

  lemma VoidedInv(s: State, t: TaskId, phase: Phase)
    requires Inv(s) && IsActive(s, t) && s.tasks[t].phase.stage.AwaitingReply? && FutureOf(s, t).state.Pending?
    requires phase.Active? && phase.interruption.Thrown?
    requires phase == s.tasks[t].phase.(interruption := phase.interruption)
    ensures Inv(SetFuture(SetPhase(s, t, phase), phase.future, Voided))
  {
    var s1 := SetPhase(s, t, phase);
    var s' := SetFuture(s1, phase.future, Voided);
    SettleInv(s, phase.future, Voided);
    assert s'.futures == SetFuture(s, phase.future, Voided).futures;
    assert HeldTables(s, t);
    assert TasksOk(s') && LockOk(s');
    assert HeldTables(s', t);
    RephaseAnswers(s'.futures, s.tasks, s'.tasks);
  }

  lemma InterruptedInv(s: State, t: TaskId, why: Why)
    requires Inv(s) && IsActive(s, t)
    ensures Inv(Interrupted(s, t, why))
  {
    var p := s.tasks[t].phase;
    var w := Worse(p.interruption, why);
    if p.stage.AwaitingSend? && !p.send.Done? {
      MarkedInv(s, t, Asked(w));
    } else if p.stage.AwaitingReply? && FutureOf(s, t).state.Pending? {
      VoidedInv(s, t, p.(interruption := Thrown(w)));
    } else {
      MarkedInv(s, t, Thrown(w));
    }
  }

  lemma MarkedInv(s: State, t: TaskId, interruption: Interruption)
    requires Inv(s) && IsActive(s, t)
    requires interruption.Thrown? || !s.tasks[t].phase.stage.AwaitingReply?
    ensures Inv(SetPhase(s, t, s.tasks[t].phase.(interruption := interruption)))
  {
    assert HeldTables(s, t);
    var phase := s.tasks[t].phase.(interruption := interruption);
    RephaseInv(s, SetPhase(s, t, phase), t, phase);
  }

  lemma NotedInv(s: State, payload: Bytes)
    requires Inv(s)
    ensures Inv(s.(notes := s.notes + [payload]))
    ensures forall future | FutureOk(s.notes, future) :: FutureOk(s.notes + [payload], future)
  {
    assert s.owner.Some? ==> HeldTables(s, s.owner.value);
  }

  /** A matched reply: the table's one entry names the owner's own future. */
  lemma MatchedInv(s: State, payload: Bytes)
    requires Inv(s) && Matches(s, payload) && !IsHistoryRecord(payload)
    ensures Inv(Notified(s, payload))
  {
    var s' := Notified(s, payload);
    var t := s.owner.value;
    assert HeldTables(s, t);
    var f := s.tasks[t].phase.future;
    assert s.waiters[payload[2]].future == f && s'.waiters == map[];
    NotedInv(s, payload);
    var noted := s.(notes := s.notes + [payload]);
    if s.futures[f].state.Pending? {
      ValuedFutures(s.futures, s.notes, f, payload);
      SettledAnswers(s.futures, s.tasks, f, Valued(payload, |s.notes|));
    }
    assert HeldTables(s', t);
  }

  lemma SettledAnswers(futures: seq<Future>, tasks: map<TaskId, Task>, f: FutureId, state: FutureState)
    requires AnswersOk(futures, tasks) && f < |futures| && futures[f].state.Pending?
    ensures AnswersOk(futures[f := futures[f].(state := state)], tasks)
  {
    var settled := futures[f := futures[f].(state := state)];
    forall u, i | u in tasks && 0 <= i < |tasks[u].answers|
      ensures AnswerOk(settled, u, tasks[u], i)
    {
      assert AnswerOk(futures, u, tasks[u], i);
    }
  }

  lemma ValuedFutures(futures: seq<Future>, notes: seq<Bytes>, f: FutureId, payload: Bytes)
    requires FuturesOk(futures, notes) && f < |futures| && futures[f].birth <= |notes|
    requires Answers(payload, futures[f].frame)
    ensures FuturesOk(futures[f := futures[f].(state := Valued(payload, |notes|))], notes + [payload])
  {
    assert forall g | 0 <= g < |futures| :: FutureOk(notes, futures[g]);
  }

  lemma NotifiedInv(s: State, payload: Bytes)
    requires Inv(s)
    ensures Inv(Notified(s, payload))
  {
    NotedInv(s, payload);
    if IsHistoryRecord(payload) {
      assert s.owner.Some? ==> HeldTables(s.(notes := s.notes + [payload]), s.owner.value);
    } else if Matches(s, payload) {
      MatchedInv(s, payload);
    }
  }

  /** The one pending abort is the owner's, so failing it unguarded is safe. */
  lemma DisconnectedInv(s: State)
    requires Inv(s)
    ensures Inv(Disconnected(s))
  {
    var s' := Disconnected(s);
    assert forall f | 0 <= f < |s.futures| :: FutureOk(s.notes, s.futures[f]);
    forall u, j | u in s'.tasks && 0 <= j < |s'.tasks[u].answers|
      ensures AnswerOk(s'.futures, u, s'.tasks[u], j)
    {
      assert AnswerOk(s.futures, u, s.tasks[u], j);
    }
    if s.owner.Some? {
      DisconnectedTables(s, s.owner.value);
    }
  }

  lemma DisconnectedTables(s: State, t: TaskId)
    requires TasksOk(s) && LockOk(s) && s.owner == Some(t) && HeldTables(s, t)
    ensures HeldTables(Disconnected(s), t)
    ensures forall f <- s.sends :: f < |s.futures| && s.futures[f].state.Pending?
  {
    var f := s.tasks[t].phase.future;
    if s.tasks[t].Current().Request? && s.futures[f].state.Pending? {
      assert s.waiters[s.futures[f].frame[2]].future == f;
      assert IsWaiting(s, f);
    }
  }

  lemma EnterInv(s: State, t: TaskId)
    requires Inv(s) && Enabled(s, Acquire(t))
    ensures Inv(Enter(s, t))
  {
    var locked := s.(owner := Some(t), since := s.now);
    LaunchInv(if s.tasks[t].Current().History? then locked.(bulk := [], bulkEvent := false) else locked, t, 0);
  }

  lemma SendInv(s: State, t: TaskId, s': State)
    requires Inv(s) && IsActive(s, t) && t in s'.tasks && s'.tasks[t].phase.Active?
    requires !s.tasks[t].phase.send.Done?
    requires s'.tasks[t].phase == s.tasks[t].phase.(send := s'.tasks[t].phase.send)
    requires s' == SetPhase(s, t, s'.tasks[t].phase).(wire := s'.wire)
    ensures Inv(s')
  {
    assert HeldTables(s, t);
    RephaseInv(s, s', t, s'.tasks[t].phase);
  }

  lemma BeginInv(s: State, t: TaskId)
    requires Inv(s) && Enabled(s, Begin(t))
    ensures Inv(Apply(s, Begin(t)))
  {
    var s' := Apply(s, Begin(t));
    RefusedAnswers(s, t, Failed(ConnectionError));
    forall i | 0 <= i < |s'.tasks[t].answers|
      ensures AnswerOk(s.futures, t, s'.tasks[t], i)
    {
      assert s.connected ==> AnswerOk(s.futures, t, s.tasks[t], i);
    }
    BystanderInv(s, t, s');
  }

  lemma LinkAndClockInv(s: State, s': State)
    requires Inv(s) && s' == s.(connected := s'.connected, now := s'.now, stale := s'.stale)
    ensures Inv(s')
  {
    assert s.owner.Some? ==> HeldTables(s, s.owner.value);
  }

  lemma DropInv(s: State)
    requires Inv(s)
    ensures Inv(Apply(s, Drop))
  {
    DisconnectedInv(s);
    LinkAndClockInv(Disconnected(s), Apply(s, Drop));
  }

  lemma BeginSendInv(s: State, t: TaskId)
    requires Inv(s) && Enabled(s, BeginSend(t))
    ensures Inv(SendBegun(s, t))
  {
    SendInv(s, t, SendBegun(s, t));
  }

  lemma EndSendInv(s: State, t: TaskId, outcome: Outcome)
    requires Inv(s) && Enabled(s, EndSend(t, outcome))
    ensures Inv(SendEnded(s, t, outcome))
  {
    SendInv(s, t, SendEnded(s, t, outcome));
  }

  lemma IdleOutInv(s: State, t: TaskId)
    requires Inv(s) && Enabled(s, IdleOut(t))
    ensures Inv(Leave(s, t, Collection(s, t)))
  {
    assert HeldTables(s, t);
    LeaveInv(s, t, Collection(s, t));
  }

  lemma CancelQueuedInv(s: State, t: TaskId)
    requires Inv(s) && Enabled(s, CancelQueued(t))
    ensures Inv(Apply(s, CancelQueued(t)))
  {
    RefusedAnswers(s, t, Cancelled);
    BystanderInv(s, t, Apply(s, CancelQueued(t)));
  }

  lemma StepInv(s: State, step: Step)
    requires Inv(s) && Enabled(s, step)
    ensures Inv(Apply(s, step))
  {
    if step.Begin? || step.CancelQueued? || step.Spawn? {
      OutsiderStepInv(s, step);
    } else if IsTaskStep(step) {
      LockStepInv(s, step);
    } else if step.Notify? {
      NotifiedInv(s, step.payload);
    } else if step.Drop? {
      DropInv(s);
    } else {
      LinkStepInv(s, step);
    }
  }

  lemma LockStepInv(s: State, step: Step)
    requires Inv(s) && Enabled(s, step) && IsTaskStep(step)
    requires !step.Begin? && !step.CancelQueued? && !step.Spawn?
    ensures Inv(Apply(s, step))
  {
    if step.Acquire? {
      EnterInv(s, step.task);
    } else if step.BeginSend? {
      BeginSendInv(s, step.task);
    } else if step.EndSend? {
      EndSendInv(s, step.task, step.outcome);
    } else if step.Resume? {
      ResumedInv(s, step.task);
    } else if step.Interrupt? {
      InterruptedInv(s, step.task, step.why);
    } else {
      IdleOutInv(s, step.task);
    }
  }

  lemma OutsiderStepInv(s: State, step: Step)
    requires Inv(s) && Enabled(s, step) && (step.Begin? || step.CancelQueued? || step.Spawn?)
    ensures Inv(Apply(s, step))
  {
    if step.Begin? {
      BeginInv(s, step.task);
    } else if step.CancelQueued? {
      CancelQueuedInv(s, step.task);
    } else {
      BystanderInv(s, step.task, Apply(s, step));
    }
  }

  lemma LinkStepInv(s: State, step: Step)
    requires Inv(s) && Enabled(s, step)
    requires step.Connect? || step.Disconnect? || step.StaleEnd? || step.Tick?
    ensures Inv(Apply(s, step))
  {
    LinkAndClockInv(s, Apply(s, step));
  }

  lemma RefusedAnswers(s: State, t: TaskId, answer: Answer)
    requires Inv(s) && t in s.tasks && (answer.Failed? || answer.Cancelled?)
    ensures forall i | 0 <= i < |s.tasks[t].answers| :: AnswerOk(s.futures, t, s.tasks[t], i)
    ensures s.tasks[t].Busy() ==>
              var k := Refused(s.tasks[t], answer);
              forall i | 0 <= i < |k.answers| :: AnswerOk(s.futures, t, k, i)
  {
    var k := Refused(s.tasks[t], answer);
    forall i | 0 <= i < |k.answers| && s.tasks[t].Busy()
      ensures AnswerOk(s.futures, t, k, i)
    {
      assert i < |s.tasks[t].answers| ==> AnswerOk(s.futures, t, s.tasks[t], i);
    }
  }

  /** A task outside the locked section changes only its own record. */
  lemma BystanderInv(s: State, t: TaskId, s': State)
    requires Inv(s) && t in s'.tasks && s' == s.(tasks := s.tasks[t := s'.tasks[t]])
    requires s.owner != Some(t) && !s'.tasks[t].phase.Active? && TaskOk(s'.tasks[t])
    requires forall i | 0 <= i < |s'.tasks[t].answers| :: AnswerOk(s.futures, t, s'.tasks[t], i)
    ensures Inv(s')
  {
    assert forall f | 0 <= f < |s.futures| :: FutureOk(s.notes, s.futures[f]);
    forall u, j | u in s'.tasks && 0 <= j < |s'.tasks[u].answers|
      ensures AnswerOk(s'.futures, u, s'.tasks[u], j)
    {
      if u != t {
        assert AnswerOk(s.futures, u, s.tasks[u], j);
      } else {
        assert AnswerOk(s.futures, t, s'.tasks[t], j);
      }
    }
  }

  lemma {:induction false} RunInv(s: State, steps: seq<Step>)
    requires Inv(s) && Legal(s, steps)
    ensures Inv(Run(s, steps))
    decreases |steps|
  {
    if steps != [] {
      StepInv(s, steps[0]);
      RunInv(Apply(s, steps[0]), steps[1..]);
    }
  }

  // ---- Results for every run ----

  /** In every reachable state of any interleaving: waiters and aborts number
      at most one and belong to the lock holder, every registered abort is
      pending, a pending future that a task awaits is in its table, and no
      completed future has been completed again. */
  lemma SharedTablesAreSafe(timeout: nat, steps: seq<Step>)
    requires Legal(Init(timeout), steps)
    ensures var s := Run(Init(timeout), steps);
            && |s.waiters| + |s.sends| <= 1
            && (s.owner.None? ==> s.waiters == map[] && s.sends == {})
            && (forall f <- s.sends :: s.owner.Some? && IsActive(s, s.owner.value)
                  && f == s.tasks[s.owner.value].phase.future && s.futures[f].state.Pending?)
            && (forall r <- s.waiters :: s.owner.Some? && IsActive(s, s.owner.value)
                  && s.waiters[r].future == s.tasks[s.owner.value].phase.future)
            && (s.owner.Some? ==>
                  IsActive(s, s.owner.value)
                  && (FutureOf(s, s.owner.value).state.Pending? && !s.tasks[s.owner.value].phase.stage.Collecting? ==>
                        || IsWaiting(s, s.tasks[s.owner.value].phase.future)
                        || s.tasks[s.owner.value].phase.future in s.sends))
            && !s.fault
  {
    InitInv(timeout);
    RunInv(Init(timeout), steps);
    var s := Run(Init(timeout), steps);
    if s.owner.Some? {
      var t := s.owner.value;
      assert HeldTables(s, t);
      var future := FutureOf(s, t);
      if s.tasks[t].Current().Request? && future.state.Pending? {
        assert future.frame[2] in s.waiters && s.waiters[future.frame[2]].future == s.tasks[t].phase.future;
        assert IsWaiting(s, s.tasks[t].phase.future);
      }
    }
  }

  /** A caller gets one answer a call: its calls succeed in turn, and it stops at
      the first that fails, or after the last. */
  lemma CallersStopExactlyAtFailureOrEnd(timeout: nat, steps: seq<Step>, t: TaskId)
    requires Legal(Init(timeout), steps) && t in Run(Init(timeout), steps).tasks
    ensures var k := Run(Init(timeout), steps).tasks[t];
            && |k.answers| <= |k.program| && (forall i | 0 <= i < |k.answers| - 1 :: k.answers[i].Success())
            && (k.phase.Finished? <==>
                  |k.answers| == |k.program| || (k.answers != [] && !k.answers[|k.answers| - 1].Success()))
  {
    InitInv(timeout);
    RunInv(Init(timeout), steps);
    assert TaskOk(Run(Init(timeout), steps).tasks[t]);
  }

  /** A reply future cancelled while it was awaited stays so: the reply takes its
      entry out of the table and completes nothing. */
  lemma CancelledReplyIsNotCompleted(s: State, t: TaskId, why: Why, reply: Bytes)
    requires Inv(s) && s.owner == Some(t) && IsActive(s, t) && Enabled(s, Interrupt(t, why))
    requires s.tasks[t].phase.stage.AwaitingReply? && FutureOf(s, t).state.Pending?
    requires Answers(reply, FutureOf(s, t).frame)
    ensures var s' := Interrupted(s, t, why);
            && IsActive(s', t) && FutureOf(s', t).state.Voided?
            && s'.waiters == map[reply[2] := Waiter(s.tasks[t].phase.future, reply[3])]
            && Notified(s', reply).waiters == map[] && Notified(s', reply).futures == s'.futures
            && !Notified(s', reply).fault
  {
    assert HeldTables(s, t);
    InterruptedInv(s, t, why);
    assert HeldTables(Interrupted(s, t, why), t);
    NotificationReachesOnlyItsWaiter(Interrupted(s, t, why), reply);
  }

  /** What a step may do to the futures that exist: settle a pending one. */
  ghost predicate Settles(before: seq<Future>, after: seq<Future>) {
    && |before| <= |after|
    && forall f | 0 <= f < |before| ::
         && after[f] == before[f].(state := after[f].state)
         && (!before[f].state.Pending? ==> after[f] == before[f])
  }

  lemma StepSettles(s: State, step: Step)
    requires Inv(s) && Enabled(s, step)
    ensures Settles(s.futures, Apply(s, step).futures)
  {
    if step.Resume? {
      ResumeOnlyCreates(s, step.task);
    } else if step.Interrupt? {
      InterruptSettles(s, step.task, step.why);
    } else if step.Notify? {
      NotificationReachesOnlyItsWaiter(s, step.payload);
    } else if step.Acquire? {
      EnterSettles(s, step.task);
    } else if step.Drop? {
      DropSettles(s);
    } else {
      QuietStepSettles(s, step);
    }
  }

  lemma EnterSettles(s: State, t: TaskId)
    requires Enabled(s, Acquire(t))
    ensures Settles(s.futures, Enter(s, t).futures)
  {
    assert Enter(s, t).futures[..|s.futures|] == s.futures;
  }

  lemma DropSettles(s: State)
    ensures Settles(s.futures, Disconnected(s).futures)
  {
  }

  lemma InterruptSettles(s: State, t: TaskId, why: Why)
    requires IsActive(s, t)
    ensures Settles(s.futures, Interrupted(s, t, why).futures)
  {
    var p := s.tasks[t].phase;
    var cancels := p.stage.AwaitingReply? && FutureOf(s, t).state.Pending?;
    assert Interrupted(s, t, why).futures
        == if cancels then s.futures[p.future := s.futures[p.future].(state := Voided)] else s.futures;
  }

  lemma QuietStepSettles(s: State, step: Step)
    requires Enabled(s, step)
    requires !step.Resume? && !step.Interrupt? && !step.Notify? && !step.Acquire? && !step.Drop?
    ensures Apply(s, step).futures == s.futures
  {
  }

  lemma ResumeOnlyCreates(s: State, t: TaskId)
    requires Resumable(s, t)
    ensures s.futures <= Resumed(s, t).futures
  {
    var p := s.tasks[t].phase;
    if !p.interruption.Thrown? && p.send.Done? && p.send.outcome.Delivered?
       && (p.stage.Delivering? || p.stage.AwaitingSend?) {
      DeliveryOnlyCreates(s, t);
    } else {
      assert p.stage.AwaitingReply? ==> TakeReply(s, t).futures == s.futures;
      assert p.stage.Collecting? ==> WaitForRecords(s, t).futures == s.futures;
    }
  }

  lemma DeliveryOnlyCreates(s: State, t: TaskId)
    requires IsActive(s, t)
    ensures s.futures <= AfterDelivery(s, t).futures
  {
    match s.tasks[t].Current()
    case Request(_) => assert TakeReply(s, t).futures == s.futures;
    case Write(_) =>
    case History(_) => assert WaitForRecords(StartCollecting(s, t), t).futures == s.futures;
  }

  /** A future that is done keeps its outcome for the rest of any run. */
  lemma {:induction false} OutcomesAreFinal(s: State, steps: seq<Step>)
    requires Inv(s) && Legal(s, steps)
    ensures Settles(s.futures, Run(s, steps).futures)
    decreases |steps|
  {
    if steps != [] {
      StepSettles(s, steps[0]);
      StepInv(s, steps[0]);
      OutcomesAreFinal(Apply(s, steps[0]), steps[1..]);
    }
  }

  /** The notification that completed call `i` of task `t`. */
  ghost function Carrier(s: State, t: TaskId, i: nat): nat
    requires Inv(s) && t in s.tasks && i < |s.tasks[t].answers| && s.tasks[t].answers[i].Returned?
  {
    assert AnswerOk(s.futures, t, s.tasks[t], i);
    s.futures[s.tasks[t].answers[i].future].state.at
  }

  /** Every payload a request returns was notified after its waiter was
      installed and echoes the register and flag of the frame it sent, and no
      notification serves two requests. */
  lemma RepliesAreMatched(timeout: nat, steps: seq<Step>, t: TaskId, i: nat)
    requires Legal(Init(timeout), steps)
    requires var s := Run(Init(timeout), steps);
             t in s.tasks && i < |s.tasks[t].answers| && s.tasks[t].answers[i].Returned?
    ensures var s := Run(Init(timeout), steps);
            && Inv(s)
            && i < |s.tasks[t].program| && s.tasks[t].program[i].Request?
            && s.tasks[t].answers[i].future < |s.futures|
            && var n := Carrier(s, t, i);
               && s.futures[s.tasks[t].answers[i].future].birth <= n < |s.notes|
               && s.notes[n] == s.tasks[t].answers[i].payload
               && Answers(s.notes[n], s.tasks[t].program[i].frame)
               && forall u, j | u in s.tasks && 0 <= j < |s.tasks[u].answers|
                                && s.tasks[u].answers[j].Returned? && (u, j) != (t, i) ::
                    Carrier(s, u, j) != n
  {
    InitInv(timeout);
    RunInv(Init(timeout), steps);
    var s := Run(Init(timeout), steps);
    assert AnswerOk(s.futures, t, s.tasks[t], i);
    assert FutureOk(s.notes, s.futures[s.tasks[t].answers[i].future]);
    forall u, j | u in s.tasks && 0 <= j < |s.tasks[u].answers|
                  && s.tasks[u].answers[j].Returned? && (u, j) != (t, i)
      ensures Carrier(s, u, j) != Carrier(s, t, i)
    {
      assert AnswerOk(s.futures, u, s.tasks[u], j);
    }
  }

  /** A notification completes a future exactly when it matches the waiter of a
      request that is still pending; nothing else it does reaches a waiter. */
  lemma NotificationReachesOnlyItsWaiter(s: State, payload: Bytes)
    requires Inv(s)
    ensures var s' := Notified(s, payload);
            var hit := !IsHistoryRecord(payload) && Matches(s, payload);
            && s'.tasks == s.tasks && s'.owner == s.owner && s'.sends == s.sends
            && (!hit ==> s'.waiters == s.waiters && s'.futures == s.futures)
            && (hit ==>
                  && s.owner.Some? && IsActive(s, s.owner.value)
                  && var f := s.tasks[s.owner.value].phase.future;
                     && s'.waiters == map[]
                     && Answers(payload, s.futures[f].frame)
                     && s'.futures == if s.futures[f].state.Pending?
                                      then s.futures[f := s.futures[f].(state := Valued(payload, |s.notes|))]
                                      else s.futures)
  {
    if s.owner.Some? {
      assert HeldTables(s, s.owner.value);
    }
  }
}
