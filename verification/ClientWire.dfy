/** What reaches the wire: one call's frames in one run, in order, and a commit
    only after everything it commits. */
module ClientWire {
  import opened Errors
  import opened Client
  import opened ClientInvariant

  // ---- The wire invariant ----

  predicate Begun(send: Send) {
    send.Open? || (send.Done? && send.begun)
  }

  /** An entry is a frame of its call, and that call has ended or is at least
      that far. */
  predicate EntryOk(tasks: map<TaskId, Task>, e: Sent) {
    && e.task in tasks
    && var k := tasks[e.task];
       && e.op < |k.program| && e.index < k.program[e.op].Length()
       && e.frame == k.program[e.op].FrameAt(e.index)
       && e.op <= |k.answers|
       && (e.op == |k.answers| ==>
             k.phase.Active? && e.index <= k.phase.index && (e.index == k.phase.index ==> Begun(k.phase.send)))
  }

  ghost predicate EntriesOk(wire: seq<Sent>, tasks: map<TaskId, Task>) {
    forall i | 0 <= i < |wire| :: EntryOk(tasks, wire[i])
  }

  predicate At(e: Sent, t: TaskId, op: nat, index: nat) {
    e.task == t && e.op == op && e.index == index
  }

  /** A later frame of a call directly follows the one before it, acked. */
  ghost predicate Chained(wire: seq<Sent>) {
    forall i | 0 <= i < |wire| && wire[i].index > 0 ::
      i > 0 && At(wire[i - 1], wire[i].task, wire[i].op, wire[i].index - 1) && wire[i - 1].acked
  }

  predicate Earlier(a: Sent, b: Sent) {
    a.op < b.op || (a.op == b.op && a.index < b.index)
  }

  ghost predicate Ordered(wire: seq<Sent>) {
    forall i, j | 0 <= i < j < |wire| && wire[i].task == wire[j].task :: Earlier(wire[i], wire[j])
  }

  /** The end of the wire while `k` holds the lock. */
  predicate EdgeOk(wire: seq<Sent>, t: TaskId, k: Task) {
    k.phase.Active? ==>
      var p := k.phase;
      && (Begun(p.send) ==> wire != [] && At(wire[|wire| - 1], t, |k.answers|, p.index))
      && (p.send.Done? && p.send.outcome.Delivered? ==> p.send.begun && wire != [] && wire[|wire| - 1].acked)
      && (!Begun(p.send) && p.index > 0 ==>
            wire != [] && At(wire[|wire| - 1], t, |k.answers|, p.index - 1) && wire[|wire| - 1].acked)
  }

  predicate LastAcked(wire: seq<Sent>, t: TaskId, op: nat, n: nat) {
    exists i :: 0 <= i < |wire| && At(wire[i], t, op, n) && wire[i].acked
  }

  ghost predicate CompletedOk(wire: seq<Sent>, t: TaskId, k: Task) {
    forall o | 0 <= o < |k.answers| && o < |k.program| && k.answers[o].Completed? && k.program[o].Write?
               && k.program[o].frames != [] ::
      LastAcked(wire, t, o, |k.program[o].frames| - 1)
  }

  ghost predicate WireInv(s: State) {
    && EntriesOk(s.wire, s.tasks) && Chained(s.wire) && Ordered(s.wire)
    && (forall t | t in s.tasks :: EdgeOk(s.wire, t, s.tasks[t]))
    && (forall t | t in s.tasks :: CompletedOk(s.wire, t, s.tasks[t]))
  }

  // ---- Preservation ----

  /** How a task's record moves when the wire does not: its call ends, goes on,
      or it is not in a call. */
  predicate Moves(k: Task, k': Task) {
    && k'.program == k.program
    && (|| (|k'.answers| == |k.answers| + 1 && k.answers <= k'.answers)
        || (&& k'.answers == k.answers
            && (k.phase.Active? ==>
                  k'.phase.Active?
                  && (|| k'.phase.index > k.phase.index
                      || (k'.phase.index == k.phase.index && (Begun(k.phase.send) ==> Begun(k'.phase.send)))))))
  }

  lemma MoveKeepsWire(s: State, s': State, t: TaskId)
    requires WireInv(s) && t in s.tasks && t in s'.tasks
    requires s'.wire == s.wire && s'.tasks == s.tasks[t := s'.tasks[t]]
    requires Moves(s.tasks[t], s'.tasks[t])
    requires EdgeOk(s.wire, t, s'.tasks[t]) && CompletedOk(s.wire, t, s'.tasks[t])
    ensures WireInv(s')
  {
    forall i | 0 <= i < |s.wire|
      ensures EntryOk(s'.tasks, s.wire[i])
    {
      assert EntryOk(s.tasks, s.wire[i]);
    }
  }

  lemma LeaveKeepsWire(s: State, t: TaskId, answer: Answer)
    requires WireInv(s) && IsActive(s, t)
    requires answer.Completed? ==>
               var p := s.tasks[t].phase;
               p.send.Done? && p.send.outcome.Delivered? && p.index + 1 == s.tasks[t].Current().Length()
    ensures WireInv(Leave(s, t, answer))
  {
    var s' := Leave(s, t, answer);
    var k, k' := s.tasks[t], s'.tasks[t];
    assert CompletedOk(s.wire, t, k) && EdgeOk(s.wire, t, k);
    assert k'.answers == k.answers + [answer];
    forall o | 0 <= o < |k'.answers| && o < |k.program| && k'.answers[o].Completed? && k.program[o].Write?
               && k.program[o].frames != []
      ensures LastAcked(s.wire, t, o, |k.program[o].frames| - 1)
    {
      if o == |k.answers| {
        assert At(s.wire[|s.wire| - 1], t, o, k.phase.index) && s.wire[|s.wire| - 1].acked;
      }
    }
    MoveKeepsWire(s, s', t);
  }

  lemma RephaseKeepsWire(s: State, s': State, t: TaskId)
    requires WireInv(s) && IsActive(s, t) && t in s'.tasks && s'.tasks[t].phase.Active?
    requires s'.wire == s.wire && s'.tasks == s.tasks[t := s.tasks[t].(phase := s'.tasks[t].phase)]
    requires s'.tasks[t].phase.send == s.tasks[t].phase.send && s'.tasks[t].phase.index == s.tasks[t].phase.index
    ensures WireInv(s')
  {
    assert EdgeOk(s.wire, t, s.tasks[t]) && CompletedOk(s.wire, t, s.tasks[t]);
    MoveKeepsWire(s, s', t);
  }

  lemma NextFrameKeepsWire(s: State, t: TaskId)
    requires WireInv(s) && IsActive(s, t) && s.tasks[t].phase.index + 1 < s.tasks[t].Current().Length()
    requires s.tasks[t].phase.send.Done? && s.tasks[t].phase.send.outcome.Delivered?
    ensures WireInv(Launch(s.(sends := s.sends - {s.tasks[t].phase.future}), t, s.tasks[t].phase.index + 1))
  {
    assert EdgeOk(s.wire, t, s.tasks[t]) && CompletedOk(s.wire, t, s.tasks[t]);
    MoveKeepsWire(s, Launch(s.(sends := s.sends - {s.tasks[t].phase.future}), t, s.tasks[t].phase.index + 1), t);
  }

  lemma EnterKeepsWire(s: State, t: TaskId)
    requires WireInv(s) && Enabled(s, Acquire(t))
    ensures WireInv(Enter(s, t))
  {
    assert CompletedOk(s.wire, t, s.tasks[t]);
    EnterMoves(s, t);
    MoveKeepsWire(s, Enter(s, t), t);
  }

  lemma EnterMoves(s: State, t: TaskId)
    requires Enabled(s, Acquire(t))
    ensures var s' := Enter(s, t);
            && s'.wire == s.wire && t in s'.tasks && s'.tasks == s.tasks[t := s'.tasks[t]]
            && s'.tasks[t] == s.tasks[t].(phase := s'.tasks[t].phase)
            && s'.tasks[t].phase.Active? && s'.tasks[t].phase.index == 0 && s'.tasks[t].phase.send.Unstarted?
  {
  }

  lemma TakeReplyKeepsWire(s: State, t: TaskId)
    requires WireInv(s) && IsActive(s, t)
    ensures WireInv(TakeReply(s, t))
  {
    var p := s.tasks[t].phase;
    match FutureOf(s, t).state
    case Pending => RephaseKeepsWire(s, TakeReply(s, t), t);
    case Valued(payload, _) => LeaveKeepsWire(s, t, Returned(payload, p.future));
    case Broken(error) => LeaveKeepsWire(s, t, Failed(error));
    case Voided => LeaveKeepsWire(s, t, Cancelled);
  }

  lemma TurnKeepsWire(s: State, t: TaskId)
    requires WireInv(s) && IsActive(s, t)
    ensures WireInv(WaitForRecords(s, t))
  {
    var cleared := s.(bulkEvent := false);
    if s.tasks[t].phase.deadline <= s.now {
      LeaveKeepsWire(cleared, t, Collection(s, t));
    } else {
      RephaseKeepsWire(s, WaitForRecords(s, t), t);
    }
  }

  lemma DeliveryKeepsWire(s: State, t: TaskId)
    requires WireInv(s) && IsActive(s, t)
    requires s.tasks[t].phase.send.Done? && s.tasks[t].phase.send.outcome.Delivered?
    ensures WireInv(AfterDelivery(s, t))
  {
    match s.tasks[t].Current()
    case Request(_) => TakeReplyKeepsWire(s, t);
    case Write(frames) =>
      if s.tasks[t].phase.index + 1 < |frames| {
        NextFrameKeepsWire(s, t);
      } else {
        LeaveKeepsWire(s, t, Completed);
      }
    case History(_) =>
      RephaseKeepsWire(s, StartCollecting(s, t), t);
      TurnKeepsWire(StartCollecting(s, t), t);
  }

  lemma ResumedKeepsWire(s: State, t: TaskId)
    requires WireInv(s) && Resumable(s, t)
    ensures WireInv(Resumed(s, t))
  {
    var p := s.tasks[t].phase;
    if p.interruption.Thrown? {
      LeaveKeepsWire(s, t, Unwound(p.interruption.why));
    } else if p.stage.Collecting? {
      TurnKeepsWire(s, t);
    } else if p.stage.AwaitingReply? {
      TakeReplyKeepsWire(s, t);
    } else if p.send.Done? && p.send.outcome.Delivered? {
      DeliveryKeepsWire(s, t);
    } else if p.send.Done? {
      LeaveKeepsWire(s, t, Mapped(p.send.outcome.failure, p.interruption));
    } else if FutureOf(s, t).state.Broken? {
      LeaveKeepsWire(s, t, Failed(FutureOf(s, t).state.error));
    } else {
      RephaseKeepsWire(s, Resumed(s, t), t);
    }
  }

  lemma InterruptedKeepsWire(s: State, t: TaskId, why: Why)
    requires WireInv(s) && IsActive(s, t)
    ensures WireInv(Interrupted(s, t, why))
  {
    InterruptMarks(s, t, why);
    RephaseKeepsWire(s, Interrupted(s, t, why), t);
  }

  lemma AppendKeepsOrder(wire: seq<Sent>, e: Sent)
    requires Chained(wire) && Ordered(wire)
    requires e.index > 0 ==>
               wire != [] && At(wire[|wire| - 1], e.task, e.op, e.index - 1) && wire[|wire| - 1].acked
    requires forall i | 0 <= i < |wire| && wire[i].task == e.task :: Earlier(wire[i], e)
    ensures Chained(wire + [e]) && Ordered(wire + [e])
  {
  }

  /** Handing a frame over puts it last, after all of its task's earlier ones. */
  lemma SendBegunKeepsWire(s: State, t: TaskId)
    requires Inv(s) && WireInv(s) && Enabled(s, BeginSend(t))
    ensures WireInv(SendBegun(s, t))
  {
    if s.tasks[t].phase.interruption.Asked? || !s.connected {
      RefusedSendKeepsWire(s, t);
    } else {
      HandOverKeepsWire(s, t);
    }
  }

  lemma RefusedSendKeepsWire(s: State, t: TaskId)
    requires WireInv(s) && Enabled(s, BeginSend(t)) && (s.tasks[t].phase.interruption.Asked? || !s.connected)
    ensures WireInv(SendBegun(s, t))
  {
    assert EdgeOk(s.wire, t, s.tasks[t]) && CompletedOk(s.wire, t, s.tasks[t]);
    MoveKeepsWire(s, SendBegun(s, t), t);
  }

  lemma HandOverKeepsWire(s: State, t: TaskId)
    requires Inv(s) && WireInv(s) && Enabled(s, BeginSend(t)) && s.connected
    requires !s.tasks[t].phase.interruption.Asked?
    ensures WireInv(SendBegun(s, t))
  {
    var k := s.tasks[t];
    HandedOverKeepsWire(s, SendBegun(s, t), t,
                        Sent(t, |k.answers|, k.phase.index, k.Current().FrameAt(k.phase.index), false));
  }

  lemma HandedOverKeepsWire(s: State, s': State, t: TaskId, e: Sent)
    requires Inv(s) && WireInv(s) && s.owner == Some(t) && IsActive(s, t) && s.tasks[t].phase.send.Unstarted?
    requires At(e, t, |s.tasks[t].answers|, s.tasks[t].phase.index)
    requires e.frame == s.tasks[t].Current().FrameAt(s.tasks[t].phase.index)
    requires s'.wire == s.wire + [e]
    requires s'.tasks == s.tasks[t := s.tasks[t].(phase := s.tasks[t].phase.(send := Open))]
    ensures WireInv(s')
  {
    assert EdgeOk(s.wire, t, s.tasks[t]);
    EntriesBeforeHandOver(s.wire, s.tasks, t, s'.tasks[t], e);
    assert EntryOk(s'.tasks, e);
    AppendKeepsOrder(s.wire, e);
    WireGrows(s, s', t);
  }

  lemma EntriesBeforeHandOver(wire: seq<Sent>, tasks: map<TaskId, Task>, t: TaskId, k': Task, e: Sent)
    requires EntriesOk(wire, tasks) && t in tasks && tasks[t].phase.Active? && tasks[t].phase.send.Unstarted?
    requires k' == tasks[t].(phase := tasks[t].phase.(send := Open))
    requires At(e, t, |k'.answers|, k'.phase.index)
    ensures EntriesOk(wire, tasks[t := k'])
    ensures forall i | 0 <= i < |wire| && wire[i].task == t :: Earlier(wire[i], e)
  {
    forall i | 0 <= i < |wire|
      ensures EntryOk(tasks[t := k'], wire[i]) && (wire[i].task == t ==> Earlier(wire[i], e))
    {
      assert EntryOk(tasks, wire[i]);
    }
  }

  /** Only the lock holder has an edge to keep when the wire changes at its end. */
  lemma WireGrows(s: State, s': State, t: TaskId)
    requires Inv(s) && WireInv(s) && s.owner == Some(t) && t in s'.tasks
    requires s'.tasks == s.tasks[t := s.tasks[t].(phase := s'.tasks[t].phase)]
    requires |s.wire| <= |s'.wire|
    requires forall i | 0 <= i < |s.wire| ::
               s'.wire[i] == s.wire[i].(acked := s'.wire[i].acked) && (s.wire[i].acked ==> s'.wire[i].acked)
    requires EdgeOk(s'.wire, t, s'.tasks[t])
    ensures forall u | u in s'.tasks :: EdgeOk(s'.wire, u, s'.tasks[u])
    ensures forall u | u in s'.tasks :: CompletedOk(s'.wire, u, s'.tasks[u])
  {
    forall u | u in s'.tasks
      ensures CompletedOk(s'.wire, u, s'.tasks[u])
    {
      var k := s.tasks[u];
      assert CompletedOk(s.wire, u, k);
      forall o | 0 <= o < |k.answers| && o < |k.program| && k.answers[o].Completed? && k.program[o].Write?
                 && k.program[o].frames != []
        ensures LastAcked(s'.wire, u, o, |k.program[o].frames| - 1)
      {
        assert LastAcked(s.wire, u, o, |k.program[o].frames| - 1);
        var i :| 0 <= i < |s.wire| && At(s.wire[i], u, o, |k.program[o].frames| - 1) && s.wire[i].acked;
        assert At(s'.wire[i], u, o, |k.program[o].frames| - 1) && s'.wire[i].acked;
      }
    }
  }

  lemma SendEndedKeepsWire(s: State, t: TaskId, outcome: Outcome)
    requires Inv(s) && WireInv(s) && Enabled(s, EndSend(t, outcome))
    ensures WireInv(SendEnded(s, t, outcome))
  {
    var s' := SendEnded(s, t, outcome);
    var last := |s.wire| - 1;
    var p := s.tasks[t].phase;
    assert EdgeOk(s.wire, t, s.tasks[t]);
    assert s'.tasks == s.tasks[t := s.tasks[t].(phase := p.(send := Done(outcome, true)))];
    assert s'.wire == if outcome.Delivered? then s.wire[last := s.wire[last].(acked := true)] else s.wire;
    EntriesAfterEnd(s.wire, s'.wire, s.tasks, t, outcome);
    AckKeepsOrder(s.wire, s'.wire);
    WireGrows(s, s', t);
  }

  lemma EntriesAfterEnd(wire: seq<Sent>, wire': seq<Sent>, tasks: map<TaskId, Task>, t: TaskId, outcome: Outcome)
    requires EntriesOk(wire, tasks) && t in tasks && tasks[t].phase.Active? && |wire'| == |wire|
    requires forall i | 0 <= i < |wire| :: wire'[i] == wire[i].(acked := wire'[i].acked)
    ensures EntriesOk(wire', tasks[t := tasks[t].(phase := tasks[t].phase.(send := Done(outcome, true)))])
  {
    var tasks' := tasks[t := tasks[t].(phase := tasks[t].phase.(send := Done(outcome, true)))];
    forall i | 0 <= i < |wire'|
      ensures EntryOk(tasks', wire'[i])
    {
      assert EntryOk(tasks, wire[i]);
    }
  }

  lemma AckKeepsOrder(wire: seq<Sent>, wire': seq<Sent>)
    requires Chained(wire) && Ordered(wire) && |wire'| == |wire|
    requires forall i | 0 <= i < |wire| ::
               wire'[i] == wire[i].(acked := wire'[i].acked) && (wire[i].acked ==> wire'[i].acked)
    ensures Chained(wire') && Ordered(wire')
  {
  }

  lemma StepKeepsWire(s: State, step: Step)
    requires Inv(s) && WireInv(s) && Enabled(s, step)
    ensures WireInv(Apply(s, step))
  {
    if step.Resume? {
      ResumedKeepsWire(s, step.task);
    } else if step.Acquire? {
      EnterKeepsWire(s, step.task);
    } else if step.BeginSend? {
      SendBegunKeepsWire(s, step.task);
    } else if step.EndSend? {
      SendEndedKeepsWire(s, step.task, step.outcome);
    } else if step.Interrupt? {
      InterruptedKeepsWire(s, step.task, step.why);
    } else if step.IdleOut? {
      LeaveKeepsWire(s, step.task, Collection(s, step.task));
    } else {
      OtherStepKeepsWire(s, step);
    }
  }

  lemma OtherStepKeepsWire(s: State, step: Step)
    requires Inv(s) && WireInv(s) && Enabled(s, step)
    requires !step.Resume? && !step.Acquire? && !step.BeginSend? && !step.EndSend? && !step.Interrupt? && !step.IdleOut?
    ensures WireInv(Apply(s, step))
  {
    if step.Spawn? {
      SpawnKeepsWire(s, step.task, step.program);
    } else if step.Begin? || step.CancelQueued? {
      BystanderKeepsWire(s, Apply(s, step), step.task);
    } else {
      StepTouches(s, step);
    }
  }

  lemma SpawnKeepsWire(s: State, t: TaskId, program: seq<Op>)
    requires WireInv(s) && t !in s.tasks
    ensures WireInv(s.(tasks := s.tasks[t := Task(program, [], Idle)]))
  {
    forall i | 0 <= i < |s.wire|
      ensures EntryOk(s.tasks[t := Task(program, [], Idle)], s.wire[i])
    {
      assert EntryOk(s.tasks, s.wire[i]);
    }
  }

  lemma BystanderKeepsWire(s: State, s': State, t: TaskId)
    requires WireInv(s) && t in s.tasks && t in s'.tasks && !s.tasks[t].phase.Active?
    requires s' == s.(tasks := s.tasks[t := s'.tasks[t]]) && s'.tasks[t].program == s.tasks[t].program
    requires !s'.tasks[t].phase.Active?
    requires || s'.tasks[t].answers == s.tasks[t].answers
             || s'.tasks[t].answers == s.tasks[t].answers + [Failed(ConnectionError)]
             || s'.tasks[t].answers == s.tasks[t].answers + [Cancelled]
    ensures WireInv(s')
  {
    assert CompletedOk(s.wire, t, s.tasks[t]);
    MoveKeepsWire(s, s', t);
  }

  lemma {:induction false} RunKeepsWire(s: State, steps: seq<Step>)
    requires Inv(s) && WireInv(s) && Legal(s, steps)
    ensures Inv(Run(s, steps)) && WireInv(Run(s, steps))
    decreases |steps|
  {
    if steps != [] {
      StepInv(s, steps[0]);
      StepKeepsWire(s, steps[0]);
      RunKeepsWire(Apply(s, steps[0]), steps[1..]);
    }
  }

  /** The send of the lock holder's frame leaves its task. */
  predicate HandsOver(s: State, step: Step) {
    step.BeginSend? && IsActive(s, step.task) && s.connected && !s.tasks[step.task].phase.interruption.Asked?
  }

  /** A frame reaches the transport exactly when a send starts on a link that is
      up and was not cancelled before it started; it is the frame its task has come
      to. Otherwise the send fails without a trace: as a connection error on a
      link that is down, as cancelled if it was cancelled. An entry is acked
      exactly when its send is acknowledged. */
  lemma FramesLeaveExactlyWhenSent(s: State, step: Step)
    requires Inv(s) && WireInv(s) && Enabled(s, step)
    ensures var wire := Apply(s, step).wire;
            if HandsOver(s, step) then
              var k := s.tasks[step.task];
              wire == s.wire + [Sent(step.task, |k.answers|, k.phase.index,
                                     k.program[|k.answers|].FrameAt(k.phase.index), false)]
            else if step.EndSend? && step.outcome.Delivered? then
              |wire| == |s.wire| > 0 && wire[..|wire| - 1] == s.wire[..|wire| - 1]
              && wire[|wire| - 1] == s.wire[|wire| - 1].(acked := true)
              && At(wire[|wire| - 1], step.task, |s.tasks[step.task].answers|, s.tasks[step.task].phase.index)
            else wire == s.wire
    ensures step.BeginSend? && !HandsOver(s, step) ==>
              Apply(s, step).tasks[step.task].phase.send
              == Done(Raised(if s.tasks[step.task].phase.interruption.Asked? then Stopped
                             else Package(ConnectionError)), false)
  {
    if step.BeginSend? || step.EndSend? {
      SendLeavesExactly(s, step);
    } else {
      StepTouches(s, step);
    }
  }

  lemma SendLeavesExactly(s: State, step: Step)
    requires WireInv(s) && Enabled(s, step) && (step.BeginSend? || step.EndSend?)
    ensures var wire := Apply(s, step).wire;
            if HandsOver(s, step) then
              var k := s.tasks[step.task];
              wire == s.wire + [Sent(step.task, |k.answers|, k.phase.index,
                                     k.program[|k.answers|].FrameAt(k.phase.index), false)]
            else if step.EndSend? && step.outcome.Delivered? then
              |wire| == |s.wire| > 0 && wire[..|wire| - 1] == s.wire[..|wire| - 1]
              && wire[|wire| - 1] == s.wire[|wire| - 1].(acked := true)
              && At(wire[|wire| - 1], step.task, |s.tasks[step.task].answers|, s.tasks[step.task].phase.index)
            else wire == s.wire
    ensures step.BeginSend? && !HandsOver(s, step) ==>
              Apply(s, step).tasks[step.task].phase.send
              == Done(Raised(if s.tasks[step.task].phase.interruption.Asked? then Stopped
                             else Package(ConnectionError)), false)
  {
    assert EdgeOk(s.wire, step.task, s.tasks[step.task]);
  }

  // ---- Results for every run ----

  predicate Of(e: Sent, t: TaskId, op: nat) {
    e.task == t && e.op == op
  }

  /** The frames of call `op` of `t` on the wire are its first `n`, in order, in
      one run from `start`, and nowhere else. */
  ghost predicate Block(s: State, t: TaskId, op: nat, start: nat, n: nat) {
    && t in s.tasks && op < |s.tasks[t].program|
    && start + n <= |s.wire| && n <= s.tasks[t].program[op].Length()
    && (forall i | start <= i < start + n ::
          At(s.wire[i], t, op, i - start) && s.wire[i].frame == s.tasks[t].program[op].FrameAt(i - start))
    && (forall k | 0 <= k < |s.wire| :: Of(s.wire[k], t, op) <==> start <= k < start + n)
  }

  predicate AckedBetween(wire: seq<Sent>, from: nat, upto: nat) {
    from <= upto <= |wire| && forall i | from <= i < upto :: wire[i].acked
  }

  lemma {:induction false} ChainBack(wire: seq<Sent>, i: nat, d: nat)
    requires Chained(wire) && i < |wire| && d <= wire[i].index
    ensures d <= i && At(wire[i - d], wire[i].task, wire[i].op, wire[i].index - d)
    ensures d > 0 ==> wire[i - d].acked
    decreases d
  {
    if d > 0 {
      ChainBack(wire, i, d - 1);
    }
  }

  /** Everything of a call lies at or before its last entry and after its first. */
  lemma LastEntry(wire: seq<Sent>, t: TaskId, op: nat) returns (last: int)
    ensures -1 <= last < |wire|
    ensures last >= 0 ==> Of(wire[last], t, op)
    ensures forall k | last < k < |wire| :: !Of(wire[k], t, op)
  {
    last := |wire| - 1;
    while last >= 0 && !Of(wire[last], t, op)
      invariant -1 <= last < |wire|
      invariant forall k | last < k < |wire| :: !Of(wire[k], t, op)
    {
      last := last - 1;
    }
  }

  lemma OneRun(wire: seq<Sent>, t: TaskId, op: nat) returns (start: nat, n: nat)
    requires Chained(wire) && Ordered(wire)
    ensures start + n <= |wire|
    ensures forall i | start <= i < start + n :: At(wire[i], t, op, i - start)
    ensures forall k | 0 <= k < |wire| :: Of(wire[k], t, op) <==> start <= k < start + n
    ensures AckedBetween(wire, start, if n == 0 then start else start + n - 1)
  {
    var last := LastEntry(wire, t, op);
    if last < 0 {
      start, n := 0, 0;
    } else {
      n := wire[last].index + 1;
      ChainBack(wire, last, n - 1);
      start := last - wire[last].index;
      forall i | start <= i < start + n
        ensures At(wire[i], t, op, i - start) && (i < last ==> wire[i].acked)
      {
        ChainBack(wire, last, last - i);
      }
      forall k | 0 <= k < start
        ensures !Of(wire[k], t, op)
      {
        assert At(wire[start], t, op, 0);
        assert wire[k].task == t ==> Earlier(wire[k], wire[start]);
      }
    }
  }

  lemma CallIsOneBlock(s: State, t: TaskId, op: nat) returns (start: nat, n: nat)
    requires WireInv(s) && t in s.tasks && op < |s.tasks[t].program|
    ensures Block(s, t, op, start, n)
    ensures AckedBetween(s.wire, start, if n == 0 then start else start + n - 1)
    ensures op < |s.tasks[t].answers| && s.tasks[t].answers[op].Completed? && s.tasks[t].program[op].Write?
            && s.tasks[t].program[op].WellFormed()
            ==> n == s.tasks[t].program[op].Length() && AckedBetween(s.wire, start, start + n)
  {
    start, n := OneRun(s.wire, t, op);
    forall i | start <= i < start + n
      ensures i - start < s.tasks[t].program[op].Length()
      ensures s.wire[i].frame == s.tasks[t].program[op].FrameAt(i - start)
    {
      assert EntryOk(s.tasks, s.wire[i]) && At(s.wire[i], t, op, i - start);
    }
    if n > 0 {
      assert At(s.wire[start + n - 1], t, op, n - 1);
    }
    if op < |s.tasks[t].answers| && s.tasks[t].answers[op].Completed? && s.tasks[t].program[op].Write?
       && s.tasks[t].program[op].WellFormed() {
      CompletedBlock(s, t, op, start, n);
    }
  }

  lemma CompletedBlock(s: State, t: TaskId, op: nat, start: nat, n: nat)
    requires WireInv(s) && Block(s, t, op, start, n)
    requires AckedBetween(s.wire, start, if n == 0 then start else start + n - 1)
    requires op < |s.tasks[t].answers| && s.tasks[t].answers[op].Completed?
    requires s.tasks[t].program[op].Write? && s.tasks[t].program[op].WellFormed()
    ensures n == s.tasks[t].program[op].Length() && AckedBetween(s.wire, start, start + n)
  {
    var final := |s.tasks[t].program[op].frames| - 1;
    assert CompletedOk(s.wire, t, s.tasks[t]);
    assert LastAcked(s.wire, t, op, final);
    var i :| 0 <= i < |s.wire| && At(s.wire[i], t, op, final) && s.wire[i].acked;
    InBlock(s, t, op, start, n, i);
  }

  lemma InBlock(s: State, t: TaskId, op: nat, start: nat, n: nat, i: nat)
    requires Block(s, t, op, start, n) && i < |s.wire| && Of(s.wire[i], t, op)
    ensures start <= i < start + n && s.wire[i].index == i - start
  {
    assert At(s.wire[i], t, op, i - start);
  }

  /** On the wire of any interleaving each call's frames form one run: all of
      them, each acked, if the call completed, and otherwise a prefix of which
      at most the last is unacked. */
  lemma CallsAreContiguous(timeout: nat, steps: seq<Step>, t: TaskId, op: nat)
    requires Legal(Init(timeout), steps)
    requires var s := Run(Init(timeout), steps); t in s.tasks && op < |s.tasks[t].program|
    ensures var s := Run(Init(timeout), steps);
            exists start: nat, n: nat ::
              && Block(s, t, op, start, n)
              && AckedBetween(s.wire, start, if n == 0 then start else start + n - 1)
              && (op < |s.tasks[t].answers| && s.tasks[t].answers[op].Completed? ==>
                    n == s.tasks[t].program[op].Length() && AckedBetween(s.wire, start, start + n))
  {
    InitInv(timeout);
    RunKeepsWire(Init(timeout), steps);
    var s := Run(Init(timeout), steps);
    if op < |s.tasks[t].answers| {
      assert AnswerOk(s.futures, t, s.tasks[t], op);
    }
    var start, n := CallIsOneBlock(s, t, op);
  }

  /** A frame of a later call of the same task, such as a setter's commit, is on
      the wire only if every frame of each earlier write is already there, in
      one run before it, and acked. */
  lemma CommitFollowsItsFrames(timeout: nat, steps: seq<Step>, k: nat, op: nat)
    requires Legal(Init(timeout), steps)
    requires var s := Run(Init(timeout), steps);
             k < |s.wire| && op < s.wire[k].op
    ensures var s := Run(Init(timeout), steps);
            var t := s.wire[k].task;
            && t in s.tasks && op < |s.tasks[t].program|
            && (s.tasks[t].program[op].Write? ==>
                  exists start: nat ::
                    var n := s.tasks[t].program[op].Length();
                    Block(s, t, op, start, n) && AckedBetween(s.wire, start, start + n) && start + n <= k)
  {
    InitInv(timeout);
    RunKeepsWire(Init(timeout), steps);
    var s := Run(Init(timeout), steps);
    var t := s.wire[k].task;
    assert EntryOk(s.tasks, s.wire[k]);
    if s.tasks[t].program[op].Write? {
      assert AnswerOk(s.futures, t, s.tasks[t], op);
      assert s.tasks[t].answers[op].Success();
      var start, n := CallIsOneBlock(s, t, op);
      assert s.tasks[t].program[op] in s.tasks[t].program;
      assert n > 0 && At(s.wire[start + n - 1], t, op, n - 1);
    }
  }
}
