/** Where the reply lands relative to the send makes no difference.

    The tunnel delivers the reply inside the send, Bluetooth usually after it. */
module ClientOrder {
  import opened Bytes
  import opened Errors
  import opened Frames
  import opened Client
  import opened ClientInvariant

  /** A request that has just taken the lock, and a reply that answers it. */
  ghost predicate Asking(s: State, t: TaskId, reply: Bytes) {
    && Inv(s) && s.owner == Some(t) && IsActive(s, t) && s.connected
    && s.tasks[t].Current().Request? && Answers(reply, FutureOf(s, t).frame)
    && FutureOf(s, t).state.Pending?
    && s.tasks[t].phase.stage.Delivering? && s.tasks[t].phase.send.Unstarted?
    && s.tasks[t].phase.interruption.Calm?
  }

  /** What the invariant gives for such a request. */
  ghost predicate Start(s: State, t: TaskId, reply: Bytes) {
    && s.owner == Some(t) && IsActive(s, t) && s.connected && s.tasks[t].Current().Request?
    && FutureOf(s, t).state.Pending? && FutureOf(s, t).frame == s.tasks[t].Current().frame
    && Answers(reply, FutureOf(s, t).frame) && s.sends == {}
    && s.waiters == map[reply[2] := Waiter(s.tasks[t].phase.future, reply[3])]
    && s.tasks[t].phase.stage.Delivering? && s.tasks[t].phase.send.Unstarted?
    && s.tasks[t].phase.interruption.Calm? && s.tasks[t].phase.index == 0
  }

  /** Steps of an exchange in which nothing fails, in any order: the task's own,
      its reply, the clock, notifications that do not answer it, and other callers
      arriving, queueing and giving up. */
  predicate Smooth(step: Step, t: TaskId, frame: Frame, reply: Bytes) {
    || step in {BeginSend(t), EndSend(t, Delivered), Resume(t), Notify(reply)}
    || step.Tick?
    || (step.Notify? && !Answers(step.payload, frame))
    || ((step.Spawn? || step.Begin? || step.CancelQueued?) && step.task != t)
  }

  function SentFrame(s: State, t: TaskId, acked: bool): Sent
    requires IsActive(s, t)
  {
    var k := s.tasks[t];
    Sent(t, |k.answers|, k.phase.index, k.Current().FrameAt(k.phase.index), acked)
  }

  function Heard(s: State, t: TaskId, reply: Bytes, at: nat): State
    requires IsActive(s, t)
  {
    SetFuture(s, s.tasks[t].phase.future, Valued(reply, at)).(waiters := map[])
  }

  /** The state every such exchange ends in, but for the clock, what was notified
      besides, and other callers: the frame is on the wire once, the lock is free
      and the request has returned `reply`, notification number `at`. */
  function Settled(s: State, t: TaskId, reply: Bytes, at: nat): State
    requires IsActive(s, t)
  {
    var k := s.tasks[t];
    var phase := if |k.answers| + 1 < |k.program| then Idle else Finished;
    Heard(s, t, reply, at).(
      owner := None,
      wire := s.wire + [SentFrame(s, t, true)],
      tasks := s.tasks[t := k.(answers := k.answers + [Returned(reply, k.phase.future)], phase := phase)])
  }

  /** Equal as far as task `t` and the lock are concerned. */
  predicate SameFor(t: TaskId, a: State, b: State) {
    && t in a.tasks && t in b.tasks && a.tasks[t] == b.tasks[t]
    && a.(now := 0, notes := [], bulk := [], bulkEvent := false, tasks := map[])
       == b.(now := 0, notes := [], bulk := [], bulkEvent := false, tasks := map[])
  }

  function TimeOfReply(state: FutureState): nat {
    if state.Valued? then state.at else 0
  }

  /** Midway: which of send and reply have happened, and where the task waits. */
  ghost predicate Midway(s0: State, s: State, t: TaskId, reply: Bytes)
    requires IsActive(s0, t)
  {
    && IsActive(s, t)
    && var p := s.tasks[t].phase;
       var heard := FutureOf(s, t).state.Valued?;
       && p == s0.tasks[t].phase.(stage := p.stage, send := p.send)
       && p.send in {Unstarted, Open, Done(Delivered, true)}
       && (p.stage.AwaitingReply? ==> p.send.Done?) && !p.stage.Collecting? && (p.stage.AwaitingSend? ==> heard)
       && SameFor(t, s, (if heard then Heard(s0, t, reply, TimeOfReply(FutureOf(s, t).state)) else s0).(
            tasks := s0.tasks[t := s0.tasks[t].(phase := p)],
            wire := s0.wire + (if p.send.Unstarted? then [] else [SentFrame(s0, t, p.send.Done?)])))
  }

  /** Over. */
  ghost predicate Over(s0: State, s: State, t: TaskId, reply: Bytes)
    requires IsActive(s0, t)
  {
    var f := s0.tasks[t].phase.future;
    f < |s.futures| && SameFor(t, s, Settled(s0, t, reply, TimeOfReply(s.futures[f].state)))
  }

  /** Midway or over. */
  ghost predicate Along(s0: State, s: State, t: TaskId, reply: Bytes)
    requires IsActive(s0, t)
  {
    Midway(s0, s, t, reply) || Over(s0, s, t, reply)
  }

  lemma SmoothResume(s0: State, s: State, t: TaskId, reply: Bytes)
    requires Start(s0, t, reply) && Midway(s0, s, t, reply) && Resumable(s, t)
    ensures Along(s0, Resumed(s, t), t, reply)
  {
    var p := s.tasks[t].phase;
    var heard := FutureOf(s, t).state.Valued?;
    if heard && p.send.Done? {
      assert Resumed(s, t) == Leave(s, t, Returned(reply, p.future));
      assert Over(s0, Resumed(s, t), t, reply);
    } else if heard {
      assert Resumed(s, t) == SetPhase(s, t, p.(stage := AwaitingSend));
      SmoothWait(s0, s, t, reply, AwaitingSend);
    } else {
      assert Resumed(s, t) == SetPhase(s, t, p.(stage := AwaitingReply));
      SmoothWait(s0, s, t, reply, AwaitingReply);
    }
  }

  lemma SmoothWait(s0: State, s: State, t: TaskId, reply: Bytes, stage: Stage)
    requires Start(s0, t, reply) && Midway(s0, s, t, reply) && !stage.Collecting?
    requires stage.AwaitingReply? ==> s.tasks[t].phase.send.Done?
    requires stage.AwaitingSend? ==> FutureOf(s, t).state.Valued?
    ensures Midway(s0, SetPhase(s, t, s.tasks[t].phase.(stage := stage)), t, reply)
  {
  }

  lemma SmoothBeginSend(s0: State, s: State, t: TaskId, reply: Bytes)
    requires Start(s0, t, reply) && Midway(s0, s, t, reply) && Enabled(s, BeginSend(t))
    ensures Midway(s0, SendBegun(s, t), t, reply)
  {
    assert s.wire == s0.wire;
  }

  lemma SmoothEndSend(s0: State, s: State, t: TaskId, reply: Bytes)
    requires Start(s0, t, reply) && Midway(s0, s, t, reply) && Enabled(s, EndSend(t, Delivered))
    ensures Midway(s0, SendEnded(s, t, Delivered), t, reply)
  {
    assert s.wire == s0.wire + [SentFrame(s0, t, false)];
    assert SendEnded(s, t, Delivered).wire == s0.wire + [SentFrame(s0, t, true)];
  }

  /** Nothing that concerns `t` has changed. */
  lemma StillMidway(s0: State, s: State, s': State, t: TaskId, reply: Bytes)
    requires Start(s0, t, reply) && Midway(s0, s, t, reply) && SameFor(t, s', s)
    ensures Midway(s0, s', t, reply)
  {
    assert s'.futures == s.futures && s'.tasks[t] == s.tasks[t];
  }

  lemma StillOver(s0: State, s: State, s': State, t: TaskId, reply: Bytes)
    requires IsActive(s0, t) && Over(s0, s, t, reply) && SameFor(t, s', s)
    ensures Over(s0, s', t, reply)
  {
    assert s'.futures == s.futures;
  }

  /** Steps that do not concern `t`. */
  predicate Foreign(step: Step, t: TaskId, frame: Frame) {
    || step.Tick?
    || (step.Notify? && !Answers(step.payload, frame))
    || ((step.Spawn? || step.Begin? || step.CancelQueued?) && step.task != t)
  }

  lemma ForeignStep(s: State, t: TaskId, frame: Frame, step: Step)
    requires t in s.tasks && Enabled(s, step) && Foreign(step, t, frame)
    requires forall r <- s.waiters :: r == frame[2] && s.waiters[r].flag == frame[3]
    ensures SameFor(t, Apply(s, step), s)
  {
    if step.Notify? {
      UnmatchedNotification(s, t, frame, step.payload);
    }
  }

  lemma UnmatchedNotification(s: State, t: TaskId, frame: Frame, payload: Bytes)
    requires t in s.tasks && !Answers(payload, frame)
    requires forall r <- s.waiters :: r == frame[2] && s.waiters[r].flag == frame[3]
    ensures SameFor(t, Notified(s, payload), s)
  {
    assert IsHistoryRecord(payload) || !Matches(s, payload);
  }

  lemma SmoothNotify(s0: State, s: State, t: TaskId, reply: Bytes)
    requires Start(s0, t, reply) && Midway(s0, s, t, reply)
    ensures Midway(s0, Notified(s, reply), t, reply)
  {
    if FutureOf(s, t).state.Valued? {
      assert SameFor(t, Notified(s, reply), s);
      StillMidway(s0, s, Notified(s, reply), t, reply);
    } else {
      FirstReply(s0, s, t, reply);
    }
  }

  lemma FirstReply(s0: State, s: State, t: TaskId, reply: Bytes)
    requires Start(s0, t, reply) && Midway(s0, s, t, reply) && !FutureOf(s, t).state.Valued?
    ensures Midway(s0, Notified(s, reply), t, reply)
  {
    assert Notified(s, reply) == Heard(s.(notes := s.notes + [reply]), t, reply, |s.notes|);
  }

  lemma MidwayWaiters(s0: State, s: State, t: TaskId, reply: Bytes)
    requires Start(s0, t, reply) && Midway(s0, s, t, reply)
    ensures var frame := s0.tasks[t].Current().frame;
            forall r <- s.waiters :: r == frame[2] && s.waiters[r].flag == frame[3]
  {
  }

  lemma SmoothStep(s0: State, s: State, t: TaskId, reply: Bytes, step: Step)
    requires Start(s0, t, reply) && Midway(s0, s, t, reply)
    requires Enabled(s, step) && Smooth(step, t, s0.tasks[t].Current().frame, reply)
    ensures Along(s0, Apply(s, step), t, reply)
  {
    if step == Resume(t) {
      SmoothResume(s0, s, t, reply);
    } else if step == BeginSend(t) || step == EndSend(t, Delivered) {
      SmoothSend(s0, s, t, reply, step);
    } else if step == Notify(reply) {
      SmoothNotify(s0, s, t, reply);
    } else {
      SmoothForeign(s0, s, t, reply, step);
    }
  }

  lemma SmoothForeign(s0: State, s: State, t: TaskId, reply: Bytes, step: Step)
    requires Start(s0, t, reply) && Midway(s0, s, t, reply)
    requires Enabled(s, step) && Foreign(step, t, s0.tasks[t].Current().frame)
    ensures Along(s0, Apply(s, step), t, reply)
  {
    MidwayWaiters(s0, s, t, reply);
    ForeignStep(s, t, s0.tasks[t].Current().frame, step);
    StillMidway(s0, s, Apply(s, step), t, reply);
  }

  lemma SmoothSend(s0: State, s: State, t: TaskId, reply: Bytes, step: Step)
    requires Start(s0, t, reply) && Midway(s0, s, t, reply) && Enabled(s, step)
    requires step == BeginSend(t) || step == EndSend(t, Delivered)
    ensures Along(s0, Apply(s, step), t, reply)
  {
    if step.BeginSend? {
      SmoothBeginSend(s0, s, t, reply);
    } else {
      SmoothEndSend(s0, s, t, reply);
    }
  }

  lemma OverStep(s0: State, s: State, t: TaskId, reply: Bytes, step: Step)
    requires Start(s0, t, reply) && Over(s0, s, t, reply)
    requires Enabled(s, step) && Smooth(step, t, s0.tasks[t].Current().frame, reply)
    ensures Over(s0, Apply(s, step), t, reply)
  {
    assert s.waiters == map[] && !s.tasks[t].phase.Active?;
    if step == Notify(reply) {
      assert SameFor(t, Notified(s, reply), s);
    } else {
      ForeignStep(s, t, s0.tasks[t].Current().frame, step);
    }
    StillOver(s0, s, Apply(s, step), t, reply);
  }

  lemma {:induction false} SmoothRun(s0: State, s: State, t: TaskId, reply: Bytes, steps: seq<Step>)
    requires Start(s0, t, reply) && Along(s0, s, t, reply)
    requires Legal(s, steps) && forall step <- steps :: Smooth(step, t, s0.tasks[t].Current().frame, reply)
    ensures Along(s0, Run(s, steps), t, reply)
    decreases |steps|
  {
    if steps != [] {
      if Midway(s0, s, t, reply) {
        SmoothStep(s0, s, t, reply, steps[0]);
      } else {
        OverStep(s0, s, t, reply, steps[0]);
      }
      SmoothRun(s0, Apply(s, steps[0]), t, reply, steps[1..]);
    }
  }

  lemma StartIsMidway(s: State, t: TaskId, reply: Bytes)
    requires Start(s, t, reply)
    ensures Midway(s, s, t, reply)
  {
    assert s.tasks[t].(phase := s.tasks[t].phase) == s.tasks[t] && s.wire + [] == s.wire;
  }

  /** Whatever the order of the send's start and completion, the reply (even
      repeated), other notifications, other callers and the task's turns, once
      the exchange is over the request has returned the reply and the client is
      in one and the same state. */
  lemma OrderDoesNotMatter(s: State, t: TaskId, reply: Bytes, steps: seq<Step>)
    requires Asking(s, t, reply)
    requires Legal(s, steps) && forall step <- steps :: Smooth(step, t, s.tasks[t].Current().frame, reply)
    requires Run(s, steps).owner != Some(t)
    ensures Over(s, Run(s, steps), t, reply)
  {
    assert HeldTables(s, t);
    StartIsMidway(s, t, reply);
    SmoothRun(s, s, t, reply, steps);
  }

  /** The exchange is never stuck before that: the send can go on, or the task
      can, or only the reply is missing. */
  lemma SmoothCanGoOn(s0: State, s: State, t: TaskId, reply: Bytes)
    requires Start(s0, t, reply) && Midway(s0, s, t, reply)
    ensures Enabled(s, BeginSend(t)) || Enabled(s, EndSend(t, Delivered)) || Enabled(s, Resume(t))
            || (FutureOf(s, t).state.Pending? && s.tasks[t].phase.stage.AwaitingReply?)
  {
  }
}
