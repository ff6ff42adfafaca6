/** A configuration written among concurrent callers is the one the charger then
    holds, exactly unless a frame abandoned earlier is still on its way. */
module ClientConfig {
  import opened Bytes
  import opened Errors
  import opened Frames
  import opened Client
  import opened ClientInvariant
  import opened ClientDrop
  import opened ClientWire
  import opened Config
  import opened Pieces
  import opened Charger

  // ---- A batch under way ----

  ghost predicate Batch(frames: seq<Frame>) {
    frames != [] && forall f <- frames :: Fits(f) && AgreesWithAll(f, frames)
  }

  /** No frame handed over that may still arrive disagrees with the batch. */
  ghost predicate Unopposed(w: World, frames: seq<Frame>) {
    forall i | 0 <= i < |w.client.wire| && i !in w.taken :: AgreesWithAll(w.client.wire[i].frame, frames)
  }

  /** Nor does any frame handed over from wire entry `b` on. */
  ghost predicate Unrivalled(wire: seq<Sent>, b: nat, frames: seq<Frame>) {
    forall i | b <= i < |wire| :: AgreesWithAll(wire[i].frame, frames)
  }

  function Count(send: Send): nat {
    if Begun(send) then 1 else 0
  }

  /** Task `t` writes the batch as its call `k`, from wire entry `b` on: the
      charger keeps every frame of it that it has got, and it has got all but
      perhaps the last one handed over. */
  ghost predicate Writing(w: World, b: nat, t: TaskId, k: nat, frames: seq<Frame>) {
    var s := w.client;
    && s.owner == Some(t) && IsActive(s, t) && |s.tasks[t].answers| == k && s.tasks[t].Current() == Write(frames)
    && WritingPhase(s.wire, w.memory, w.taken, b, s.tasks[t].phase, frames)
  }

  ghost predicate WritingPhase(wire: seq<Sent>, m: Memory, taken: set<nat>, b: nat, p: Phase, frames: seq<Frame>) {
    && p.Active? && p.index < |frames| && |wire| == b + p.index + Count(p.send)
    && (forall i | 0 <= i < p.index :: Kept(m, frames[i]))
    && (Begun(p.send) ==> wire[b + p.index].frame == frames[p.index])
    && (b + p.index in taken ==> Kept(m, frames[p.index]))
    && (p.send.Done? && p.send.outcome.Delivered? ==> p.send.begun && b + p.index in taken)
  }

  ghost predicate Written(w: World, b: nat, t: TaskId, k: nat, frames: seq<Frame>) {
    && |w.client.wire| > b && Answered(w.client, t, k) && w.client.tasks[t].answers[k] == Completed
    && forall f <- frames :: Kept(w.memory, f)
  }

  predicate Answered(s: State, t: TaskId, k: nat) {
    t in s.tasks && k < |s.tasks[t].answers|
  }

  predicate BrokenOff(s: State, t: TaskId, k: nat) {
    Answered(s, t, k) && s.tasks[t].answers[k] != Completed
  }

  // ---- What the charger gets ----

  lemma AgreeingFrameKeepsAll(m: Memory, g: Frame, frames: seq<Frame>)
    requires AgreesWithAll(g, frames)
    ensures forall f <- frames :: Kept(m, f) ==> Kept(Accept(m, g), f)
  {
    forall f | f in frames && Kept(m, f)
      ensures Kept(Accept(m, g), f)
    {
      AcceptKeepsExactlyAgreeing(m, g, f);
    }
  }

  lemma TakeWhileWriting(w: World, i: nat, b: nat, t: TaskId, k: nat, frames: seq<Frame>)
    requires WorldOk(w) && Batch(frames) && Unopposed(w, frames) && Writing(w, b, t, k, frames)
    requires Possible(w, Takes(i))
    ensures Writing(Next(w, Takes(i)), b, t, k, frames)
  {
    TakeKeepsPhase(w.client.wire, w.memory, w.taken, b, w.client.tasks[t].phase, frames, i);
  }

  lemma TakeKeepsPhase(wire: seq<Sent>, m: Memory, taken: set<nat>, b: nat, p: Phase, frames: seq<Frame>, i: nat)
    requires Batch(frames) && WritingPhase(wire, m, taken, b, p, frames) && i < |wire|
    requires AgreesWithAll(wire[i].frame, frames) || i == b + p.index
    ensures WritingPhase(wire, Accept(m, wire[i].frame), taken + {i}, b, p, frames)
  {
    var g := wire[i].frame;
    if i == b + p.index {
      assert g == frames[p.index];
      AcceptKeepsWritten(m, g);
    }
    AgreeingFrameKeepsAll(m, g, frames);
  }

  lemma TakeWhenWritten(w: World, i: nat, b: nat, t: TaskId, k: nat, frames: seq<Frame>)
    requires WorldOk(w) && Unopposed(w, frames) && Written(w, b, t, k, frames)
    requires Unrivalled(w.client.wire, b, frames) && Possible(w, Takes(i))
    ensures Written(Next(w, Takes(i)), b, t, k, frames)
  {
    AgreeingFrameKeepsAll(w.memory, w.client.wire[i].frame, frames);
  }

  // ---- What the client does meanwhile ----

  lemma OwnerBeginsSend(w: World, b: nat, t: TaskId, k: nat, frames: seq<Frame>)
    requires WorldOk(w) && Writing(w, b, t, k, frames) && Possible(w, Does(BeginSend(t)))
    ensures Writing(Next(w, Does(BeginSend(t))), b, t, k, frames)
  {
    var s, s' := w.client, SendBegun(w.client, t);
    var p, p' := s.tasks[t].phase, s'.tasks[t].phase;
    assert s'.owner == s.owner && s'.futures == s.futures && s'.tasks[t] == s.tasks[t].(phase := p');
    assert p' == p.(send := p'.send);
    assert |s'.wire| == b + p.index + Count(p'.send);
    assert b + p.index !in w.taken;
  }

  lemma OwnerEndsSend(w: World, outcome: Outcome, b: nat, t: TaskId, k: nat, frames: seq<Frame>)
    requires WorldOk(w) && Writing(w, b, t, k, frames) && Possible(w, Does(EndSend(t, outcome)))
    ensures Writing(Next(w, Does(EndSend(t, outcome))), b, t, k, frames)
  {
    var s, s' := w.client, SendEnded(w.client, t, outcome);
    var p, p' := s.tasks[t].phase, s'.tasks[t].phase;
    assert s'.owner == s.owner && s'.futures == s.futures && s'.tasks[t] == s.tasks[t].(phase := p');
    assert p' == p.(send := Done(outcome, true));
    assert |s.wire| == b + p.index + 1;
    StepGrowsWire(s, EndSend(t, outcome));
    SendEndKeepsPhase(s.wire, s'.wire, w.memory, w.taken, b, p, outcome, frames);
  }

  lemma SendEndKeepsPhase(wire: seq<Sent>, wire': seq<Sent>, m: Memory, taken: set<nat>, b: nat, p: Phase,
                          outcome: Outcome, frames: seq<Frame>)
    requires WritingPhase(wire, m, taken, b, p, frames) && p.send.Open?
    requires Grows(wire, wire') && |wire'| == |wire|
    requires outcome.Delivered? ==> |wire| - 1 in taken
    ensures WritingPhase(wire', m, taken, b, p.(send := Done(outcome, true)), frames)
  {
  }

  lemma OwnerIsInterrupted(w: World, why: Why, b: nat, t: TaskId, k: nat, frames: seq<Frame>)
    requires WorldOk(w) && Writing(w, b, t, k, frames) && Possible(w, Does(Interrupt(t, why)))
    ensures Writing(Next(w, Does(Interrupt(t, why))), b, t, k, frames)
  {
    var s' := Interrupted(w.client, t, why);
    InterruptMarks(w.client, t, why);
    MarkedWriting(w, w.(client := s'), b, t, k, frames);
    SameClientWriting(w.(client := s'), Next(w, Does(Interrupt(t, why))), b, t, k, frames);
  }

  lemma MarkedWriting(w: World, w': World, b: nat, t: TaskId, k: nat, frames: seq<Frame>)
    requires Writing(w, b, t, k, frames) && w'.memory == w.memory && w'.taken == w.taken
    requires var (s, s') := (w.client, w'.client);
             && t in s.tasks && s.tasks[t].phase.Active? && t in s'.tasks && s'.tasks[t].phase.Active?
             && s'.owner == s.owner && s'.wire == s.wire && |s'.futures| == |s.futures|
             && s'.tasks[t] == s.tasks[t].(phase := s.tasks[t].phase.(interruption := s'.tasks[t].phase.interruption))
    ensures Writing(w', b, t, k, frames)
  {
  }

  lemma OwnerGoesOn(w: World, b: nat, t: TaskId, k: nat, frames: seq<Frame>)
    requires WorldOk(w) && Writing(w, b, t, k, frames) && w.client.tasks[t].phase.index + 1 < |frames|
    requires w.client.tasks[t].phase.send.Done? && w.client.tasks[t].phase.send.outcome.Delivered?
    ensures var p := w.client.tasks[t].phase;
            var s' := Launch(w.client.(sends := w.client.sends - {p.future}), t, p.index + 1);
            Writing(w.(client := s'), b, t, k, frames)
  {
    assert |w.client.wire| !in w.taken;
  }

  lemma AllAreKept(m: Memory, frames: seq<Frame>)
    requires forall i | 0 <= i < |frames| :: Kept(m, frames[i])
    ensures forall f <- frames :: Kept(m, f)
  {
  }

  lemma OwnerCompletes(w: World, b: nat, t: TaskId, k: nat, frames: seq<Frame>)
    requires WorldOk(w) && Writing(w, b, t, k, frames) && w.client.tasks[t].phase.index + 1 == |frames|
    requires w.client.tasks[t].phase.send.Done? && w.client.tasks[t].phase.send.outcome.Delivered?
    ensures Written(w.(client := Leave(w.client, t, Completed)), b, t, k, frames)
  {
    AllAreKept(w.memory, frames);
  }

  /** What a turn of a writing task does. */
  lemma WriteResumes(s: State, t: TaskId)
    requires Inv(s) && Resumable(s, t) && s.tasks[t].Current().Write?
    ensures var p := s.tasks[t].phase;
            if p.interruption.Thrown? || !p.send.Done? || p.send.outcome.Raised? then
              BrokenOff(Resumed(s, t), t, |s.tasks[t].answers|)
            else if p.index + 1 < s.tasks[t].Current().Length() then
              Resumed(s, t) == Launch(s.(sends := s.sends - {p.future}), t, p.index + 1)
            else
              Resumed(s, t) == Leave(s, t, Completed)
  {
    assert HeldTables(s, t);
  }

  lemma OwnerResumes(w: World, b: nat, t: TaskId, k: nat, frames: seq<Frame>)
    requires WorldOk(w) && Writing(w, b, t, k, frames) && Possible(w, Does(Resume(t)))
    ensures Onward(Next(w, Does(Resume(t))), b, t, k, frames)
  {
    var s, w' := w.client, Next(w, Does(Resume(t)));
    var p := s.tasks[t].phase;
    WriteResumes(s, t);
    assert w'.client == Resumed(s, t) && w'.memory == w.memory && w'.taken == w.taken;
    var delivered := p.send.Done? && p.send.outcome.Delivered? && !p.interruption.Thrown?;
    if delivered && p.index + 1 < |frames| {
      OwnerGoesOn(w, b, t, k, frames);
      SameClientWriting(w.(client := w'.client), w', b, t, k, frames);
    } else if delivered {
      OwnerCompletes(w, b, t, k, frames);
      assert Written(w', b, t, k, frames);
    }
  }

  lemma SameClientWriting(w: World, w': World, b: nat, t: TaskId, k: nat, frames: seq<Frame>)
    requires Writing(w, b, t, k, frames)
    requires w'.client == w.client && w'.memory == w.memory && w'.taken == w.taken
    ensures Writing(w', b, t, k, frames)
  {
  }

  lemma OthersLetWrite(w: World, step: Step, b: nat, t: TaskId, k: nat, frames: seq<Frame>)
    requires WorldOk(w) && Writing(w, b, t, k, frames) && Possible(w, Does(step)) && !Touches(step, t)
    ensures Writing(Next(w, Does(step)), b, t, k, frames)
  {
    OthersLeaveOwnerAlone(w.client, step, t);
    OthersSendNothing(w.client, step, t);
    StepTouches(w.client, step);
  }

  lemma OthersSendNothing(s: State, step: Step, t: TaskId)
    requires Inv(s) && s.owner == Some(t) && Enabled(s, step) && !Touches(step, t)
    ensures !step.BeginSend? && !step.EndSend?
  {
  }

  ghost predicate Onward(w: World, b: nat, t: TaskId, k: nat, frames: seq<Frame>) {
    Writing(w, b, t, k, frames) || Written(w, b, t, k, frames) || BrokenOff(w.client, t, k)
  }

  lemma WriteDoesNotCollect(s: State, t: TaskId)
    requires Inv(s) && s.owner == Some(t) && IsActive(s, t) && s.tasks[t].Current().Write?
    ensures !s.tasks[t].phase.stage.Collecting?
  {
    assert HeldTables(s, t);
  }

  lemma ClientWhileWriting(w: World, step: Step, b: nat, t: TaskId, k: nat, frames: seq<Frame>)
    requires WorldOk(w) && Writing(w, b, t, k, frames) && Possible(w, Does(step))
    ensures Onward(Next(w, Does(step)), b, t, k, frames)
  {
    WriteDoesNotCollect(w.client, t);
    if !Touches(step, t) {
      OthersLetWrite(w, step, b, t, k, frames);
    } else {
      OwnerWrites(w, step, b, t, k, frames);
    }
  }

  lemma OwnerWrites(w: World, step: Step, b: nat, t: TaskId, k: nat, frames: seq<Frame>)
    requires WorldOk(w) && Writing(w, b, t, k, frames) && Possible(w, Does(step))
    requires Touches(step, t) && !w.client.tasks[t].phase.stage.Collecting?
    ensures Onward(Next(w, Does(step)), b, t, k, frames)
  {
    match step
    case Interrupt(_, why) => OwnerIsInterrupted(w, why, b, t, k, frames);
    case Resume(_) => OwnerResumes(w, b, t, k, frames);
    case BeginSend(_) => OwnerBeginsSend(w, b, t, k, frames);
    case EndSend(_, outcome) => OwnerEndsSend(w, outcome, b, t, k, frames);
    case IdleOut(_) => assert false;
  }

  /** Nothing the write rests on has changed. */
  ghost predicate Still(w: World, w': World) {
    && w'.memory == w.memory && w'.taken == w.taken
    && w'.client.owner == w.client.owner && w'.client.tasks == w.client.tasks && w'.client.wire == w.client.wire
    && |w'.client.futures| == |w.client.futures|
  }

  lemma StillWriting(w: World, w': World, b: nat, t: TaskId, k: nat, frames: seq<Frame>)
    requires Writing(w, b, t, k, frames) && Still(w, w')
    ensures Writing(w', b, t, k, frames)
  {
  }

  lemma StillUnderway(w: World, w': World, b: nat, t: TaskId, k: nat, frames: seq<Frame>)
    requires Underway(w, b, t, k, frames) && Still(w, w') && WorldOk(w')
    ensures Underway(w', b, t, k, frames)
  {
    if Writing(w, b, t, k, frames) {
      StillWriting(w, w', b, t, k, frames);
    } else {
      assert Written(w', b, t, k, frames);
    }
  }

  lemma ClientWhenWritten(w: World, step: Step, b: nat, t: TaskId, k: nat, frames: seq<Frame>)
    requires Written(w, b, t, k, frames) && Possible(w, Does(step))
    ensures Written(Next(w, Does(step)), b, t, k, frames)
  {
    StepTouches(w.client, step);
    StepGrowsWire(w.client, step);
  }

  // ---- Frames handed over ----

  lemma StepsKeepUnopposed(w: World, step: Step, b: nat, frames: seq<Frame>)
    requires Possible(w, Does(step)) && Unopposed(w, frames) && b <= |w.client.wire|
    requires Unrivalled(Apply(w.client, step).wire, b, frames)
    ensures Unopposed(Next(w, Does(step)), frames)
  {
    var wire' := Apply(w.client, step).wire;
    StepGrowsWire(w.client, step);
    forall i | 0 <= i < |wire'| && i !in w.taken
      ensures AgreesWithAll(wire'[i].frame, frames)
    {
      if i < |w.client.wire| {
        assert wire'[i].frame == w.client.wire[i].frame;
      }
    }
  }

  ghost predicate Underway(w: World, b: nat, t: TaskId, k: nat, frames: seq<Frame>) {
    && WorldOk(w) && Unopposed(w, frames)
    && (Writing(w, b, t, k, frames) || Written(w, b, t, k, frames))
  }

  lemma DoesStaysUnderway(w: World, step: Step, b: nat, t: TaskId, k: nat, frames: seq<Frame>)
    requires Batch(frames) && Underway(w, b, t, k, frames) && Possible(w, Does(step))
    requires Unrivalled(Apply(w.client, step).wire, b, frames)
    ensures var w' := Next(w, Does(step));
            Underway(w', b, t, k, frames) || BrokenOff(w'.client, t, k)
  {
    NextKeepsWorld(w, Does(step));
    if Writing(w, b, t, k, frames) {
      ClientWhileWriting(w, step, b, t, k, frames);
    } else {
      ClientWhenWritten(w, step, b, t, k, frames);
    }
    StepsKeepUnopposed(w, step, b, frames);
  }

  lemma HearsStaysUnderway(w: World, i: nat, b: nat, t: TaskId, k: nat, frames: seq<Frame>)
    requires Underway(w, b, t, k, frames) && Possible(w, Hears(i))
    ensures Underway(Next(w, Hears(i)), b, t, k, frames)
  {
    NextKeepsWorld(w, Hears(i));
    HearIsStill(w, i);
    StillUnderway(w, Next(w, Hears(i)), b, t, k, frames);
  }

  lemma HearIsStill(w: World, i: nat)
    requires Possible(w, Hears(i))
    ensures Still(w, Next(w, Hears(i)))
  {
    var s' := Notified(w.client, w.air[i]);
    assert s'.owner == w.client.owner && s'.tasks == w.client.tasks && s'.wire == w.client.wire;
    assert |s'.futures| == |w.client.futures|;
  }

  lemma TakesStaysUnderway(w: World, i: nat, b: nat, t: TaskId, k: nat, frames: seq<Frame>)
    requires Batch(frames) && Underway(w, b, t, k, frames) && Possible(w, Takes(i))
    requires Unrivalled(w.client.wire, b, frames)
    ensures Underway(Next(w, Takes(i)), b, t, k, frames)
  {
    NextKeepsWorld(w, Takes(i));
    if Writing(w, b, t, k, frames) {
      TakeWhileWriting(w, i, b, t, k, frames);
    } else {
      TakeWhenWritten(w, i, b, t, k, frames);
    }
  }

  lemma NextStaysUnderway(w: World, e: Event, b: nat, t: TaskId, k: nat, frames: seq<Frame>)
    requires Batch(frames) && Underway(w, b, t, k, frames) && Possible(w, e)
    requires Unrivalled(Next(w, e).client.wire, b, frames)
    ensures Underway(Next(w, e), b, t, k, frames) || BrokenOff(Next(w, e).client, t, k)
  {
    match e
    case Does(step) => DoesStaysUnderway(w, step, b, t, k, frames);
    case Hears(i) => HearsStaysUnderway(w, i, b, t, k, frames);
    case Takes(i) => TakesStaysUnderway(w, i, b, t, k, frames);
  }

  // ---- Whole runs ----

  ghost predicate Begins(before: seq<Sent>, after: seq<Sent>) {
    |before| <= |after| && forall i | 0 <= i < |before| :: after[i] == before[i].(acked := after[i].acked)
  }

  lemma NextGrowsWire(w: World, e: Event)
    requires Possible(w, e)
    ensures Begins(w.client.wire, Next(w, e).client.wire)
  {
    match e
    case Does(step) => StepGrowsWire(w.client, step);
    case Hears(i) => StepGrowsWire(w.client, Notify(w.air[i]));
    case _ =>
  }

  lemma {:induction false} GoGrowsWire(w: World, events: seq<Event>)
    requires Can(w, events)
    ensures Begins(w.client.wire, Go(w, events).client.wire)
    decreases |events|
  {
    if events != [] {
      NextGrowsWire(w, events[0]);
      GoGrowsWire(Next(w, events[0]), events[1..]);
    }
  }

  lemma {:induction false} GoKeepsAnswers(w: World, events: seq<Event>, t: TaskId, k: nat)
    requires Can(w, events) && Answered(w.client, t, k)
    ensures Answered(Go(w, events).client, t, k)
    ensures Go(w, events).client.tasks[t].answers[k] == w.client.tasks[t].answers[k]
  {
    WorldRunsTheClient(w, events);
    AnswersAreKept(w.client, StepsOf(w, events), t);
  }

  lemma {:induction false} GoStaysUnderway(w: World, events: seq<Event>, b: nat, t: TaskId, k: nat, frames: seq<Frame>)
    requires Batch(frames) && Underway(w, b, t, k, frames) && Can(w, events)
    requires Unrivalled(Go(w, events).client.wire, b, frames)
    ensures Underway(Go(w, events), b, t, k, frames) || BrokenOff(Go(w, events).client, t, k)
    decreases |events|
  {
    if events != [] {
      var w1 := Next(w, events[0]);
      GoGrowsWire(w1, events[1..]);
      NextStaysUnderway(w, events[0], b, t, k, frames);
      if BrokenOff(w1.client, t, k) {
        GoKeepsAnswers(w1, events[1..], t, k);
      } else {
        GoStaysUnderway(w1, events[1..], b, t, k, frames);
      }
    }
  }

  /** Call `k` of `t` has just taken the lock to write configuration `c`. */
  ghost predicate Starting(s: State, t: TaskId, k: nat, c: OcppConfig) {
    && s.owner == Some(t) && IsActive(s, t) && |s.tasks[t].answers| == k
    && OcppFrames(c).Ok? && s.tasks[t].Current() == Write(OcppFrames(c).value)
    && s.tasks[t].phase.index == 0 && s.tasks[t].phase.send.Unstarted?
  }

  lemma BatchOf(c: OcppConfig)
    requires OcppFrames(c).Ok?
    ensures Acceptable(c) && Batch(OcppFrames(c).value)
  {
    BatchWritesSettings(seq(256, r requires 0 <= r < 256 => Zeros(Width(r))), c);
    BatchIsPieces(c);
    forall f, g | f in OcppFrames(c).value && g in OcppFrames(c).value
      ensures Agrees(g, f)
    {
      BatchAgrees(c, f, g);
    }
  }

  /** The write that took the lock in `w` has completed, and nobody else has
      handed over a frame since that disagrees with it. */
  ghost predicate Completes(w: World, w': World, t: TaskId, k: nat, frames: seq<Frame>) {
    && Answered(w'.client, t, k) && w'.client.tasks[t].answers[k] == Completed
    && Unrivalled(w'.client.wire, |w.client.wire|, frames)
  }

  /** Whatever ran before, if no frame outstanding disagrees when the write takes the
      lock, then once it has completed the charger holds the configuration, for
      as long as no other caller hands over a frame that disagrees. */
  lemma CompletedConfigIsHeld(w: World, t: TaskId, k: nat, c: OcppConfig, after: seq<Event>)
    requires WorldOk(w) && Starting(w.client, t, k, c) && Unopposed(w, OcppFrames(c).value)
    requires Can(w, after) && Completes(w, Go(w, after), t, k, OcppFrames(c).value)
    ensures Acceptable(c) && Holds(Go(w, after).memory, c)
    ensures WorldOk(Go(w, after)) && Unopposed(Go(w, after), OcppFrames(c).value)
  {
    var frames := OcppFrames(c).value;
    BatchOf(c);
    assert |w.client.wire| !in w.taken;
    assert Writing(w, |w.client.wire|, t, k, frames);
    GoStaysUnderway(w, after, |w.client.wire|, t, k, frames);
    HoldsExactlyKept(Go(w, after).memory, c);
  }
}
