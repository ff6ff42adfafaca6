/** How a frame handed over earlier undoes a configuration written later, and
    that nothing else does. */
module ClientConfigLost {
  import opened Errors
  import opened Frames
  import opened Client
  import opened ClientInvariant
  import opened ClientDrop
  import opened Config
  import opened Pieces
  import opened Charger
  import opened ClientConfig

  /** Nothing has happened since `past` but one task's frames on a link that is up. */
  ghost predicate Beside(past: World, w: World) {
    && |past.client.wire| <= |w.client.wire| && w.client.connected && w.air == past.air
    && w.client.tasks.Keys == past.client.tasks.Keys
    && forall i | 0 <= i < |past.client.wire| :: i in w.taken <==> i in past.taken
  }

  lemma StaysBeside(past: World, w: World, w': World)
    requires Beside(past, w) && w'.air == w.air && w'.client.connected && w'.client.tasks.Keys == w.client.tasks.Keys
    requires |w.client.wire| <= |w'.client.wire|
    requires forall i | 0 <= i < |past.client.wire| :: i in w'.taken <==> i in w.taken
    ensures Beside(past, w')
  {
  }

  /** The write's own entries. */
  ghost predicate Mine(wire: seq<Sent>, b: nat, frames: seq<Frame>) {
    b <= |wire| && forall i | b <= i < |wire| :: wire[i].frame in frames
  }

  /** The write goes on, undisturbed. */
  ghost predicate Alone(w: World, b: nat, t: TaskId, k: nat, frames: seq<Frame>, past: World) {
    && WorldOk(w) && Batch(frames) && Writing(w, b, t, k, frames) && Beside(past, w) && Mine(w.client.wire, b, frames)
    && b == |past.client.wire| && w.client.tasks[t].phase.interruption.Calm?
  }

  /** It is about to send a frame. */
  ghost predicate Ready(w: World, b: nat, t: TaskId, k: nat, frames: seq<Frame>, past: World) {
    Alone(w, b, t, k, frames, past) && w.client.tasks[t].phase.send.Unstarted?
  }

  /** Its frame is on the wire. */
  ghost predicate Handed(w: World, b: nat, t: TaskId, k: nat, frames: seq<Frame>, past: World) {
    Alone(w, b, t, k, frames, past) && w.client.tasks[t].phase.send.Open?
  }

  /** Its frame is delivered. */
  ghost predicate Acknowledged(w: World, b: nat, t: TaskId, k: nat, frames: seq<Frame>, past: World) {
    Alone(w, b, t, k, frames, past) && w.client.tasks[t].phase.send == Done(Delivered, true)
  }

  ghost predicate Finished(w: World, b: nat, t: TaskId, k: nat, frames: seq<Frame>, past: World) {
    && WorldOk(w) && Written(w, b, t, k, frames) && Mine(w.client.wire, b, frames) && Beside(past, w)
    && w.client.owner.None?
  }

  lemma HandsOver(w: World, b: nat, t: TaskId, k: nat, frames: seq<Frame>, past: World)
    requires Ready(w, b, t, k, frames, past)
    ensures Possible(w, Does(BeginSend(t)))
    ensures var w' := Next(w, Does(BeginSend(t)));
            Handed(w', b, t, k, frames, past) && |w.client.wire| + 1 == |w'.client.wire| && w'.taken == w.taken
            && w'.client.tasks[t].phase.index == w.client.tasks[t].phase.index
  {
    WriterIsDelivering(w.client, t);
    var w' := Next(w, Does(BeginSend(t)));
    NextKeepsWorld(w, Does(BeginSend(t)));
    OwnerBeginsSend(w, b, t, k, frames);
    SendOpens(w.client, t);
    OneMoreIsMine(w.client.wire, w'.client.wire, b, w.client.tasks[t].phase.index, frames);
    StaysBeside(past, w, w');
  }

  lemma OneMoreIsMine(wire: seq<Sent>, wire': seq<Sent>, b: nat, n: nat, frames: seq<Frame>)
    requires Mine(wire, b, frames) && |wire'| == |wire| + 1 && wire'[..|wire|] == wire
    requires n < |frames| && wire'[|wire|].frame == frames[n]
    ensures Mine(wire', b, frames)
  {
    assert forall i | b <= i < |wire| :: wire'[i] == wire'[..|wire|][i];
  }

  lemma SendOpens(s: State, t: TaskId)
    requires Enabled(s, BeginSend(t)) && s.connected && s.tasks[t].phase.interruption.Calm?
    ensures var s' := SendBegun(s, t);
            && s'.connected && |s'.wire| == |s.wire| + 1 && s'.wire[..|s.wire|] == s.wire && t in s'.tasks
            && s'.tasks[t].phase == s.tasks[t].phase.(send := Open) && s'.tasks.Keys == s.tasks.Keys
  {
  }

  lemma ChargerTakes(w: World, b: nat, t: TaskId, k: nat, frames: seq<Frame>, past: World)
    requires Handed(w, b, t, k, frames, past) && |w.client.wire| - 1 !in w.taken
    ensures Possible(w, Takes(|w.client.wire| - 1))
    ensures var w' := Next(w, Takes(|w.client.wire| - 1));
            Handed(w', b, t, k, frames, past) && |w'.client.wire| - 1 in w'.taken && w'.client == w.client
  {
    var last := |w.client.wire| - 1;
    NextKeepsWorld(w, Takes(last));
    TakesWrite(w, last);
    StaysHanded(w, Next(w, Takes(last)), b, t, k, frames, past);
  }

  lemma StaysHanded(w: World, w': World, b: nat, t: TaskId, k: nat, frames: seq<Frame>, past: World)
    requires Handed(w, b, t, k, frames, past) && WorldOk(w')
    requires var last := |w.client.wire| - 1;
             && w'.client == w.client && w'.air == w.air && w'.taken == w.taken + {last}
             && w'.memory == Accept(w.memory, w.client.wire[last].frame)
    ensures Handed(w', b, t, k, frames, past)
  {
    TakeStaysWriting(w, w', b, t, k, frames, |w.client.wire| - 1);
    StaysBeside(past, w, w');
  }

  lemma TakeStaysWriting(w: World, w': World, b: nat, t: TaskId, k: nat, frames: seq<Frame>, last: nat)
    requires Batch(frames) && Writing(w, b, t, k, frames) && last + 1 == |w.client.wire|
    requires w.client.tasks[t].phase.send.Open?
    requires w'.client == w.client && w'.taken == w.taken + {last}
    requires w'.memory == Accept(w.memory, w.client.wire[last].frame)
    ensures Writing(w', b, t, k, frames)
  {
    TakeKeepsPhase(w.client.wire, w.memory, w.taken, b, w.client.tasks[t].phase, frames, last);
  }

  /** Taking a frame that writes gives no answer. */
  lemma TakesWrite(w: World, i: nat)
    requires Outstanding(w, i) && w.client.wire[i].frame[3] != READ
    ensures var w' := Next(w, Takes(i));
            && w'.client == w.client && w'.air == w.air && w'.taken == w.taken + {i}
            && w'.memory == Accept(w.memory, w.client.wire[i].frame)
  {
  }

  lemma SendEnds(w: World, b: nat, t: TaskId, k: nat, frames: seq<Frame>, past: World)
    requires Handed(w, b, t, k, frames, past) && |w.client.wire| - 1 in w.taken
    ensures Possible(w, Does(EndSend(t, Delivered)))
    ensures var w' := Next(w, Does(EndSend(t, Delivered)));
            Acknowledged(w', b, t, k, frames, past)
            && w'.client.tasks[t].phase.index == w.client.tasks[t].phase.index
  {
    var w' := Next(w, Does(EndSend(t, Delivered)));
    NextKeepsWorld(w, Does(EndSend(t, Delivered)));
    OwnerEndsSend(w, Delivered, b, t, k, frames);
    StepGrowsWire(w.client, EndSend(t, Delivered));
    SendCloses(w.client, t);
    StaysMine(w.client.wire, w'.client.wire, b, frames);
    StaysBeside(past, w, w');
  }

  lemma SendCloses(s: State, t: TaskId)
    requires IsActive(s, t)
    ensures var s' := SendEnded(s, t, Delivered);
            && s'.connected == s.connected && s'.tasks.Keys == s.tasks.Keys
            && s'.tasks[t].phase == s.tasks[t].phase.(send := Done(Delivered, true))
  {
  }

  lemma StaysMine(wire: seq<Sent>, wire': seq<Sent>, b: nat, frames: seq<Frame>)
    requires Mine(wire, b, frames) && Grows(wire, wire') && |wire'| == |wire|
    ensures Mine(wire', b, frames)
  {
    assert forall i | b <= i < |wire'| :: wire'[i].frame == wire[i].frame;
  }

  /** One frame further, or done. */
  ghost predicate Further(w: World, w': World, b: nat, t: TaskId, k: nat, frames: seq<Frame>, past: World)
    requires t in w.client.tasks && w.client.tasks[t].phase.Active?
  {
    if w.client.tasks[t].phase.index + 1 < |frames| then
      Ready(w', b, t, k, frames, past)
      && w'.client.tasks[t].phase.index == w.client.tasks[t].phase.index + 1
    else Finished(w', b, t, k, frames, past)
  }

  lemma TaskGoesOn(w: World, b: nat, t: TaskId, k: nat, frames: seq<Frame>, past: World)
    requires Acknowledged(w, b, t, k, frames, past)
    ensures Possible(w, Does(Resume(t)))
    ensures Further(w, Next(w, Does(Resume(t))), b, t, k, frames, past)
  {
    var w' := w.(client := Resumed(w.client, t));
    WriterIsDelivering(w.client, t);
    StepKeepsWorld(w, w', Resume(t));
    WriteResumes(w.client, t);
    if w.client.tasks[t].phase.index + 1 < |frames| {
      NextIsReady(w, w', b, t, k, frames, past);
    } else {
      LastIsFinished(w, w', b, t, k, frames, past);
    }
  }

  lemma NextIsReady(w: World, w': World, b: nat, t: TaskId, k: nat, frames: seq<Frame>, past: World)
    requires Acknowledged(w, b, t, k, frames, past) && WorldOk(w') && w' == w.(client := w'.client)
    requires w.client.tasks[t].phase.index + 1 < |frames|
    requires w'.client == Launch(w.client.(sends := w.client.sends - {w.client.tasks[t].phase.future}), t,
                                 w.client.tasks[t].phase.index + 1)
    ensures Further(w, w', b, t, k, frames, past)
  {
    OwnerGoesOn(w, b, t, k, frames);
    NextFramePhase(w.client.(sends := w.client.sends - {w.client.tasks[t].phase.future}), t,
                   w.client.tasks[t].phase.index + 1);
    StaysBeside(past, w, w');
  }

  lemma LastIsFinished(w: World, w': World, b: nat, t: TaskId, k: nat, frames: seq<Frame>, past: World)
    requires Acknowledged(w, b, t, k, frames, past) && WorldOk(w') && w' == w.(client := w'.client)
    requires w.client.tasks[t].phase.index + 1 == |frames| && w'.client == Leave(w.client, t, Completed)
    ensures Further(w, w', b, t, k, frames, past)
  {
    OwnerCompletes(w, b, t, k, frames);
    LeaveLeaves(w.client, t);
    StaysBeside(past, w, w');
  }

  lemma LeaveLeaves(s: State, t: TaskId)
    requires IsActive(s, t)
    ensures var s' := Leave(s, t, Completed);
            && s'.owner.None? && s'.wire == s.wire && s'.connected == s.connected && s'.tasks.Keys == s.tasks.Keys
  {
  }

  lemma WriterIsDelivering(s: State, t: TaskId)
    requires Inv(s) && s.owner == Some(t) && IsActive(s, t) && s.tasks[t].Current().Write?
    ensures s.tasks[t].phase.stage.Delivering?
  {
    assert HeldTables(s, t);
  }

  // ---- The rest of the write, undisturbed ----

  lemma GoesOut(w: World, b: nat, t: TaskId, k: nat, frames: seq<Frame>, past: World)
      returns (out: seq<Event>, sent: World)
    requires Ready(w, b, t, k, frames, past)
    ensures Can(w, out) && sent == Go(w, out)
    ensures Handed(sent, b, t, k, frames, past) && |sent.client.wire| - 1 in sent.taken
    ensures sent.client.tasks[t].phase.index == w.client.tasks[t].phase.index
  {
    var begin, begun := StartsSend(w, b, t, k, frames, past);
    var take, taken := IsTaken(begun, b, t, k, frames, past);
    Join(w, begin, begun, take, taken);
    out, sent := begin + take, taken;
  }

  lemma StartsSend(w: World, b: nat, t: TaskId, k: nat, frames: seq<Frame>, past: World)
      returns (events: seq<Event>, w': World)
    requires Ready(w, b, t, k, frames, past)
    ensures Can(w, events) && w' == Go(w, events)
    ensures Handed(w', b, t, k, frames, past) && w'.client.wire != [] && |w'.client.wire| - 1 !in w'.taken
    ensures w'.client.tasks[t].phase.index == w.client.tasks[t].phase.index
  {
    HandsOver(w, b, t, k, frames, past);
    One(w, Does(BeginSend(t)));
    events, w' := [Does(BeginSend(t))], Next(w, Does(BeginSend(t)));
  }

  lemma IsTaken(w: World, b: nat, t: TaskId, k: nat, frames: seq<Frame>, past: World)
      returns (events: seq<Event>, w': World)
    requires Handed(w, b, t, k, frames, past) && w.client.wire != [] && |w.client.wire| - 1 !in w.taken
    ensures Can(w, events) && w' == Go(w, events) && w'.client == w.client
    ensures Handed(w', b, t, k, frames, past) && |w'.client.wire| - 1 in w'.taken
  {
    ChargerTakes(w, b, t, k, frames, past);
    One(w, Takes(|w.client.wire| - 1));
    events, w' := [Takes(|w.client.wire| - 1)], Next(w, Takes(|w.client.wire| - 1));
  }

  lemma ComesBack(w: World, b: nat, t: TaskId, k: nat, frames: seq<Frame>, past: World) returns (back: seq<Event>)
    requires Handed(w, b, t, k, frames, past) && |w.client.wire| - 1 in w.taken
    ensures Can(w, back) && Further(w, Go(w, back), b, t, k, frames, past)
  {
    var end, ended := Ends(w, b, t, k, frames, past);
    var turn, turned := Turns(ended, b, t, k, frames, past);
    Join(w, end, ended, turn, turned);
    back := end + turn;
  }

  lemma Ends(w: World, b: nat, t: TaskId, k: nat, frames: seq<Frame>, past: World)
      returns (events: seq<Event>, w': World)
    requires Handed(w, b, t, k, frames, past) && |w.client.wire| - 1 in w.taken
    ensures Can(w, events) && w' == Go(w, events) && Acknowledged(w', b, t, k, frames, past)
    ensures w'.client.tasks[t].phase.index == w.client.tasks[t].phase.index
  {
    SendEnds(w, b, t, k, frames, past);
    One(w, Does(EndSend(t, Delivered)));
    events, w' := [Does(EndSend(t, Delivered))], Next(w, Does(EndSend(t, Delivered)));
  }

  lemma Turns(w: World, b: nat, t: TaskId, k: nat, frames: seq<Frame>, past: World)
      returns (events: seq<Event>, w': World)
    requires Acknowledged(w, b, t, k, frames, past)
    ensures Can(w, events) && w' == Go(w, events) && Further(w, w', b, t, k, frames, past)
  {
    TaskGoesOn(w, b, t, k, frames, past);
    One(w, Does(Resume(t)));
    events, w' := [Does(Resume(t))], Next(w, Does(Resume(t)));
  }

  lemma RoundGoes(w: World, b: nat, t: TaskId, k: nat, frames: seq<Frame>, past: World) returns (round: seq<Event>)
    requires Ready(w, b, t, k, frames, past)
    ensures Can(w, round) && Further(w, Go(w, round), b, t, k, frames, past)
  {
    var out, sent := GoesOut(w, b, t, k, frames, past);
    round := RoundFrom(w, out, sent, b, t, k, frames, past);
  }

  lemma RoundFrom(w: World, out: seq<Event>, sent: World, b: nat, t: TaskId, k: nat, frames: seq<Frame>, past: World)
      returns (round: seq<Event>)
    requires t in w.client.tasks && w.client.tasks[t].phase.Active? && Can(w, out) && sent == Go(w, out)
    requires Handed(sent, b, t, k, frames, past) && |sent.client.wire| - 1 in sent.taken
    requires sent.client.tasks[t].phase.index == w.client.tasks[t].phase.index
    ensures Can(w, round) && Further(w, Go(w, round), b, t, k, frames, past)
  {
    var back := ComesBack(sent, b, t, k, frames, past);
    FurtherOn(w, out, back, b, t, k, frames, past);
    round := out + back;
  }

  lemma FurtherOn(w: World, out: seq<Event>, back: seq<Event>, b: nat, t: TaskId, k: nat, frames: seq<Frame>,
                  past: World)
    requires t in w.client.tasks && w.client.tasks[t].phase.Active?
    requires Can(w, out) && Can(Go(w, out), back)
    requires var sent := Go(w, out);
             && t in sent.client.tasks && sent.client.tasks[t].phase.Active?
             && sent.client.tasks[t].phase.index == w.client.tasks[t].phase.index
             && Further(sent, Go(sent, back), b, t, k, frames, past)
    ensures Can(w, out + back) && Further(w, Go(w, out + back), b, t, k, frames, past)
  {
    GoOn(w, out, back);
  }

  lemma {:induction false} WriteCanFinish(w: World, b: nat, t: TaskId, k: nat, frames: seq<Frame>, past: World)
      returns (events: seq<Event>)
    requires Ready(w, b, t, k, frames, past)
    ensures Can(w, events) && Finished(Go(w, events), b, t, k, frames, past)
    decreases |frames| - w.client.tasks[t].phase.index
  {
    events := RoundGoes(w, b, t, k, frames, past);
    if w.client.tasks[t].phase.index + 1 < |frames| {
      var rest := WriteCanFinish(Go(w, events), b, t, k, frames, past);
      GoOn(w, events, rest);
      events := events + rest;
    }
  }

  lemma MineIsUnrivalled(wire: seq<Sent>, b: nat, frames: seq<Frame>)
    requires Batch(frames) && Mine(wire, b, frames)
    ensures Unrivalled(wire, b, frames)
  {
  }

  /** An outstanding frame arrives after the write and overwrites a piece of it. */
  lemma LateFrameUndoes(w: World, b: nat, t: TaskId, k: nat, frames: seq<Frame>, g: nat)
    requires Written(w, b, t, k, frames) && Outstanding(w, g) && !AgreesWithAll(w.client.wire[g].frame, frames)
    ensures Possible(w, Takes(g)) && Next(w, Takes(g)).client == w.client
    ensures exists f :: f in frames && !Kept(Next(w, Takes(g)).memory, f)
  {
    var f :| f in frames && !Agrees(w.client.wire[g].frame, f);
    AcceptKeepsExactlyAgreeing(w.memory, w.client.wire[g].frame, f);
  }

  /** Left to itself a write completes, with all that was outstanding still so. */
  lemma WriteCanComplete(w: World, t: TaskId, k: nat, c: OcppConfig) returns (events: seq<Event>)
    requires WorldOk(w) && Starting(w.client, t, k, c) && w.client.tasks[t].phase.interruption.Calm?
    ensures Acceptable(c) && Can(w, events)
    ensures var w' := Go(w, events);
            && Finished(w', |w.client.wire|, t, k, OcppFrames(c).value, w)
            && Completes(w, w', t, k, OcppFrames(c).value) && Holds(w'.memory, c)
  {
    var b, frames := |w.client.wire|, OcppFrames(c).value;
    BatchOf(c);
    var linked := LinkUp(w, t, k, frames);
    var finish := WriteCanFinish(linked, b, t, k, frames, w);
    GoOn(w, [Does(Connect)], finish);
    events := [Does(Connect)] + finish;
    MineIsUnrivalled(Go(w, events).client.wire, b, frames);
    HoldsExactlyKept(Go(w, events).memory, c);
  }

  /** With a frame outstanding that disagrees, the write may complete and yet the
      charger end up with something else. */
  lemma OutstandingFrameCanUndo(w: World, t: TaskId, k: nat, c: OcppConfig, g: nat) returns (after: seq<Event>)
    requires WorldOk(w) && Starting(w.client, t, k, c) && w.client.tasks[t].phase.interruption.Calm?
    requires Outstanding(w, g) && !AgreesWithAll(w.client.wire[g].frame, OcppFrames(c).value)
    ensures Acceptable(c) && Can(w, after) && Completes(w, Go(w, after), t, k, OcppFrames(c).value)
    ensures !Holds(Go(w, after).memory, c)
  {
    var events := WriteCanComplete(w, t, k, c);
    var written := Go(w, events);
    GoGrowsWire(w, events);
    LateFrameUndoes(written, |w.client.wire|, t, k, OcppFrames(c).value, g);
    OneMore(w, events, Takes(g));
    after := events + [Takes(g)];
    HoldsExactlyKept(Go(w, after).memory, c);
  }

  lemma LinkUp(w: World, t: TaskId, k: nat, frames: seq<Frame>) returns (linked: World)
    requires WorldOk(w) && Batch(frames)
    requires w.client.owner == Some(t) && IsActive(w.client, t) && |w.client.tasks[t].answers| == k
    requires w.client.tasks[t].Current() == Write(frames) && w.client.tasks[t].phase.index == 0
    requires w.client.tasks[t].phase.send.Unstarted? && w.client.tasks[t].phase.interruption.Calm?
    ensures Can(w, [Does(Connect)]) && linked == Go(w, [Does(Connect)])
    ensures Ready(linked, |w.client.wire|, t, k, frames, w)
  {
    One(w, Does(Connect));
    NextKeepsWorld(w, Does(Connect));
    linked := Next(w, Does(Connect));
    assert linked == w.(client := w.client.(connected := true));
    assert |w.client.wire| !in w.taken;
    assert Writing(w, |w.client.wire|, t, k, frames);
  }

  /** A completed write of a configuration is sure to be held, by whatever way
      the rest of the run takes, exactly when no frame that may still arrive at
      the moment it takes the lock disagrees. */
  lemma ConfigIsHeldExactlyWhenUnopposed(w: World, t: TaskId, k: nat, c: OcppConfig)
    requires WorldOk(w) && Starting(w.client, t, k, c) && w.client.tasks[t].phase.interruption.Calm?
    ensures Acceptable(c)
    ensures Unopposed(w, OcppFrames(c).value)
       <==> forall after :: Can(w, after) && Completes(w, Go(w, after), t, k, OcppFrames(c).value)
                            ==> Holds(Go(w, after).memory, c)
  {
    BatchOf(c);
    if Unopposed(w, OcppFrames(c).value) {
      forall after | Can(w, after) && Completes(w, Go(w, after), t, k, OcppFrames(c).value)
        ensures Holds(Go(w, after).memory, c)
      {
        CompletedConfigIsHeld(w, t, k, c, after);
      }
    } else {
      var g :| 0 <= g < |w.client.wire| && g !in w.taken && !AgreesWithAll(w.client.wire[g].frame, OcppFrames(c).value);
      var after := OutstandingFrameCanUndo(w, t, k, c, g);
    }
  }
}
