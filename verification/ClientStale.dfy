/** A late answer to an earlier read is taken for the answer to the next one. */
module ClientStale {
  import opened Bytes
  import opened Errors
  import opened Frames
  import opened Client
  import opened ClientInvariant
  import opened ClientDrop
  import opened Config
  import opened Charger
  import opened ClientConfig
  import opened ClientReadBack

  /** Task `u` is about to make a request, the lock is free and the link up, and
      an answer that matches it is already under way. */
  ghost predicate AboutToAsk(w: World, u: TaskId, frame: Frame, g: nat) {
    && WorldOk(w) && w.client.owner.None? && w.client.connected && u in w.client.tasks
    && w.client.tasks[u].phase.Idle? && w.client.tasks[u].Current() == Request(frame)
    && g in w.air && Answers(w.air[g], frame)
  }

  /** It has the lock and waits in `_deliver`. */
  ghost predicate Waiting(w: World, u: TaskId, i: nat, frame: Frame) {
    && WorldOk(w) && w.client.connected && w.client.owner == Some(u) && IsActive(w.client, u)
    && |w.client.tasks[u].answers| == i && w.client.tasks[u].Current() == Request(frame)
    && w.client.tasks[u].phase.stage.Delivering? && w.client.tasks[u].phase.send.Unstarted?
    && w.client.tasks[u].phase.interruption.Calm?
    && w.client.waiters == map[frame[2] := Waiter(w.client.tasks[u].phase.future, frame[3])]
    && FutureOf(w.client, u).state.Pending?
  }

  /** It has asked, and heard `reply` at once. */
  ghost predicate Heard(w: World, u: TaskId, i: nat, frame: Frame, reply: Bytes) {
    WorldOk(w) && HasHeard(w.client, u, i, frame, reply)
  }

  ghost predicate HasHeard(s: State, u: TaskId, i: nat, frame: Frame, reply: Bytes) {
    && s.connected && s.owner == Some(u) && IsActive(s, u)
    && |s.tasks[u].answers| == i && s.tasks[u].Current() == Request(frame)
    && FutureOf(s, u).state.Valued? && FutureOf(s, u).state.payload == reply
    && s.tasks[u].phase.stage.Delivering? && s.tasks[u].phase.interruption.Calm?
  }

  function Asks(u: TaskId, g: nat): seq<Event> {
    [Does(Begin(u))] + [Does(Acquire(u))] + [Hears(g)]
  }

  lemma TakesLock(w: World, u: TaskId, frame: Frame, g: nat)
    requires AboutToAsk(w, u, frame, g)
    ensures Can(w, [Does(Begin(u))] + [Does(Acquire(u))])
    ensures var w' := Go(w, [Does(Begin(u))] + [Does(Acquire(u))]);
            Waiting(w', u, |w.client.tasks[u].answers|, frame) && w'.air == w.air
  {
    NextKeepsWorld(w, Does(Begin(u)));
    One(w, Does(Begin(u)));
    var queued := Next(w, Does(Begin(u)));
    assert queued.client == SetPhase(w.client, u, Queued) && queued.air == w.air;
    NextKeepsWorld(queued, Does(Acquire(u)));
    OneMore(w, [Does(Begin(u))], Does(Acquire(u)));
    assert Next(queued, Does(Acquire(u))).client == Enter(queued.client, u);
  }

  lemma HearsAtOnce(w: World, u: TaskId, frame: Frame, g: nat)
    requires AboutToAsk(w, u, frame, g) && IsSetting(w.air[g])
    ensures Can(w, Asks(u, g))
    ensures Heard(Go(w, Asks(u, g)), u, |w.client.tasks[u].answers|, frame, w.air[g])
    ensures Go(w, Asks(u, g)).client.tasks[u].phase.send.Unstarted?
  {
    TakesLock(w, u, frame, g);
    HearsAnswer(Go(w, [Does(Begin(u))] + [Does(Acquire(u))]), u, |w.client.tasks[u].answers|, frame, g);
    OneMore(w, [Does(Begin(u))] + [Does(Acquire(u))], Hears(g));
  }

  lemma HearsAnswer(w: World, u: TaskId, i: nat, frame: Frame, g: nat)
    requires Waiting(w, u, i, frame) && g in w.air && Answers(w.air[g], frame) && IsSetting(w.air[g])
    ensures Possible(w, Hears(g))
    ensures Heard(Next(w, Hears(g)), u, i, frame, w.air[g])
    ensures Next(w, Hears(g)).client.tasks[u].phase.send.Unstarted?
  {
    NextKeepsWorld(w, Hears(g));
    NotificationReachesOnlyItsWaiter(w.client, w.air[g]);
    assert Next(w, Hears(g)).client == Notified(w.client, w.air[g]);
    assert Notified(w.client, w.air[g]).connected;
  }

  lemma HandsOverHeard(w: World, u: TaskId, i: nat, frame: Frame, reply: Bytes)
      returns (events: seq<Event>, w': World)
    requires Heard(w, u, i, frame, reply) && w.client.tasks[u].phase.send.Unstarted?
    ensures Can(w, events) && w' == Go(w, events) && forall e <- events :: !e.Takes?
    ensures Heard(w', u, i, frame, reply) && w'.client.tasks[u].phase.send.Open?
         && |w'.client.wire| == |w.client.wire| + 1 && |w.client.wire| !in w'.taken
         && w'.client.wire[|w.client.wire|].frame == frame
  {
    events, w' := [Does(BeginSend(u))], Next(w, Does(BeginSend(u)));
    One(w, Does(BeginSend(u)));
    NextKeepsWorld(w, Does(BeginSend(u)));
    assert Next(w, Does(BeginSend(u))).client == SendBegun(w.client, u);
  }

  lemma TakesHeard(w: World, u: TaskId, i: nat, frame: Frame, reply: Bytes)
      returns (events: seq<Event>, w': World)
    requires Heard(w, u, i, frame, reply) && w.client.tasks[u].phase.send.Open?
    requires w.client.wire != [] && |w.client.wire| - 1 !in w.taken
    ensures Can(w, events) && w' == Go(w, events)
    ensures forall e <- events :: e.Takes? ==> e.entry == |w.client.wire| - 1
    ensures Heard(w', u, i, frame, reply) && w'.client == w.client && |w'.client.wire| - 1 in w'.taken
  {
    events, w' := Arrival(w, |w.client.wire| - 1);
    SameClientHeard(w, w', u, i, frame, reply);
  }

  lemma SameClientHeard(w: World, w': World, u: TaskId, i: nat, frame: Frame, reply: Bytes)
    requires Heard(w, u, i, frame, reply) && w'.client == w.client
    requires forall n <- w'.taken :: n < |w.client.wire|
    ensures Heard(w', u, i, frame, reply)
  {
  }

  lemma EndsHeard(w: World, u: TaskId, i: nat, frame: Frame, reply: Bytes)
      returns (events: seq<Event>, w': World)
    requires Heard(w, u, i, frame, reply) && w.client.tasks[u].phase.send.Open?
    requires w.client.wire != [] && |w.client.wire| - 1 in w.taken
    ensures Can(w, events) && w' == Go(w, events) && forall e <- events :: !e.Takes?
    ensures && |w'.client.wire| == |w.client.wire|
         && w'.client.wire[|w.client.wire| - 1].frame == w.client.wire[|w.client.wire| - 1].frame
         && Heard(w', u, i, frame, reply) && w'.client.tasks[u].phase.send == Done(Delivered, true)
  {
    events, w' := [Does(EndSend(u, Delivered))], Next(w, Does(EndSend(u, Delivered)));
    One(w, Does(EndSend(u, Delivered)));
    NextKeepsWorld(w, Does(EndSend(u, Delivered)));
    SendEndsHeard(w.client, u, i, frame, reply);
    StepGrowsWire(w.client, EndSend(u, Delivered));
  }

  lemma SendEndsHeard(s: State, u: TaskId, i: nat, frame: Frame, reply: Bytes)
    requires HasHeard(s, u, i, frame, reply)
    ensures var s' := SendEnded(s, u, Delivered);
            HasHeard(s', u, i, frame, reply) && s'.tasks[u].phase.send == Done(Delivered, true)
  {
    var s' := SendEnded(s, u, Delivered);
    assert s'.owner == s.owner && s'.futures == s.futures && s'.connected == s.connected;
    assert s'.tasks[u] == s.tasks[u].(phase := s.tasks[u].phase.(send := Done(Delivered, true)));
  }

  lemma DeliversHeard(w: World, u: TaskId, i: nat, frame: Frame, reply: Bytes)
      returns (events: seq<Event>, sent: World)
    requires Heard(w, u, i, frame, reply) && w.client.tasks[u].phase.send.Unstarted?
    ensures Can(w, events) && sent == Go(w, events) && forall e <- events :: e.Takes? ==> e.entry == |w.client.wire|
    ensures Heard(sent, u, i, frame, reply) && sent.client.tasks[u].phase.send == Done(Delivered, true)
    ensures |sent.client.wire| == |w.client.wire| + 1 && sent.client.wire[|w.client.wire|].frame == frame
  {
    var begin, begun := HandsOverHeard(w, u, i, frame, reply);
    var take, taken := TakesHeard(begun, u, i, frame, reply);
    Join(w, begin, begun, take, taken);
    var end, ended := EndsHeard(taken, u, i, frame, reply);
    Join(w, begin + take, taken, end, ended);
    events, sent := begin + take + end, ended;
  }

  lemma ReturnsHeard(w: World, u: TaskId, i: nat, frame: Frame, reply: Bytes)
      returns (events: seq<Event>, w': World)
    requires Heard(w, u, i, frame, reply) && w.client.tasks[u].phase.send == Done(Delivered, true)
    ensures Can(w, events) && w' == Go(w, events) && forall e <- events :: !e.Takes?
    ensures Returns(w'.client, u, i) && Payload(w'.client, u, i) == reply && w'.client.wire == w.client.wire
  {
    assert Resumed(w.client, u) == Leave(w.client, u, Returned(reply, w.client.tasks[u].phase.future));
    events, w' := [Does(Resume(u))], Next(w, Does(Resume(u)));
    One(w, Does(Resume(u)));
  }

  /** The events bring the charger at most the one read `frame`. */
  ghost predicate TakesOnly(w: World, events: seq<Event>, last: nat, frame: Frame)
    requires Can(w, events)
  {
    && (forall e <- events :: e.Takes? ==> e.entry == last)
    && last < |Go(w, events).client.wire| && Go(w, events).client.wire[last].frame == frame
  }

  /** An answer still under way from an earlier read, whatever it says, may be
      what the next read of that register returns. */
  lemma StaleAnswerMayBeReturned(w: World, u: TaskId, frame: Frame, g: nat) returns (events: seq<Event>)
    requires AboutToAsk(w, u, frame, g) && IsSetting(w.air[g])
    ensures Can(w, events) && Returns(Go(w, events).client, u, |w.client.tasks[u].answers|)
    ensures Payload(Go(w, events).client, u, |w.client.tasks[u].answers|) == w.air[g]
    ensures Go(w, events).memory == w.memory
    ensures SeenAnswers(w, events, frame[2]) == {ReadReply(w.memory, frame[2])}
  {
    var i, reply := |w.client.tasks[u].answers|, w.air[g];
    HearsAtOnce(w, u, frame, g);
    var heard := Go(w, Asks(u, g));
    var rest := FinishesHeard(heard, u, i, frame, reply);
    events := Asks(u, g) + rest;
    GoOn(w, Asks(u, g), rest);
    ReadsChangeNothing(w, events, |heard.client.wire|, frame, frame[2]);
  }

  lemma FinishesHeard(w: World, u: TaskId, i: nat, frame: Frame, reply: Bytes) returns (events: seq<Event>)
    requires Heard(w, u, i, frame, reply) && w.client.tasks[u].phase.send.Unstarted?
    ensures Can(w, events) && Returns(Go(w, events).client, u, i) && Payload(Go(w, events).client, u, i) == reply
    ensures TakesOnly(w, events, |w.client.wire|, frame)
  {
    var sending, sent := DeliversHeard(w, u, i, frame, reply);
    var returning, returned := ReturnsHeard(sent, u, i, frame, reply);
    Join(w, sending, sent, returning, returned);
    events := sending + returning;
  }

  // ---- When a read is fresh ----

  predicate Returns(s: State, u: TaskId, i: nat) {
    u in s.tasks && i < |s.tasks[u].answers| && s.tasks[u].answers[i].Returned?
  }

  /** The answers register `r` would give at the moments of a run. */
  ghost function SeenAnswers(w: World, events: seq<Event>, r: byte): set<Bytes>
    requires Can(w, events)
    decreases |events|
  {
    {ReadReply(w.memory, r)} + if events == [] then {} else SeenAnswers(Next(w, events[0]), events[1..], r)
  }

  lemma ReadChangesNothing(w: World, i: nat)
    requires Outstanding(w, i) && w.client.wire[i].frame[3] == READ
    ensures Next(w, Takes(i)).memory == w.memory
  {
  }

  /** Nothing but reads arrives, so the memory stays as it is. */
  lemma {:induction false} ReadsChangeNothing(w: World, events: seq<Event>, last: nat, frame: Frame, r: byte)
    requires Can(w, events) && TakesOnly(w, events, last, frame) && frame[3] == READ
    ensures Go(w, events).memory == w.memory && SeenAnswers(w, events, r) == {ReadReply(w.memory, r)}
    decreases |events|
  {
    if events != [] {
      var w1 := Next(w, events[0]);
      if events[0].Takes? {
        GoGrowsWire(w, events);
        ReadChangesNothing(w, last);
      }
      assert w1.memory == w.memory;
      ReadsChangeNothing(w1, events[1..], last, frame, r);
    }
  }

  /** Every matching answer under way is one of `valid`. */
  ghost predicate AirIsValid(w: World, frame: Frame, valid: set<Bytes>) {
    forall g <- w.air :: Answers(w.air[g], frame) ==> w.air[g] in valid
  }

  /** So is every one taken by a request made since there were `first` futures. */
  ghost predicate TakenValid(s: State, first: nat, frame: Frame, valid: set<Bytes>) {
    forall f | first <= f < |s.futures| ::
      s.futures[f].state.Valued? && Answers(s.futures[f].state.payload, frame) ==> s.futures[f].state.payload in valid
  }

  lemma NotifyKeepsValid(s: State, payload: Bytes, first: nat, frame: Frame, valid: set<Bytes>)
    requires Inv(s) && TakenValid(s, first, frame, valid) && (Answers(payload, frame) ==> payload in valid)
    ensures TakenValid(Notified(s, payload), first, frame, valid)
  {
    NotificationReachesOnlyItsWaiter(s, payload);
  }

  lemma NoValueKeepsValid(s: State, s': State, first: nat, frame: Frame, valid: set<Bytes>)
    requires TakenValid(s, first, frame, valid) && NoNewValues(s.futures, s'.futures)
    ensures TakenValid(s', first, frame, valid)
  {
  }

  lemma DoesKeepsValid(w: World, step: Step, first: nat, frame: Frame, valid: set<Bytes>)
    requires WorldOk(w) && Possible(w, Does(step)) && frame[2] in OCPP_REGISTERS && frame[3] == READ
    requires TakenValid(w.client, first, frame, valid)
    ensures TakenValid(Apply(w.client, step), first, frame, valid)
  {
    if step.Notify? {
      NotifyKeepsValid(w.client, step.payload, first, frame, valid);
    } else {
      StepGivesNoValue(w.client, step);
      NoValueKeepsValid(w.client, Apply(w.client, step), first, frame, valid);
    }
  }

  lemma HearsKeepsValid(w: World, g: nat, first: nat, frame: Frame, valid: set<Bytes>)
    requires WorldOk(w) && Possible(w, Hears(g))
    requires AirIsValid(w, frame, valid) && TakenValid(w.client, first, frame, valid)
    ensures AirIsValid(Next(w, Hears(g)), frame, valid) && TakenValid(Next(w, Hears(g)).client, first, frame, valid)
  {
    NotifyKeepsValid(w.client, w.air[g], first, frame, valid);
    HearsOne(w, g);
    var w' := Next(w, Hears(g));
    assert forall h <- w'.air :: h in w.air && w'.air[h] == w.air[h];
  }

  lemma TakesKeepsValid(w: World, i: nat, frame: Frame, valid: set<Bytes>)
    requires Possible(w, Takes(i)) && AirIsValid(w, frame, valid) && ReadReply(w.memory, frame[2]) in valid
    ensures AirIsValid(Next(w, Takes(i)), frame, valid)
  {
    var w' := Next(w, Takes(i));
    forall h | h in w'.air && Answers(w'.air[h], frame)
      ensures w'.air[h] in valid
    {
      assert (h in w.air && w'.air[h] == w.air[h]) || w'.air[h] == ReadReply(w.memory, w.client.wire[i].frame[2]);
    }
  }

  lemma NextKeepsValid(w: World, e: Event, first: nat, frame: Frame, valid: set<Bytes>)
    requires WorldOk(w) && Possible(w, e) && frame[2] in OCPP_REGISTERS && frame[3] == READ
    requires AirIsValid(w, frame, valid) && TakenValid(w.client, first, frame, valid)
    requires ReadReply(w.memory, frame[2]) in valid
    ensures AirIsValid(Next(w, e), frame, valid) && TakenValid(Next(w, e).client, first, frame, valid)
  {
    match e
    case Does(step) => DoesKeepsValid(w, step, first, frame, valid);
    case Hears(g) => HearsKeepsValid(w, g, first, frame, valid);
    case Takes(i) => TakesKeepsValid(w, i, frame, valid);
  }

  lemma {:induction false} GoKeepsValid(w: World, events: seq<Event>, first: nat, frame: Frame, valid: set<Bytes>)
    requires WorldOk(w) && Can(w, events) && frame[2] in OCPP_REGISTERS && frame[3] == READ
    requires AirIsValid(w, frame, valid) && TakenValid(w.client, first, frame, valid)
    requires SeenAnswers(w, events, frame[2]) <= valid
    ensures WorldOk(Go(w, events)) && TakenValid(Go(w, events).client, first, frame, valid)
    decreases |events|
  {
    if events != [] {
      NextKeepsWorld(w, events[0]);
      NextKeepsValid(w, events[0], first, frame, valid);
      GoKeepsValid(Next(w, events[0]), events[1..], first, frame, valid);
    }
  }

  /** With nothing stale under way, a read returns what its register held at some
      moment of the run since. */
  lemma ReadIsFresh(w: World, events: seq<Event>, u: TaskId, i: nat, frame: Frame)
    requires WorldOk(w) && Can(w, events) && NotYet(w.client, u, i)
    requires frame[2] in OCPP_REGISTERS && frame[3] == READ
    requires AirIsValid(w, frame, {ReadReply(w.memory, frame[2])})
    requires Returns(Go(w, events).client, u, i)
    requires i < |Go(w, events).client.tasks[u].program|
             && Go(w, events).client.tasks[u].program[i] == Request(frame)
    ensures Payload(Go(w, events).client, u, i) in SeenAnswers(w, events, frame[2])
  {
    var valid := SeenAnswers(w, events, frame[2]);
    GoKeepsValid(w, events, |w.client.futures|, frame, valid);
    WorldRunsTheClient(w, events);
    OutcomesAreFinal(w.client, StepsOf(w, events));
    ReturnedIsFresh(w.client, Go(w, events).client, u, i, frame, valid);
  }

  lemma ReturnedIsFresh(s1: State, s: State, u: TaskId, i: nat, frame: Frame, valid: set<Bytes>)
    requires Inv(s) && NotYet(s1, u, i) && Settles(s1.futures, s.futures) && Returns(s, u, i)
    requires TakenValid(s, |s1.futures|, frame, valid)
    requires i < |s.tasks[u].program| && s.tasks[u].program[i] == Request(frame)
    ensures Payload(s, u, i) in valid
  {
    assert AnswerOk(s.futures, u, s.tasks[u], i);
    var f := s.tasks[u].answers[i].future;
    LaterFuture(s1, s, u, i, i, f);
    assert FutureOk(s.notes, s.futures[f]);
  }

  /** A read about to begin is sure to return what its register holds at some
      moment from now on, however the run goes, exactly when no answer under way
      to an earlier read of it says something else. */
  lemma ReadIsFreshExactlyWhenNothingStale(w: World, u: TaskId, frame: Frame)
    requires WorldOk(w) && w.client.owner.None? && w.client.connected && u in w.client.tasks
    requires w.client.tasks[u].phase.Idle? && w.client.tasks[u].Busy() && w.client.tasks[u].Current() == Request(frame)
    requires frame[2] in OCPP_REGISTERS && frame[3] == READ && NotYet(w.client, u, |w.client.tasks[u].answers|)
    ensures AirIsValid(w, frame, {ReadReply(w.memory, frame[2])})
       <==> forall events :: Can(w, events) && Returns(Go(w, events).client, u, |w.client.tasks[u].answers|)
                             ==> Payload(Go(w, events).client, u, |w.client.tasks[u].answers|)
                                 in SeenAnswers(w, events, frame[2])
  {
    var i := |w.client.tasks[u].answers|;
    if AirIsValid(w, frame, {ReadReply(w.memory, frame[2])}) {
      forall events | Can(w, events) && Returns(Go(w, events).client, u, i)
        ensures Payload(Go(w, events).client, u, i) in SeenAnswers(w, events, frame[2])
      {
        WorldRunsTheClient(w, events);
        AnswersAreKept(w.client, StepsOf(w, events), u);
        ReadIsFresh(w, events, u, i, frame);
      }
    } else {
      var g :| g in w.air && Answers(w.air[g], frame) && w.air[g] != ReadReply(w.memory, frame[2]);
      var events := StaleAnswerMayBeReturned(w, u, frame, g);
    }
  }
}
