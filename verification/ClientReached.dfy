/** Runs from a fresh client and charger in which a completed configuration is
    undone, and in which a read returns what its register no longer holds. */
module ClientReached {
  import opened Bytes
  import opened Errors
  import opened Frames
  import opened Client
  import opened ClientInvariant
  import opened ClientDrop
  import opened Config
  import opened Pieces
  import opened Charger
  import opened ClientConfig
  import opened ClientConfigLost
  import opened ClientReadBack
  import opened ClientStale

  // ---- One caller after another ----

  /** The link is up and nobody holds the lock. */
  ghost predicate Free(w: World) {
    WorldOk(w) && w.client.connected && w.client.owner.None?
  }

  /** Only the client has moved, and it has handed over nothing. */
  ghost predicate SameCharger(w: World, w': World) {
    && w'.memory == w.memory && w'.taken == w.taken && w'.air == w.air && w'.client.wire == w.client.wire
  }

  lemma Linked(timeout: nat, memory: Memory) returns (events: seq<Event>, w: World)
    ensures Can(NewWorld(timeout, memory), events) && w == Go(NewWorld(timeout, memory), events)
    ensures Free(w) && SameCharger(NewWorld(timeout, memory), w) && w.client.tasks == map[]
  {
    var start := NewWorld(timeout, memory);
    NewWorldOk(timeout, memory);
    NextKeepsWorld(start, Does(Connect));
    One(start, Does(Connect));
    events, w := [Does(Connect)], Next(start, Does(Connect));
  }

  /** A new caller arrives. */
  lemma Arrives(w: World, t: TaskId, op: Op) returns (events: seq<Event>, w': World)
    requires Free(w) && t !in w.client.tasks && op.WellFormed()
    ensures Can(w, events) && w' == Go(w, events)
    ensures Free(w') && SameCharger(w, w')
    ensures w'.client.tasks == w.client.tasks[t := Task([op], [], Idle)] && w'.client.futures == w.client.futures
  {
    events, w' := [Does(Spawn(t, [op]))], Next(w, Does(Spawn(t, [op])));
    NextKeepsWorld(w, Does(Spawn(t, [op])));
    One(w, Does(Spawn(t, [op])));
  }

  lemma Queues(w: World, t: TaskId, op: Op) returns (events: seq<Event>, w': World)
    requires Free(w) && t in w.client.tasks && w.client.tasks[t] == Task([op], [], Idle)
    ensures Can(w, events) && w' == Go(w, events)
    ensures Free(w') && SameCharger(w, w')
    ensures w'.client.tasks == w.client.tasks[t := Task([op], [], Queued)]
  {
    events, w' := [Does(Begin(t))], Next(w, Does(Begin(t)));
    NextKeepsWorld(w, Does(Begin(t)));
    One(w, Does(Begin(t)));
  }

  /** `t` holds the lock for its only call, at the start of its frame. */
  ghost predicate Holding(w: World, t: TaskId, op: Op) {
    && WorldOk(w) && w.client.connected && w.client.owner == Some(t) && IsActive(w.client, t)
    && w.client.tasks[t].program == [op] && w.client.tasks[t].answers == []
    && var p := w.client.tasks[t].phase;
       p.stage.Delivering? && p.index == 0 && p.interruption.Calm?
  }

  lemma Locks(w: World, t: TaskId, op: Op) returns (events: seq<Event>, w': World)
    requires Free(w) && t in w.client.tasks && w.client.tasks[t] == Task([op], [], Queued) && op.WellFormed()
    ensures Can(w, events) && w' == Go(w, events)
    ensures Holding(w', t, op) && w'.client.tasks[t].phase.send.Unstarted? && SameCharger(w, w')
    ensures w'.client.tasks.Keys == w.client.tasks.Keys
  {
    events, w' := [Does(Acquire(t))], Next(w, Does(Acquire(t)));
    NextKeepsWorld(w, Does(Acquire(t)));
    One(w, Does(Acquire(t)));
    EnterHolds(w.client, t);
  }

  lemma EnterHolds(s: State, t: TaskId)
    requires Enabled(s, Acquire(t))
    ensures var s' := Enter(s, t);
            && s'.wire == s.wire && s'.connected == s.connected && s'.owner == Some(t) && IsActive(s', t)
            && s'.tasks.Keys == s.tasks.Keys
            && s'.tasks[t] == s.tasks[t].(phase := Active(Delivering, |s.futures|, 0, Unstarted, Calm,
                                                          s.now + s.timeout, 0))
  {
  }

  lemma Enters(w: World, t: TaskId, op: Op) returns (events: seq<Event>, w': World)
    requires Free(w) && t !in w.client.tasks && op.WellFormed()
    ensures Can(w, events) && w' == Go(w, events)
    ensures Holding(w', t, op) && w'.client.tasks[t].phase.send.Unstarted? && SameCharger(w, w')
    ensures w'.client.tasks.Keys == w.client.tasks.Keys + {t}
  {
    var arrive, arrived := Arrives(w, t, op);
    var queue, queued := Queues(arrived, t, op);
    Join(w, arrive, arrived, queue, queued);
    var lock, locked := Locks(queued, t, op);
    Join(w, arrive + queue, queued, lock, locked);
    events, w' := arrive + queue + lock, locked;
  }

  /** Its frame is on the wire and its send open. */
  lemma Sends(w: World, t: TaskId, op: Op) returns (events: seq<Event>, w': World)
    requires Holding(w, t, op) && w.client.tasks[t].phase.send.Unstarted?
    ensures Can(w, events) && w' == Go(w, events)
    ensures Holding(w', t, op) && w'.client.tasks[t].phase.send.Open?
    ensures |w'.client.wire| == |w.client.wire| + 1 && w'.client.wire[|w.client.wire|].frame == op.FrameAt(0)
    ensures w'.memory == w.memory && w'.taken == w.taken && w'.air == w.air
    ensures w'.client.tasks.Keys == w.client.tasks.Keys
  {
    events, w' := [Does(BeginSend(t))], Next(w, Does(BeginSend(t)));
    NextKeepsWorld(w, Does(BeginSend(t)));
    One(w, Does(BeginSend(t)));
    assert w'.client == SendBegun(w.client, t);
  }

  lemma Interrupts(w: World, t: TaskId, op: Op) returns (events: seq<Event>, w': World)
    requires Holding(w, t, op) && w.client.tasks[t].phase.send.Open?
    ensures Can(w, events) && w' == Go(w, events)
    ensures WorldOk(w') && w'.client.connected && w'.client.owner == Some(t) && IsActive(w'.client, t)
    ensures w'.client.tasks[t].phase.interruption == Thrown(External) && SameCharger(w, w')
    ensures w'.client.tasks.Keys == w.client.tasks.Keys
  {
    events, w' := [Does(Interrupt(t, External))], Next(w, Does(Interrupt(t, External)));
    NextKeepsWorld(w, Does(Interrupt(t, External)));
    One(w, Does(Interrupt(t, External)));
    InterruptMarks(w.client, t, External);
  }

  lemma Unwinds(w: World, t: TaskId) returns (events: seq<Event>, w': World)
    requires WorldOk(w) && w.client.connected && w.client.owner == Some(t) && IsActive(w.client, t)
    requires w.client.tasks[t].phase.interruption == Thrown(External)
    ensures Can(w, events) && w' == Go(w, events)
    ensures Free(w') && SameCharger(w, w') && w'.client.tasks.Keys == w.client.tasks.Keys
  {
    events, w' := [Does(Resume(t))], Next(w, Does(Resume(t)));
    NextKeepsWorld(w, Does(Resume(t)));
    One(w, Does(Resume(t)));
    LeaveFrees(w.client, t);
  }

  lemma LeaveFrees(s: State, t: TaskId)
    requires IsActive(s, t) && s.tasks[t].phase.interruption == Thrown(External)
    ensures Enabled(s, Resume(t))
    ensures var s' := Resumed(s, t);
            && s'.owner.None? && s'.wire == s.wire && s'.connected == s.connected && s'.tasks.Keys == s.tasks.Keys
  {
    assert Resumed(s, t) == Leave(s, t, Cancelled);
  }

  /** The caller is cancelled and leaves its send open behind it. */
  lemma GivesUp(w: World, t: TaskId, op: Op) returns (events: seq<Event>, w': World)
    requires Holding(w, t, op) && w.client.tasks[t].phase.send.Open?
    ensures Can(w, events) && w' == Go(w, events)
    ensures Free(w') && SameCharger(w, w') && w'.client.tasks.Keys == w.client.tasks.Keys
  {
    var strike, struck := Interrupts(w, t, op);
    var unwind, unwound := Unwinds(struck, t);
    Join(w, strike, struck, unwind, unwound);
    events, w' := strike + unwind, unwound;
  }

  lemma TakesLock(w: World, t: TaskId, c: OcppConfig, frames: seq<Frame>) returns (events: seq<Event>, w': World)
    requires Free(w) && t !in w.client.tasks && OcppFrames(c) == Ok(frames) && frames != []
    ensures Can(w, events) && w' == Go(w, events)
    ensures WorldOk(w') && Starting(w'.client, t, 0, c) && w'.client.tasks[t].phase.interruption.Calm?
    ensures SameCharger(w, w') && w'.client.tasks.Keys == w.client.tasks.Keys + {t}
    ensures w'.client.tasks[t].program == [Write(frames)]
  {
    events, w' := Enters(w, t, Write(frames));
  }

  // ---- A configuration that was completed and is not held ----

  /** The first caller on a fresh client, with its frame handed over. */
  lemma FirstSends(timeout: nat, memory: Memory, op: Op) returns (events: seq<Event>, w: World)
    requires op.WellFormed()
    ensures Can(NewWorld(timeout, memory), events) && w == Go(NewWorld(timeout, memory), events)
    ensures Holding(w, 0, op) && w.client.tasks[0].phase.send.Open? && w.client.tasks.Keys == {0}
    ensures |w.client.wire| == 1 && w.client.wire[0].frame == op.FrameAt(0)
    ensures w.memory == memory && w.taken == {} && w.air == map[]
  {
    var start := NewWorld(timeout, memory);
    var link, linked := Linked(timeout, memory);
    var enter, entered := Enters(linked, 0, op);
    Join(start, link, linked, enter, entered);
    var send, sent := Sends(entered, 0, op);
    Join(start, link + enter, entered, send, sent);
    events, w := link + enter + send, sent;
  }

  /** It is cancelled there, and its frame may still arrive. */
  lemma AbandonedFrame(timeout: nat, memory: Memory, frames: seq<Frame>) returns (events: seq<Event>, w: World)
    requires frames != []
    ensures Can(NewWorld(timeout, memory), events) && w == Go(NewWorld(timeout, memory), events)
    ensures Free(w) && w.client.tasks.Keys == {0} && w.taken == {}
    ensures |w.client.wire| == 1 && w.client.wire[0].frame == frames[0]
  {
    var send, sent := FirstSends(timeout, memory, Write(frames));
    var give, given := GivesUp(sent, 0, Write(frames));
    Join(NewWorld(timeout, memory), send, sent, give, given);
    events, w := send + give, given;
  }

  /** For any two configurations whose frames disagree at the first, from any
      memory: the write of `c` completes, and the charger does not hold it. */
  lemma CompletedConfigCanBeUndone(timeout: nat, memory: Memory, c0: OcppConfig, c: OcppConfig)
      returns (events: seq<Event>)
    requires Acceptable(c0) && Acceptable(c) && OcppFrames(c0).Ok? && OcppFrames(c).Ok? && OcppFrames(c0).value != []
    requires !AgreesWithAll(OcppFrames(c0).value[0], OcppFrames(c).value)
    ensures Can(NewWorld(timeout, memory), events)
    ensures var w := Go(NewWorld(timeout, memory), events);
            && 1 in w.client.tasks && w.client.tasks[1].program == [Write(OcppFrames(c).value)]
            && w.client.tasks[1].answers == [Completed] && !Holds(w.memory, c)
  {
    var start := NewWorld(timeout, memory);
    BatchOf(c);
    var abandon, abandoned := AbandonedFrame(timeout, memory, OcppFrames(c0).value);
    var lock, locked := TakesLock(abandoned, 1, c, OcppFrames(c).value);
    Join(start, abandon, abandoned, lock, locked);
    var after := OutstandingFrameCanUndo(locked, 1, 0, c, 0);
    Join(start, abandon + lock, locked, after, Go(locked, after));
    events := abandon + lock + after;
    OneCallAnswered(locked, after, 1);
  }

  lemma OneCallAnswered(w: World, events: seq<Event>, t: TaskId)
    requires WorldOk(w) && Can(w, events) && t in w.client.tasks && |w.client.tasks[t].program| == 1
    requires Answered(Go(w, events).client, t, 0)
    ensures Go(w, events).client.tasks[t].program == w.client.tasks[t].program
    ensures |Go(w, events).client.tasks[t].answers| == 1
  {
    GoKeepsWorld(w, events);
    WorldRunsTheClient(w, events);
    AnswersAreKept(w.client, StepsOf(w, events), t);
  }

  // ---- A read that returns what is no longer held ----

  lemma ChargerAnswers(w: World, t: TaskId, op: Op, i: nat) returns (events: seq<Event>, w': World)
    requires Holding(w, t, op) && w.client.tasks[t].phase.send.Open? && Outstanding(w, i)
    requires w.client.wire[i].frame[2] in OCPP_REGISTERS && w.client.wire[i].frame[3] == READ
    ensures Can(w, events) && w' == Go(w, events)
    ensures Holding(w', t, op) && w'.client == w.client && w'.memory == w.memory
    ensures w'.air == w.air[i := ReadReply(w.memory, w.client.wire[i].frame[2])]
  {
    events, w' := [Takes(i)], Next(w, Takes(i));
    NextKeepsWorld(w, Takes(i));
    One(w, Takes(i));
  }

  /** A read is cancelled after the charger has answered it. */
  lemma AnswerUnderWay(timeout: nat, memory: Memory, r: byte) returns (events: seq<Event>, w: World)
    requires r in OCPP_REGISTERS
    ensures Can(NewWorld(timeout, memory), events) && w == Go(NewWorld(timeout, memory), events)
    ensures Free(w) && w.client.tasks.Keys == {0} && w.air == map[0 := ReadReply(memory, r)]
  {
    var op := Request(BuildRead(r));
    var send, sent := FirstSends(timeout, memory, op);
    var answer, answered := ChargerAnswers(sent, 0, op, 0);
    Join(NewWorld(timeout, memory), send, sent, answer, answered);
    var give, given := GivesUp(answered, 0, op);
    Join(NewWorld(timeout, memory), send + answer, answered, give, given);
    events, w := send + answer + give, given;
  }

  /** Meanwhile another caller writes configuration `c`. */
  lemma WrittenMeanwhile(w: World, c: OcppConfig) returns (events: seq<Event>, w': World)
    requires Free(w) && w.client.tasks.Keys == {0} && Acceptable(c)
    ensures Can(w, events) && w' == Go(w, events)
    ensures Free(w') && w'.air == w.air && Holds(w'.memory, c) && w'.client.tasks.Keys == {0, 1}
    ensures Answered(w'.client, 1, 0) && w'.client.tasks[1].answers[0] == Completed
  {
    HoldsExactlyKept(w.memory, c);
    BatchOf(c);
    var lock, locked := TakesLock(w, 1, c, OcppFrames(c).value);
    var finish, written := Finishes(locked, c);
    Join(w, lock, locked, finish, written);
    events, w' := lock + finish, written;
  }

  lemma Finishes(w: World, c: OcppConfig) returns (events: seq<Event>, w': World)
    requires WorldOk(w) && Starting(w.client, 1, 0, c) && w.client.tasks[1].phase.interruption.Calm?
    ensures Can(w, events) && w' == Go(w, events)
    ensures Free(w') && w'.air == w.air && Acceptable(c) && Holds(w'.memory, c)
    ensures w'.client.tasks.Keys == w.client.tasks.Keys
    ensures Answered(w'.client, 1, 0) && w'.client.tasks[1].answers[0] == Completed
  {
    events := WriteCanComplete(w, 1, 0, c);
    w' := Go(w, events);
  }

  /** From any memory and for any configuration: an earlier read of `r` is
      cancelled, `c` is written and held, and only then does another caller read
      `r`. It returns what `r` held at first. */
  lemma StaleReadCanHappen(timeout: nat, memory: Memory, c: OcppConfig, r: byte)
      returns (before: seq<Event>, after: seq<Event>)
    requires Acceptable(c) && r in OCPP_REGISTERS
    ensures Can(NewWorld(timeout, memory), before)
    ensures var w := Go(NewWorld(timeout, memory), before);
            && Holds(w.memory, c) && 2 !in w.client.tasks && Can(w, after)
            && var w' := Go(w, after);
               && Returns(w'.client, 2, 0) && w'.client.tasks[2].program == [Request(BuildRead(r))]
               && Payload(w'.client, 2, 0) == ReadReply(memory, r)
               && w'.memory == w.memory
               && (memory[r] != Field(c, r) ==> Payload(w'.client, 2, 0) != ReadReply(w'.memory, r))
  {
    var start := NewWorld(timeout, memory);
    var leave, left := AnswerUnderWay(timeout, memory, r);
    var write, written := WrittenMeanwhile(left, c);
    Join(start, leave, left, write, written);
    before := leave + write;
    after := ReadsStale(written, memory, c, r);
  }

  lemma ReadsStale(w: World, memory: Memory, c: OcppConfig, r: byte) returns (after: seq<Event>)
    requires Free(w) && r in OCPP_REGISTERS && Acceptable(c) && Holds(w.memory, c)
    requires w.client.tasks.Keys == {0, 1} && 0 in w.air && w.air[0] == ReadReply(memory, r)
    ensures Can(w, after)
    ensures var w' := Go(w, after);
            && Returns(w'.client, 2, 0) && w'.client.tasks[2].program == [Request(BuildRead(r))]
            && Payload(w'.client, 2, 0) == ReadReply(memory, r) && w'.memory == w.memory
            && (memory[r] != Field(c, r) ==> Payload(w'.client, 2, 0) != ReadReply(w'.memory, r))
  {
    var frame := BuildRead(r);
    var arrive, arrived := Arrives(w, 2, Request(frame));
    var read := StaleAnswerMayBeReturned(arrived, 2, frame, 0);
    var w' := Go(arrived, read);
    Join(w, arrive, arrived, read, w');
    after := arrive + read;
    OneCallAnswered(arrived, read, 2);
    HoldsFields(w.memory, c);
    assert ReadReply(memory, r)[VALUE_OFFSET..] == memory[r] && ReadReply(w.memory, r)[VALUE_OFFSET..] == w.memory[r];
  }
}
