/** The client and a charger at the other end of its transport.

    A frame handed to the transport reaches the charger before its send is
    acknowledged. When the send is not, because it failed or was abandoned, the
    frame may arrive at any later moment, or never. The charger keeps a register
    file and answers reads of the OCPP registers from it; its answers, too, may
    arrive much later. */
module Charger {
  import opened Bytes
  import opened Frames
  import opened Client
  import opened ClientInvariant
  import opened ClientWire
  import ClientSends
  import opened Config

  datatype World = World(
    client: State,
    memory: Memory,
    taken: set<nat>,        // wire entries the charger has got
    air: map<nat, Bytes>    // by wire entry: answers to reads of OCPP registers, under way
  )

  datatype Event =
    | Does(step: Step)      // any step of the client's machine but the next
    | Hears(entry: nat)     // `Notify`, of an answer that was under way
    | Takes(entry: nat)     // the charger gets a frame

  function NewWorld(timeout: nat, memory: Memory): World {
    World(Init(timeout), memory, {}, map[])
  }

  /** An answer to a plain read of an OCPP register. */
  predicate IsSetting(payload: Bytes) {
    IsReply(payload) && payload[2] in OCPP_REGISTERS && payload[3] == READ
  }

  /** Wire entry `i` may still arrive. */
  predicate Outstanding(w: World, i: nat) {
    i < |w.client.wire| && i !in w.taken
  }

  ghost predicate Possible(w: World, e: Event) {
    match e
    case Takes(i) => Outstanding(w, i)
    case Hears(i) => i in w.air
    case Does(step) =>
      && Enabled(w.client, step) && !(step.Notify? && IsSetting(step.payload))
      // An acknowledged frame has arrived.
      && (step.EndSend? && step.outcome.Delivered? ==> |w.client.wire| - 1 in w.taken)
  }

  ghost function Next(w: World, e: Event): World
    requires Possible(w, e)
  {
    match e
    case Takes(i) =>
      var f := w.client.wire[i].frame;
      w.(memory := Accept(w.memory, f),
         taken := w.taken + {i},
         air := if f[3] == READ && f[2] in OCPP_REGISTERS then w.air[i := ReadReply(w.memory, f[2])] else w.air)
    case Hears(i) => w.(client := Apply(w.client, Notify(w.air[i])), air := w.air - {i})
    case Does(step) => w.(client := Apply(w.client, step))
  }

  ghost predicate Can(w: World, events: seq<Event>)
    decreases |events|
  {
    events == [] || (Possible(w, events[0]) && Can(Next(w, events[0]), events[1..]))
  }

  ghost function Go(w: World, events: seq<Event>): World
    requires Can(w, events)
    decreases |events|
  {
    if events == [] then w else Go(Next(w, events[0]), events[1..])
  }

  lemma {:induction false} GoOn(w: World, a: seq<Event>, b: seq<Event>)
    requires Can(w, a) && Can(Go(w, a), b)
    ensures Can(w, a + b) && Go(w, a + b) == Go(Go(w, a), b)
    decreases |a|, 1
  {
    if a == [] {
      assert a + b == b;
    } else {
      FirstThenRest(a, b);
      GoOnFrom(w, a[0], a[1..], b);
    }
  }

  lemma FirstThenRest(a: seq<Event>, b: seq<Event>)
    requires a != []
    ensures a + b == [a[0]] + (a[1..] + b)
  {
  }

  lemma {:induction false} GoOnFrom(w: World, e: Event, a: seq<Event>, b: seq<Event>)
    requires Possible(w, e) && Can(Next(w, e), a) && Can(Go(Next(w, e), a), b)
    ensures Can(w, [e] + (a + b)) && Go(w, [e] + (a + b)) == Go(Go(Next(w, e), a), b)
    decreases |a|, 2
  {
    GoOn(Next(w, e), a, b);
    GoFirst(w, Next(w, e), [e] + (a + b), e, a + b);
  }

  lemma GoFirst(w: World, w1: World, events: seq<Event>, first: Event, rest: seq<Event>)
    requires events == [first] + rest && Possible(w, first) && w1 == Next(w, first) && Can(w1, rest)
    ensures Can(w, events) && Go(w, events) == Go(w1, rest)
  {
    assert events[0] == first && events[1..] == rest;
  }

  // ---- What every world keeps ----

  ghost predicate WorldOk(w: World) {
    && Inv(w.client) && WireInv(w.client)
    && forall i <- w.taken :: i < |w.client.wire|
  }

  /** Entries stay where they are; only `acked` may change. */
  ghost predicate Grows(before: seq<Sent>, after: seq<Sent>) {
    && |before| <= |after| <= |before| + 1
    && forall i | 0 <= i < |before| :: after[i] == before[i].(acked := after[i].acked)
  }

  /** The wire grows when a send begins, and then only. */
  lemma StepGrowsWire(s: State, step: Step)
    requires Enabled(s, step)
    ensures Grows(s.wire, Apply(s, step).wire)
    ensures !step.BeginSend? ==> |Apply(s, step).wire| == |s.wire|
    ensures !step.BeginSend? && !step.EndSend? ==> Apply(s, step).wire == s.wire
  {
    if step.BeginSend? || step.EndSend? {
      SendGrowsWire(s, step);
    } else {
      StepTouches(s, step);
    }
  }

  lemma SendGrowsWire(s: State, step: Step)
    requires Enabled(s, step) && (step.BeginSend? || step.EndSend?)
    ensures Grows(s.wire, Apply(s, step).wire)
    ensures step.EndSend? ==> |Apply(s, step).wire| == |s.wire|
  {
  }

  lemma NextKeepsWorld(w: World, e: Event)
    requires WorldOk(w) && Possible(w, e)
    ensures WorldOk(Next(w, e))
  {
    match e
    case Takes(_) => assert Next(w, e).client == w.client;
    case Hears(i) => StepKeepsWorld(w, Next(w, e), Notify(w.air[i]));
    case Does(step) => StepKeepsWorld(w, Next(w, e), step);
  }

  lemma StepKeepsWorld(w: World, w': World, step: Step)
    requires WorldOk(w) && Enabled(w.client, step) && w'.client == Apply(w.client, step) && w'.taken == w.taken
    ensures WorldOk(w')
  {
    StepInv(w.client, step);
    StepKeepsWire(w.client, step);
    StepGrowsWire(w.client, step);
  }

  /** The charger gets a frame: the client does not notice. */
  lemma TakesOne(w: World, i: nat)
    requires Outstanding(w, i)
    ensures var w', r := Next(w, Takes(i)), w.client.wire[i].frame[2];
            && w'.client == w.client && w'.taken == w.taken + {i}
            && (w'.air == w.air || (r in OCPP_REGISTERS && w'.air == w.air[i := ReadReply(w.memory, r)]))
  {
  }

  lemma {:induction false} GoKeepsWorld(w: World, events: seq<Event>)
    requires WorldOk(w) && Can(w, events)
    ensures WorldOk(Go(w, events))
    decreases |events|
  {
    if events != [] {
      NextKeepsWorld(w, events[0]);
      GoKeepsWorld(Next(w, events[0]), events[1..]);
    }
  }

  lemma NewWorldOk(timeout: nat, memory: Memory)
    ensures WorldOk(NewWorld(timeout, memory))
  {
    InitInv(timeout);
  }

  /** An acknowledged frame has arrived. */
  ghost predicate AckedArrived(w: World) {
    forall i | 0 <= i < |w.client.wire| && w.client.wire[i].acked :: i in w.taken
  }

  lemma NextKeepsAcked(w: World, e: Event)
    requires WorldOk(w) && AckedArrived(w) && Possible(w, e)
    ensures AckedArrived(Next(w, e))
  {
    match e
    case Takes(i) => TakesOne(w, i);
    case Hears(i) => FramesLeaveExactlyWhenSent(w.client, Notify(w.air[i]));
    case Does(step) => StepKeepsAcked(w, step);
  }

  lemma StepKeepsAcked(w: World, step: Step)
    requires WorldOk(w) && AckedArrived(w) && Possible(w, Does(step))
    ensures AckedArrived(w.(client := Apply(w.client, step)))
  {
    FramesLeaveExactlyWhenSent(w.client, step);
    var wire := Apply(w.client, step).wire;
    forall i | 0 <= i < |wire| && wire[i].acked
      ensures i in w.taken
    {
      if i < |w.client.wire| - 1 && |wire| == |w.client.wire| {
        assert wire[i] == wire[..|wire| - 1][i];
      }
    }
  }

  /** In every world reached from a new one, what the client saw acknowledged the
      charger has got. */
  lemma {:induction false} AcknowledgedFramesArrived(w: World, events: seq<Event>)
    requires WorldOk(w) && AckedArrived(w) && Can(w, events)
    ensures AckedArrived(Go(w, events))
    decreases |events|
  {
    if events != [] {
      NextKeepsWorld(w, events[0]);
      NextKeepsAcked(w, events[0]);
      AcknowledgedFramesArrived(Next(w, events[0]), events[1..]);
    }
  }

  // ---- Worlds and the client's runs are the same thing ----

  /** The client's part of some events, the answers being those in `w`. */
  ghost function StepsOf(w: World, events: seq<Event>): seq<Step>
    requires Can(w, events)
    decreases |events|
  {
    if events == [] then []
    else
      (match events[0]
       case Does(step) => [step]
       case Hears(i) => [Notify(w.air[i])]
       case Takes(_) => []) + StepsOf(Next(w, events[0]), events[1..])
  }

  /** What the client does in a world is one of its runs. */
  lemma {:induction false} WorldRunsTheClient(w: World, events: seq<Event>)
    requires Can(w, events)
    ensures Legal(w.client, StepsOf(w, events)) && Run(w.client, StepsOf(w, events)) == Go(w, events).client
    decreases |events|
  {
    if events != [] {
      var rest := StepsOf(Next(w, events[0]), events[1..]);
      WorldRunsTheClient(Next(w, events[0]), events[1..]);
      match events[0]
      case Does(step) => ClientSends.RunFirst(w.client, StepsOf(w, events), step, rest);
      case Hears(i) => ClientSends.RunFirst(w.client, StepsOf(w, events), Notify(w.air[i]), rest);
      case Takes(_) => assert StepsOf(w, events) == rest;
    }
  }

  /** And every step of the client can be taken in a world, apart from hearing
      an answer the charger has not given. */
  lemma EveryStepIsPossible(w: World, step: Step)
    requires WorldOk(w) && Enabled(w.client, step)
    requires step.Notify? && IsSetting(step.payload) ==> step.payload in w.air.Values
    ensures exists events :: Can(w, events) && Go(w, events).client == Apply(w.client, step)
  {
    if step.Notify? && IsSetting(step.payload) {
      var i :| i in w.air && w.air[i] == step.payload;
      One(w, Hears(i));
    } else if Possible(w, Does(step)) {
      One(w, Does(step));
    } else {
      var i := |w.client.wire| - 1;
      OpenIsLast(w.client, step.task);
      One(w, Takes(i));
      var arrived := Next(w, Takes(i));
      One(arrived, Does(step));
      GoOn(w, [Takes(i)], [Does(step)]);
    }
  }

  lemma OpenIsLast(s: State, t: TaskId)
    requires WireInv(s) && IsActive(s, t) && s.tasks[t].phase.send.Open?
    ensures s.wire != []
  {
    assert EdgeOk(s.wire, t, s.tasks[t]);
  }

  lemma One(w: World, e: Event)
    requires Possible(w, e)
    ensures Can(w, [e]) && Go(w, [e]) == Next(w, e)
  {
    assert Can(Next(w, e), [e][1..]);
  }

  /** One frame arrives. */
  lemma Arrival(w: World, i: nat) returns (events: seq<Event>, w': World)
    requires Outstanding(w, i)
    ensures Can(w, events) && w' == Go(w, events) && forall e <- events :: e.Takes? ==> e.entry == i
    ensures w'.client == w.client && w'.taken == w.taken + {i}
  {
    One(w, Takes(i));
    TakesOne(w, i);
    events, w' := [Takes(i)], Next(w, Takes(i));
  }

  lemma Join(w: World, a: seq<Event>, mid: World, b: seq<Event>, after: World)
    requires Can(w, a) && mid == Go(w, a) && Can(mid, b) && after == Go(mid, b)
    ensures Can(w, a + b) && Go(w, a + b) == after
  {
    GoOn(w, a, b);
  }

  lemma OneMore(w: World, before: seq<Event>, e: Event)
    requires Can(w, before) && Possible(Go(w, before), e)
    ensures Can(w, before + [e]) && Go(w, before + [e]) == Next(Go(w, before), e)
  {
    One(Go(w, before), e);
    GoOn(w, before, [e]);
  }
}
