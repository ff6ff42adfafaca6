/** The OCPP tunnel transport: a callback pair that comes and goes while
    DataTransfer calls are in flight. */
module Tunnel {
  import opened Bytes
  import opened Errors
  import opened Frames
  import opened TunnelText

  const BULK_REGISTERS: set<byte> := {HISTORY_SESSIONS, HISTORY_EVENTS}

  // ---- One DataTransfer ----

  /** `NotText` is anything but `None` and text; Python calls some of it false. */
  datatype Data = NoData | Text(text: string) | NotText(truthy: bool)

  /** What the caller's DataTransfer function does in the end. */
  datatype CallResult =
    | Replied(status: string, data: Data)
    | TimedOut
    | RaisedPackage(error: Error)
    | RaisedOther

  /** The checks before the call. */
  function CheckFrame(connected: bool, frame: Bytes): Result<()> {
    if !connected then Err(ConnectionError)
    else if !IsReply(frame) then Err(ValueError)
    else if frame[2] in BULK_REGISTERS then Err(UnsupportedError)
    else Ok(())
  }

  /** What the call's result amounts to: an error, no reply, or a payload. */
  function Interpret(result: CallResult): Result<Option<Bytes>> {
    match result
    case TimedOut => Err(TimeoutError)
    case RaisedPackage(error) => Err(error)
    case RaisedOther => Err(ConnectionError)
    case Replied(status, data) =>
      if status != "Accepted" then Err(ProtocolError)
      else
        match data
        case NoData => Ok(None)
        case NotText(truthy) => if truthy then Err(ProtocolError) else Ok(None)
        case Text(text) =>
          if text == "" then Ok(None)
          else
            var payload :- ParseReply(text);
            if IsReply(payload) then Ok(Some(payload)) else Err(ProtocolError)
  }

  /** Which frames leave, and how the others are refused: not registered first,
      then not a register frame, then a streamed register. */
  lemma CheckFrameLaw(connected: bool, frame: Bytes)
    ensures CheckFrame(connected, frame)
         == if !connected then Err(ConnectionError)
            else if |frame| <= 4 || frame[0] != 0x10 || frame[1] != 0xAC then Err(ValueError)
            else if frame[2] == 0x68 || frame[2] == 0x70 then Err(UnsupportedError)
            else Ok(())
  {
  }

  /** A payload comes of exactly an accepted call whose text is a register reply in
      hex; nothing comes, and nothing is wrong, of one without data. */
  lemma InterpretLaw(result: CallResult, payload: Bytes)
    ensures Interpret(result) == Ok(Some(payload)) <==>
              && result.Replied? && result.status == "Accepted" && result.data.Text?
              && IsReply(payload) && Lower(Squeeze(result.data.text)) == Hex(payload)
    ensures Interpret(result) == Ok(None) <==>
              result.Replied? && result.status == "Accepted" && result.data in {NoData, Text(""), NotText(false)}
  {
    if result.Replied? && result.data.Text? {
      ParseReplyLaw(result.data.text, payload);
      if result.data.text == "" && IsReply(payload) {
        NoHexIsNoReply(payload);
      }
    }
  }

  lemma NoHexIsNoReply(payload: Bytes)
    requires IsReply(payload)
    ensures Hex(payload) != "" && Lower(Squeeze("")) == ""
  {
  }

  /** Its errors: time that ran out, the package's own, a connection error for any
      other exception, and a protocol error for whatever the charger answered. */
  lemma InterpretErrors(result: CallResult)
    ensures Interpret(result).Err? ==>
              Interpret(result).error
              == match result
                 case TimedOut => TimeoutError
                 case RaisedPackage(error) => error
                 case RaisedOther => ConnectionError
                 case Replied(_, _) => ProtocolError
    ensures !result.Replied? ==> Interpret(result).Err?
  {
    if result.Replied? && result.data.Text? {
      ParsesExactlyHex(Squeeze(result.data.text));
    }
  }

  // ---- The transport over time ----

  /** What others see of the transport. Registrations are numbered. */
  datatype Event =
    | Registered(n: nat)                   // async_connect
    | Released                             // async_disconnect
    | Dropped(n: nat)                      // on_disconnect of registration n called
    | Called(n: nat, frame: Bytes)         // DataTransfer made while n was registered
    | Handed(n: nat, payload: Bytes)       // payload given to on_frame of n

  datatype Link = Link(current: Option<nat>, next: nat, log: seq<Event>)

  const FRESH := Link(None, 0, [])

  datatype Step =
    | Connect
    | Disconnect
    | NotifyDisconnected
    | StartSend(frame: Bytes)
    | FinishSend(result: CallResult)   // of any call in flight

  function Apply(l: Link, step: Step): Link {
    match step
    case Connect => Link(Some(l.next), l.next + 1, l.log + [Registered(l.next)])
    case Disconnect => l.(current := None, log := l.log + [Released])
    case NotifyDisconnected =>
      if l.current.Some? then l.(current := None, log := l.log + [Dropped(l.current.value)]) else l
    case StartSend(frame) =>
      if CheckFrame(l.current.Some?, frame).Ok? then l.(log := l.log + [Called(l.current.value, frame)]) else l
    case FinishSend(result) =>
      var outcome := Interpret(result);
      if outcome.Ok? && outcome.value.Some? && l.current.Some?
      then l.(log := l.log + [Handed(l.current.value, outcome.value.value)]) else l
  }

  function Run(l: Link, steps: seq<Step>): Link {
    if steps == [] then l else Apply(Run(l, steps[..|steps| - 1]), steps[|steps| - 1])
  }

  // ---- What the log can look like ----

  /** Registration `n` is in force at the end of `log`: it was made, and nothing
      has replaced or ended it since. */
  ghost predicate InForce(log: seq<Event>, n: nat) {
    exists k :: 0 <= k < |log| && log[k] == Registered(n)
      && forall m | k < m < |log| :: !log[m].Registered? && !log[m].Released? && !log[m].Dropped?
  }

  ghost predicate EventOk(before: seq<Event>, e: Event) {
    match e
    case Registered(n) => forall m | 0 <= m < |before| && before[m].Registered? :: before[m].n < n
    case Released => true
    case Dropped(n) => InForce(before, n)
    case Called(n, frame) => InForce(before, n) && IsReply(frame) && frame[2] !in BULK_REGISTERS
    case Handed(n, payload) => InForce(before, n) && IsReply(payload)
  }

  ghost predicate LinkOk(l: Link) {
    && (forall i | 0 <= i < |l.log| :: EventOk(l.log[..i], l.log[i]))
    && (forall m | 0 <= m < |l.log| && l.log[m].Registered? :: l.log[m].n < l.next)
    && (forall n: nat :: InForce(l.log, n) <==> l.current == Some(n))
  }

  lemma AppendKeepsLog(l: Link, l': Link, e: Event)
    requires LinkOk(l) && l'.log == l.log + [e] && EventOk(l.log, e)
    ensures forall i | 0 <= i < |l'.log| :: EventOk(l'.log[..i], l'.log[i])
  {
    forall i | 0 <= i < |l'.log|
      ensures EventOk(l'.log[..i], l'.log[i])
    {
      assert l'.log[..i] == l.log[..i];
      if i == |l.log| {
        assert l.log[..i] == l.log;
      }
    }
  }

  lemma StaysInForce(log: seq<Event>, e: Event, n: nat)
    requires InForce(log, n) && !e.Registered? && !e.Released? && !e.Dropped?
    ensures InForce(log + [e], n)
  {
    var k :| 0 <= k < |log| && log[k] == Registered(n)
      && forall m | k < m < |log| :: !log[m].Registered? && !log[m].Released? && !log[m].Dropped?;
    assert (log + [e])[k] == Registered(n);
  }

  /** Nothing is in force after a release or a drop, only the new one after a
      registration, and otherwise what was. */
  lemma InForceAfter(log: seq<Event>, e: Event, n: nat)
    ensures InForce(log + [e], n) <==>
              if e.Registered? then e.n == n else !e.Released? && !e.Dropped? && InForce(log, n)
  {
    var after := log + [e];
    if e.Registered? {
      assert after[|log|] == e;
      assert e.n == n ==> after[|log|] == Registered(n);
    } else if !e.Released? && !e.Dropped? && InForce(log, n) {
      StaysInForce(log, e, n);
    }
    if InForce(after, n) {
      var k :| 0 <= k < |after| && after[k] == Registered(n)
        && forall m | k < m < |after| :: !after[m].Registered? && !after[m].Released? && !after[m].Dropped?;
      assert after[|log|] == e;
      if k < |log| {
        assert log[k] == Registered(n) && forall m | k < m < |log| :: log[m] == after[m];
      }
    }
  }

  lemma CurrentIsInForce(l: Link, l': Link, e: Event)
    requires forall n: nat :: InForce(l.log, n) <==> l.current == Some(n)
    requires l'.log == l.log + [e]
    requires l'.current == if e.Registered? then Some(e.n) else if e.Released? || e.Dropped? then None else l.current
    ensures forall n: nat :: InForce(l'.log, n) <==> l'.current == Some(n)
  {
    forall n: nat
      ensures InForce(l'.log, n) <==> l'.current == Some(n)
    {
      InForceAfter(l.log, e, n);
    }
  }

  lemma ApplyKeepsLink(l: Link, step: Step)
    requires LinkOk(l)
    ensures LinkOk(Apply(l, step))
  {
    var l' := Apply(l, step);
    if |l'.log| > |l.log| {
      var e := l'.log[|l.log|];
      if step.FinishSend? {
        InterpretedIsReply(step.result);
      }
      AppendKeepsLog(l, l', e);
      CurrentIsInForce(l, l', e);
    }
  }

  lemma InterpretedIsReply(result: CallResult)
    requires Interpret(result).Ok? && Interpret(result).value.Some?
    ensures IsReply(Interpret(result).value.value)
  {
  }

  lemma {:induction false} RunKeepsLink(steps: seq<Step>)
    ensures LinkOk(Run(FRESH, steps))
  {
    if steps != [] {
      RunKeepsLink(steps[..|steps| - 1]);
      ApplyKeepsLink(Run(FRESH, steps[..|steps| - 1]), steps[|steps| - 1]);
    }
  }

  lemma RegistrationsIncrease(l: Link, i: nat, j: nat)
    requires LinkOk(l) && i < j < |l.log| && l.log[i].Registered? && l.log[j].Registered?
    ensures l.log[i].n < l.log[j].n
  {
    assert EventOk(l.log[..j], l.log[j]) && l.log[..j][i] == l.log[i];
  }

  /** Over any run, with connects, disconnects, drops and calls in flight in any
      order: a registration's `on_disconnect` is called at most once, and never
      after it was released on request or replaced; payloads go only to the
      registration in force when they arrive, and are register replies; and no
      call leaves without a registration in force or for a streamed register. */
  lemma TunnelIsSafe(steps: seq<Step>)
    ensures var log := Run(FRESH, steps).log;
            && (forall i, j | 0 <= i < j < |log| && log[i].Dropped? && log[j].Dropped? :: log[i].n != log[j].n)
            && (forall i | 0 <= i < |log| && log[i].Dropped? ::
                  exists k :: 0 <= k < i && log[k] == Registered(log[i].n)
                    && forall m | k < m < i :: !log[m].Released? && !log[m].Registered?)
            && (forall i | 0 <= i < |log| && log[i].Handed? :: InForce(log[..i], log[i].n) && IsReply(log[i].payload))
            && (forall i | 0 <= i < |log| && log[i].Called? ::
                  InForce(log[..i], log[i].n) && IsReply(log[i].frame) && log[i].frame[2] !in BULK_REGISTERS)
  {
    RunKeepsLink(steps);
    var l := Run(FRESH, steps);
    forall i | 0 <= i < |l.log| && l.log[i].Dropped?
      ensures exists k :: 0 <= k < i && l.log[k] == Registered(l.log[i].n)
                && forall m | k < m < i :: !l.log[m].Released? && !l.log[m].Registered?
    {
      var k := DropSource(l, i);
    }
    forall i, j | 0 <= i < j < |l.log| && l.log[i].Dropped? && l.log[j].Dropped?
      ensures l.log[i].n != l.log[j].n
    {
      var k1 := DropSource(l, i);
      var k2 := DropSource(l, j);
      if k1 < k2 {
        RegistrationsIncrease(l, k1, k2);
      } else if k2 < k1 {
        RegistrationsIncrease(l, k2, k1);
      }
    }
    forall i | 0 <= i < |l.log|
      ensures EventOk(l.log[..i], l.log[i])
    {
    }
  }

  ghost predicate NobodyIn(log: seq<Event>) {
    forall m: nat :: !InForce(log, m)
  }

  /** A frame the tunnel carries. */
  predicate Carried(frame: Bytes) {
    IsReply(frame) && frame[2] != 0x68 && frame[2] != 0x70
  }

  /** What a step adds to the log, where `n` is the registration in force, if
      there is one. */
  ghost predicate Adds(log: seq<Event>, log': seq<Event>, step: Step, n: nat) {
    match step
    case Connect =>
      && log' != [] && log' == log + [log'[|log'| - 1]] && log'[|log'| - 1].Registered?
      && forall i | 0 <= i < |log| && log[i].Registered? :: log[i].n < log'[|log'| - 1].n
    case Disconnect => log' == log + [Released]
    case NotifyDisconnected =>
      (InForce(log, n) ==> log' == log + [Dropped(n)]) && (NobodyIn(log) ==> log' == log)
    case StartSend(frame) =>
      && (InForce(log, n) && Carried(frame) ==> log' == log + [Called(n, frame)])
      && (NobodyIn(log) || !Carried(frame) ==> log' == log)
    case FinishSend(result) =>
      && (InForce(log, n) && Brings(result) ==> log' == log + [Handed(n, Brought(result))])
      && (NobodyIn(log) || !Brings(result) ==> log' == log)
  }

  /** The call was accepted and its text is a register reply. */
  predicate Brings(result: CallResult) {
    && result.Replied? && result.status == "Accepted" && result.data.Text?
    && ParseReply(result.data.text).Ok? && IsReply(ParseReply(result.data.text).value)
  }

  function Brought(result: CallResult): Bytes
    requires Brings(result)
  {
    ParseReply(result.data.text).value
  }

  /** What one more step of any run adds to what others see, and when it adds
      nothing: a frame leaves exactly when it may, an accepted reply is handed over
      exactly when somebody is registered, a drop is told once. */
  lemma EveryStepIsSeen(steps: seq<Step>, step: Step, n: nat)
    ensures Adds(Run(FRESH, steps).log, Run(FRESH, steps + [step]).log, step, n)
  {
    RunKeepsLink(steps);
    var l := Run(FRESH, steps);
    assert (steps + [step])[..|steps|] == steps && (steps + [step])[|steps|] == step;
    assert Run(FRESH, steps + [step]) == Apply(l, step);
    assert InForce(l.log, n) <==> l.current == Some(n);
    if l.current.Some? {
      assert InForce(l.log, l.current.value);
    }
    if step.FinishSend? {
      FinishIsSeen(l, step.result);
    } else if step.StartSend? {
      CheckFrameLaw(l.current.Some?, step.frame);
    }
  }

  lemma FinishIsSeen(l: Link, result: CallResult)
    ensures Apply(l, FinishSend(result)).log
         == if l.current.Some? && Brings(result) then l.log + [Handed(l.current.value, Brought(result))] else l.log
  {
    if Interpret(result).Ok? && Interpret(result).value.Some? {
      InterpretLaw(result, Interpret(result).value.value);
      ParseReplyLaw(result.data.text, Interpret(result).value.value);
    }
    if Brings(result) {
      InterpretLaw(result, Brought(result));
      ParseReplyLaw(result.data.text, Brought(result));
    }
  }

  lemma DropSource(l: Link, i: nat) returns (k: nat)
    requires LinkOk(l) && i < |l.log| && l.log[i].Dropped?
    ensures k < i && l.log[k] == Registered(l.log[i].n)
    ensures forall m | k < m < i :: !l.log[m].Released? && !l.log[m].Registered? && !l.log[m].Dropped?
  {
    var before := l.log[..i];
    assert EventOk(before, l.log[i]);
    k :| 0 <= k < |before| && before[k] == Registered(l.log[i].n)
      && forall m | k < m < |before| :: !before[m].Registered? && !before[m].Released? && !before[m].Dropped?;
    forall m | k < m < i
      ensures !l.log[m].Released? && !l.log[m].Registered? && !l.log[m].Dropped?
    {
      assert before[m] == l.log[m];
    }
  }

  /** A frame is answered over the tunnel as over Bluetooth: the hex that leaves
      parses to the frame itself, and an accepted reply in the charger's own
      form is handed over as the bytes it stands for. */
  lemma TunnelCarriesFramesFaithfully(frame: Frame, reply: Bytes)
    requires IsReply(reply)
    ensures ParseReply(Hex(frame)) == Ok(frame)
    ensures Interpret(Replied("Accepted", Text(Joined(reply)))) == Ok(Some(reply))
  {
    TextRoundTrip(frame);
    TextRoundTrip(reply);
  }

  // ---- The object ----

  /** The transport's own fields; `log` and `serial` only record. Callbacks are
      opaque, so each is represented by the registration it came with. */
  class OcppTunnelTransport {
    var onFrame: Option<nat>
    var onDisconnect: Option<nat>
    ghost var serial: nat
    ghost var log: seq<Event>

    ghost predicate Valid()
      reads this
    {
      onFrame == onDisconnect && LinkOk(View())
    }

    ghost function View(): Link
      reads this
    {
      Link(onFrame, serial, log)
    }

    constructor ()
      ensures Valid() && View() == FRESH
    {
      onFrame, onDisconnect, serial, log := None, None, 0, [];
    }

    method AsyncConnect(registration: nat)
      requires Valid() && registration == serial
      modifies this
      ensures Valid() && View() == Apply(old(View()), Connect)
    {
      ApplyKeepsLink(View(), Connect);
      onFrame := Some(registration);
      onDisconnect := Some(registration);
      serial := serial + 1;
      log := log + [Registered(registration)];
    }

    method AsyncDisconnect()
      requires Valid()
      modifies this
      ensures Valid() && View() == Apply(old(View()), Disconnect)
    {
      ApplyKeepsLink(View(), Disconnect);
      onFrame := None;
      onDisconnect := None;
      log := log + [Released];
    }

    method NotifyDisconnected() returns (fired: Option<nat>)
      requires Valid()
      modifies this
      ensures Valid() && View() == Apply(old(View()), Step.NotifyDisconnected)
      ensures fired == old(onDisconnect)
    {
      ApplyKeepsLink(View(), Step.NotifyDisconnected);
      fired := onDisconnect;
      onFrame := None;
      onDisconnect := None;
      if fired.Some? {
        log := log + [Dropped(fired.value)];
      }
    }

    /** `async_send` up to its await: the text to transfer. */
    method StartSend(frame: Bytes) returns (r: Result<string>)
      requires Valid()
      modifies this`log
      ensures Valid() && View() == Apply(old(View()), Step.StartSend(frame))
      ensures r.Ok? <==> CheckFrame(onFrame.Some?, frame).Ok?
      ensures r.Err? ==> r.error == CheckFrame(onFrame.Some?, frame).error
      ensures r.Ok? ==> ParseReply(r.value) == Ok(frame)
    {
      ApplyKeepsLink(View(), Step.StartSend(frame));
      if onFrame.None? {
        return Err(ConnectionError);
      }
      if !IsReply(frame) {
        return Err(ValueError);
      }
      if frame[2] in BULK_REGISTERS {
        return Err(UnsupportedError);
      }
      TextRoundTrip(frame);
      log := log + [Called(onFrame.value, frame)];
      return Ok(Hex(frame));
    }

    /** `async_send` after its await: it looks at the callback again. */
    method FinishSend(result: CallResult) returns (r: Result<()>)
      requires Valid()
      modifies this`log
      ensures Valid() && View() == Apply(old(View()), Step.FinishSend(result))
      ensures r.Ok? <==> Interpret(result).Ok?
      ensures r.Err? ==> r.error == Interpret(result).error
    {
      ApplyKeepsLink(View(), Step.FinishSend(result));
      if result.TimedOut? {
        return Err(TimeoutError);
      }
      if result.RaisedPackage? {
        return Err(result.error);
      }
      if result.RaisedOther? {
        return Err(ConnectionError);
      }
      if result.status != "Accepted" {
        return Err(ProtocolError);
      }
      if result.data in {NoData, Text(""), NotText(false)} {
        return Ok(());
      }
      if result.data.NotText? {
        return Err(ProtocolError);
      }
      var payload := ParseReply(result.data.text);
      if payload.Err? {
        return Err(payload.error);
      }
      if !IsReply(payload.value) {
        return Err(ProtocolError);
      }
      if onFrame.Some? {
        log := log + [Handed(onFrame.value, payload.value)];
      }
      return Ok(());
    }
  }
}
