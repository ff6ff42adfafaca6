/** Register frames: `10 AC <register> <flag> <four value bytes>`. */
module Frames {
  import opened Bytes
  import opened Errors

  const HEADER: Bytes := [0x10, 0xAC]
  const VALUE_OFFSET := 4

  const READ: byte := 0x00
  const WRITE: byte := 0x01

  const ALARMS: byte := 0x39
  const COMMIT: byte := 0x3B
  const CONTROL: byte := 0x3C
  const CLOCK_TIME: byte := 0x3F
  const CLOCK_DATE: byte := 0x40
  const OCPP_PORT: byte := 0x5E
  const OCPP_PATH: byte := 0x60
  const WIFI_PASSWORD: byte := 0x61
  const OCPP_CHARGE_POINT_ID: byte := 0x62
  const WIFI_SSID: byte := 0x63
  const OCPP_HOST: byte := 0x64
  const HISTORY_SESSIONS: byte := 0x68
  const HISTORY_EVENTS: byte := 0x70
  const TIMEZONE: byte := 0x78

  const ALARM_BANK2_FLAG: byte := 0x10
  const COMMIT_VALUE := 0x0100_0000
  const CONTROL_REJECTED := 0xFFFF_FFFF
  const PASSWORD_MAX := 0xFF_FFFF
  const YEAR_EPOCH := 1900

  const RECORD_START_MARKER: byte := 0x7C
  const RECORD_END_MARKER: byte := 0x25
  const SESSION_RECORD_LENGTH := 26
  const EVENT_RECORD_LENGTH := 20

  type Frame = f: Bytes | |f| == 8 && f[0] == 0x10 && f[1] == 0xAC
    witness [0x10, 0xAC, 0, 0, 0, 0, 0, 0]

  function MakeFrame(register: byte, flag: byte, value: Bytes): Frame
    requires |value| == 4
  {
    HEADER + [register, flag] + value
  }

  // ---- Builders and parsers ----

  function BuildRead(register: byte, parameter: nat := 0, flag: byte := READ): (f: Frame)
    requires parameter < WORD_LIMIT
    ensures f[2] == register && f[3] == flag && DecodeUint(f[VALUE_OFFSET..]) == Ok(parameter)
  {
    UnpackPack(parameter);
    assert MakeFrame(register, flag, Pack(parameter))[VALUE_OFFSET..] == Pack(parameter);
    MakeFrame(register, flag, Pack(parameter))
  }

  function BuildWriteUint(register: byte, value: nat): (f: Frame)
    requires value < WORD_LIMIT
    ensures f[2] == register && f[3] == WRITE && DecodeUint(f[VALUE_OFFSET..]) == Ok(value)
  {
    UnpackPack(value);
    assert MakeFrame(register, WRITE, Pack(value))[VALUE_OFFSET..] == Pack(value);
    MakeFrame(register, WRITE, Pack(value))
  }

  function BuildCommit(): Frame {
    BuildWriteUint(COMMIT, COMMIT_VALUE)
  }

  function DecodeUint(raw: Bytes): Result<nat> {
    if |raw| == 4 then Ok(Unpack(raw)) else Err(ProtocolError)
  }

  /** The four value bytes of a reply; a shorter reply is a protocol error. */
  function ValueBytes(payload: Bytes): Result<Bytes> {
    if |payload| < VALUE_OFFSET + 4 then Err(ProtocolError)
    else Ok(payload[VALUE_OFFSET..VALUE_OFFSET + 4])
  }

  /** A register reply of either length. */
  predicate IsReply(data: Bytes) {
    |data| > VALUE_OFFSET && HEADER <= data
  }

  predicate IsHistoryRecord(data: Bytes) {
    && |data| in {SESSION_RECORD_LENGTH, EVENT_RECORD_LENGTH}
    && data[0] == RECORD_START_MARKER
    && data[|data| - 1] == RECORD_END_MARKER
  }

  /** The charger answers a frame by echoing its register and flag. */
  predicate Answers(payload: Bytes, frame: Frame) {
    IsReply(payload) && payload[2] == frame[2] && payload[3] == frame[3]
  }

  datatype ParsedFrame = ParsedFrame(register: byte, flag: byte, raw: Bytes)

  function ParseFrame(data: Bytes): Option<ParsedFrame> {
    if |data| != 8 || !(HEADER <= data) then None
    else Some(ParsedFrame(data[2], data[3], data[VALUE_OFFSET..]))
  }

  lemma ParseFrameInvertsMakeFrame(data: Bytes, register: byte, flag: byte, raw: Bytes)
    ensures ParseFrame(data) == Some(ParsedFrame(register, flag, raw))
       <==> |raw| == 4 && data == MakeFrame(register, flag, raw)
  {
    if |raw| == 4 && data == MakeFrame(register, flag, raw) {
      assert data[VALUE_OFFSET..] == raw;
    }
    if |data| == 8 && HEADER <= data {
      assert data == MakeFrame(data[2], data[3], data[VALUE_OFFSET..]);
    }
  }

  // ---- Start and stop commands ----

  datatype Command = Start | Stop {
    function Code(): byte {
      if Start? then 0x01 else 0x10
    }
  }

  function BuildControl(command: Command, password: int): Result<Frame> {
    if 0 <= password <= PASSWORD_MAX then
      // The command byte sits above the three password bytes, so `|` adds.
      Ok(BuildWriteUint(CONTROL, command.Code() * 0x100_0000 + password))
    else
      Err(PasswordError)
  }

  function CheckControlReply(sent: Frame, reply: Bytes): Result<()> {
    match ParseFrame(reply)
    case None => Err(ProtocolError)
    case Some(frame) =>
      if frame.register != CONTROL then Err(ProtocolError)
      else if frame.raw == Pack(CONTROL_REJECTED) then Err(CommandRejectedError)
      else if frame.raw != sent[VALUE_OFFSET..] then Err(ProtocolError)
      else Ok(())
  }

  /** What `async_get_password` keeps of the register's word. */
  function PasswordOf(word: nat): nat {
    word % 0x100_0000
  }

  /** For a reply matched on register and flag, the check passes exactly on the
      frame itself, and refusal is the one other outcome the caller can tell. */
  lemma ControlSucceedsExactlyOnEcho(command: Command, password: int, reply: Bytes)
    requires BuildControl(command, password).Ok?
    requires Answers(reply, BuildControl(command, password).value)
    ensures var sent := BuildControl(command, password).value;
            && (CheckControlReply(sent, reply).Ok? <==> reply == sent)
            && (CheckControlReply(sent, reply) == Err(CommandRejectedError)
                <==> reply == MakeFrame(CONTROL, WRITE, Pack(CONTROL_REJECTED)))
  {
    var sent := BuildControl(command, password).value;
    assert Unpack(sent[VALUE_OFFSET..]) / 0x100_0000 == command.Code();
    assert Unpack(Pack(CONTROL_REJECTED)) / 0x100_0000 == 0xFF;
    assert sent == MakeFrame(CONTROL, WRITE, sent[VALUE_OFFSET..]);
    if |reply| == 8 {
      assert reply == MakeFrame(CONTROL, WRITE, reply[VALUE_OFFSET..]);
    }
    var refusal := MakeFrame(CONTROL, WRITE, Pack(CONTROL_REJECTED));
    assert refusal[VALUE_OFFSET..] == Pack(CONTROL_REJECTED);
  }

  /** What the check makes of any reply at all. */
  lemma ControlCheckLaw(sent: Frame, reply: Bytes)
    ensures CheckControlReply(sent, reply)
         == if |reply| != 8 || reply[0] != 0x10 || reply[1] != 0xAC || reply[2] != 0x3C then Err(ProtocolError)
            else if reply[4..] == [0xFF, 0xFF, 0xFF, 0xFF] then Err(CommandRejectedError)
            else if reply[4..] == sent[4..] then Ok(()) else Err(ProtocolError)
  {
    PackUnpack([0xFF, 0xFF, 0xFF, 0xFF]);
    assert Unpack([0xFF, 0xFF, 0xFF, 0xFF]) == 0xFFFF_FFFF;
  }

  /** On the wire a command is its byte, 01 to start and 10 to stop, and then the
      password's three bytes. A password that does not fit is refused. */
  lemma ControlLayout(command: Command, password: int)
    ensures BuildControl(command, password).Ok? <==> 0 <= password < 0x100_0000
    ensures BuildControl(command, password).Err? ==> BuildControl(command, password).error == PasswordError
    ensures BuildControl(command, password).Ok? ==>
              var frame := BuildControl(command, password).value;
              && frame == [0x10, 0xAC, 0x3C, 0x01] + [if command == Start then 0x01 else 0x10] + frame[5..]
              && Unpack([0] + frame[5..]) == password
  {
    if BuildControl(command, password).Ok? {
      var frame := BuildControl(command, password).value;
      var b: int := if command == Start then 0x01 else 0x10;
      assert Unpack(frame[VALUE_OFFSET..]) == b * 0x100_0000 + password;
      LowThreeBytes(frame[VALUE_OFFSET..], b, password);
      assert frame == MakeFrame(CONTROL, WRITE, frame[VALUE_OFFSET..]);
      assert frame[VALUE_OFFSET..] == [frame[4]] + frame[5..];
    }
  }

  lemma LowThreeBytes(raw: Bytes, high: int, low: int)
    requires |raw| == 4 && 0 <= low < 0x100_0000 && Unpack(raw) == high * 0x100_0000 + low
    ensures raw[0] == high && Unpack([0] + raw[1..]) == low
  {
    var b0: int, b1: int, b2: int, b3: int := raw[0], raw[1], raw[2], raw[3];
    var rest := (b1 * 256 + b2) * 256 + b3;
    assert Unpack(raw) == b0 * 0x100_0000 + rest && 0 <= rest < 0x100_0000;
    assert ([0] + raw[1..])[1] == b1 && ([0] + raw[1..])[2] == b2 && ([0] + raw[1..])[3] == b3;
  }

  /** Commands and passwords can be read back from the frame, so no two start or
      stop commands share one, and a password taken from the charger's word is
      always usable. */
  lemma ControlFrameDeterminesCommand(c1: Command, p1: int, c2: Command, p2: int)
    requires BuildControl(c1, p1).Ok? && BuildControl(c2, p2).Ok?
    ensures BuildControl(c1, p1) == BuildControl(c2, p2) <==> c1 == c2 && p1 == p2
  {
    var f1, f2 := BuildControl(c1, p1).value, BuildControl(c2, p2).value;
    assert Unpack(f1[VALUE_OFFSET..]) == c1.Code() * 0x100_0000 + p1;
    assert Unpack(f2[VALUE_OFFSET..]) == c2.Code() * 0x100_0000 + p2;
  }

  lemma ReadPasswordIsAccepted(command: Command, raw: Bytes)
    requires DecodeUint(raw).Ok?
    ensures BuildControl(command, PasswordOf(DecodeUint(raw).value)).Ok?
    ensures PasswordOf(Unpack(raw)) == Unpack([0] + raw[1..])
  {
    var b0: int, b1: int, b2: int, b3: int := raw[0], raw[1], raw[2], raw[3];
    var low := (b1 * 256 + b2) * 256 + b3;
    assert Unpack(raw) == b0 * 0x100_0000 + low;
    LowBytes(b0, low);
    assert Unpack([0] + raw[1..]) == low;
  }

  lemma LowBytes(high: int, low: int)
    requires 0 <= low < 0x100_0000
    ensures (high * 0x100_0000 + low) % 0x100_0000 == low
  {
  }

  // ---- Clock and timezone words ----
  // Every field fits its byte, so shifting and or-ing the fields adds them.

  function BuildClockTime(hour: int, minute: int, second: int): Result<Frame> {
    if 0 <= hour < 24 && 0 <= minute < 60 && 0 <= second < 60 then
      Ok(BuildWriteUint(CLOCK_TIME, second * 0x1_0000 + minute * 0x100 + hour))
    else
      Err(ProtocolError)
  }

  function BuildClockDate(year: int, month: int, day: int): Result<Frame> {
    if 1900 <= year <= 2155 && 1 <= month <= 12 && 1 <= day <= 31 then
      Ok(BuildWriteUint(CLOCK_DATE, day * 0x1_0000 + (month - 1) * 0x100 + (year - YEAR_EPOCH)))
    else
      Err(ProtocolError)
  }

  function BuildTimezone(hours: int, minutes: int): Result<Frame> {
    if 0 <= hours < 24 && 0 <= minutes < 60 then
      Ok(BuildWriteUint(TIMEZONE, hours * 0x100 + minutes))
    else
      Err(ProtocolError)
  }

  /** `async_get_timezone`: the two low bytes of the register's word. */
  function TimezoneOf(word: nat): (nat, nat) {
    (word / 0x100 % 256, word % 256)
  }

  /** The bytes on the wire are the fields themselves, in the documented order. */
  lemma ClockTimeLayout(hour: int, minute: int, second: int)
    ensures BuildClockTime(hour, minute, second).Ok?
       <==> 0 <= hour < 24 && 0 <= minute < 60 && 0 <= second < 60
    ensures BuildClockTime(hour, minute, second).Ok? ==>
              BuildClockTime(hour, minute, second).value
              == MakeFrame(CLOCK_TIME, WRITE, [0, second, minute, hour])
  {
    if BuildClockTime(hour, minute, second).Ok? {
      WordLayout(CLOCK_TIME, second, minute, hour);
    }
  }

  lemma ClockDateLayout(year: int, month: int, day: int)
    ensures BuildClockDate(year, month, day).Ok?
       <==> 1900 <= year <= 2155 && 1 <= month <= 12 && 1 <= day <= 31
    ensures BuildClockDate(year, month, day).Ok? ==>
              BuildClockDate(year, month, day).value
              == MakeFrame(CLOCK_DATE, WRITE, [0, day, month - 1, year - 1900])
  {
    if BuildClockDate(year, month, day).Ok? {
      WordLayout(CLOCK_DATE, day, month - 1, year - YEAR_EPOCH);
    }
  }

  lemma WordLayout(register: byte, a: byte, b: byte, c: byte)
    ensures BuildWriteUint(register, a * 0x1_0000 + b * 0x100 + c)
         == MakeFrame(register, WRITE, [0, a, b, c])
  {
    PackUnpack([0, a, b, c]);
  }

  lemma ClockWordsAreInjective(x1: int, y1: int, z1: int, x2: int, y2: int, z2: int)
    ensures BuildClockTime(x1, y1, z1).Ok? && BuildClockTime(x1, y1, z1) == BuildClockTime(x2, y2, z2)
        ==> x1 == x2 && y1 == y2 && z1 == z2
    ensures BuildClockDate(x1, y1, z1).Ok? && BuildClockDate(x1, y1, z1) == BuildClockDate(x2, y2, z2)
        ==> x1 == x2 && y1 == y2 && z1 == z2
  {
    ClockTimeLayout(x1, y1, z1);
    ClockTimeLayout(x2, y2, z2);
    ClockDateLayout(x1, y1, z1);
    ClockDateLayout(x2, y2, z2);
    FrameBytes(BuildClockTime(x1, y1, z1), BuildClockTime(x2, y2, z2));
    FrameBytes(BuildClockDate(x1, y1, z1), BuildClockDate(x2, y2, z2));
  }

  lemma FrameBytes(a: Result<Frame>, b: Result<Frame>)
    ensures a.Ok? && a == b ==> forall i | 0 <= i < 8 :: a.value[i] == b.value[i]
  {
  }

  /** Out of range, a clock or timezone field is a protocol error. */
  lemma ClockErrors(x: int, y: int, z: int)
    ensures BuildClockTime(x, y, z).Err? ==> BuildClockTime(x, y, z).error == ProtocolError
    ensures BuildClockDate(x, y, z).Err? ==> BuildClockDate(x, y, z).error == ProtocolError
    ensures BuildTimezone(x, y).Err? ==> BuildTimezone(x, y).error == ProtocolError
  {
  }

  lemma TimezoneLayout(hours: int, minutes: int)
    ensures BuildTimezone(hours, minutes).Ok? <==> 0 <= hours < 24 && 0 <= minutes < 60
    ensures BuildTimezone(hours, minutes).Ok? ==>
              BuildTimezone(hours, minutes).value == [0x10, 0xAC, 0x78, 0x01, 0, 0, hours, minutes]
  {
    if BuildTimezone(hours, minutes).Ok? {
      WordLayout(TIMEZONE, 0, hours, minutes);
    }
  }

  /** Applying settings is one fixed frame; history is asked for by count. */
  lemma FixedFrames(count: byte)
    ensures BuildCommit() == [0x10, 0xAC, 0x3B, 0x01, 0x01, 0, 0, 0]
    ensures BuildRead(HISTORY_SESSIONS, count) == [0x10, 0xAC, 0x68, 0x00, 0, 0, 0, count]
  {
    PackUnpack([0x01, 0, 0, 0]);
    PackUnpack([0, 0, 0, count]);
  }

  /** Payloads are told apart by their first bytes and their length. */
  lemma PayloadKinds(data: Bytes)
    ensures IsReply(data) <==> exists rest: Bytes :: |rest| > 2 && data == [0x10, 0xAC] + rest
    ensures IsHistoryRecord(data)
       <==> exists body: Bytes :: |body| in {18, 24} && data == [0x7C] + body + [0x25]
    ensures !(IsReply(data) && IsHistoryRecord(data))
  {
    if IsReply(data) {
      assert data == [0x10, 0xAC] + data[2..];
    }
    if IsHistoryRecord(data) {
      assert data == [0x7C] + data[1..|data| - 1] + [0x25];
    }
  }

  /** The value of a reply is the four bytes after the header. */
  lemma ValueOfReply(payload: Bytes)
    ensures if |payload| >= 8 then ValueBytes(payload) == Ok([payload[4], payload[5], payload[6], payload[7]])
            else ValueBytes(payload) == Err(ProtocolError)
    ensures DecodeUint(payload).Ok? <==> |payload| == 4
    ensures DecodeUint(payload).Err? ==> DecodeUint(payload).error == ProtocolError
  {
    if |payload| >= 8 {
      assert payload[VALUE_OFFSET..VALUE_OFFSET + 4] == [payload[4], payload[5], payload[6], payload[7]];
    }
  }

  /** Reading the timezone register back gives exactly the offset written. */
  lemma TimezoneRoundTrip(hours: int, minutes: int)
    ensures BuildTimezone(hours, minutes).Ok? <==> 0 <= hours < 24 && 0 <= minutes < 60
    ensures BuildTimezone(hours, minutes).Ok? ==>
              var raw := BuildTimezone(hours, minutes).value[VALUE_OFFSET..];
              DecodeUint(raw).Ok? && TimezoneOf(DecodeUint(raw).value) == (hours, minutes)
  {
  }
}
