/** The OCPP settings: written as one batch of frames, read back register by
    register, through a charger that keeps a register file. */
module Config {
  import opened Bytes
  import opened Errors
  import opened Frames
  import opened Text
  import opened Client

  const MAX_PORT := 65535
  const OCPP_TEXT_FIELD_BYTES := 64
  const OCPP_ID_FIELD_BYTES := 32

  datatype OcppConfig = OcppConfig(host: string, port: int, path: string, chargePointId: string)

  // ---- The client's side ----

  function OcppFrames(c: OcppConfig): Result<seq<Frame>> {
    if c.host == "" then Err(ValueError)
    else if !(1 <= c.port <= MAX_PORT) then Err(ValueError)
    else
      var host :- BuildStringWrite(OCPP_HOST, c.host, OCPP_TEXT_FIELD_BYTES);
      var path :- BuildStringWrite(OCPP_PATH, c.path, OCPP_TEXT_FIELD_BYTES);
      var id :- BuildStringWrite(OCPP_CHARGE_POINT_ID, c.chargePointId, OCPP_ID_FIELD_BYTES);
      Ok(host + [BuildWriteUint(OCPP_PORT, c.port)] + path + id)
  }

  /** `async_set_ocpp_config` as the calls it makes: the batch, then the commit
      under a second acquisition of the lock. */
  function SetOcppConfig(c: OcppConfig, commit: bool): Result<seq<Op>> {
    var frames :- OcppFrames(c);
    Ok([Write(frames)] + if commit then [Write([BuildCommit()])] else [])
  }

  /** `async_get_ocpp_config`, from its four replies. */
  function GetOcppConfig(host: Bytes, port: Bytes, path: Bytes, id: Bytes): Result<OcppConfig>
    requires |host| > VALUE_OFFSET && |path| > VALUE_OFFSET && |id| > VALUE_OFFSET
  {
    var raw :- ValueBytes(port);
    var number :- DecodeUint(raw);
    Ok(OcppConfig(DecodeString(host[VALUE_OFFSET..]), number,
                  DecodeString(path[VALUE_OFFSET..]), DecodeString(id[VALUE_OFFSET..])))
  }

  predicate Acceptable(c: OcppConfig) {
    && c.host != "" && 1 <= c.port <= MAX_PORT
    && FitsField(c.host, OCPP_TEXT_FIELD_BYTES) && FitsField(c.path, OCPP_TEXT_FIELD_BYTES)
    && FitsField(c.chargePointId, OCPP_ID_FIELD_BYTES)
  }

  // ---- The charger's side ----

  function Width(register: byte): nat {
    if register in {OCPP_HOST, OCPP_PATH} then 64
    else if register in {OCPP_CHARGE_POINT_ID, WIFI_SSID, WIFI_PASSWORD} then 32
    else 4
  }

  /** The charger's register file: the bytes of every register. */
  type Memory = m: seq<Bytes> | |m| == 256 && forall r | 0 <= r < 256 :: |m[r]| == Width(r)
    witness seq(256, r requires 0 <= r < 256 => Zeros(Width(r)))

  /** A frame with flag 1, 2, .. writes that four byte piece of its register; the
      one piece of a number register is piece 1. A flag past the register's end
      writes nothing, and flag 0 reads. */
  function Accept(m: Memory, frame: Frame): Memory {
    var r, last := frame[2], CHUNK * frame[3];
    if frame[3] == 0 || last > |m[r]| then m
    else m[r := m[r][..last - CHUNK] + frame[VALUE_OFFSET..] + m[r][last..]]
  }

  function AcceptAll(m: Memory, frames: seq<Frame>): Memory {
    if frames == [] then m else Accept(AcceptAll(m, frames[..|frames| - 1]), frames[|frames| - 1])
  }

  function ReadReply(m: Memory, register: byte): Bytes {
    HEADER + [register, READ] + m[register]
  }

  lemma {:induction false} AcceptAllSplits(m: Memory, a: seq<Frame>, b: seq<Frame>)
    ensures AcceptAll(m, a + b) == AcceptAll(AcceptAll(m, a), b)
  {
    if b == [] {
      assert a + b == a;
    } else {
      AcceptAllSplits(m, a, b[..|b| - 1]);
      assert (a + b)[..|a + b| - 1] == a + b[..|b| - 1];
    }
  }

  lemma {:induction false} OtherRegistersKept(m: Memory, frames: seq<Frame>, r: byte)
    requires forall f <- frames :: f[2] != r || f[3] == READ
    ensures AcceptAll(m, frames)[r] == m[r]
  {
    if frames != [] {
      OtherRegistersKept(m, frames[..|frames| - 1], r);
      assert frames[|frames| - 1] in frames;
    }
  }

  /** Whatever a text register held, its chunks replace all of it. */
  lemma {:induction false} ChunksFillField(m: Memory, r: byte, payload: Bytes, frames: seq<Frame>, n: nat)
    requires n <= |frames| && CHUNK * |frames| == |payload| == Width(r)
    requires forall i | 0 <= i < |frames| :: frames[i] == Chunk(r, payload, i)
    ensures AcceptAll(m, frames[..n])[r] == payload[..CHUNK * n] + m[r][CHUNK * n..]
  {
    if n > 0 {
      ChunksFillField(m, r, payload, frames, n - 1);
      assert frames[..n][..n - 1] == frames[..n - 1];
      var before := AcceptAll(m, frames[..n - 1]);
      var piece := payload[CHUNK * (n - 1)..CHUNK * n];
      assert frames[n - 1] == MakeFrame(r, n, piece) && frames[n - 1][VALUE_OFFSET..] == piece;
      assert AcceptAll(m, frames[..n]) == Accept(before, frames[n - 1]);
      Splice(payload, m[r], CHUNK * (n - 1), CHUNK * n);
    }
  }

  lemma Splice(p: Bytes, q: Bytes, a: nat, b: nat)
    requires a <= b <= |p| == |q|
    ensures (p[..a] + q[a..])[..a] + p[a..b] + (p[..a] + q[a..])[b..] == p[..b] + q[b..]
  {
  }

  lemma StringFieldWritten(m: Memory, r: byte, value: string)
    requires FitsField(value, Width(r))
    ensures var frames := BuildStringWrite(r, value, Width(r));
            && frames.Ok? && (forall f <- frames.value :: f[2] == r)
            && AcceptAll(m, frames.value)[r] == Encode(value) + Zeros(Width(r) - |value|)
  {
    StringWriteLaw(r, value, Width(r));
    var frames := BuildStringWrite(r, value, Width(r)).value;
    ChunksFillField(m, r, Pad(Encode(value), Width(r)), frames, |frames|);
    assert frames[..|frames|] == frames;
  }

  lemma NumberWritten(m: Memory, r: byte, value: nat)
    requires value < WORD_LIMIT && Width(r) == 4
    ensures AcceptAll(m, [BuildWriteUint(r, value)])[r] == Pack(value)
  {
    var f := BuildWriteUint(r, value);
    assert f[VALUE_OFFSET..] == Pack(value);
    assert [f][..0] == [];
  }

  // ---- The four settings together ----

  /** The registers hold exactly the settings, padded; nothing else changed. */
  ghost predicate Holds(m: Memory, c: OcppConfig)
    requires Acceptable(c)
  {
    && m[OCPP_HOST] == Encode(c.host) + Zeros(OCPP_TEXT_FIELD_BYTES - |c.host|)
    && m[OCPP_PORT] == Pack(c.port)
    && m[OCPP_PATH] == Encode(c.path) + Zeros(OCPP_TEXT_FIELD_BYTES - |c.path|)
    && m[OCPP_CHARGE_POINT_ID] == Encode(c.chargePointId) + Zeros(OCPP_ID_FIELD_BYTES - |c.chargePointId|)
  }

  const OCPP_REGISTERS: set<byte> := {OCPP_HOST, OCPP_PORT, OCPP_PATH, OCPP_CHARGE_POINT_ID}

  /** Frames that leave `value` in register `r` of any memory and touch no other. */
  ghost predicate Fills(frames: seq<Frame>, r: byte, value: Bytes) {
    && (forall m: Memory :: AcceptAll(m, frames)[r] == value)
    && (forall f <- frames :: f[2] == r)
  }

  lemma StringFills(r: byte, value: string)
    requires FitsField(value, Width(r))
    ensures BuildStringWrite(r, value, Width(r)).Ok?
    ensures Fills(BuildStringWrite(r, value, Width(r)).value, r, Encode(value) + Zeros(Width(r) - |value|))
  {
    StringWriteLaw(r, value, Width(r));
    forall m: Memory
      ensures AcceptAll(m, BuildStringWrite(r, value, Width(r)).value)[r] == Encode(value) + Zeros(Width(r) - |value|)
    {
      StringFieldWritten(m, r, value);
    }
    StringFieldWritten(seq(256, r requires 0 <= r < 256 => Zeros(Width(r))), r, value);
  }

  lemma NumberFills(r: byte, value: nat)
    requires value < WORD_LIMIT && Width(r) == 4
    ensures Fills([BuildWriteUint(r, value)], r, Pack(value))
  {
    forall m: Memory
      ensures AcceptAll(m, [BuildWriteUint(r, value)])[r] == Pack(value)
    {
      NumberWritten(m, r, value);
    }
  }

  /** One more field after others: it gets its value and they keep theirs. */
  lemma FillAfter(m: Memory, before: seq<Frame>, frames: seq<Frame>, r: byte, value: Bytes)
    requires Fills(frames, r, value)
    ensures AcceptAll(m, before + frames)[r] == value
    ensures forall q: byte | q != r :: AcceptAll(m, before + frames)[q] == AcceptAll(m, before)[q]
  {
    AcceptAllSplits(m, before, frames);
    forall q: byte | q != r
      ensures AcceptAll(m, before + frames)[q] == AcceptAll(m, before)[q]
    {
      OtherRegistersKept(AcceptAll(m, before), frames, q);
    }
  }

  /** What is refused, and how: an empty host or a bad port as a value error, a
      text that does not fit as a protocol error. */
  lemma RefusedSettings(c: OcppConfig)
    ensures OcppFrames(c).Err? <==> !Acceptable(c)
    ensures OcppFrames(c).Err? ==>
              OcppFrames(c).error
              == if c.host == "" || c.port < 1 || c.port > 65535 then ValueError else ProtocolError
  {
    StringWriteLaw(OCPP_HOST, c.host, OCPP_TEXT_FIELD_BYTES);
    StringWriteLaw(OCPP_PATH, c.path, OCPP_TEXT_FIELD_BYTES);
    StringWriteLaw(OCPP_CHARGE_POINT_ID, c.chargePointId, OCPP_ID_FIELD_BYTES);
  }

  /** The batch is 41 frames in the order host, port, path, identifier. */
  lemma BatchLayout(c: OcppConfig)
    requires Acceptable(c)
    ensures OcppFrames(c).Ok?
    ensures var frames := OcppFrames(c).value;
            && |frames| == 41
            && (forall i | 0 <= i < 16 :: frames[i][2] == 0x64 && frames[i][3] == i + 1)
            && frames[16][2] == 0x5E && frames[16][3] == 0x01
            && (forall i | 17 <= i < 33 :: frames[i][2] == 0x60 && frames[i][3] == i - 16)
            && (forall i | 33 <= i < 41 :: frames[i][2] == 0x62 && frames[i][3] == i - 32)
  {
    RefusedSettings(c);
    StringWriteLaw(OCPP_HOST, c.host, OCPP_TEXT_FIELD_BYTES);
    StringWriteLaw(OCPP_PATH, c.path, OCPP_TEXT_FIELD_BYTES);
    StringWriteLaw(OCPP_CHARGE_POINT_ID, c.chargePointId, OCPP_ID_FIELD_BYTES);
    BatchInOrder(c);
    FourInTurn(BuildStringWrite(OCPP_HOST, c.host, OCPP_TEXT_FIELD_BYTES).value, BuildWriteUint(OCPP_PORT, c.port),
               BuildStringWrite(OCPP_PATH, c.path, OCPP_TEXT_FIELD_BYTES).value,
               BuildStringWrite(OCPP_CHARGE_POINT_ID, c.chargePointId, OCPP_ID_FIELD_BYTES).value,
               OcppFrames(c).value);
  }

  lemma FourInTurn(host: seq<Frame>, port: Frame, path: seq<Frame>, id: seq<Frame>, all: seq<Frame>)
    requires |host| == 16 && |path| == 16 && |id| == 8 && all == host + [port] + path + id
    ensures |all| == 41 && all[16] == port
    ensures forall i | 0 <= i < 16 :: all[i] == host[i]
    ensures forall i | 17 <= i < 33 :: all[i] == path[i - 17]
    ensures forall i | 33 <= i < 41 :: all[i] == id[i - 33]
  {
  }

  /** A setter is the batch, in one call, and with `commit` a second call for the
      commit frame. */
  lemma SetterCalls(c: OcppConfig, commit: bool)
    requires Acceptable(c)
    ensures SetOcppConfig(c, commit).Ok? && OcppFrames(c).Ok?
    ensures var calls := SetOcppConfig(c, commit).value;
            && |calls| == (if commit then 2 else 1) && calls[0] == Write(OcppFrames(c).value)
            && (commit ==> calls[1] == Write([[0x10, 0xAC, 0x3B, 0x01, 0x01, 0, 0, 0]]))
  {
    RefusedSettings(c);
    FixedFrames(0);
  }

  lemma BatchWritesSettings(m: Memory, c: OcppConfig)
    ensures OcppFrames(c).Ok? <==> Acceptable(c)
    ensures Acceptable(c) ==>
              var frames := OcppFrames(c).value;
              && frames != [] && (forall f <- frames :: f[2] in OCPP_REGISTERS)
              && Holds(AcceptAll(m, frames), c)
              && forall r: byte | r !in OCPP_REGISTERS :: AcceptAll(m, frames)[r] == m[r]
  {
    StringWriteLaw(OCPP_HOST, c.host, OCPP_TEXT_FIELD_BYTES);
    StringWriteLaw(OCPP_PATH, c.path, OCPP_TEXT_FIELD_BYTES);
    StringWriteLaw(OCPP_CHARGE_POINT_ID, c.chargePointId, OCPP_ID_FIELD_BYTES);
    if Acceptable(c) {
      FourFields(m, c);
    }
  }

  /** Four fields one after the other, whatever they are. */
  lemma FillsInTurn(m: Memory, a: seq<Frame>, b: seq<Frame>, c: seq<Frame>, d: seq<Frame>,
                    ra: byte, rb: byte, rc: byte, rd: byte, va: Bytes, vb: Bytes, vc: Bytes, vd: Bytes)
    requires Fills(a, ra, va) && Fills(b, rb, vb) && Fills(c, rc, vc) && Fills(d, rd, vd)
    requires ra != rb && ra != rc && ra != rd && rb != rc && rb != rd && rc != rd
    ensures var m' := AcceptAll(m, a + b + c + d);
            && m'[ra] == va && m'[rb] == vb && m'[rc] == vc && m'[rd] == vd
            && forall q: byte | q !in {ra, rb, rc, rd} :: m'[q] == m[q]
    ensures forall f <- a + b + c + d :: f[2] in {ra, rb, rc, rd}
  {
    FillAfter(m, [], a, ra, va);
    assert [] + a == a && AcceptAll(m, []) == m;
    FillAfter(m, a, b, rb, vb);
    FillAfter(m, a + b, c, rc, vc);
    FillAfter(m, a + b + c, d, rd, vd);
  }

  lemma FieldsInTurn(m: Memory, c: OcppConfig, host: seq<Frame>, path: seq<Frame>, id: seq<Frame>)
    requires Acceptable(c)
    requires Fills(host, OCPP_HOST, Encode(c.host) + Zeros(OCPP_TEXT_FIELD_BYTES - |c.host|))
    requires Fills(path, OCPP_PATH, Encode(c.path) + Zeros(OCPP_TEXT_FIELD_BYTES - |c.path|))
    requires Fills(id, OCPP_CHARGE_POINT_ID, Encode(c.chargePointId) + Zeros(OCPP_ID_FIELD_BYTES - |c.chargePointId|))
    ensures var frames := host + [BuildWriteUint(OCPP_PORT, c.port)] + path + id;
            && frames != [] && (forall f <- frames :: f[2] in OCPP_REGISTERS)
            && Holds(AcceptAll(m, frames), c)
            && forall r: byte | r !in OCPP_REGISTERS :: AcceptAll(m, frames)[r] == m[r]
  {
    var port := [BuildWriteUint(OCPP_PORT, c.port)];
    NumberFills(OCPP_PORT, c.port);
    FillsInTurn(m, host, port, path, id, OCPP_HOST, OCPP_PORT, OCPP_PATH, OCPP_CHARGE_POINT_ID,
                Encode(c.host) + Zeros(OCPP_TEXT_FIELD_BYTES - |c.host|), Pack(c.port),
                Encode(c.path) + Zeros(OCPP_TEXT_FIELD_BYTES - |c.path|),
                Encode(c.chargePointId) + Zeros(OCPP_ID_FIELD_BYTES - |c.chargePointId|));
  }

  lemma FourFields(m: Memory, c: OcppConfig)
    requires Acceptable(c) && OcppFrames(c).Ok?
    ensures var frames := OcppFrames(c).value;
            && frames != [] && (forall f <- frames :: f[2] in OCPP_REGISTERS)
            && Holds(AcceptAll(m, frames), c)
            && forall r: byte | r !in OCPP_REGISTERS :: AcceptAll(m, frames)[r] == m[r]
  {
    BatchInOrder(c);
    StringFills(OCPP_HOST, c.host);
    StringFills(OCPP_PATH, c.path);
    StringFills(OCPP_CHARGE_POINT_ID, c.chargePointId);
    FieldsInTurn(m, c, BuildStringWrite(OCPP_HOST, c.host, OCPP_TEXT_FIELD_BYTES).value,
                 BuildStringWrite(OCPP_PATH, c.path, OCPP_TEXT_FIELD_BYTES).value,
                 BuildStringWrite(OCPP_CHARGE_POINT_ID, c.chargePointId, OCPP_ID_FIELD_BYTES).value);
  }

  lemma BatchInOrder(c: OcppConfig)
    requires Acceptable(c) && OcppFrames(c).Ok?
    ensures BuildStringWrite(OCPP_HOST, c.host, OCPP_TEXT_FIELD_BYTES).Ok?
    ensures BuildStringWrite(OCPP_PATH, c.path, OCPP_TEXT_FIELD_BYTES).Ok?
    ensures BuildStringWrite(OCPP_CHARGE_POINT_ID, c.chargePointId, OCPP_ID_FIELD_BYTES).Ok?
    ensures OcppFrames(c).value
         == BuildStringWrite(OCPP_HOST, c.host, OCPP_TEXT_FIELD_BYTES).value
            + [BuildWriteUint(OCPP_PORT, c.port)]
            + BuildStringWrite(OCPP_PATH, c.path, OCPP_TEXT_FIELD_BYTES).value
            + BuildStringWrite(OCPP_CHARGE_POINT_ID, c.chargePointId, OCPP_ID_FIELD_BYTES).value
  {
  }

  predicate Survives(s: string) {
    '\0' !in s && Trimmed(s)
  }

  function ReadBack(m: Memory): Result<OcppConfig> {
    GetOcppConfig(ReadReply(m, OCPP_HOST), ReadReply(m, OCPP_PORT), ReadReply(m, OCPP_PATH),
                  ReadReply(m, OCPP_CHARGE_POINT_ID))
  }

  lemma TextReadBack(m: Memory, r: byte, value: string)
    requires IsAscii(value) && |value| <= Width(r) && m[r] == Encode(value) + Zeros(Width(r) - |value|)
    ensures DecodeString(ReadReply(m, r)[VALUE_OFFSET..]) == value <==> Survives(value)
  {
    assert ReadReply(m, r)[VALUE_OFFSET..] == m[r];
    FieldRoundTrip(value, Width(r) - |value|);
  }

  lemma NumberReadBack(m: Memory, r: byte, value: nat)
    requires value < WORD_LIMIT && m[r] == Pack(value)
    ensures ValueBytes(ReadReply(m, r)) == Ok(Pack(value)) && DecodeUint(Pack(value)) == Ok(value)
  {
    assert ReadReply(m, r)[VALUE_OFFSET..VALUE_OFFSET + 4] == m[r];
    UnpackPack(value);
  }

  lemma HeldSettingsReadBack(m: Memory, c: OcppConfig)
    requires Acceptable(c) && Holds(m, c)
    ensures ReadBack(m) == Ok(c) <==> Survives(c.host) && Survives(c.path) && Survives(c.chargePointId)
  {
    TextReadBack(m, OCPP_HOST, c.host);
    NumberReadBack(m, OCPP_PORT, c.port);
    TextReadBack(m, OCPP_PATH, c.path);
    TextReadBack(m, OCPP_CHARGE_POINT_ID, c.chargePointId);
  }

  /** Whatever the registers held before, setting the OCPP configuration and
      reading it back gives it back, exactly when no text field holds a NUL or
      outer whitespace. */
  lemma ConfigRoundTrip(m: Memory, c: OcppConfig)
    requires Acceptable(c)
    ensures OcppFrames(c).Ok?
    ensures ReadBack(AcceptAll(m, OcppFrames(c).value)) == Ok(c)
       <==> Survives(c.host) && Survives(c.path) && Survives(c.chargePointId)
  {
    BatchWritesSettings(m, c);
    HeldSettingsReadBack(AcceptAll(m, OcppFrames(c).value), c);
  }
}
