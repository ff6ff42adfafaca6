/** Settings piece by piece: what each frame of a batch leaves in the charger,
    and which frames would undo it. */
module Pieces {
  import opened Bytes
  import opened Frames
  import opened Text
  import opened Config

  /** The frame writes a piece of its register. */
  predicate Fits(f: Frame) {
    f[3] >= 1 && CHUNK * f[3] <= Width(f[2])
  }

  /** The charger holds the piece `f` writes. */
  predicate Kept(m: Memory, f: Frame) {
    Fits(f) && m[f[2]][CHUNK * f[3] - CHUNK..CHUNK * f[3]] == f[VALUE_OFFSET..]
  }

  /** `g` writes another piece than `f`, or the same bytes. */
  predicate Agrees(g: Frame, f: Frame) {
    g[2] == f[2] && g[3] == f[3] ==> g == f
  }

  ghost predicate AgreesWithAll(g: Frame, frames: seq<Frame>) {
    forall f <- frames :: Agrees(g, f)
  }

  lemma AcceptKeepsWritten(m: Memory, f: Frame)
    requires Fits(f)
    ensures Kept(Accept(m, f), f)
  {
  }

  /** Taking `g` keeps the piece of `f` exactly when they agree. */
  lemma AcceptKeepsExactlyAgreeing(m: Memory, g: Frame, f: Frame)
    requires Kept(m, f)
    ensures Kept(Accept(m, g), f) <==> Agrees(g, f)
  {
    if g[2] == f[2] && g[3] == f[3] {
      AcceptKeepsWritten(m, g);
      SameFrame(g, f);
    } else if Accept(m, g) != m && g[2] == f[2] {
      PiecesApart(m[f[2]], g[VALUE_OFFSET..], CHUNK * g[3], CHUNK * f[3]);
    }
  }

  lemma SameFrame(g: Frame, f: Frame)
    requires g[2] == f[2] && g[3] == f[3]
    ensures g == f <==> g[VALUE_OFFSET..] == f[VALUE_OFFSET..]
  {
    assert g == HEADER + [g[2], g[3]] + g[VALUE_OFFSET..];
    assert f == HEADER + [f[2], f[3]] + f[VALUE_OFFSET..];
  }

  lemma PiecesApart(before: Bytes, piece: Bytes, a: nat, b: nat)
    requires |piece| == CHUNK <= a <= |before| && CHUNK <= b <= |before| && (a + CHUNK <= b || b + CHUNK <= a)
    ensures var after := before[..a - CHUNK] + piece + before[a..];
            after[b - CHUNK..b] == before[b - CHUNK..b]
  {
  }

  // ---- The batch of a configuration ----

  /** What register `r` holds for configuration `c`. */
  function Field(c: OcppConfig, r: byte): (value: Bytes)
    requires Acceptable(c) && r in OCPP_REGISTERS
    ensures |value| == Width(r)
  {
    if r == OCPP_PORT then Pack(c.port)
    else if r == OCPP_HOST then Encode(c.host) + Zeros(OCPP_TEXT_FIELD_BYTES - |c.host|)
    else if r == OCPP_PATH then Encode(c.path) + Zeros(OCPP_TEXT_FIELD_BYTES - |c.path|)
    else Encode(c.chargePointId) + Zeros(OCPP_ID_FIELD_BYTES - |c.chargePointId|)
  }

  lemma HoldsFields(m: Memory, c: OcppConfig)
    requires Acceptable(c)
    ensures Holds(m, c) <==> forall r <- OCPP_REGISTERS :: m[r] == Field(c, r)
  {
    assert OCPP_HOST in OCPP_REGISTERS && OCPP_PORT in OCPP_REGISTERS;
    assert OCPP_PATH in OCPP_REGISTERS && OCPP_CHARGE_POINT_ID in OCPP_REGISTERS;
  }

  predicate IsPiece(c: OcppConfig, f: Frame)
    requires Acceptable(c)
  {
    && f[2] in OCPP_REGISTERS && Fits(f)
    && f[VALUE_OFFSET..] == Field(c, f[2])[CHUNK * f[3] - CHUNK..CHUNK * f[3]]
  }

  /** The frames of one text field are exactly the pieces of its register. */
  lemma StringPieces(r: byte, value: string)
    requires FitsField(value, Width(r))
    ensures BuildStringWrite(r, value, Width(r)).Ok?
    ensures var payload := Encode(value) + Zeros(Width(r) - |value|);
            var frames := BuildStringWrite(r, value, Width(r)).value;
            && (forall f <- frames ::
                  f[2] == r && Fits(f) && f[VALUE_OFFSET..] == payload[CHUNK * f[3] - CHUNK..CHUNK * f[3]])
            && (forall i | 0 <= i < Width(r) / CHUNK :: frames[i][3] == i + 1)
            && |frames| == Width(r) / CHUNK
  {
    var payload := Pad(Encode(value), Width(r));
    var frames := BuildStringWrite(r, value, Width(r)).value;
    forall f | f in frames
      ensures f[2] == r && Fits(f) && f[VALUE_OFFSET..] == payload[CHUNK * f[3] - CHUNK..CHUNK * f[3]]
    {
      var i :| 0 <= i < |frames| && frames[i] == f;
      assert f == Chunk(r, payload, i);
    }
  }

  /** The chunks of text register `r`. */
  function TextFrames(r: byte, value: string): seq<Frame>
    requires FitsField(value, Width(r))
  {
    StringPieces(r, value);
    BuildStringWrite(r, value, Width(r)).value
  }

  lemma BatchParts(c: OcppConfig, f: Frame)
    requires Acceptable(c)
    ensures OcppFrames(c).Ok?
    ensures f in OcppFrames(c).value <==>
              || f in TextFrames(OCPP_HOST, c.host)
              || f == BuildWriteUint(OCPP_PORT, c.port)
              || f in TextFrames(OCPP_PATH, c.path)
              || f in TextFrames(OCPP_CHARGE_POINT_ID, c.chargePointId)
  {
    var host, path := TextFrames(OCPP_HOST, c.host), TextFrames(OCPP_PATH, c.path);
    var id := TextFrames(OCPP_CHARGE_POINT_ID, c.chargePointId);
    assert OcppFrames(c).value == host + [BuildWriteUint(OCPP_PORT, c.port)] + path + id;
  }

  /** Every frame of the batch is a piece of the configuration, ... */
  lemma BatchIsPieces(c: OcppConfig)
    requires Acceptable(c)
    ensures OcppFrames(c).Ok? && forall f <- OcppFrames(c).value :: IsPiece(c, f)
  {
    PortPiece(c);
    BatchParts(c, BuildCommit());
    forall f | f in OcppFrames(c).value
      ensures IsPiece(c, f)
    {
      BatchParts(c, f);
      if f in TextFrames(OCPP_HOST, c.host) {
        PieceOfText(c, OCPP_HOST, c.host, f);
      } else if f in TextFrames(OCPP_PATH, c.path) {
        PieceOfText(c, OCPP_PATH, c.path, f);
      } else if f in TextFrames(OCPP_CHARGE_POINT_ID, c.chargePointId) {
        PieceOfText(c, OCPP_CHARGE_POINT_ID, c.chargePointId, f);
      }
    }
  }

  lemma PieceOfText(c: OcppConfig, r: byte, value: string, f: Frame)
    requires Acceptable(c) && r in OCPP_REGISTERS && FitsField(value, Width(r)) && f in TextFrames(r, value)
    requires Field(c, r) == Encode(value) + Zeros(Width(r) - |value|)
    ensures IsPiece(c, f)
  {
    StringPieces(r, value);
  }

  lemma PortPiece(c: OcppConfig)
    requires Acceptable(c)
    ensures IsPiece(c, BuildWriteUint(OCPP_PORT, c.port))
  {
    assert BuildWriteUint(OCPP_PORT, c.port)[VALUE_OFFSET..] == Pack(c.port) == Pack(c.port)[0..4];
  }

  /** ... so no two of them disagree. */
  lemma BatchAgrees(c: OcppConfig, f: Frame, g: Frame)
    requires Acceptable(c) && OcppFrames(c).Ok? && f in OcppFrames(c).value && g in OcppFrames(c).value
    ensures Agrees(g, f) && Fits(f)
  {
    BatchIsPieces(c);
    if g[2] == f[2] && g[3] == f[3] {
      SameFrame(g, f);
    }
  }

  lemma TextPiece(r: byte, value: string, n: nat) returns (f: Frame)
    requires FitsField(value, Width(r)) && 1 <= n && CHUNK * n <= Width(r)
    ensures f in TextFrames(r, value) && f[2] == r && f[3] == n
  {
    StringPieces(r, value);
    f := TextFrames(r, value)[n - 1];
  }

  /** Every piece of every one of the four registers is in the batch. */
  lemma BatchPiece(c: OcppConfig, r: byte, n: nat) returns (f: Frame)
    requires Acceptable(c) && r in OCPP_REGISTERS && 1 <= n && CHUNK * n <= Width(r)
    ensures OcppFrames(c).Ok? && f in OcppFrames(c).value && f[2] == r && f[3] == n
  {
    if r == OCPP_HOST {
      f := TextPiece(r, c.host, n);
    } else if r == OCPP_PORT {
      f := BuildWriteUint(r, c.port);
    } else if r == OCPP_PATH {
      f := TextPiece(r, c.path, n);
    } else {
      f := TextPiece(r, c.chargePointId, n);
    }
    BatchParts(c, f);
  }

  lemma PiecesMakeWhole(a: Bytes, b: Bytes)
    requires |a| == |b| && |a| % CHUNK == 0
    requires forall n | 1 <= n <= |a| / CHUNK :: a[CHUNK * n - CHUNK..CHUNK * n] == b[CHUNK * n - CHUNK..CHUNK * n]
    ensures a == b
  {
    forall i | 0 <= i < |a|
      ensures a[i] == b[i]
    {
      var n := i / CHUNK + 1;
      assert a[i] == a[CHUNK * n - CHUNK..CHUNK * n][i - (CHUNK * n - CHUNK)];
      assert b[i] == b[CHUNK * n - CHUNK..CHUNK * n][i - (CHUNK * n - CHUNK)];
    }
  }

  lemma KeptPiecesFillRegister(m: Memory, c: OcppConfig, r: byte)
    requires Acceptable(c) && OcppFrames(c).Ok? && r in OCPP_REGISTERS
    requires forall f <- OcppFrames(c).value :: Kept(m, f)
    ensures m[r] == Field(c, r)
  {
    BatchIsPieces(c);
    forall n | 1 <= n <= Width(r) / CHUNK
      ensures m[r][CHUNK * n - CHUNK..CHUNK * n] == Field(c, r)[CHUNK * n - CHUNK..CHUNK * n]
    {
      var f := BatchPiece(c, r, n);
      assert Kept(m, f) && IsPiece(c, f);
    }
    PiecesMakeWhole(m[r], Field(c, r));
  }

  /** The charger holds a configuration exactly when it keeps every frame of the
      batch that writes it. */
  lemma HoldsExactlyKept(m: Memory, c: OcppConfig)
    requires Acceptable(c)
    ensures OcppFrames(c).Ok?
    ensures Holds(m, c) <==> forall f <- OcppFrames(c).value :: Kept(m, f)
  {
    BatchIsPieces(c);
    HoldsFields(m, c);
    if forall f <- OcppFrames(c).value :: Kept(m, f) {
      forall r | r in OCPP_REGISTERS
        ensures m[r] == Field(c, r)
      {
        KeptPiecesFillRegister(m, c, r);
      }
    }
  }
}
