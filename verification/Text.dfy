/** Text settings: written in numbered four byte chunks, read back zero padded. */
module Text {
  import opened Bytes
  import opened Errors
  import opened Frames

  const CHUNK := 4
  /** The chunk number is one byte, which bounds a field's width. */
  const MAX_FIELD_BYTES := 255 * CHUNK

  // ---- Python's string helpers ----

  /** `str.isspace` of one character. */
  predicate IsSpace(c: char) {
    var n := c as int;
    || 0x09 <= n <= 0x0D || 0x1C <= n <= 0x20
    || n in {0x85, 0xA0, 0x1680, 0x2028, 0x2029, 0x202F, 0x205F, 0x3000}
    || 0x2000 <= n <= 0x200A
  }

  function StripLeft(s: string): string {
    if s != [] && IsSpace(s[0]) then StripLeft(s[1..]) else s
  }

  function StripRight(s: string): string {
    if s != [] && IsSpace(s[|s| - 1]) then StripRight(s[..|s| - 1]) else s
  }

  function Strip(s: string): string {
    StripRight(StripLeft(s))
  }

  /** Everything before the first `x`, all of `s` when there is none. */
  function Before<T(==)>(s: seq<T>, x: T): (r: seq<T>)
    ensures r <= s && x !in r
    ensures x in s ==> |r| < |s| && s[|r|] == x
    ensures x !in s ==> r == s
  {
    if s == [] || s[0] == x then [] else [s[0]] + Before(s[1..], x)
  }

  lemma {:induction false} BeforeIsPrefix<T>(s: seq<T>, x: T, n: nat)
    requires n <= |s| && (forall i | 0 <= i < n :: s[i] != x) && (n < |s| ==> s[n] == x)
    ensures Before(s, x) == s[..n]
  {
    if n > 0 {
      BeforeIsPrefix(s[1..], x, n - 1);
      assert s[..n] == [s[0]] + s[1..][..n - 1];
    }
  }

  predicate IsAscii(s: string) {
    forall c | c in s :: c as int < 128
  }

  function Code(c: char): byte
    requires c as int < 128
  {
    c as int
  }

  function Encode(s: string): (b: Bytes)
    requires IsAscii(s)
    ensures |b| == |s|
  {
    seq(|s|, i requires 0 <= i < |s| => assert s[i] in s; Code(s[i]))
  }

  /** `decode("ascii", "replace")`. */
  function DecodeAscii(b: Bytes): (s: string)
    ensures |s| == |b|
  {
    seq(|b|, i requires 0 <= i < |b| => if b[i] < 128 then b[i] as char else '\U{FFFD}')
  }

  // ---- The field codec ----

  function Pad(payload: Bytes, width: nat): (b: Bytes)
    requires |payload| <= width
    ensures |b| == width
  {
    payload + Zeros(width - |payload|)
  }

  function Chunk(register: byte, payload: Bytes, i: nat): Frame
    requires CHUNK * (i + 1) <= |payload| <= MAX_FIELD_BYTES
  {
    MakeFrame(register, i + 1, payload[CHUNK * i..CHUNK * i + CHUNK])
  }

  function BuildStringWrite(register: byte, value: string, fieldBytes: int): Result<seq<Frame>>
    requires fieldBytes <= MAX_FIELD_BYTES
  {
    if fieldBytes <= 0 || fieldBytes % CHUNK != 0 then Err(ProtocolError)
    else if !IsAscii(value) then Err(ProtocolError)
    else if |value| > fieldBytes then Err(ProtocolError)
    else
      var payload := Pad(Encode(value), fieldBytes);
      Ok(seq(fieldBytes / CHUNK, i requires 0 <= i < fieldBytes / CHUNK => Chunk(register, payload, i)))
  }

  function DecodeString(raw: Bytes): string {
    Strip(DecodeAscii(Before(raw, 0)))
  }

  /** The value bytes of a list of frames, in order. */
  function Payloads(frames: seq<Frame>): Bytes {
    if frames == [] then [] else Payloads(frames[..|frames| - 1]) + frames[|frames| - 1][VALUE_OFFSET..]
  }

  predicate FitsField(value: string, fieldBytes: int) {
    fieldBytes > 0 && fieldBytes % CHUNK == 0 && IsAscii(value) && |value| <= fieldBytes
  }

  // ---- What a field carries ----

  /** Chunks are numbered 1, 2, .. and together carry the padded value. */
  lemma StringWriteLaw(register: byte, value: string, fieldBytes: int)
    requires fieldBytes <= MAX_FIELD_BYTES
    ensures BuildStringWrite(register, value, fieldBytes).Ok? <==> FitsField(value, fieldBytes)
    ensures BuildStringWrite(register, value, fieldBytes).Err? ==>
              BuildStringWrite(register, value, fieldBytes).error == ProtocolError
    ensures FitsField(value, fieldBytes) ==>
              var frames := BuildStringWrite(register, value, fieldBytes).value;
              && |frames| == fieldBytes / CHUNK
              && (forall i | 0 <= i < |frames| :: frames[i][2] == register && frames[i][3] == i + 1)
              && Payloads(frames) == Encode(value) + Zeros(fieldBytes - |value|)
              && DecodeString(Payloads(frames)) == Strip(Before(value, '\0'))
  {
    if FitsField(value, fieldBytes) {
      FieldPayloads(register, value, fieldBytes);
      DecodePadded(value, fieldBytes - |value|);
    }
  }

  lemma FieldPayloads(register: byte, value: string, fieldBytes: int)
    requires fieldBytes <= MAX_FIELD_BYTES && FitsField(value, fieldBytes)
    ensures Payloads(BuildStringWrite(register, value, fieldBytes).value)
         == Encode(value) + Zeros(fieldBytes - |value|)
  {
    var frames := BuildStringWrite(register, value, fieldBytes).value;
    var payload := Pad(Encode(value), fieldBytes);
    PayloadsOfChunks(register, payload, frames, |frames|);
    assert frames[..|frames|] == frames && payload[..fieldBytes] == payload;
  }

  lemma {:induction false} PayloadsOfChunks(register: byte, payload: Bytes, frames: seq<Frame>, n: nat)
    requires n <= |frames| && CHUNK * |frames| == |payload| <= MAX_FIELD_BYTES
    requires forall i | 0 <= i < |frames| :: frames[i] == Chunk(register, payload, i)
    ensures Payloads(frames[..n]) == payload[..CHUNK * n]
  {
    if n > 0 {
      PayloadsOfChunks(register, payload, frames, n - 1);
      assert frames[..n][..n - 1] == frames[..n - 1];
      assert frames[n - 1][VALUE_OFFSET..] == payload[CHUNK * (n - 1)..CHUNK * n];
    }
  }

  /** Padding never shows: the field reads back as the value cut at its first
      NUL and stripped, also when the value fills the field. */
  lemma DecodePadded(value: string, zeros: nat)
    requires IsAscii(value)
    ensures DecodeString(Encode(value) + Zeros(zeros)) == Strip(Before(value, '\0'))
  {
    var raw := Encode(value) + Zeros(zeros);
    var kept := Before(value, '\0');
    var n := |kept|;
    forall i | 0 <= i < |value|
      ensures raw[i] == value[i] as int
    {
      assert value[i] in value;
    }
    forall i | 0 <= i < n
      ensures raw[i] != 0
    {
      assert kept[i] in kept && kept[i] == value[i];
    }
    BeforeIsPrefix(raw, 0, n);
    forall i | 0 <= i < n
      ensures DecodeAscii(raw[..n])[i] == kept[i]
    {
      assert value[i] in value && kept[i] == value[i];
    }
    assert DecodeAscii(raw[..n]) == kept;
  }

  // ---- What decoding does to any reply ----

  /** ASCII's whitespace, and no replacement character. */
  lemma AsciiSpaces(c: char)
    requires c as int < 128 || c == '\U{FFFD}'
    ensures IsSpace(c) <==> c as int in {9, 10, 11, 12, 13, 28, 29, 30, 31, 32}
  {
  }

  predicate AllSpace(s: string) {
    forall c <- s :: IsSpace(c)
  }

  lemma {:induction false} StripLeftLaw(s: string) returns (left: string)
    ensures s == left + StripLeft(s) && AllSpace(left)
    ensures StripLeft(s) != [] ==> !IsSpace(StripLeft(s)[0])
  {
    left := "";
    if s != [] && IsSpace(s[0]) {
      var rest := StripLeftLaw(s[1..]);
      left := [s[0]] + rest;
    }
  }

  lemma {:induction false} StripRightLaw(s: string) returns (right: string)
    ensures s == StripRight(s) + right && AllSpace(right)
    ensures StripRight(s) != [] ==> !IsSpace(StripRight(s)[|StripRight(s)| - 1])
  {
    right := "";
    if s != [] && IsSpace(s[|s| - 1]) {
      var rest := StripRightLaw(s[..|s| - 1]);
      right := rest + [s[|s| - 1]];
      assert s == s[..|s| - 1] + [s[|s| - 1]];
    }
  }

  /** Stripping takes whitespace off both ends, all of it and nothing else. */
  lemma StripLaw(s: string) returns (left: string, right: string)
    ensures s == left + Strip(s) + right && AllSpace(left) && AllSpace(right) && Trimmed(Strip(s))
  {
    left := StripLeftLaw(s);
    right := StripRightLaw(StripLeft(s));
    if Strip(s) != [] {
      assert StripLeft(s)[0] == Strip(s)[0];
    }
  }

  /** A text reply reads as its bytes up to the first NUL, with those that are not
      ASCII replaced, less the whitespace around them. */
  lemma DecodeStringLaw(raw: Bytes, n: nat) returns (left: string, right: string)
    requires n <= |raw| && (forall i | 0 <= i < n :: raw[i] != 0) && (n < |raw| ==> raw[n] == 0)
    ensures var text := left + DecodeString(raw) + right;
            && |text| == n
            && forall i | 0 <= i < n :: if raw[i] < 128 then text[i] as int == raw[i] else text[i] == '\U{FFFD}'
    ensures AllSpace(left) && AllSpace(right) && Trimmed(DecodeString(raw))
  {
    BeforeIsPrefix(raw, 0, n);
    left, right := StripLaw(DecodeAscii(raw[..n]));
  }

  // ---- When a value survives the round trip ----

  predicate Trimmed(s: string) {
    s == [] || (!IsSpace(s[0]) && !IsSpace(s[|s| - 1]))
  }

  lemma {:induction false} StripLeftShortens(s: string)
    ensures |StripLeft(s)| <= |s| && (StripLeft(s) != s ==> |StripLeft(s)| < |s|)
    ensures StripLeft(s) == s <==> s == [] || !IsSpace(s[0])
  {
    if s != [] && IsSpace(s[0]) {
      StripLeftShortens(s[1..]);
    }
  }

  lemma {:induction false} StripRightShortens(s: string)
    ensures |StripRight(s)| <= |s|
    ensures StripRight(s) == s <==> s == [] || !IsSpace(s[|s| - 1])
  {
    if s != [] && IsSpace(s[|s| - 1]) {
      StripRightShortens(s[..|s| - 1]);
    }
  }

  lemma StripKeepsExactlyTrimmed(s: string)
    ensures |Strip(s)| <= |s|
    ensures Strip(s) == s <==> Trimmed(s)
  {
    StripLeftShortens(s);
    StripRightShortens(StripLeft(s));
  }

  /** A text setting reads back as written exactly when it holds no NUL and no
      outer whitespace. */
  lemma FieldRoundTrip(value: string, zeros: nat)
    requires IsAscii(value)
    ensures DecodeString(Encode(value) + Zeros(zeros)) == value <==> '\0' !in value && Trimmed(value)
  {
    DecodePadded(value, zeros);
    StripKeepsExactlyTrimmed(Before(value, '\0'));
  }
}
