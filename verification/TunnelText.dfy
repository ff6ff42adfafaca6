/** The text form frames take inside an OCPP DataTransfer. */
module TunnelText {
  import opened Bytes
  import opened Errors
  import opened Text

  function DigitValue(c: char): Option<nat> {
    if '0' <= c <= '9' then Some(c as int - '0' as int)
    else if 'a' <= c <= 'f' then Some(c as int - 'a' as int + 10)
    else if 'A' <= c <= 'F' then Some(c as int - 'A' as int + 10)
    else None
  }

  /** The lower case digit, as `bytes.hex` prints it. */
  function Digit(n: nat): char
    requires n < 16
  {
    if n < 10 then (n + '0' as int) as char else (n - 10 + 'a' as int) as char
  }

  function Hex(b: Bytes): string {
    if b == [] then "" else [Digit(b[0] / 16), Digit(b[0] % 16)] + Hex(b[1..])
  }

  /** `bytes.fromhex` of text without whitespace. */
  function FromHex(s: string): Result<Bytes> {
    if s == "" then Ok([])
    else if |s| == 1 then Err(ProtocolError)
    else
      match (DigitValue(s[0]), DigitValue(s[1]))
      case (Some(high), Some(low)) =>
        var rest :- FromHex(s[2..]);
        Ok([high * 16 + low] + rest)
      case _ => Err(ProtocolError)
  }

  predicate Ignored(c: char) {
    c == '_' || IsSpace(c)
  }

  /** `"".join(data.replace("_", "").split())`. */
  function Squeeze(data: string): string {
    if data == "" then "" else (if Ignored(data[0]) then "" else [data[0]]) + Squeeze(data[1..])
  }

  function ParseReply(data: string): Result<Bytes> {
    FromHex(Squeeze(data))
  }

  /** Hex digits in lower case; anything else as it is. */
  function Lower(s: string): string {
    if s == "" then ""
    else [if 'A' <= s[0] <= 'F' then (s[0] as int - 'A' as int + 'a' as int) as char else s[0]] + Lower(s[1..])
  }

  lemma DigitsInvert(c: char, n: nat)
    requires n < 16
    ensures DigitValue(c) == Some(n) <==> Lower([c]) == [Digit(n)]
  {
    assert Lower([c]) == [if 'A' <= c <= 'F' then (c as int - 'A' as int + 'a' as int) as char else c];
  }

  lemma {:induction false} FromHexInvertsHex(s: string, b: Bytes)
    ensures FromHex(s) == Ok(b) <==> Lower(s) == Hex(b)
    decreases |s|
  {
    if |s| <= 1 || b == [] {
      if |s| >= 1 {
        assert |Lower(s)| >= 1;
      }
      if b != [] {
        assert |Hex(b)| >= 2;
      }
      if |s| == 1 {
        assert Lower(s[1..]) == "";
      }
    } else {
      DigitsInvert(s[0], b[0] / 16);
      DigitsInvert(s[1], b[0] % 16);
      FromHexInvertsHex(s[2..], b[1..]);
      assert s[1..][1..] == s[2..];
      assert Lower(s) == Lower([s[0]]) + (Lower([s[1]]) + Lower(s[2..]));
      assert Hex(b) == [Digit(b[0] / 16)] + ([Digit(b[0] % 16)] + Hex(b[1..]));
      TwoThenRest(Lower(s), Hex(b), Lower([s[0]])[0], Lower([s[1]])[0], Lower(s[2..]),
                  Digit(b[0] / 16), Digit(b[0] % 16), Hex(b[1..]));
      SplitByte(s, b);
    }
  }

  lemma TwoThenRest(x: string, y: string, x0: char, x1: char, xs: string, y0: char, y1: char, ys: string)
    requires x == [x0] + ([x1] + xs) && y == [y0] + ([y1] + ys)
    ensures x == y <==> x0 == y0 && x1 == y1 && xs == ys
  {
    assert x[0] == x0 && x[1] == x1 && x[2..] == xs;
    assert y[0] == y0 && y[1] == y1 && y[2..] == ys;
  }

  lemma SplitByte(s: string, b: Bytes)
    requires |s| >= 2 && b != []
    ensures FromHex(s) == Ok(b) <==>
              && DigitValue(s[0]) == Some(b[0] / 16) && DigitValue(s[1]) == Some(b[0] % 16)
              && FromHex(s[2..]) == Ok(b[1..])
  {
    if FromHex(s) == Ok(b) {
      var rest := FromHex(s[2..]).value;
      assert b == [DigitValue(s[0]).value * 16 + DigitValue(s[1]).value] + rest;
      assert b[1..] == rest;
    }
    if DigitValue(s[0]) == Some(b[0] / 16) && DigitValue(s[1]) == Some(b[0] % 16) && FromHex(s[2..]) == Ok(b[1..]) {
      assert b == [b[0]] + b[1..];
    }
  }

  /** Text parses to `b` exactly when, underscores and whitespace aside and in
      lower case, it is `b` printed. */
  lemma ParseReplyLaw(data: string, b: Bytes)
    ensures ParseReply(data) == Ok(b) <==> Lower(Squeeze(data)) == Hex(b)
  {
    FromHexInvertsHex(Squeeze(data), b);
  }

  predicate IsHexText(s: string) {
    |s| % 2 == 0 && forall c <- s :: DigitValue(c).Some?
  }

  lemma {:induction false} ParsesExactlyHex(s: string)
    ensures FromHex(s).Ok? <==> IsHexText(s)
    ensures FromHex(s).Err? ==> FromHex(s).error == ProtocolError
    decreases |s|
  {
    if |s| >= 2 {
      ParsesExactlyHex(s[2..]);
      assert s == [s[0], s[1]] + s[2..];
      assert forall c :: c in s <==> c == s[0] || c == s[1] || c in s[2..];
    }
  }

  lemma {:induction false} SqueezeJoins(a: string, b: string)
    ensures Squeeze(a + b) == Squeeze(a) + Squeeze(b)
  {
    if a == "" {
      assert a + b == b;
    } else {
      SqueezeJoins(a[1..], b);
      SqueezeFirst(a[0], a[1..]);
      SqueezeFirst(a[0], a[1..] + b);
      assert [a[0]] + a[1..] == a && [a[0]] + (a[1..] + b) == a + b;
      Reassociate(if Ignored(a[0]) then "" else [a[0]], Squeeze(a[1..]), Squeeze(b));
    }
  }

  lemma SqueezeFirst(c: char, rest: string)
    ensures Squeeze([c] + rest) == (if Ignored(c) then "" else [c]) + Squeeze(rest)
  {
    assert ([c] + rest)[1..] == rest;
  }

  lemma Reassociate(a: string, b: string, c: string)
    ensures a + (b + c) == (a + b) + c
  {
  }

  lemma {:induction false} SqueezeDropsIgnored(filler: string)
    requires forall c <- filler :: Ignored(c)
    ensures Squeeze(filler) == ""
  {
    if filler != "" {
      SqueezeDropsIgnored(filler[1..]);
    }
  }

  /** Underscores and whitespace may be inserted anywhere. */
  lemma InsertionsDoNotMatter(a: string, filler: string, b: string)
    requires forall c <- filler :: Ignored(c)
    ensures ParseReply(a + filler + b) == ParseReply(a + b)
  {
    SqueezeJoins(a + filler, b);
    SqueezeJoins(a, filler);
    SqueezeJoins(a, b);
    SqueezeDropsIgnored(filler);
    assert Squeeze(a) + "" == Squeeze(a);
  }

  function Upper(s: string): string {
    if s == "" then ""
    else [if 'a' <= s[0] <= 'f' then (s[0] as int - 'a' as int + 'A' as int) as char else s[0]] + Upper(s[1..])
  }

  /** The charger's form: bytes in upper case, joined by underscores. */
  function Joined(b: Bytes): string {
    if b == [] then "" else Upper(Hex([b[0]])) + (if |b| == 1 then "" else "_" + Joined(b[1..]))
  }

  predicate IsDigit(c: char) {
    '0' <= c <= '9' || 'a' <= c <= 'f'
  }

  lemma {:induction false} DigitsArePlain(s: string)
    requires forall c <- s :: IsDigit(c)
    ensures Squeeze(s) == s && Lower(s) == s
    ensures Squeeze(Upper(s)) == Upper(s) && Lower(Upper(s)) == s
  {
    if s != "" {
      assert s[0] in s;
      DigitsArePlain(s[1..]);
      assert s == [s[0]] + s[1..];
      assert Upper(s)[1..] == Upper(s[1..]);
    }
  }

  lemma {:induction false} HexIsDigits(b: Bytes)
    ensures forall c <- Hex(b) :: IsDigit(c)
  {
    if b != [] {
      HexIsDigits(b[1..]);
    }
  }

  lemma {:induction false} LowerJoins(a: string, b: string)
    ensures Lower(a + b) == Lower(a) + Lower(b)
  {
    if a == "" {
      assert a + b == b;
    } else {
      LowerJoins(a[1..], b);
      assert (a + b)[1..] == a[1..] + b;
    }
  }

  lemma {:induction false} JoinedIsHex(b: Bytes)
    ensures Lower(Squeeze(Joined(b))) == Hex(b)
  {
    if b != [] {
      JoinedIsHex(b[1..]);
      HexIsDigits([b[0]]);
      DigitsArePlain(Hex([b[0]]));
      assert Hex(b) == Hex([b[0]]) + Hex(b[1..]);
      JoinedTail(Upper(Hex([b[0]])), b[1..]);
    }
  }

  lemma JoinedTail(head: string, rest: Bytes)
    requires Squeeze(head) == head && Lower(Squeeze(Joined(rest))) == Hex(rest)
    ensures Lower(Squeeze(head + if rest == [] then "" else "_" + Joined(rest))) == Lower(head) + Hex(rest)
  {
    var tail := if rest == [] then "" else "_" + Joined(rest);
    SqueezeJoins(head, tail);
    LowerJoins(head, Squeeze(tail));
    if rest != [] {
      SqueezeJoins("_", Joined(rest));
      SqueezeDropsIgnored("_");
      assert Squeeze(tail) == Squeeze(Joined(rest));
    }
  }

  /** What `async_send` prints and what the charger prints both come back as the
      same bytes. */
  lemma TextRoundTrip(b: Bytes)
    ensures ParseReply(Hex(b)) == Ok(b) && ParseReply(Upper(Hex(b))) == Ok(b) && ParseReply(Joined(b)) == Ok(b)
  {
    HexIsDigits(b);
    DigitsArePlain(Hex(b));
    JoinedIsHex(b);
    ParseReplyLaw(Hex(b), b);
    ParseReplyLaw(Upper(Hex(b)), b);
    ParseReplyLaw(Joined(b), b);
  }
}
