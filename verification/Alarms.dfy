/** The alarm table, its index, and decoding alarm words through the index. */
module Alarms {
  import opened Errors

  // ---- Words and bits ----

  /** `word & (1 << k)` is not zero. */
  predicate Bit(word: nat, k: nat) {
    if k == 0 then word % 2 == 1 else Bit(word / 2, k - 1)
  }

  function And(a: nat, b: nat): nat {
    if a == 0 || b == 0 then 0 else 2 * And(a / 2, b / 2) + if a % 2 == 1 && b % 2 == 1 then 1 else 0
  }

  function Or(a: nat, b: nat): nat
    decreases a + b
  {
    if a == 0 && b == 0 then 0 else 2 * Or(a / 2, b / 2) + if a % 2 == 1 || b % 2 == 1 then 1 else 0
  }

  function Pow2(k: nat): nat {
    if k == 0 then 1 else 2 * Pow2(k - 1)
  }

  lemma {:induction false} ZeroBits(k: nat)
    ensures !Bit(0, k)
  {
    if k > 0 {
      ZeroBits(k - 1);
    }
  }

  /** Bit `k` is the word's binary digit with weight two to the `k`. */
  lemma {:induction false} BitIsDigit(word: nat, k: nat) returns (high: nat, low: nat)
    ensures low < Pow2(k)
    ensures word == (2 * high + if Bit(word, k) then 1 else 0) * Pow2(k) + low
  {
    if k == 0 {
      high, low := word / 2, 0;
    } else {
      var low': nat;
      high, low' := BitIsDigit(word / 2, k - 1);
      low := 2 * low' + word % 2;
      var digits := 2 * high + if Bit(word, k) then 1 else 0;
      assert word == 2 * (digits * Pow2(k - 1) + low') + word % 2;
      assert 2 * (digits * Pow2(k - 1)) == digits * Pow2(k);
    }
  }

  lemma Half(n: nat, low: nat)
    requires low < 2
    ensures (2 * n + low) / 2 == n && (2 * n + low) % 2 == low
  {
  }

  lemma {:induction false} AndBit(a: nat, b: nat, k: nat)
    ensures Bit(And(a, b), k) <==> Bit(a, k) && Bit(b, k)
    decreases k
  {
    if a == 0 || b == 0 {
      ZeroBits(k);
    } else {
      var low := if a % 2 == 1 && b % 2 == 1 then 1 else 0;
      Half(And(a / 2, b / 2), low);
      assert And(a, b) / 2 == And(a / 2, b / 2) && And(a, b) % 2 == low;
      if k > 0 {
        AndBit(a / 2, b / 2, k - 1);
      }
    }
  }

  lemma {:induction false} OrBit(a: nat, b: nat, k: nat)
    ensures Bit(Or(a, b), k) <==> Bit(a, k) || Bit(b, k)
    decreases k
  {
    if a == 0 && b == 0 {
      ZeroBits(k);
    } else {
      var low := if a % 2 == 1 || b % 2 == 1 then 1 else 0;
      Half(Or(a / 2, b / 2), low);
      assert Or(a, b) / 2 == Or(a / 2, b / 2) && Or(a, b) % 2 == low;
      if k > 0 {
        OrBit(a / 2, b / 2, k - 1);
      }
    }
  }

  lemma {:induction false} Pow2Bit(j: nat, k: nat)
    ensures Bit(Pow2(j), k) <==> j == k
  {
    if j == 0 {
      if k > 0 {
        ZeroBits(k - 1);
      }
    } else if k > 0 {
      Pow2Bit(j - 1, k - 1);
      assert Pow2(j) / 2 == Pow2(j - 1);
    }
  }

  lemma {:induction false} SameBitsSameWord(a: nat, b: nat)
    requires forall k: nat :: Bit(a, k) <==> Bit(b, k)
    ensures a == b
    decreases a + b
  {
    if a > 0 || b > 0 {
      assert Bit(a, 0) <==> Bit(b, 0);
      forall k: nat
        ensures Bit(a / 2, k) <==> Bit(b / 2, k)
      {
        assert Bit(a, k + 1) <==> Bit(b, k + 1);
      }
      SameBitsSameWord(a / 2, b / 2);
    }
  }

  // ---- The table and its index ----

  datatype AlarmDef = AlarmDef(bank: int, bit: nat, name: string)

  type Index = map<int, map<nat, AlarmDef>>

  /** The last definition of a bit in the table. */
  function Defined(table: seq<AlarmDef>, bank: int, bit: nat): Option<AlarmDef> {
    if table == [] then None
    else
      var last := table[|table| - 1];
      if last.bank == bank && last.bit == bit then Some(last) else Defined(table[..|table| - 1], bank, bit)
  }

  function Lookup(index: Index, bank: int, bit: nat): Option<AlarmDef> {
    if bank in index && bit in index[bank] then Some(index[bank][bit]) else None
  }

  method IndexAlarms(table: seq<AlarmDef>) returns (index: Index)
    ensures forall bank, bit: nat :: Lookup(index, bank, bit) == Defined(table, bank, bit)
    ensures forall bank :: bank in index <==> exists d <- table :: d.bank == bank
  {
    index := map[];
    for i := 0 to |table|
      invariant forall bank, bit: nat :: Lookup(index, bank, bit) == Defined(table[..i], bank, bit)
      invariant forall bank :: bank in index <==> exists d <- table[..i] :: d.bank == bank
    {
      var alarm := table[i];
      assert table[..i + 1] == table[..i] + [alarm] && table[..i + 1][..i] == table[..i];
      var bank := if alarm.bank in index then index[alarm.bank] else map[];
      index := index[alarm.bank := bank[alarm.bit := alarm]];
    }
    assert table[..|table|] == table;
  }

  predicate Unique(table: seq<AlarmDef>) {
    forall i, j | 0 <= i < j < |table| :: table[i].bank != table[j].bank || table[i].bit != table[j].bit
  }

  lemma {:induction false} DefinedIsMembership(table: seq<AlarmDef>, d: AlarmDef)
    requires Unique(table)
    ensures Defined(table, d.bank, d.bit) == Some(d) <==> d in table
    ensures Defined(table, d.bank, d.bit).Some? ==>
              var e := Defined(table, d.bank, d.bit).value;
              e in table && e.bank == d.bank && e.bit == d.bit
  {
    if table != [] {
      var init, last := table[..|table| - 1], table[|table| - 1];
      assert table == init + [last];
      DefinedIsMembership(init, d);
    }
  }

  // ---- Decoding ----

  lemma LeastExists(s: set<nat>)
    requires s != {}
    ensures exists m :: m in s && forall y | y in s :: m <= y
  {
    var x :| x in s;
    var rest := s - {x};
    if rest != {} {
      LeastExists(rest);
      var m :| m in rest && forall y | y in rest :: m <= y;
      assert forall y | y in s :: y == x || y in rest;
      assert if x <= m then forall y | y in s :: x <= y else forall y | y in s :: m <= y;
    } else {
      assert s == {x};
    }
  }

  /** `sorted(...)`. */
  function Ascending(s: set<nat>): seq<nat> {
    if s == {} then []
    else
      LeastExists(s);
      var m :| m in s && forall y | y in s :: m <= y;
      [m] + Ascending(s - {m})
  }

  lemma {:induction false} AscendingLaw(s: set<nat>)
    ensures forall i, j | 0 <= i < j < |Ascending(s)| :: Ascending(s)[i] < Ascending(s)[j]
    ensures forall x :: x in Ascending(s) <==> x in s
  {
    if s != {} {
      var m := Ascending(s)[0];
      assert m in s && (forall y | y in s :: m <= y) && Ascending(s) == [m] + Ascending(s - {m});
      AscendingLaw(s - {m});
      forall j | 1 <= j < |Ascending(s)|
        ensures Ascending(s)[j] > m
      {
        assert Ascending(s)[j] in Ascending(s - {m});
      }
    }
  }

  /** `[defs[bit] for bit in bits if word & (1 << bit)]`. */
  function Select(defs: map<nat, AlarmDef>, bits: seq<nat>, word: nat): seq<AlarmDef>
    requires forall b <- bits :: b in defs
  {
    if bits == [] then []
    else (if Bit(word, bits[0]) then [defs[bits[0]]] else []) + Select(defs, bits[1..], word)
  }

  predicate IsBank(bank: int) {
    bank == 1 || bank == 2
  }

  function DecodeAlarmDefs(index: Index, word: nat, bank: int): Result<seq<AlarmDef>>
    requires IsBank(bank) ==> bank in index
  {
    if !IsBank(bank) then Err(ProtocolError)
    else
      var defs := index[bank];
      AscendingLaw(defs.Keys);
      Ok(Select(defs, Ascending(defs.Keys), word))
  }

  predicate ByBit(defs: seq<AlarmDef>) {
    forall i, j | 0 <= i < j < |defs| :: defs[i].bit < defs[j].bit
  }

  lemma {:induction false} SelectLaw(defs: map<nat, AlarmDef>, bits: seq<nat>, word: nat)
    requires forall b <- bits :: b in defs && defs[b].bit == b
    requires forall i, j | 0 <= i < j < |bits| :: bits[i] < bits[j]
    ensures ByBit(Select(defs, bits, word))
    ensures forall d :: d in Select(defs, bits, word) <==> d.bit in bits && d == defs[d.bit] && Bit(word, d.bit)
  {
    if bits != [] {
      SelectLaw(defs, bits[1..], word);
      var rest := Select(defs, bits[1..], word);
      assert forall d | d in rest :: d.bit in bits[1..];
      assert forall b | b in bits[1..] :: b > bits[0];
      assert forall b :: b in bits <==> b == bits[0] || b in bits[1..];
      forall j | 0 <= j < |rest|
        ensures rest[j].bit > bits[0]
      {
        assert rest[j] in rest;
      }
    }
  }

  /** An index built from `table`. */
  ghost predicate Indexes(index: Index, table: seq<AlarmDef>) {
    && (forall bank, bit: nat :: Lookup(index, bank, bit) == Defined(table, bank, bit))
    && 1 in index && 2 in index
  }

  /** Decoding through the index gives the definitions of the table whose bit is
      set in the word, in bit order. */
  lemma IndexAgreesWithTable(index: Index, table: seq<AlarmDef>, word: nat, bank: int)
    requires Unique(table) && Indexes(index, table)
    ensures DecodeAlarmDefs(index, word, bank).Ok? <==> bank == 1 || bank == 2
    ensures DecodeAlarmDefs(index, word, bank).Err? ==> DecodeAlarmDefs(index, word, bank).error == ProtocolError
    ensures IsBank(bank) ==>
              var found := DecodeAlarmDefs(index, word, bank).value;
              && ByBit(found)
              && forall d :: d in found <==> d in table && d.bank == bank && Bit(word, d.bit)
  {
    if IsBank(bank) {
      var defs := index[bank];
      AscendingLaw(defs.Keys);
      forall b | b in defs
        ensures defs[b].bit == b && defs[b].bank == bank
      {
        assert Lookup(index, bank, b) == Some(defs[b]);
        DefinedIsMembership(table, AlarmDef(bank, b, ""));
      }
      SelectLaw(defs, Ascending(defs.Keys), word);
      var found := DecodeAlarmDefs(index, word, bank).value;
      forall d: AlarmDef
        ensures d in found <==> d in table && d.bank == bank && Bit(word, d.bit)
      {
        DefinedIsMembership(table, d);
        assert Lookup(index, d.bank, d.bit) == Defined(table, d.bank, d.bit);
      }
    }
  }

  /** A list in bit order is determined by what is in it. */
  lemma {:induction false} BitOrderIsUnique(a: seq<AlarmDef>, b: seq<AlarmDef>)
    requires ByBit(a) && ByBit(b) && forall d :: d in a <==> d in b
    ensures a == b
  {
    assert (a != [] ==> a[0] in b) && (b != [] ==> b[0] in a);
    if a != [] && b != [] {
      forall d: AlarmDef
        ensures d in a[1..] <==> d in b[1..]
      {
        assert d in a <==> d == a[0] || d in a[1..];
        assert d in b <==> d == b[0] || d in b[1..];
      }
      BitOrderIsUnique(a[1..], b[1..]);
    }
  }

  // ---- Masks and merges ----

  /** The word with exactly the bits of `defs`. */
  function WordOf(defs: seq<AlarmDef>): nat {
    if defs == [] then 0 else Or(Pow2(defs[0].bit), WordOf(defs[1..]))
  }

  lemma {:induction false} WordOfBits(defs: seq<AlarmDef>, k: nat)
    ensures Bit(WordOf(defs), k) <==> exists d <- defs :: d.bit == k
  {
    if defs == [] {
      ZeroBits(k);
    } else {
      WordOfBits(defs[1..], k);
      Pow2Bit(defs[0].bit, k);
      OrBit(Pow2(defs[0].bit), WordOf(defs[1..]), k);
      assert forall d :: d in defs <==> d == defs[0] || d in defs[1..];
    }
  }

  function InBank(table: seq<AlarmDef>, bank: int): seq<AlarmDef> {
    if table == [] then []
    else (if table[0].bank == bank then [table[0]] else []) + InBank(table[1..], bank)
  }

  lemma {:induction false} InBankLaw(table: seq<AlarmDef>, bank: int, d: AlarmDef)
    ensures d in InBank(table, bank) <==> d in table && d.bank == bank
  {
    if table != [] {
      InBankLaw(table[1..], bank, d);
    }
  }

  /** Putting the decoded bits back together gives the word masked to the bits
      the bank defines: unused bits, and nothing else, are dropped. */
  lemma DecodedBitsReassemble(index: Index, table: seq<AlarmDef>, word: nat, bank: int)
    requires Unique(table) && Indexes(index, table) && IsBank(bank)
    ensures WordOf(DecodeAlarmDefs(index, word, bank).value) == And(word, WordOf(InBank(table, bank)))
  {
    IndexAgreesWithTable(index, table, word, bank);
    var found := DecodeAlarmDefs(index, word, bank).value;
    var mask := WordOf(InBank(table, bank));
    forall k: nat
      ensures Bit(WordOf(found), k) <==> Bit(And(word, mask), k)
    {
      WordOfBits(found, k);
      WordOfBits(InBank(table, bank), k);
      AndBit(word, mask, k);
      if d :| d in InBank(table, bank) && d.bit == k && Bit(word, k) {
        InBankLaw(table, bank, d);
        assert d in found;
      }
      if d :| d in found && d.bit == k {
        InBankLaw(table, bank, d);
        assert d in InBank(table, bank);
      }
    }
    SameBitsSameWord(WordOf(found), And(word, mask));
  }

  /** Merge two lists in bit order, keeping one of equal bits. */
  function Merge(a: seq<AlarmDef>, b: seq<AlarmDef>): seq<AlarmDef> {
    if a == [] then b
    else if b == [] then a
    else if a[0].bit < b[0].bit then [a[0]] + Merge(a[1..], b)
    else if b[0].bit < a[0].bit then [b[0]] + Merge(a, b[1..])
    else [a[0]] + Merge(a[1..], b[1..])
  }

  lemma {:induction false} MergeMembers(a: seq<AlarmDef>, b: seq<AlarmDef>, x: AlarmDef)
    requires forall d, e | d in a && e in b && d.bit == e.bit :: d == e
    ensures x in Merge(a, b) <==> x in a || x in b
  {
    if a != [] && b != [] {
      assert a[0] in a && b[0] in b;
      MergeMembers(if a[0].bit <= b[0].bit then a[1..] else a, if b[0].bit <= a[0].bit then b[1..] else b, x);
    }
  }

  lemma PrependByBit(head: AlarmDef, rest: seq<AlarmDef>)
    requires ByBit(rest) && forall x <- rest :: head.bit < x.bit
    ensures ByBit([head] + rest)
  {
  }

  lemma TailIsAbove(a: seq<AlarmDef>)
    requires ByBit(a) && a != []
    ensures ByBit(a[1..]) && forall x <- a[1..] :: a[0].bit < x.bit
  {
  }

  lemma {:induction false} MergeByBit(a: seq<AlarmDef>, b: seq<AlarmDef>)
    requires ByBit(a) && ByBit(b) && forall d, e | d in a && e in b && d.bit == e.bit :: d == e
    ensures ByBit(Merge(a, b))
  {
    if a != [] && b != [] {
      TailIsAbove(a);
      TailIsAbove(b);
      var a' := if a[0].bit <= b[0].bit then a[1..] else a;
      var b' := if b[0].bit <= a[0].bit then b[1..] else b;
      var head := if a[0].bit <= b[0].bit then a[0] else b[0];
      AboveHead(a, b, a', b', head);
      MergeByBit(a', b');
      forall x | x in Merge(a', b')
        ensures head.bit < x.bit
      {
        MergeMembers(a', b', x);
      }
      PrependByBit(head, Merge(a', b'));
    }
  }

  lemma AboveHead(a: seq<AlarmDef>, b: seq<AlarmDef>, a': seq<AlarmDef>, b': seq<AlarmDef>, head: AlarmDef)
    requires a != [] && b != [] && ByBit(a) && ByBit(b)
    requires a' == (if a[0].bit <= b[0].bit then a[1..] else a) && b' == (if b[0].bit <= a[0].bit then b[1..] else b)
    requires head == if a[0].bit <= b[0].bit then a[0] else b[0]
    ensures ByBit(a') && ByBit(b') && forall x | x in a' || x in b' :: head.bit < x.bit
    ensures forall x :: (x in a' ==> x in a) && (x in b' ==> x in b)
  {
  }

  /** Decoding the bitwise or of two words merges their decodings. */
  lemma DecodeOfOrIsMerge(index: Index, table: seq<AlarmDef>, v: nat, w: nat, bank: int)
    requires Unique(table) && Indexes(index, table) && IsBank(bank)
    ensures DecodeAlarmDefs(index, Or(v, w), bank).value
         == Merge(DecodeAlarmDefs(index, v, bank).value, DecodeAlarmDefs(index, w, bank).value)
  {
    IndexAgreesWithTable(index, table, v, bank);
    IndexAgreesWithTable(index, table, w, bank);
    IndexAgreesWithTable(index, table, Or(v, w), bank);
    var a, b := DecodeAlarmDefs(index, v, bank).value, DecodeAlarmDefs(index, w, bank).value;
    forall d, e | d in a && e in b && d.bit == e.bit
      ensures d == e
    {
      DefinedIsMembership(table, d);
      DefinedIsMembership(table, e);
    }
    MergeByBit(a, b);
    var both := DecodeAlarmDefs(index, Or(v, w), bank).value;
    forall d: AlarmDef
      ensures d in both <==> d in Merge(a, b)
    {
      OrBit(v, w, d.bit);
      MergeMembers(a, b, d);
    }
    BitOrderIsUnique(both, Merge(a, b));
  }

  // ---- The table itself ----

  const BANK1: seq<string> := [
    "Mains Fail", "Mains Low", "Mains High", "Mains Output Current High", "Earth Wire Open",
    "DC Fault/Internal RCD", "Vehicle CP Fault", "EM Comm Fault", "RFID Fault", "WiFi Fault",
    "LCD Board Comm Fault", "LED Board Comm Fault", "NE High Voltage", "Output Current Very High",
    "Emergency Pressed", "SPD Fail", "Mains Very High", "High Temperature"]

  const BANK2: seq<string> := [
    "L1 Phase Failure", "L1 Voltage Low", "L1 Voltage High", "L2 Phase Failure", "L2 Voltage Low",
    "L2 Voltage High", "L3 Phase Failure", "L3 Voltage Low", "L3 Voltage High", "L1 Overcurrent",
    "L2 Overcurrent", "L3 Overcurrent", "Energy Meter 1 Fault", "Energy Meter 2 Fault", "Lora Fault",
    "Unexpected CP Voltage", "Media Failure", "Encryption IC Fault", "EEPROM Fault",
    "Ext Energy Meter Fault", "Relay Stuck", "Servo Lock Fail", "Grid Max Current Reached",
    "Charger Min Current Reached", "GSM Fault", "Charger Zero Current"]

  function BankTable(bank: int, names: seq<string>): seq<AlarmDef> {
    seq(|names|, i requires 0 <= i < |names| => AlarmDef(bank, i, names[i]))
  }

  const ALARMS: seq<AlarmDef> := BankTable(1, BANK1) + BankTable(2, BANK2)

  /** It numbers 18 bits of bank 1 and 26 of bank 2 from 0, with their names. */
  lemma ShippedTableLayout()
    ensures |ALARMS| == 44
    ensures forall i | 0 <= i < 18 :: ALARMS[i] == AlarmDef(1, i, BANK1[i])
    ensures forall i | 18 <= i < 44 :: ALARMS[i] == AlarmDef(2, i - 18, BANK2[i - 18])
  {
  }

  /** The shipped table has no bit twice and fills both banks, so everything
      above holds of it. */
  method IndexShippedTable() returns (index: Index)
    ensures Unique(ALARMS) && Indexes(index, ALARMS)
  {
    index := IndexAlarms(ALARMS);
    assert ALARMS[0].bank == 1 && ALARMS[0] in ALARMS;
    assert ALARMS[|BANK1|].bank == 2 && ALARMS[|BANK1|] in ALARMS;
  }
}
