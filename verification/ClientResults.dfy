/** What callers may conclude from the answers of a run. */
module ClientResults {
  import opened Bytes
  import opened Errors
  import opened Frames
  import opened Text
  import opened Client
  import opened ClientInvariant
  import opened ClientInterrupt
  import A = Alarms

  // ---- Echoes of writes never answer reads ----

  const TEXT_REGISTERS: set<byte> := {OCPP_HOST, OCPP_PATH, OCPP_CHARGE_POINT_ID, WIFI_SSID, WIFI_PASSWORD}

  /** The shape of every frame `_write_frames` is given. */
  predicate IsWriteFrame(f: Frame) {
    f[3] == WRITE || (f[3] != READ && f[2] in TEXT_REGISTERS)
  }

  lemma SettersSendWriteFrames(register: byte, value: string, fieldBytes: int, numbered: byte, number: nat,
                               x: int, y: int, z: int)
    requires register in TEXT_REGISTERS && fieldBytes <= MAX_FIELD_BYTES && number < WORD_LIMIT
    ensures BuildStringWrite(register, value, fieldBytes).Ok? ==>
              forall f <- BuildStringWrite(register, value, fieldBytes).value :: IsWriteFrame(f)
    ensures IsWriteFrame(BuildWriteUint(numbered, number)) && IsWriteFrame(BuildCommit())
    ensures BuildClockTime(x, y, z).Ok? ==> IsWriteFrame(BuildClockTime(x, y, z).value)
    ensures BuildClockDate(x, y, z).Ok? ==> IsWriteFrame(BuildClockDate(x, y, z).value)
    ensures BuildTimezone(x, y).Ok? ==> IsWriteFrame(BuildTimezone(x, y).value)
  {
    StringWriteLaw(register, value, fieldBytes);
    if BuildStringWrite(register, value, fieldBytes).Ok? {
      var frames := BuildStringWrite(register, value, fieldBytes).value;
      forall f | f in frames
        ensures IsWriteFrame(f)
      {
        var i :| 0 <= i < |frames| && frames[i] == f;
      }
    }
  }

  /** A plain read, or the read of an alarm word. */
  predicate IsReadFrame(f: Frame) {
    f[3] == READ || (f[3] == ALARM_BANK2_FLAG && f[2] == ALARMS)
  }

  /** The echo of a written frame passes a waiting read by. */
  lemma EchoLeavesReadWaiting(s: State, t: TaskId, echo: Frame)
    requires Inv(s) && s.owner == Some(t) && IsActive(s, t)
    requires s.tasks[t].Current().Request? && IsReadFrame(s.tasks[t].Current().frame) && IsWriteFrame(echo)
    ensures Notified(s, echo).waiters == s.waiters && Notified(s, echo).futures == s.futures
  {
    assert HeldTables(s, t);
    NotificationReachesOnlyItsWaiter(s, echo);
  }

  /** In no run does a read return the echo of a written frame. */
  lemma ReadsNeverReturnEchoes(timeout: nat, steps: seq<Step>, t: TaskId, i: nat, echo: Frame)
    requires Legal(Init(timeout), steps) && IsWriteFrame(echo)
    requires var s := Run(Init(timeout), steps);
             && t in s.tasks && i < |s.tasks[t].answers| && s.tasks[t].answers[i].Returned?
             && i < |s.tasks[t].program| && s.tasks[t].program[i].Request?
             && IsReadFrame(s.tasks[t].program[i].frame)
    ensures Run(Init(timeout), steps).tasks[t].answers[i].payload != echo
  {
    RepliesAreMatched(timeout, steps, t, i);
  }

  // ---- Alarm words ----

  function BankFlag(bank: int): byte
    requires A.IsBank(bank)
  {
    if bank == 1 then READ else ALARM_BANK2_FLAG
  }

  function BuildAlarmRead(bank: int): Result<Frame> {
    if !A.IsBank(bank) then Err(ProtocolError) else Ok(BuildRead(ALARMS, 0, BankFlag(bank)))
  }

  /** The reads `async_get_alarm_defs` makes, in turn. */
  const ALARM_PROGRAM: seq<Op> := [Request(BuildAlarmRead(1).value), Request(BuildAlarmRead(2).value)]

  /** Bank 1 is read like any register, bank 2 with its own flag; there is no other. */
  lemma AlarmReadLayout(bank: int)
    ensures BuildAlarmRead(bank)
         == if bank == 1 then Ok([0x10, 0xAC, 0x39, 0x00, 0, 0, 0, 0])
            else if bank == 2 then Ok([0x10, 0xAC, 0x39, 0x10, 0, 0, 0, 0])
            else Err(ProtocolError)
  {
    PackUnpack([0, 0, 0, 0]);
    assert Unpack([0, 0, 0, 0]) == 0;
    assert BuildRead(ALARMS, 0, READ) == [0x10, 0xAC, 0x39, 0x00, 0, 0, 0, 0];
    assert BuildRead(ALARMS, 0, ALARM_BANK2_FLAG) == [0x10, 0xAC, 0x39, 0x10, 0, 0, 0, 0];
  }

  function AlarmWord(payload: Bytes): Result<nat> {
    var raw :- ValueBytes(payload);
    DecodeUint(raw)
  }

  /** `async_get_alarm_defs` from how its reads ended. `None` stands for a
      cancelled read, which ends the call without a result. */
  function AlarmDefs(index: A.Index, answers: seq<Answer>): Option<Result<seq<A.AlarmDef>>>
    requires 1 in index && 2 in index && 1 <= |answers| <= 2
    requires forall a <- answers :: a.Returned? || a.Failed? || a.Cancelled?
  {
    match answers[0]
    case Failed(error) => Some(Err(error))
    case Returned(first, _) =>
      (match AlarmWord(first)
       case Err(error) => Some(Err(error))
       case Ok(word) =>
         var active := A.DecodeAlarmDefs(index, word, 1).value;
         if |answers| < 2 then None
         else match answers[1]
              case Failed(TimeoutError) => Some(Ok(active))
              case Failed(error) => Some(Err(error))
              case Returned(second, _) =>
                (match AlarmWord(second)
                 case Err(error) => Some(Err(error))
                 case Ok(word2) => Some(Ok(active + A.DecodeAlarmDefs(index, word2, 2).value)))
              case _ => None)
    case _ => None
  }

  /** In any run, the alarms reported are the table's alarms whose bit is set in
      the word of their own bank, bank 1 first; and a word counted for a bank was
      carried by a reply with that bank's flag. A silent bank 2 costs only its
      own alarms. */
  lemma AlarmsComeFromTheirBank(timeout: nat, steps: seq<Step>, t: TaskId, index: A.Index, table: seq<A.AlarmDef>)
    requires A.Unique(table) && A.Indexes(index, table)
    requires Legal(Init(timeout), steps)
    requires var s := Run(Init(timeout), steps);
             && t in s.tasks && s.tasks[t].program == ALARM_PROGRAM && |s.tasks[t].answers| == 2
             && s.tasks[t].answers[0].Returned? && AlarmWord(s.tasks[t].answers[0].payload).Ok?
             && (s.tasks[t].answers[1].Returned? ==> AlarmWord(s.tasks[t].answers[1].payload).Ok?)
             && (s.tasks[t].answers[1].Returned? || s.tasks[t].answers[1] == Failed(TimeoutError))
    ensures var answers := Run(Init(timeout), steps).tasks[t].answers;
            var word1 := AlarmWord(answers[0].payload).value;
            var word2 := if answers[1].Returned? then AlarmWord(answers[1].payload).value else 0;
            && answers[0].payload[2] == ALARMS && answers[0].payload[3] == READ
            && (answers[1].Returned? ==> answers[1].payload[2] == ALARMS && answers[1].payload[3] == ALARM_BANK2_FLAG)
            && AlarmDefs(index, answers).Some? && AlarmDefs(index, answers).value.Ok?
            && var found := AlarmDefs(index, answers).value.value;
               && (forall d :: d in found <==>
                     d in table && ((d.bank == 1 && A.Bit(word1, d.bit)) || (d.bank == 2 && A.Bit(word2, d.bit))))
               && InTableOrder(found)
  {
    var answers := Run(Init(timeout), steps).tasks[t].answers;
    AlarmRepliesBearFlags(timeout, steps, t, 0);
    if answers[1].Returned? {
      AlarmRepliesBearFlags(timeout, steps, t, 1);
    }
    AlarmsOfWords(index, table, answers);
  }

  lemma AlarmRepliesBearFlags(timeout: nat, steps: seq<Step>, t: TaskId, i: nat)
    requires Legal(Init(timeout), steps)
    requires var s := Run(Init(timeout), steps);
             t in s.tasks && s.tasks[t].program == ALARM_PROGRAM && i < |s.tasks[t].answers| <= 2
             && s.tasks[t].answers[i].Returned?
    ensures var payload := Run(Init(timeout), steps).tasks[t].answers[i].payload;
            && IsReply(payload) && payload[2] == ALARMS
            && payload[3] == (if i == 0 then READ else ALARM_BANK2_FLAG)
            && payload in Run(Init(timeout), steps).notes
  {
    RepliesAreMatched(timeout, steps, t, i);
  }

  /** The charger keeps one alarm word a bank, and answers with the word of the
      bank the flag selects. */
  ghost predicate TellsWords(notes: seq<Bytes>, word1: nat, word2: nat)
    requires word1 < WORD_LIMIT && word2 < WORD_LIMIT
  {
    forall p <- notes :: IsReply(p) && p[2] == ALARMS ==>
      && (p[3] == READ ==> p == [0x10, 0xAC, 0x39, 0x00] + Pack(word1))
      && (p[3] == ALARM_BANK2_FLAG ==> p == [0x10, 0xAC, 0x39, 0x10] + Pack(word2))
  }

  /** Beside such a charger, whatever else goes on, the alarms reported are exactly
      the table's alarms set in the two words, each in its own. */
  lemma AlarmsAreTheChargers(timeout: nat, steps: seq<Step>, t: TaskId, index: A.Index, table: seq<A.AlarmDef>,
                             word1: nat, word2: nat)
    requires A.Unique(table) && A.Indexes(index, table) && word1 < WORD_LIMIT && word2 < WORD_LIMIT
    requires Legal(Init(timeout), steps) && TellsWords(Run(Init(timeout), steps).notes, word1, word2)
    requires var s := Run(Init(timeout), steps);
             && t in s.tasks && s.tasks[t].program == ALARM_PROGRAM && |s.tasks[t].answers| == 2
             && s.tasks[t].answers[0].Returned? && s.tasks[t].answers[1].Returned?
    ensures var answers := Run(Init(timeout), steps).tasks[t].answers;
            && AlarmDefs(index, answers).Some? && AlarmDefs(index, answers).value.Ok?
            && var found := AlarmDefs(index, answers).value.value;
               && (forall d :: d in found <==>
                     d in table && ((d.bank == 1 && A.Bit(word1, d.bit)) || (d.bank == 2 && A.Bit(word2, d.bit))))
               && InTableOrder(found)
  {
    var answers := Run(Init(timeout), steps).tasks[t].answers;
    AlarmRepliesBearFlags(timeout, steps, t, 0);
    AlarmRepliesBearFlags(timeout, steps, t, 1);
    WordTold(answers[0].payload, READ, word1);
    WordTold(answers[1].payload, ALARM_BANK2_FLAG, word2);
    AlarmsOfWords(index, table, answers);
  }

  lemma WordTold(payload: Bytes, flag: byte, word: nat)
    requires word < WORD_LIMIT && payload == [0x10, 0xAC, 0x39, flag] + Pack(word)
    ensures AlarmWord(payload) == Ok(word)
  {
    assert payload[VALUE_OFFSET..VALUE_OFFSET + 4] == Pack(word);
    UnpackPack(word);
  }

  /** How the whole read fails: as its first read does, as its second does unless
      that only timed out, and as a protocol error on a reply too short. */
  lemma AlarmReadFails(index: A.Index, answers: seq<Answer>)
    requires 1 in index && 2 in index && |answers| == 2
    requires forall a <- answers :: a.Returned? || a.Failed? || a.Cancelled?
    ensures answers[0].Failed? ==> AlarmDefs(index, answers) == Some(Err(answers[0].error))
    ensures answers[0].Cancelled? ==> AlarmDefs(index, answers) == None
    ensures answers[0].Returned? && |answers[0].payload| < 8 ==> AlarmDefs(index, answers) == Some(Err(ProtocolError))
    ensures answers[0].Returned? && |answers[0].payload| >= 8 ==>
              && (answers[1].Failed? && answers[1].error != TimeoutError ==>
                    AlarmDefs(index, answers) == Some(Err(answers[1].error)))
              && (answers[1].Cancelled? ==> AlarmDefs(index, answers) == None)
              && (answers[1].Returned? && |answers[1].payload| < 8 ==>
                    AlarmDefs(index, answers) == Some(Err(ProtocolError)))
    ensures AlarmDefs(index, answers[..1])
         == if answers[0].Failed? then Some(Err(answers[0].error))
            else if answers[0].Returned? && |answers[0].payload| < 8 then Some(Err(ProtocolError)) else None
  {
    ValueOfReply(if answers[0].Returned? then answers[0].payload else []);
    ValueOfReply(if answers[1].Returned? then answers[1].payload else []);
  }

  /** A charger that never answers the bank 2 read: when that read's deadline
      expires, whatever else lands, the call still reports exactly the alarms of
      bank 1. */
  lemma SilentBank2CostsOnlyItsAlarms(timeout: nat, before: seq<Step>, s: State, after: seq<Step>, s': State,
                                      t: TaskId, index: A.Index, table: seq<A.AlarmDef>)
    requires A.Unique(table) && A.Indexes(index, table)
    requires Legal(Init(timeout), before) && s == Run(Init(timeout), before)
    requires Doomed(s, t, Deadline, 1) && s.tasks[t].program == ALARM_PROGRAM
    requires s.tasks[t].answers[0].Returned? && |s.tasks[t].answers[0].payload| >= 8
    requires Legal(s, after) && s' == Run(s, after) && forall step <- after :: Lands(step, t, Deadline)
    ensures Enabled(s', Resume(t)) && t in Apply(s', Resume(t)).tasks
    ensures var answers := Apply(s', Resume(t)).tasks[t].answers;
            && answers == [s.tasks[t].answers[0], Failed(TimeoutError)]
            && BankOneOnly(index, table, answers)
  {
    ThrownCallUnwinds(s, after, t, Deadline, 1);
    ValueOfReply(s.tasks[t].answers[0].payload);
    BankOneAlone(index, table, [s.tasks[t].answers[0], Failed(TimeoutError)]);
  }

  /** Exactly the alarms of bank 1 that the first reply's word has set, in order. */
  ghost predicate BankOneOnly(index: A.Index, table: seq<A.AlarmDef>, answers: seq<Answer>) {
    && 1 in index && 2 in index && |answers| == 2 && answers[0].Returned? && answers[1].Failed?
    && AlarmWord(answers[0].payload).Ok?
    && AlarmDefs(index, answers).Some? && AlarmDefs(index, answers).value.Ok?
    && var found := AlarmDefs(index, answers).value.value;
       && (forall d :: d in found <==>
             d in table && d.bank == 1 && A.Bit(AlarmWord(answers[0].payload).value, d.bit))
       && InTableOrder(found)
  }

  lemma BankOneAlone(index: A.Index, table: seq<A.AlarmDef>, answers: seq<Answer>)
    requires A.Unique(table) && A.Indexes(index, table) && |answers| == 2
    requires answers[0].Returned? && AlarmWord(answers[0].payload).Ok? && answers[1] == Failed(TimeoutError)
    ensures BankOneOnly(index, table, answers)
  {
    AlarmsOfWords(index, table, answers);
    forall d: A.AlarmDef
      ensures !A.Bit(0, d.bit)
    {
      A.ZeroBits(d.bit);
    }
  }

  ghost predicate InTableOrder(found: seq<A.AlarmDef>) {
    forall i, j | 0 <= i < j < |found| ::
      found[i].bank < found[j].bank || (found[i].bank == found[j].bank && found[i].bit < found[j].bit)
  }

  lemma AlarmsOfWords(index: A.Index, table: seq<A.AlarmDef>, answers: seq<Answer>)
    requires A.Unique(table) && A.Indexes(index, table) && |answers| == 2
    requires answers[0].Returned? && AlarmWord(answers[0].payload).Ok?
    requires answers[1] == Failed(TimeoutError) || (answers[1].Returned? && AlarmWord(answers[1].payload).Ok?)
    ensures var word1 := AlarmWord(answers[0].payload).value;
            var word2 := if answers[1].Returned? then AlarmWord(answers[1].payload).value else 0;
            && AlarmDefs(index, answers).Some? && AlarmDefs(index, answers).value.Ok?
            && var found := AlarmDefs(index, answers).value.value;
               && (forall d :: d in found <==>
                     d in table && ((d.bank == 1 && A.Bit(word1, d.bit)) || (d.bank == 2 && A.Bit(word2, d.bit))))
               && InTableOrder(found)
  {
    var word1 := AlarmWord(answers[0].payload).value;
    var first := A.DecodeAlarmDefs(index, word1, 1).value;
    A.IndexAgreesWithTable(index, table, word1, 1);
    if answers[1].Returned? {
      var word2 := AlarmWord(answers[1].payload).value;
      var second := A.DecodeAlarmDefs(index, word2, 2).value;
      A.IndexAgreesWithTable(index, table, word2, 2);
      assert AlarmDefs(index, answers) == Some(Ok(first + second));
      InBankOrder(first, second);
    } else {
      assert AlarmDefs(index, answers) == Some(Ok(first));
      forall d: A.AlarmDef
        ensures !A.Bit(0, d.bit)
      {
        A.ZeroBits(d.bit);
      }
      InBankOrder(first, []);
      assert first + [] == first;
    }
  }

  lemma InBankOrder(first: seq<A.AlarmDef>, second: seq<A.AlarmDef>)
    requires A.ByBit(first) && A.ByBit(second)
    requires (forall d <- first :: d.bank == 1) && (forall d <- second :: d.bank == 2)
    ensures InTableOrder(first + second)
  {
  }

  // ---- Start and stop ----

  /** In any run, a start or stop command is confirmed exactly when the charger's
      reply is the sent frame, byte for byte. */
  lemma ControlIsConfirmedOnlyByEcho(timeout: nat, steps: seq<Step>, t: TaskId, i: nat, command: Command, password: int)
    requires Legal(Init(timeout), steps) && BuildControl(command, password).Ok?
    requires var s := Run(Init(timeout), steps);
             && t in s.tasks && i < |s.tasks[t].answers| && s.tasks[t].answers[i].Returned?
             && i < |s.tasks[t].program| && s.tasks[t].program[i] == Request(BuildControl(command, password).value)
    ensures var s := Run(Init(timeout), steps);
            var sent := BuildControl(command, password).value;
            CheckControlReply(sent, s.tasks[t].answers[i].payload).Ok? <==> s.tasks[t].answers[i].payload == sent
  {
    RepliesAreMatched(timeout, steps, t, i);
    ControlSucceedsExactlyOnEcho(command, password, Run(Init(timeout), steps).tasks[t].answers[i].payload);
  }
}
