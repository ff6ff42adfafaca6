/** Writing a configuration and reading it back, among other callers and with
    answers that may come late. */
module ClientReadBack {
  import opened Bytes
  import opened Errors
  import opened Frames
  import opened Text
  import opened Client
  import opened ClientInvariant
  import opened ClientDrop
  import opened ClientWire
  import opened Config
  import opened Pieces
  import opened Charger
  import opened ClientConfig

  // ---- The reads ----

  /** The reads `async_get_ocpp_config` makes, in turn. */
  const OCPP_READS: seq<Op> := [
    Request(BuildRead(OCPP_HOST)), Request(BuildRead(OCPP_PORT)),
    Request(BuildRead(OCPP_PATH)), Request(BuildRead(OCPP_CHARGE_POINT_ID))]

  /** Task `u` has made those reads as its calls `j` to `j + 3`. */
  ghost predicate HasRead(s: State, u: TaskId, j: nat) {
    && u in s.tasks && j + 4 <= |s.tasks[u].program| && s.tasks[u].program[j..j + 4] == OCPP_READS
    && j + 4 <= |s.tasks[u].answers| && forall n | j <= n < j + 4 :: s.tasks[u].answers[n].Returned?
  }

  function Payload(s: State, u: TaskId, n: nat): Bytes
    requires u in s.tasks && n < |s.tasks[u].answers| && s.tasks[u].answers[n].Returned?
  {
    s.tasks[u].answers[n].payload
  }

  /** What `async_get_ocpp_config` returns. */
  ghost function Got(s: State, u: TaskId, j: nat): Result<OcppConfig>
    requires Inv(s) && HasRead(s, u, j)
  {
    ReadsAreReplies(s, u, j);
    GetOcppConfig(Payload(s, u, j), Payload(s, u, j + 1), Payload(s, u, j + 2), Payload(s, u, j + 3))
  }

  lemma ReadsAreReplies(s: State, u: TaskId, j: nat)
    requires Inv(s) && HasRead(s, u, j)
    ensures forall n | j <= n < j + 4 ::
              IsSetting(Payload(s, u, n)) && Payload(s, u, n)[2] == OCPP_READS[n - j].frame[2]
  {
    forall n | j <= n < j + 4
      ensures IsSetting(Payload(s, u, n)) && Payload(s, u, n)[2] == OCPP_READS[n - j].frame[2]
    {
      ReadIsReply(s, u, n, OCPP_READS[n - j].frame);
    }
  }

  lemma ReadIsReply(s: State, u: TaskId, n: nat, frame: Frame)
    requires Inv(s) && u in s.tasks && n < |s.tasks[u].answers| && s.tasks[u].answers[n].Returned?
    requires n < |s.tasks[u].program| && s.tasks[u].program[n] == Request(frame)
    requires frame[2] in OCPP_REGISTERS && frame[3] == READ
    ensures IsSetting(Payload(s, u, n)) && Payload(s, u, n)[2] == frame[2]
  {
    assert AnswerOk(s.futures, u, s.tasks[u], n);
    assert FutureOk(s.notes, s.futures[s.tasks[u].answers[n].future]);
  }

  // ---- Answers that say what was written ----

  /** The answer decodes to what configuration `c` has in that register. */
  predicate Says(payload: Bytes, c: OcppConfig)
    requires Acceptable(c)
  {
    && IsSetting(payload)
    && if payload[2] == OCPP_PORT then ValueBytes(payload) == Ok(Pack(c.port))
       else DecodeString(payload[VALUE_OFFSET..]) == DecodeString(Field(c, payload[2]))
  }

  /** Every answer under way does. */
  ghost predicate NothingStale(w: World, c: OcppConfig)
    requires Acceptable(c)
  {
    forall i <- w.air :: Says(w.air[i], c)
  }

  /** So does every one taken by a request made since there were `first` futures. */
  ghost predicate TakenSays(s: State, first: nat, c: OcppConfig)
    requires Acceptable(c)
  {
    forall f | first <= f < |s.futures| ::
      s.futures[f].state.Valued? && IsSetting(s.futures[f].state.payload) ==> Says(s.futures[f].state.payload, c)
  }

  lemma HeldRegisterSays(m: Memory, c: OcppConfig, r: byte)
    requires Acceptable(c) && Holds(m, c) && r in OCPP_REGISTERS
    ensures Says(ReadReply(m, r), c)
  {
    HoldsFields(m, c);
    assert ReadReply(m, r)[VALUE_OFFSET..] == m[r] == Field(c, r);
    if r == OCPP_PORT {
      NumberReadBack(m, r, c.port);
    }
  }

  // ---- Only notifications complete a request ----

  /** Values come from nowhere else. */
  ghost predicate NoNewValues(before: seq<Future>, after: seq<Future>) {
    forall f | 0 <= f < |after| && after[f].state.Valued? :: f < |before| && before[f].state == after[f].state
  }

  lemma StepGivesNoValue(s: State, step: Step)
    requires Enabled(s, step) && !step.Notify?
    ensures NoNewValues(s.futures, Apply(s, step).futures)
  {
    if step.Resume? {
      ResumeGivesNoValue(s, step.task);
    } else if step.Interrupt? {
      InterruptGivesNoValue(s, step.task, step.why);
    } else if step.Acquire? {
      LaunchGivesNoValue(s, Enter(s, step.task));
    } else if step.Drop? {
      DropGivesNoValue(s);
    } else {
      QuietStepSettles(s, step);
    }
  }

  lemma LaunchGivesNoValue(s: State, s': State)
    requires |s'.futures| == |s.futures| + 1 && s.futures <= s'.futures && s'.futures[|s.futures|].state.Pending?
    ensures NoNewValues(s.futures, s'.futures)
  {
  }

  lemma InterruptGivesNoValue(s: State, t: TaskId, why: Why)
    requires IsActive(s, t)
    ensures NoNewValues(s.futures, Interrupted(s, t, why).futures)
  {
  }

  lemma DropGivesNoValue(s: State)
    ensures NoNewValues(s.futures, Disconnected(s).futures)
  {
  }

  lemma ResumeGivesNoValue(s: State, t: TaskId)
    requires Resumable(s, t)
    ensures NoNewValues(s.futures, Resumed(s, t).futures)
  {
    var p := s.tasks[t].phase;
    if !p.interruption.Thrown? {
      assert TakeReply(s, t).futures == s.futures;
      assert WaitForRecords(s, t).futures == s.futures;
      DeliveryGivesNoValue(s, t);
    }
  }

  lemma DeliveryGivesNoValue(s: State, t: TaskId)
    requires IsActive(s, t)
    ensures NoNewValues(s.futures, AfterDelivery(s, t).futures)
  {
    match s.tasks[t].Current()
    case Request(_) => assert TakeReply(s, t).futures == s.futures;
    case Write(_) =>
    case History(_) => assert WaitForRecords(StartCollecting(s, t), t).futures == s.futures;
  }

  // ---- From the completed write on ----

  lemma NoValueKeepsTaken(s: State, s': State, first: nat, c: OcppConfig)
    requires Acceptable(c) && TakenSays(s, first, c) && NoNewValues(s.futures, s'.futures)
    ensures TakenSays(s', first, c)
  {
  }

  lemma NotifyKeepsTaken(s: State, payload: Bytes, first: nat, c: OcppConfig)
    requires Acceptable(c) && TakenSays(s, first, c) && Inv(s)
    requires IsSetting(payload) ==> Says(payload, c)
    ensures TakenSays(Notified(s, payload), first, c)
  {
    NotificationReachesOnlyItsWaiter(s, payload);
  }

  lemma NextKeepsSaying(w: World, e: Event, first: nat, c: OcppConfig)
    requires Acceptable(c) && Holds(w.memory, c) && WorldOk(w) && Possible(w, e)
    requires NothingStale(w, c) && TakenSays(w.client, first, c)
    ensures NothingStale(Next(w, e), c) && TakenSays(Next(w, e).client, first, c)
  {
    match e
    case Does(step) => DoesKeepsSaying(w, step, first, c);
    case Hears(i) => HearsKeepsSaying(w, i, first, c);
    case Takes(i) => TakesKeepsSaying(w, i, first, c);
  }

  lemma DoesKeepsSaying(w: World, step: Step, first: nat, c: OcppConfig)
    requires Acceptable(c) && WorldOk(w) && Possible(w, Does(step))
    requires NothingStale(w, c) && TakenSays(w.client, first, c)
    ensures NothingStale(Next(w, Does(step)), c) && TakenSays(Next(w, Does(step)).client, first, c)
  {
    assert Next(w, Does(step)).air == w.air;
    if step.Notify? {
      NotifyKeepsTaken(w.client, step.payload, first, c);
    } else {
      StepGivesNoValue(w.client, step);
      NoValueKeepsTaken(w.client, Apply(w.client, step), first, c);
    }
  }

  lemma HearsKeepsSaying(w: World, i: nat, first: nat, c: OcppConfig)
    requires Acceptable(c) && WorldOk(w) && Possible(w, Hears(i))
    requires NothingStale(w, c) && TakenSays(w.client, first, c)
    ensures NothingStale(Next(w, Hears(i)), c) && TakenSays(Next(w, Hears(i)).client, first, c)
  {
    NotifyKeepsTaken(w.client, w.air[i], first, c);
    HearsOne(w, i);
    FewerAnswers(w, Next(w, Hears(i)), c);
  }

  lemma HearsOne(w: World, i: nat)
    requires Possible(w, Hears(i))
    ensures Next(w, Hears(i)).client == Notified(w.client, w.air[i]) && Next(w, Hears(i)).air == w.air - {i}
  {
  }

  lemma FewerAnswers(w: World, w': World, c: OcppConfig)
    requires Acceptable(c) && NothingStale(w, c) && forall i <- w'.air :: i in w.air && w'.air[i] == w.air[i]
    ensures NothingStale(w', c)
  {
  }

  lemma TakesKeepsSaying(w: World, i: nat, first: nat, c: OcppConfig)
    requires Acceptable(c) && Holds(w.memory, c) && Possible(w, Takes(i))
    requires NothingStale(w, c) && TakenSays(w.client, first, c)
    ensures NothingStale(Next(w, Takes(i)), c) && TakenSays(Next(w, Takes(i)).client, first, c)
  {
    var r := w.client.wire[i].frame[2];
    var w' := Next(w, Takes(i));
    TakesOne(w, i);
    if w'.air != w.air {
      HeldRegisterSays(w.memory, c, r);
      OneAnswerMore(w, w', i, ReadReply(w.memory, r), c);
    } else {
      FewerAnswers(w, w', c);
    }
  }

  lemma OneAnswerMore(w: World, w': World, i: nat, payload: Bytes, c: OcppConfig)
    requires Acceptable(c) && NothingStale(w, c) && w'.air == w.air[i := payload] && Says(payload, c)
    ensures NothingStale(w', c)
  {
  }

  /** Written and still held. */
  ghost predicate Standing(w: World, b: nat, t: TaskId, k: nat, c: OcppConfig) {
    && OcppFrames(c).Ok? && WorldOk(w) && Unopposed(w, OcppFrames(c).value)
    && Written(w, b, t, k, OcppFrames(c).value)
  }

  lemma NextStaysStanding(w: World, e: Event, b: nat, t: TaskId, k: nat, c: OcppConfig)
    requires Standing(w, b, t, k, c) && Possible(w, e)
    requires Unrivalled(Next(w, e).client.wire, b, OcppFrames(c).value)
    ensures Standing(Next(w, e), b, t, k, c)
  {
    BatchOf(c);
    NextStaysUnderway(w, e, b, t, k, OcppFrames(c).value);
    One(w, e);
    GoKeepsAnswers(w, [e], t, k);
    AnsweredIsNotWriting(Next(w, e), b, t, k, OcppFrames(c).value);
  }

  lemma AnsweredIsNotWriting(w: World, b: nat, t: TaskId, k: nat, frames: seq<Frame>)
    requires Answered(w.client, t, k)
    ensures !Writing(w, b, t, k, frames)
  {
  }

  lemma StandingHolds(w: World, b: nat, t: TaskId, k: nat, c: OcppConfig)
    requires Standing(w, b, t, k, c)
    ensures Acceptable(c) && Holds(w.memory, c)
  {
    BatchOf(c);
    HoldsExactlyKept(w.memory, c);
  }

  lemma {:induction false} GoKeepsSaying(w: World, events: seq<Event>, b: nat, t: TaskId, k: nat, c: OcppConfig,
                                         first: nat)
    requires Standing(w, b, t, k, c) && Can(w, events) && Acceptable(c)
    requires Unrivalled(Go(w, events).client.wire, b, OcppFrames(c).value)
    requires NothingStale(w, c) && TakenSays(w.client, first, c)
    ensures Standing(Go(w, events), b, t, k, c) && TakenSays(Go(w, events).client, first, c)
    decreases |events|
  {
    if events != [] {
      var w1 := Next(w, events[0]);
      GoGrowsWire(w1, events[1..]);
      StandingHolds(w, b, t, k, c);
      NextKeepsSaying(w, events[0], first, c);
      NextStaysStanding(w, events[0], b, t, k, c);
      GoKeepsSaying(w1, events[1..], b, t, k, c, first);
    }
  }

  // ---- The round trip ----

  /** Task `u` has not begun its call `j`: none of its requests so far is that
      call or a later one. */
  ghost predicate NotYet(s: State, u: TaskId, j: nat) {
    forall f | 0 <= f < |s.futures| && s.futures[f].task == u :: s.futures[f].op < j
  }

  lemma ReadSays(s1: State, s: State, u: TaskId, j: nat, n: nat, frame: Frame, c: OcppConfig)
    requires Acceptable(c) && Inv(s) && NotYet(s1, u, j) && Settles(s1.futures, s.futures)
    requires TakenSays(s, |s1.futures|, c) && j <= n
    requires u in s.tasks && n < |s.tasks[u].answers| && s.tasks[u].answers[n].Returned?
    requires n < |s.tasks[u].program| && s.tasks[u].program[n] == Request(frame)
    requires frame[2] in OCPP_REGISTERS && frame[3] == READ
    ensures Says(Payload(s, u, n), c) && Payload(s, u, n)[2] == frame[2]
  {
    ReadIsReply(s, u, n, frame);
    assert AnswerOk(s.futures, u, s.tasks[u], n);
    var f := s.tasks[u].answers[n].future;
    LaterFuture(s1, s, u, j, n, f);
  }

  lemma LaterFuture(s1: State, s: State, u: TaskId, j: nat, n: nat, f: FutureId)
    requires NotYet(s1, u, j) && Settles(s1.futures, s.futures) && f < |s.futures|
    requires s.futures[f].task == u && s.futures[f].op == n && j <= n
    ensures |s1.futures| <= f
  {
  }

  /** What such answers amount to. */
  lemma SayingIsReadingBack(c: OcppConfig, host: Bytes, port: Bytes, path: Bytes, id: Bytes)
    requires Acceptable(c) && Says(host, c) && Says(port, c) && Says(path, c) && Says(id, c)
    requires host[2] == OCPP_HOST && port[2] == OCPP_PORT && path[2] == OCPP_PATH && id[2] == OCPP_CHARGE_POINT_ID
    ensures GetOcppConfig(host, port, path, id) == Ok(c)
       <==> Survives(c.host) && Survives(c.path) && Survives(c.chargePointId)
  {
    HostSays(c, host);
    PathSays(c, path);
    IdSays(c, id);
    PortSays(c, port);
  }

  lemma FieldsAre(c: OcppConfig)
    requires Acceptable(c)
    ensures Field(c, OCPP_HOST) == Encode(c.host) + Zeros(OCPP_TEXT_FIELD_BYTES - |c.host|)
    ensures Field(c, OCPP_PATH) == Encode(c.path) + Zeros(OCPP_TEXT_FIELD_BYTES - |c.path|)
    ensures Field(c, OCPP_CHARGE_POINT_ID) == Encode(c.chargePointId) + Zeros(OCPP_ID_FIELD_BYTES - |c.chargePointId|)
  {
  }

  lemma TextSays(c: OcppConfig, value: string, zeros: nat, payload: Bytes, field: Bytes)
    requires Acceptable(c) && Says(payload, c) && payload[2] != OCPP_PORT && Field(c, payload[2]) == field
    requires IsAscii(value) && field == Encode(value) + Zeros(zeros)
    ensures DecodeString(payload[VALUE_OFFSET..]) == value <==> Survives(value)
  {
    FieldRoundTrip(value, zeros);
  }

  lemma HostSays(c: OcppConfig, host: Bytes)
    requires Acceptable(c) && Says(host, c) && host[2] == OCPP_HOST
    ensures DecodeString(host[VALUE_OFFSET..]) == c.host <==> Survives(c.host)
  {
    FieldsAre(c);
    TextSays(c, c.host, OCPP_TEXT_FIELD_BYTES - |c.host|, host, Field(c, OCPP_HOST));
  }

  lemma PathSays(c: OcppConfig, path: Bytes)
    requires Acceptable(c) && Says(path, c) && path[2] == OCPP_PATH
    ensures DecodeString(path[VALUE_OFFSET..]) == c.path <==> Survives(c.path)
  {
    FieldsAre(c);
    TextSays(c, c.path, OCPP_TEXT_FIELD_BYTES - |c.path|, path, Field(c, OCPP_PATH));
  }

  lemma IdSays(c: OcppConfig, id: Bytes)
    requires Acceptable(c) && Says(id, c) && id[2] == OCPP_CHARGE_POINT_ID
    ensures DecodeString(id[VALUE_OFFSET..]) == c.chargePointId <==> Survives(c.chargePointId)
  {
    FieldsAre(c);
    TextSays(c, c.chargePointId, OCPP_ID_FIELD_BYTES - |c.chargePointId|, id, Field(c, OCPP_CHARGE_POINT_ID));
  }

  lemma PortSays(c: OcppConfig, port: Bytes)
    requires Acceptable(c) && Says(port, c) && port[2] == OCPP_PORT
    ensures ValueBytes(port) == Ok(Pack(c.port)) && DecodeUint(Pack(c.port)) == Ok(c.port)
  {
    UnpackPack(c.port);
  }

  /** The round trip, among any other callers. Suppose no abandoned frame that
      disagrees is outstanding when the write takes the lock, no other caller hands
      over one that does, and no answer under way when the reads begin, such as
      one to an earlier read that timed out, says something else. Then reading
      gives the configuration back if and only if no text of it has a NUL or
      outer whitespace. */
  lemma SetThenGet(w: World, t: TaskId, k: nat, c: OcppConfig, writing: seq<Event>,
                   u: TaskId, j: nat, reading: seq<Event>)
    requires WorldOk(w) && Starting(w.client, t, k, c) && Unopposed(w, OcppFrames(c).value) && Acceptable(c)
    requires Can(w, writing) && Completes(w, Go(w, writing), t, k, OcppFrames(c).value)
    requires NothingStale(Go(w, writing), c) && NotYet(Go(w, writing).client, u, j)
    requires Can(Go(w, writing), reading)
    requires Unrivalled(Go(Go(w, writing), reading).client.wire, |w.client.wire|, OcppFrames(c).value)
    requires HasRead(Go(Go(w, writing), reading).client, u, j)
    ensures Inv(Go(Go(w, writing), reading).client)
    ensures Got(Go(Go(w, writing), reading).client, u, j) == Ok(c)
       <==> Survives(c.host) && Survives(c.path) && Survives(c.chargePointId)
  {
    var frames, b := OcppFrames(c).value, |w.client.wire|;
    var w1 := Go(w, writing);
    WriteStands(w, t, k, c, writing);
    GoKeepsSaying(w1, reading, b, t, k, c, |w1.client.futures|);
    WorldRunsTheClient(w1, reading);
    OutcomesAreFinal(w1.client, StepsOf(w1, reading));
    ReadsGiveBack(w1.client, Go(w1, reading).client, u, j, c);
  }

  lemma WriteStands(w: World, t: TaskId, k: nat, c: OcppConfig, writing: seq<Event>)
    requires WorldOk(w) && Starting(w.client, t, k, c) && Unopposed(w, OcppFrames(c).value)
    requires Can(w, writing) && Completes(w, Go(w, writing), t, k, OcppFrames(c).value)
    ensures Standing(Go(w, writing), |w.client.wire|, t, k, c)
  {
    BatchOf(c);
    assert |w.client.wire| !in w.taken;
    assert Writing(w, |w.client.wire|, t, k, OcppFrames(c).value);
    GoStaysUnderway(w, writing, |w.client.wire|, t, k, OcppFrames(c).value);
    AnsweredIsNotWriting(Go(w, writing), |w.client.wire|, t, k, OcppFrames(c).value);
  }

  lemma ReadsGiveBack(s1: State, s: State, u: TaskId, j: nat, c: OcppConfig)
    requires Acceptable(c) && Inv(s) && NotYet(s1, u, j) && Settles(s1.futures, s.futures)
    requires TakenSays(s, |s1.futures|, c) && HasRead(s, u, j)
    ensures Got(s, u, j) == Ok(c) <==> Survives(c.host) && Survives(c.path) && Survives(c.chargePointId)
  {
    var program := s.tasks[u].program;
    assert program[j] == program[j..j + 4][0] && program[j + 1] == program[j..j + 4][1];
    assert program[j + 2] == program[j..j + 4][2] && program[j + 3] == program[j..j + 4][3];
    ReadSays(s1, s, u, j, j, BuildRead(OCPP_HOST), c);
    ReadSays(s1, s, u, j, j + 1, BuildRead(OCPP_PORT), c);
    ReadSays(s1, s, u, j, j + 2, BuildRead(OCPP_PATH), c);
    ReadSays(s1, s, u, j, j + 3, BuildRead(OCPP_CHARGE_POINT_ID), c);
    ReadsAreReplies(s, u, j);
    SayingIsReadingBack(c, Payload(s, u, j), Payload(s, u, j + 1), Payload(s, u, j + 2), Payload(s, u, j + 3));
  }

  // ---- The commit ----

  /** A later call's frame on the wire means that the write before it completed. */
  lemma LaterFrameMeansCompleted(s: State, e: Sent, k: nat)
    requires Inv(s) && WireInv(s) && e in s.wire && k < e.op
    requires e.task in s.tasks && k < |s.tasks[e.task].program| && s.tasks[e.task].program[k].Write?
    ensures Answered(s, e.task, k) && s.tasks[e.task].answers[k] == Completed
  {
    var i :| 0 <= i < |s.wire| && s.wire[i] == e;
    assert EntryOk(s.tasks, s.wire[i]);
    assert TaskOk(s.tasks[e.task]);
    assert AnswerOk(s.futures, e.task, s.tasks[e.task], k);
    assert s.tasks[e.task].answers[k].Success();
  }

  /** When the charger gets the commit of a configuration, it holds exactly that
      configuration, unless some frame that disagrees was outstanding when the
      write took the lock or has been handed over since. */
  lemma CommitFindsConfigHeld(w: World, t: TaskId, k: nat, c: OcppConfig, after: seq<Event>, i: nat)
    requires WorldOk(w) && Starting(w.client, t, k, c) && Unopposed(w, OcppFrames(c).value)
    requires k + 2 <= |w.client.tasks[t].program|
    requires w.client.tasks[t].program[k..k + 2] == SetOcppConfig(c, true).value
    requires Can(w, after) && Possible(Go(w, after), Takes(i))
    requires Go(w, after).client.wire[i].task == t && Go(w, after).client.wire[i].op == k + 1
    requires Unrivalled(Go(w, after).client.wire, |w.client.wire|, OcppFrames(c).value)
    ensures Go(w, after).client.wire[i].frame == BuildCommit()
    ensures Acceptable(c) && Holds(Go(w, after).memory, c)
  {
    GoKeepsWorld(w, after);
    GoKeepsProgram(w, after, t);
    CommitEntry(Go(w, after).client, t, k, c, i);
    CompletedConfigIsHeld(w, t, k, c, after);
  }

  lemma GoKeepsProgram(w: World, events: seq<Event>, t: TaskId)
    requires Can(w, events) && t in w.client.tasks
    ensures t in Go(w, events).client.tasks && Go(w, events).client.tasks[t].program == w.client.tasks[t].program
  {
    WorldRunsTheClient(w, events);
    AnswersAreKept(w.client, StepsOf(w, events), t);
  }

  lemma CommitEntry(s: State, t: TaskId, k: nat, c: OcppConfig, i: nat)
    requires Inv(s) && WireInv(s) && i < |s.wire| && s.wire[i].task == t && s.wire[i].op == k + 1
    requires OcppFrames(c).Ok? && t in s.tasks && k + 2 <= |s.tasks[t].program|
    requires s.tasks[t].program[k..k + 2] == SetOcppConfig(c, true).value
    ensures s.wire[i].frame == BuildCommit()
    ensures Answered(s, t, k) && s.tasks[t].answers[k] == Completed
  {
    var program := s.tasks[t].program;
    assert program[k] == program[k..k + 2][0] && program[k + 1] == program[k..k + 2][1];
    assert EntryOk(s.tasks, s.wire[i]);
    LaterFrameMeansCompleted(s, s.wire[i], k);
  }
}
