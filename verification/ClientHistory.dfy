/** History reads: which records one returns, and when collecting stops. */
module ClientHistory {
  import opened Bytes
  import opened Errors
  import opened Frames
  import opened Client
  import opened ClientInvariant
  import opened ClientSends
  import opened Sessions

  // ---- Which records a read returns ----

  /** The history records among `notes`, in order. */
  function RecordsIn(notes: seq<Bytes>): seq<Bytes> {
    if notes == [] then []
    else
      var last := notes[|notes| - 1];
      RecordsIn(notes[..|notes| - 1]) + if IsHistoryRecord(last) then [last] else []
  }

  /** While a history read holds the lock the buffer is exactly what arrived
      since that read cleared it. */
  ghost predicate BulkOk(s: State) {
    s.owner.Some? && IsActive(s, s.owner.value) && s.tasks[s.owner.value].Current().History? ==>
      && FutureOf(s, s.owner.value).birth <= |s.notes|
      && s.bulk == RecordsIn(s.notes[FutureOf(s, s.owner.value).birth..])
  }

  /** A collection is every record notified between the clearing of the buffer
      by its own call and its stop. */
  ghost predicate CollectionOk(futures: seq<Future>, notes: seq<Bytes>, t: TaskId, i: nat, answer: Answer) {
    answer.Collected? ==>
      && answer.future < |futures|
      && futures[answer.future].task == t && futures[answer.future].op == i
      && futures[answer.future].birth <= answer.upto <= |notes|
      && answer.records == RecordsIn(notes[futures[answer.future].birth..answer.upto])
  }

  ghost predicate CollectionsOk(futures: seq<Future>, notes: seq<Bytes>, tasks: map<TaskId, Task>) {
    forall t, i | t in tasks && 0 <= i < |tasks[t].answers| ::
      CollectionOk(futures, notes, t, i, tasks[t].answers[i])
  }

  ghost predicate HistoryInv(s: State) {
    BulkOk(s) && CollectionsOk(s.futures, s.notes, s.tasks)
  }

  /** How far a step may go without touching what collections rest on. */
  ghost predicate Extends(s: State, s': State) {
    && s.notes <= s'.notes && |s.futures| <= |s'.futures|
    && (forall f | 0 <= f < |s.futures| :: s'.futures[f] == s.futures[f].(state := s'.futures[f].state))
    && s.tasks.Keys <= s'.tasks.Keys
  }

  lemma CollectionsStay(s: State, s': State, t: TaskId)
    requires Extends(s, s') && CollectionsOk(s.futures, s.notes, s.tasks) && t in s'.tasks
    requires s'.tasks == s.tasks[t := s'.tasks[t]]
    requires if t in s.tasks then s.tasks[t].answers <= s'.tasks[t].answers else s'.tasks[t].answers == []
    requires forall i | 0 <= i < |s'.tasks[t].answers| && (t in s.tasks ==> |s.tasks[t].answers| <= i) ::
               CollectionOk(s'.futures, s'.notes, t, i, s'.tasks[t].answers[i])
    ensures CollectionsOk(s'.futures, s'.notes, s'.tasks)
  {
    forall u, i | u in s'.tasks && 0 <= i < |s'.tasks[u].answers|
      ensures CollectionOk(s'.futures, s'.notes, u, i, s'.tasks[u].answers[i])
    {
      if u in s.tasks && i < |s.tasks[u].answers| {
        var answer := s.tasks[u].answers[i];
        assert CollectionOk(s.futures, s.notes, u, i, answer) && s'.tasks[u].answers[i] == answer;
        if answer.Collected? {
          var from := s.futures[answer.future].birth;
          assert s'.notes[from..answer.upto] == s.notes[from..answer.upto];
        }
      }
    }
  }

  lemma LeaveKeepsHistory(s: State, t: TaskId, answer: Answer)
    requires Inv(s) && HistoryInv(s) && s.owner == Some(t) && IsActive(s, t)
    requires answer.Collected? ==> s.tasks[t].Current().History? && answer == Collection(s, t)
    ensures HistoryInv(Leave(s, t, answer))
  {
    var s' := Leave(s, t, answer);
    assert HeldTables(s, t);
    if answer.Collected? {
      assert s.notes[FutureOf(s, t).birth..|s.notes|] == s.notes[FutureOf(s, t).birth..];
    }
    CollectionsStay(s, s', t);
  }

  /** The owner goes on inside its call, which is not a fresh history read. */
  lemma StayKeepsHistory(s: State, s': State, t: TaskId)
    requires HistoryInv(s) && s.owner == s'.owner == Some(t) && IsActive(s, t) && IsActive(s', t)
    requires Extends(s, s') && s'.notes == s.notes && s'.bulk == s.bulk
    requires s'.tasks == s.tasks[t := s.tasks[t].(phase := s'.tasks[t].phase)]
    requires s.tasks[t].Current().History? ==> s'.tasks[t].phase.future == s.tasks[t].phase.future
    ensures HistoryInv(s')
  {
    CollectionsStay(s, s', t);
  }

  lemma EnterKeepsHistory(s: State, t: TaskId)
    requires Inv(s) && HistoryInv(s) && Enabled(s, Acquire(t))
    ensures HistoryInv(Enter(s, t))
  {
    CollectionsStay(s, Enter(s, t), t);
    assert s.notes[|s.notes|..] == [];
  }

  lemma TakeReplyKeepsHistory(s: State, t: TaskId)
    requires Inv(s) && HistoryInv(s) && s.owner == Some(t) && IsActive(s, t)
    ensures HistoryInv(TakeReply(s, t))
  {
    match FutureOf(s, t).state
    case Pending => StayKeepsHistory(s, TakeReply(s, t), t);
    case Valued(payload, _) => LeaveKeepsHistory(s, t, Returned(payload, s.tasks[t].phase.future));
    case Broken(error) => LeaveKeepsHistory(s, t, Failed(error));
    case Voided => LeaveKeepsHistory(s, t, Cancelled);
  }

  lemma TurnKeepsHistory(s: State, t: TaskId)
    requires Inv(s) && HistoryInv(s) && s.owner == Some(t) && IsActive(s, t)
    requires s.tasks[t].Current().History? && s.tasks[t].phase.stage.Collecting?
    ensures HistoryInv(WaitForRecords(s, t))
  {
    var cleared := s.(bulkEvent := false);
    if s.tasks[t].phase.deadline <= s.now {
      RephaseInv(s, cleared, t, s.tasks[t].phase);
      LeaveKeepsHistory(cleared, t, Collection(s, t));
    } else {
      StayKeepsHistory(s, WaitForRecords(s, t), t);
    }
  }

  lemma DeliveryKeepsHistory(s: State, t: TaskId)
    requires Inv(s) && HistoryInv(s) && s.owner == Some(t) && IsActive(s, t)
    requires s.tasks[t].phase.stage.Delivering? || s.tasks[t].phase.stage.AwaitingSend?
    requires s.tasks[t].phase.send.Done? && s.tasks[t].phase.send.outcome.Delivered?
    ensures HistoryInv(AfterDelivery(s, t))
  {
    assert HeldTables(s, t);
    match s.tasks[t].Current()
    case Request(_) => TakeReplyKeepsHistory(s, t);
    case Write(frames) =>
      if s.tasks[t].phase.index + 1 < |frames| {
        StayKeepsHistory(s, AfterDelivery(s, t), t);
      } else {
        LeaveKeepsHistory(s, t, Completed);
      }
    case History(_) =>
      StartCollectingInv(s, t);
      StayKeepsHistory(s, StartCollecting(s, t), t);
      TurnKeepsHistory(StartCollecting(s, t), t);
  }

  lemma ResumedKeepsHistory(s: State, t: TaskId)
    requires Inv(s) && HistoryInv(s) && Resumable(s, t)
    ensures HistoryInv(Resumed(s, t))
  {
    assert HeldTables(s, t);
    var p := s.tasks[t].phase;
    if p.interruption.Thrown? {
      LeaveKeepsHistory(s, t, Unwound(p.interruption.why));
    } else if p.stage.Collecting? {
      TurnKeepsHistory(s, t);
    } else if p.stage.AwaitingReply? {
      TakeReplyKeepsHistory(s, t);
    } else if p.send.Done? && p.send.outcome.Delivered? {
      DeliveryKeepsHistory(s, t);
    } else if p.send.Done? {
      LeaveKeepsHistory(s, t, Mapped(p.send.outcome.failure, p.interruption));
    } else if FutureOf(s, t).state.Broken? {
      LeaveKeepsHistory(s, t, Failed(FutureOf(s, t).state.error));
    } else {
      StayKeepsHistory(s, Resumed(s, t), t);
    }
  }

  lemma WindowStays(notes: seq<Bytes>, payload: Bytes, from: nat, upto: nat)
    requires from <= upto <= |notes|
    ensures (notes + [payload])[from..upto] == notes[from..upto]
  {
  }

  lemma NotedCollections(s: State, s': State, payload: Bytes)
    requires Extends(s, s') && CollectionsOk(s.futures, s.notes, s.tasks)
    requires s'.tasks == s.tasks && s'.notes == s.notes + [payload]
    ensures CollectionsOk(s'.futures, s'.notes, s'.tasks)
  {
    forall u, i | u in s'.tasks && 0 <= i < |s'.tasks[u].answers|
      ensures CollectionOk(s'.futures, s'.notes, u, i, s'.tasks[u].answers[i])
    {
      var answer := s.tasks[u].answers[i];
      assert CollectionOk(s.futures, s.notes, u, i, answer);
      if answer.Collected? {
        WindowStays(s.notes, payload, s.futures[answer.future].birth, answer.upto);
      }
    }
  }

  lemma RecordsGrow(notes: seq<Bytes>, payload: Bytes, from: nat)
    requires from <= |notes|
    ensures RecordsIn((notes + [payload])[from..])
         == RecordsIn(notes[from..]) + if IsHistoryRecord(payload) then [payload] else []
  {
    assert (notes + [payload])[from..] == notes[from..] + [payload];
    assert (notes[from..] + [payload])[..|notes| - from] == notes[from..];
  }

  lemma NotifiedKeepsHistory(s: State, payload: Bytes)
    requires Inv(s) && HistoryInv(s)
    ensures HistoryInv(Notified(s, payload))
  {
    var s' := Notified(s, payload);
    NotificationReachesOnlyItsWaiter(s, payload);
    assert s'.notes == s.notes + [payload];
    NotedCollections(s, s', payload);
    if s.owner.Some? && s.tasks[s.owner.value].Current().History? {
      assert HeldTables(s, s.owner.value);
      RecordsGrow(s.notes, payload, FutureOf(s, s.owner.value).birth);
    }
  }

  lemma DropKeepsHistory(s: State)
    requires Inv(s) && HistoryInv(s)
    ensures HistoryInv(Disconnected(s))
  {
    var s' := Disconnected(s);
    forall u, i | u in s'.tasks && 0 <= i < |s'.tasks[u].answers|
      ensures CollectionOk(s'.futures, s'.notes, u, i, s'.tasks[u].answers[i])
    {
      assert CollectionOk(s.futures, s.notes, u, i, s.tasks[u].answers[i]);
    }
  }

  lemma InterruptKeepsHistory(s: State, t: TaskId, why: Why)
    requires Inv(s) && HistoryInv(s) && IsActive(s, t)
    ensures HistoryInv(Interrupted(s, t, why))
  {
    InterruptMarks(s, t, why);
    StayKeepsHistory(s, Interrupted(s, t, why), t);
  }

  lemma BystanderKeepsHistory(s: State, step: Step)
    requires Inv(s) && HistoryInv(s) && Enabled(s, step)
    requires step.Spawn? || step.Begin? || step.CancelQueued?
    ensures HistoryInv(Apply(s, step))
  {
    CollectionsStay(s, Apply(s, step), step.task);
  }

  lemma StepKeepsHistory(s: State, step: Step)
    requires Inv(s) && HistoryInv(s) && Enabled(s, step)
    ensures HistoryInv(Apply(s, step))
  {
    if step.Resume? {
      ResumedKeepsHistory(s, step.task);
    } else if step.Acquire? {
      EnterKeepsHistory(s, step.task);
    } else if step.IdleOut? {
      assert HeldTables(s, step.task);
      LeaveKeepsHistory(s, step.task, Collection(s, step.task));
    } else if step.Interrupt? {
      InterruptKeepsHistory(s, step.task, step.why);
    } else {
      EventKeepsHistory(s, step);
    }
  }

  lemma SendMovesOnlySend(s: State, step: Step)
    requires Enabled(s, step) && (step.BeginSend? || step.EndSend?)
    ensures var s' := Apply(s, step);
            && s'.futures == s.futures && s'.notes == s.notes && s'.bulk == s.bulk && s'.owner == s.owner
            && step.task in s'.tasks && IsActive(s', step.task)
            && s'.tasks == s.tasks[step.task := s.tasks[step.task].(phase := s'.tasks[step.task].phase)]
            && s'.tasks[step.task].phase.future == s.tasks[step.task].phase.future
  {
    if step.BeginSend? {
      assert SendBegun(s, step.task).futures == s.futures;
    } else {
      assert SendEnded(s, step.task, step.outcome).futures == s.futures;
    }
  }

  lemma SendKeepsHistory(s: State, step: Step)
    requires Inv(s) && HistoryInv(s) && Enabled(s, step) && (step.BeginSend? || step.EndSend?)
    ensures HistoryInv(Apply(s, step))
  {
    var s' := Apply(s, step);
    SendMovesOnlySend(s, step);
    StayKeepsHistory(s, s', step.task);
  }

  lemma EventKeepsHistory(s: State, step: Step)
    requires Inv(s) && HistoryInv(s) && Enabled(s, step)
    requires !step.Resume? && !step.Acquire? && !step.IdleOut? && !step.Interrupt?
    ensures HistoryInv(Apply(s, step))
  {
    if step.Notify? {
      NotifiedKeepsHistory(s, step.payload);
    } else if step.Drop? {
      DropKeepsHistory(s);
    } else if step.BeginSend? || step.EndSend? {
      SendKeepsHistory(s, step);
    } else if step.Spawn? || step.Begin? || step.CancelQueued? {
      BystanderKeepsHistory(s, step);
    }
  }

  lemma {:induction false} RunKeepsHistory(s: State, steps: seq<Step>)
    requires Inv(s) && HistoryInv(s) && Legal(s, steps)
    ensures Inv(Run(s, steps)) && HistoryInv(Run(s, steps))
    decreases |steps|
  {
    if steps != [] {
      StepInv(s, steps[0]);
      StepKeepsHistory(s, steps[0]);
      RunKeepsHistory(Apply(s, steps[0]), steps[1..]);
    }
  }

  /** In any run, a history read returns exactly the records notified between
      the moment it cleared the buffer and the moment it stopped: nothing
      earlier leaks in and nothing that arrived meanwhile is lost. Its sessions
      are those records' sessions, each once, in order of first appearance. */
  lemma HistoryIsExact(timeout: nat, steps: seq<Step>, t: TaskId, i: nat)
    requires Legal(Init(timeout), steps)
    requires var s := Run(Init(timeout), steps);
             t in s.tasks && i < |s.tasks[t].answers| && s.tasks[t].answers[i].Collected?
    ensures var s := Run(Init(timeout), steps);
            var answer := s.tasks[t].answers[i];
            && answer.future < |s.futures|
            && s.futures[answer.future].task == t && s.futures[answer.future].op == i
            && var from := s.futures[answer.future].birth;
               && from <= answer.upto <= |s.notes|
               && answer.records == RecordsIn(s.notes[from..answer.upto])
               && (forall x :: x in FirstOccurrences(Decodable(answer.records))
                     <==> Carries(s.notes, from, answer.upto, x))
  {
    InitInv(timeout);
    RunKeepsHistory(Init(timeout), steps);
    var s := Run(Init(timeout), steps);
    var answer := s.tasks[t].answers[i];
    assert CollectionOk(s.futures, s.notes, t, i, answer);
    var from := s.futures[answer.future].birth;
    forall x
      ensures x in FirstOccurrences(Decodable(answer.records))
         <==> Carries(s.notes, from, answer.upto, x)
    {
      FirstOccurrencesKeeps(Decodable(answer.records), x);
      WindowSessions(s.notes, from, answer.upto, x);
    }
  }

  /** `x` is the session of a record in the window. */
  ghost predicate Carries(notes: seq<Bytes>, from: nat, upto: nat, x: Session)
    requires upto <= |notes|
  {
    exists k :: from <= k < upto && DecodeSession(notes[k]) == Some(x)
  }

  lemma {:induction false} WindowSessions(notes: seq<Bytes>, from: nat, upto: nat, x: Session)
    requires from <= upto <= |notes|
    ensures x in Decodable(RecordsIn(notes[from..upto])) <==> Carries(notes, from, upto, x)
    decreases upto
  {
    if from < upto {
      WindowSessions(notes, from, upto - 1, x);
      WindowGainsSession(notes, from, upto, x);
    } else {
      EmptyWindow(notes, from, x);
    }
  }

  lemma EmptyWindow(notes: seq<Bytes>, at: nat, x: Session)
    requires at <= |notes|
    ensures x !in Decodable(RecordsIn(notes[at..at])) && !Carries(notes, at, at, x)
  {
    assert notes[at..at] == [];
  }

  lemma WindowGainsSession(notes: seq<Bytes>, from: nat, upto: nat, x: Session)
    requires from < upto <= |notes|
    requires x in Decodable(RecordsIn(notes[from..upto - 1])) <==> Carries(notes, from, upto - 1, x)
    ensures x in Decodable(RecordsIn(notes[from..upto])) <==> Carries(notes, from, upto, x)
  {
    WindowGrows(notes, from, upto);
    DecodableGains(RecordsIn(notes[from..upto - 1]), notes[upto - 1], x);
    CarriesGrows(notes, from, upto, x);
  }

  lemma DecodableGains(records: seq<Bytes>, last: Bytes, x: Session)
    ensures x in Decodable(records + if IsHistoryRecord(last) then [last] else [])
       <==> x in Decodable(records) || DecodeSession(last) == Some(x)
  {
    DecodableGrows(records, last);
  }

  lemma WindowGrows(notes: seq<Bytes>, from: nat, upto: nat)
    requires from < upto <= |notes|
    ensures RecordsIn(notes[from..upto])
         == RecordsIn(notes[from..upto - 1]) + if IsHistoryRecord(notes[upto - 1]) then [notes[upto - 1]] else []
  {
    var window := notes[from..upto];
    assert window[..|window| - 1] == notes[from..upto - 1] && window[|window| - 1] == notes[upto - 1];
  }

  lemma CarriesGrows(notes: seq<Bytes>, from: nat, upto: nat, x: Session)
    requires from < upto <= |notes|
    ensures Carries(notes, from, upto, x)
       <==> Carries(notes, from, upto - 1, x) || DecodeSession(notes[upto - 1]) == Some(x)
  {
    if Carries(notes, from, upto, x) {
      var k :| from <= k < upto && DecodeSession(notes[k]) == Some(x);
      assert k < upto - 1 || k == upto - 1;
    }
  }

  lemma DecodableGrows(records: seq<Bytes>, last: Bytes)
    ensures var more := records + if IsHistoryRecord(last) then [last] else [];
            Decodable(more)
            == Decodable(records) + if DecodeSession(last).Some? then [DecodeSession(last).value] else []
  {
    if DecodeSession(last).Some? {
      DecodedRecordIsHistoryRecord(last);
    }
    assert (records + [last])[..|records|] == records;
    assert records + [] == records;
  }

  /** The history call of `t` has just returned its collection. */
  predicate JustCollected(s: State, s': State, t: TaskId) {
    && t in s.tasks && t in s'.tasks && s.tasks[t].Busy() && s.tasks[t].Current().History?
    && |s'.tasks[t].answers| == |s.tasks[t].answers| + 1 && s'.tasks[t].answers[|s.tasks[t].answers|].Collected?
  }

  /** The buffer grows by the records notified, read or no read, and is emptied by
      a history read alone: when it takes the lock and when it returns. */
  lemma BufferChangesExactly(s: State, step: Step)
    requires Inv(s) && Enabled(s, step)
    ensures var s' := Apply(s, step);
            if step.Notify? then s'.bulk == s.bulk + (if IsHistoryRecord(step.payload) then [step.payload] else [])
            else if step.Acquire? && s.tasks[step.task].Current().History? then s'.bulk == [] && !s'.bulkEvent
            else if (step.Resume? || step.IdleOut?) && JustCollected(s, s', step.task) then s'.bulk == []
            else s'.bulk == s.bulk
    ensures step.Acquire? && !s.tasks[step.task].Current().History? ==> Apply(s, step).bulkEvent == s.bulkEvent
  {
    if step.Resume? {
      ResumeKeepsBuffer(s, step.task);
    } else if step.IdleOut? {
      IdleOutEmptiesBuffer(s, step.task);
    } else if step.Interrupt? {
      InterruptMarks(s, step.task, step.why);
    } else if step.Notify? {
      assert Notified(s, step.payload).bulk
          == s.bulk + (if IsHistoryRecord(step.payload) then [step.payload] else []);
    } else {
      OtherStepKeepsBuffer(s, step);
    }
  }

  lemma OtherStepKeepsBuffer(s: State, step: Step)
    requires Enabled(s, step) && !step.Resume? && !step.IdleOut? && !step.Interrupt? && !step.Notify?
    ensures Apply(s, step).bulk == if step.Acquire? && s.tasks[step.task].Current().History? then [] else s.bulk
    ensures step.Acquire? ==>
              Apply(s, step).bulkEvent == if s.tasks[step.task].Current().History? then false else s.bulkEvent
  {
  }

  lemma IdleOutEmptiesBuffer(s: State, t: TaskId)
    requires Inv(s) && Enabled(s, IdleOut(t))
    ensures JustCollected(s, Apply(s, IdleOut(t)), t) && Apply(s, IdleOut(t)).bulk == []
  {
    assert HeldTables(s, t);
  }

  lemma ResumeKeepsBuffer(s: State, t: TaskId)
    requires Inv(s) && Resumable(s, t)
    ensures var s' := Resumed(s, t);
            s'.bulk == if JustCollected(s, s', t) then [] else s.bulk
  {
    assert HeldTables(s, t);
    var p := s.tasks[t].phase;
    if !p.interruption.Thrown? && p.send.Done? && p.send.outcome.Delivered? {
      if p.stage.Collecting? {
        TurnKeepsBuffer(s, t);
      } else if p.stage.AwaitingReply? {
        assert TakeReply(s, t).bulk == s.bulk;
      } else {
        DeliveryKeepsBuffer(s, t);
      }
    }
  }

  lemma TurnKeepsBuffer(s: State, t: TaskId)
    requires IsActive(s, t) && s.tasks[t].Current().History?
    ensures var s' := WaitForRecords(s, t);
            s'.bulk == if JustCollected(s, s', t) then [] else s.bulk
  {
  }

  lemma DeliveryKeepsBuffer(s: State, t: TaskId)
    requires IsActive(s, t)
    ensures var s' := AfterDelivery(s, t);
            s'.bulk == if JustCollected(s, s', t) then [] else s.bulk
  {
    match s.tasks[t].Current()
    case Request(_) => assert TakeReply(s, t).bulk == s.bulk;
    case Write(_) =>
    case History(_) => TurnKeepsBuffer(StartCollecting(s, t), t);
  }

  // ---- When collecting stops ----

  /** Something that sets the event: a history record, or the drop of the link. */
  datatype Wake = Wake(at: nat, record: Option<Bytes>)

  ghost predicate Sorted(wakes: seq<Wake>) {
    forall i, j | 0 <= i < j < |wakes| :: wakes[i].at <= wakes[j].at
  }

  /** How many of `wakes` have happened by `time`. */
  function HappenedBy(wakes: seq<Wake>, time: nat): (n: nat)
    ensures n <= |wakes|
    ensures forall i | 0 <= i < n :: wakes[i].at <= time
    ensures n < |wakes| ==> wakes[n].at > time
  {
    if wakes == [] || wakes[0].at > time then 0 else 1 + HappenedBy(wakes[1..], time)
  }

  /** The records among `wakes`, in order: what the buffer holds. */
  function RecordsOf(wakes: seq<Wake>): seq<Bytes> {
    if wakes == [] then []
    else RecordsOf(wakes[..|wakes| - 1]) + match wakes[|wakes| - 1].record case Some(r) => [r] case None => []
  }

  /** The last moment something was heard before wake `i`. */
  function HeardBefore(wakes: seq<Wake>, start: nat, i: nat): nat
    requires i <= |wakes|
  {
    if i == 0 || wakes[i - 1].at < start then start else wakes[i - 1].at
  }

  /** The loop has seen the first `taken` wakes and `now` is the moment it did,
      with no idle gap so far. */
  ghost predicate Listening(wakes: seq<Wake>, start: nat, now: nat, taken: nat) {
    && taken <= |wakes| && now == HeardBefore(wakes, start, taken)
    && (forall i | 0 <= i < taken :: wakes[i].at <= now)
    && (taken < |wakes| ==> wakes[taken].at > now)
    && (forall i | 0 <= i < taken :: wakes[i].at <= HeardBefore(wakes, start, i) + IDLE_WINDOW)
  }

  lemma {:induction false} HappenedCounts(wakes: seq<Wake>, time: nat, i: nat)
    requires Sorted(wakes) && i < |wakes| && wakes[i].at <= time
    ensures i < HappenedBy(wakes, time)
  {
    if i > 0 {
      HappenedCounts(wakes[1..], time, i - 1);
    }
  }

  lemma WakeKeepsListening(wakes: seq<Wake>, start: nat, now: nat, taken: nat)
    requires Sorted(wakes) && Listening(wakes, start, now, taken) && taken < |wakes|
    requires wakes[taken].at <= now + IDLE_WINDOW
    ensures var now' := wakes[taken].at;
            var taken' := HappenedBy(wakes, now');
            taken < taken' && Listening(wakes, start, now', taken')
  {
    var now' := wakes[taken].at;
    var taken' := HappenedBy(wakes, now');
    HappenedCounts(wakes, now', taken);
    forall i | 0 <= i < taken'
      ensures wakes[i].at <= HeardBefore(wakes, start, i) + IDLE_WINDOW
    {
      if i > taken {
        assert wakes[taken].at <= wakes[i - 1].at <= wakes[i].at <= now';
      }
    }
    assert wakes[taken].at <= wakes[taken' - 1].at <= now';
    assert now' == HeardBefore(wakes, start, taken');
  }

  lemma LaterWakes(wakes: seq<Wake>, taken: nat, stop: nat)
    requires Sorted(wakes) && (taken < |wakes| ==> wakes[taken].at >= stop)
    ensures forall i | taken <= i < |wakes| :: wakes[i].at >= stop
  {
  }

  /** `_collect_bulk` against records and drops at given times, the task running
      as soon as it can. When the window closes at the very instant of a wake,
      either may come first. */
  method CollectBulk(wakes: seq<Wake>, start: nat, timeout: nat) returns (stop: nat, taken: nat, bulk: seq<Bytes>)
    requires Sorted(wakes)
    // It never waits past its deadline.
    ensures start <= stop <= start + timeout
    // It has every record that arrived before it stopped.
    ensures taken <= |wakes| && (forall i | 0 <= i < taken :: wakes[i].at <= stop)
    ensures forall i | taken <= i < |wakes| :: wakes[i].at >= stop
    ensures bulk == RecordsOf(wakes[..taken])
    // It stops one idle window after it last heard something, or at its deadline,
    // and at the first such gap.
    ensures HeardBefore(wakes, start, taken) <= start + timeout
    ensures stop == WindowEnd(HeardBefore(wakes, start, taken), start + timeout)
    ensures forall i | 0 <= i < taken :: wakes[i].at <= HeardBefore(wakes, start, i) + IDLE_WINDOW
    // A stream without such a gap that fits the deadline is collected whole.
    ensures (forall i | 0 <= i < |wakes| ::
               wakes[i].at < HeardBefore(wakes, start, i) + IDLE_WINDOW && wakes[i].at < start + timeout)
            ==> taken == |wakes| && bulk == RecordsOf(wakes)
  {
    var deadline := start + timeout;
    var now := start;
    // What came with the send is in the buffer: the first wait returns at once.
    taken := HappenedBy(wakes, start);
    while now < deadline
      invariant start <= now <= deadline && Listening(wakes, start, now, taken)
      decreases |wakes| - taken
    {
      var until := WindowEnd(now, deadline);
      var closesFirst := *;
      if taken < |wakes| && (wakes[taken].at < until || (wakes[taken].at == until && !closesFirst)) {
        // The event is set; whatever has arrived when it is cleared is in the buffer.
        WakeKeepsListening(wakes, start, now, taken);
        now := wakes[taken].at;
        taken := HappenedBy(wakes, now);
      } else {
        stop, bulk := until, RecordsOf(wakes[..taken]);
        LaterWakes(wakes, taken, stop);
        assert taken == |wakes| ==> wakes[..taken] == wakes;
        return;
      }
    }
    stop, bulk := now, RecordsOf(wakes[..taken]);
    LaterWakes(wakes, taken, stop);
    assert taken == |wakes| ==> wakes[..taken] == wakes;
  }

  // ---- The loop in the machine ----

  /** The machine's collecting read where the loop is: it has consumed what is in
      the buffer and sleeps until its window closes. */
  ghost predicate Sleeping(s: State, t: TaskId, now: nat, deadline: nat, bulk: seq<Bytes>) {
    && s.owner == Some(t) && IsActive(s, t) && s.now == now < deadline && s.bulk == bulk && !s.bulkEvent
    && var p := s.tasks[t].phase;
       p.stage.Collecting? && p.interruption.Calm? && p.deadline == deadline && p.until == WindowEnd(now, deadline)
  }

  /** What a wake is in the machine. */
  function WakeStep(wake: Wake): Step {
    match wake.record
    case Some(r) => Notify(r)
    case None => Drop
  }

  /** The next wake comes before the window closes: the machine's read gets it
      and sleeps on from there, or stops because that was its deadline. */
  lemma MachineWakes(s: State, t: TaskId, now: nat, deadline: nat, bulk: seq<Bytes>, wake: Wake)
    requires Inv(s) && Sleeping(s, t, now, deadline, bulk)
    requires now <= wake.at <= WindowEnd(now, deadline) && (wake.record.Some? ==> IsHistoryRecord(wake.record.value))
    ensures var waited := s.(now := wake.at);
            var woken := Apply(waited, WakeStep(wake));
            var more := bulk + match wake.record case Some(r) => [r] case None => [];
            && Apply(s, Tick(wake.at - now)) == waited && Inv(woken) && Resumable(woken, t)
            && var s' := Resumed(woken, t);
               if wake.at < deadline then Sleeping(s', t, wake.at, deadline, more)
               else s' == Leave(woken.(bulkEvent := false), t, Collected(more, s.tasks[t].phase.future, |woken.notes|))
  {
    var waited := s.(now := wake.at);
    LinkAndClockInv(s, waited);
    StepInv(waited, WakeStep(wake));
    WakeSetsEvent(waited, wake);
    WokenTurns(Apply(waited, WakeStep(wake)), t, deadline);
  }

  lemma WakeSetsEvent(s: State, wake: Wake)
    requires wake.record.Some? ==> IsHistoryRecord(wake.record.value)
    ensures var woken := Apply(s, WakeStep(wake));
            && woken.bulkEvent && woken.now == s.now && woken.tasks == s.tasks && woken.owner == s.owner
            && |woken.futures| == |s.futures|
            && woken.bulk == s.bulk + match wake.record case Some(r) => [r] case None => []
  {
    if wake.record.Some? {
      assert Notified(s, wake.record.value).bulk == s.bulk + [wake.record.value];
    } else {
      assert Disconnected(s).bulk == s.bulk + [];
    }
  }

  lemma WokenTurns(s: State, t: TaskId, deadline: nat)
    requires s.owner == Some(t) && IsActive(s, t) && s.bulkEvent && s.now <= deadline
    requires var p := s.tasks[t].phase; p.stage.Collecting? && p.interruption.Calm? && p.deadline == deadline
    ensures Resumable(s, t)
    ensures if s.now < deadline then Sleeping(Resumed(s, t), t, s.now, deadline, s.bulk)
            else Resumed(s, t) == Leave(s.(bulkEvent := false), t, Collection(s, t))
  {
    assert Resumed(s, t) == WaitForRecords(s, t);
  }

  /** No wake comes: the read stops when the window closes. */
  lemma MachineStops(s: State, t: TaskId, now: nat, deadline: nat, bulk: seq<Bytes>)
    requires Inv(s) && Sleeping(s, t, now, deadline, bulk)
    ensures var waited := s.(now := WindowEnd(now, deadline));
            && Apply(s, Tick(WindowEnd(now, deadline) - now)) == waited
            && WindowEnd(now, deadline) == (if deadline < now + 400 then deadline else now + 400)
            && Enabled(waited, IdleOut(t))
            && Apply(waited, IdleOut(t)) == Leave(waited, t, Collected(bulk, s.tasks[t].phase.future, |s.notes|))
  {
  }

  /** The read begins with what is in the buffer when its frame was delivered. */
  lemma MachineStarts(s: State, t: TaskId)
    requires Inv(s) && IsActive(s, t) && s.tasks[t].Current().History? && s.tasks[t].phase.interruption.Calm?
    requires s.tasks[t].phase.stage.Delivering? && s.tasks[t].phase.send.Done?
    requires s.tasks[t].phase.send.outcome.Delivered? && s.timeout > 0
    ensures Resumable(s, t) && Sleeping(Resumed(s, t), t, s.now, s.now + s.timeout, s.bulk)
  {
    assert HeldTables(s, t);
    assert Resumed(s, t) == WaitForRecords(StartCollecting(s, t), t);
  }

  /** The machine's collecting read has heard what is in the buffer: it sleeps
      since, or is yet to run. */
  ghost predicate Hearing(s: State, t: TaskId, deadline: nat) {
    && Inv(s) && s.owner == Some(t) && IsActive(s, t) && s.now <= deadline
    && (s.bulkEvent || Sleeping(s, t, s.now, deadline, s.bulk))
    && var p := s.tasks[t].phase; p.stage.Collecting? && p.interruption.Calm? && p.deadline == deadline
  }

  /** The wakes that the loop takes: none after an idle gap or the deadline. */
  ghost predicate Taken(wakes: seq<Wake>, start: nat, deadline: nat, taken: nat) {
    && taken <= |wakes| && start <= deadline
    && forall i | 0 <= i < taken ::
         && start <= wakes[i].at <= deadline && wakes[i].at <= HeardBefore(wakes, start, i) + IDLE_WINDOW
         && (wakes[i].record.Some? ==> IsHistoryRecord(wakes[i].record.value))
  }

  /** If something sleeps, a turn before time passes. */
  lemma FallsAsleep(s: State, t: TaskId, deadline: nat) returns (steps: seq<Step>, s': State)
    requires Hearing(s, t, deadline) && s.now < deadline
    ensures Legal(s, steps) && Run(s, steps) == s'
    ensures Hearing(s', t, deadline) && Sleeping(s', t, s.now, deadline, s.bulk) && SameRead(s, s', t)
    ensures s'.notes == s.notes
  {
    if s.bulkEvent {
      WokenTurns(s, t, deadline);
      ResumedInv(s, t);
      assert Resumed(s, t) == WaitForRecords(s, t);
      steps, s' := [Resume(t)], Resumed(s, t);
      assert [Resume(t)][1..] == [];
    } else {
      steps, s' := [], s;
    }
  }

  predicate SameRead(s: State, s': State, t: TaskId) {
    && t in s.tasks && t in s'.tasks && s'.tasks[t].answers == s.tasks[t].answers
    && s.tasks[t].phase.Active? && s'.tasks[t].phase.Active?
    && s'.tasks[t].phase.future == s.tasks[t].phase.future
  }

  lemma TwoSteps(s: State, a: Step, mid: State, b: Step, after: State)
    requires Enabled(s, a) && mid == Apply(s, a) && Enabled(mid, b) && after == Apply(mid, b)
    ensures Legal(s, [a, b]) && Run(s, [a, b]) == after
  {
    assert [b] == [b] + [] && [a, b] == [a] + [b];
    RunFirst(mid, [b], b, []);
    RunFirst(s, [a, b], a, [b]);
  }

  /** A wake at a moment before the window closes. */
  lemma HearsWake(s: State, t: TaskId, deadline: nat, wake: Wake) returns (steps: seq<Step>, s': State)
    requires Hearing(s, t, deadline) && (wake.record.Some? ==> IsHistoryRecord(wake.record.value))
    requires wake.at == s.now || (s.now < wake.at <= deadline && wake.at <= s.now + IDLE_WINDOW && !s.bulkEvent)
    ensures Legal(s, steps) && Run(s, steps) == s'
    ensures Hearing(s', t, deadline) && s'.now == wake.at && SameRead(s, s', t)
    ensures s'.bulk == s.bulk + match wake.record case Some(r) => [r] case None => []
  {
    var waited := s.(now := wake.at);
    LinkAndClockInv(s, waited);
    StepInv(waited, WakeStep(wake));
    WakeSetsEvent(waited, wake);
    steps, s' := [Tick(wake.at - s.now), WakeStep(wake)], Apply(waited, WakeStep(wake));
    TwoSteps(s, Tick(wake.at - s.now), waited, WakeStep(wake), s');
  }

  lemma HearsNext(s: State, t: TaskId, deadline: nat, wake: Wake) returns (steps: seq<Step>, s': State)
    requires Hearing(s, t, deadline) && (wake.record.Some? ==> IsHistoryRecord(wake.record.value))
    requires s.now <= wake.at <= deadline && wake.at <= s.now + IDLE_WINDOW
    ensures Legal(s, steps) && Run(s, steps) == s'
    ensures Hearing(s', t, deadline) && s'.now == wake.at && SameRead(s, s', t)
    ensures s'.bulk == s.bulk + match wake.record case Some(r) => [r] case None => []
  {
    if wake.at == s.now {
      steps, s' := HearsWake(s, t, deadline, wake);
    } else {
      var sleep, asleep := FallsAsleep(s, t, deadline);
      var hear, heard := HearsWake(asleep, t, deadline, wake);
      RunsJoin(s, sleep, hear);
      steps, s' := sleep + hear, heard;
    }
  }

  /** What a read that has stopped leaves behind. */
  ghost predicate Stopped(s: State, s': State, t: TaskId, records: seq<Bytes>, stop: nat) {
    && s'.owner.None? && s'.now == stop && s'.bulk == [] && t in s.tasks && s.tasks[t].phase.Active? && t in s'.tasks
    && s'.tasks[t].answers
       == s.tasks[t].answers + [Collected(records, s.tasks[t].phase.future, |s'.notes|)]
  }

  lemma StopsNow(s: State, t: TaskId, deadline: nat) returns (steps: seq<Step>, s': State)
    requires Hearing(s, t, deadline)
    ensures Legal(s, steps) && Run(s, steps) == s' && Stopped(s, s', t, s.bulk, WindowEnd(s.now, deadline))
  {
    if s.now < deadline {
      var sleep, asleep := FallsAsleep(s, t, deadline);
      var wait, stopped := WindowCloses(asleep, t, deadline);
      RunsJoin(s, sleep, wait);
      steps, s' := sleep + wait, stopped;
    } else {
      WokenTurns(s, t, deadline);
      steps, s' := [Resume(t)], Resumed(s, t);
      assert [Resume(t)][1..] == [];
    }
  }

  lemma WindowCloses(s: State, t: TaskId, deadline: nat) returns (steps: seq<Step>, s': State)
    requires Hearing(s, t, deadline) && Sleeping(s, t, s.now, deadline, s.bulk)
    ensures Legal(s, steps) && Run(s, steps) == s' && Stopped(s, s', t, s.bulk, WindowEnd(s.now, deadline))
  {
    var waited := s.(now := WindowEnd(s.now, deadline));
    MachineStops(s, t, s.now, deadline, s.bulk);
    steps, s' := [Tick(waited.now - s.now), IdleOut(t)], Apply(waited, IdleOut(t));
    TwoSteps(s, Tick(waited.now - s.now), waited, IdleOut(t), s');
  }

  lemma LaterTaken(wakes: seq<Wake>, start: nat, deadline: nat, taken: nat)
    requires Sorted(wakes) && Taken(wakes, start, deadline, taken) && taken > 0
    ensures Sorted(wakes[1..]) && Taken(wakes[1..], wakes[0].at, deadline, taken - 1)
    ensures HeardBefore(wakes[1..], wakes[0].at, taken - 1) == HeardBefore(wakes, start, taken)
  {
    forall i | 0 <= i < taken
      ensures HeardBefore(wakes[1..], wakes[0].at, i) == HeardBefore(wakes, start, i + 1)
    {
    }
  }

  lemma {:induction false} RecordsOfFirst(wakes: seq<Wake>, n: nat)
    requires 0 < n <= |wakes|
    ensures RecordsOf(wakes[..n])
         == (match wakes[0].record case Some(r) => [r] case None => []) + RecordsOf(wakes[1..][..n - 1])
  {
    assert wakes[..n][..n - 1] == wakes[..n - 1];
    if n > 1 {
      RecordsOfFirst(wakes, n - 1);
      assert wakes[1..][..n - 1][..n - 2] == wakes[1..][..n - 2];
    } else {
      assert wakes[..0] == [] && wakes[1..][..0] == [];
    }
  }

  /** The whole loop in the machine: whatever `CollectBulk` may take and whenever
      it may stop, some run of the machine in which those wakes come at their
      moments stops then and returns exactly those records. */
  lemma {:induction false} CollectingIsARun(s: State, t: TaskId, deadline: nat, wakes: seq<Wake>, taken: nat)
      returns (steps: seq<Step>, s': State)
    requires Hearing(s, t, deadline) && Sorted(wakes) && Taken(wakes, s.now, deadline, taken)
    ensures HeardBefore(wakes, s.now, taken) <= deadline
    ensures Legal(s, steps) && Run(s, steps) == s'
    ensures Stopped(s, s', t, s.bulk + RecordsOf(wakes[..taken]),
                    WindowEnd(HeardBefore(wakes, s.now, taken), deadline))
    decreases taken
  {
    if taken == 0 {
      steps, s' := StopsNow(s, t, deadline);
      assert wakes[..0] == [] && s.bulk + [] == s.bulk;
    } else {
      var hear, heard := HearsNext(s, t, deadline, wakes[0]);
      LaterTaken(wakes, s.now, deadline, taken);
      var rest, stopped := CollectingIsARun(heard, t, deadline, wakes[1..], taken - 1);
      StoppedVia(s, heard, stopped, t, wakes, taken, WindowEnd(HeardBefore(wakes, s.now, taken), deadline));
      JoinRuns(s, hear, heard, rest, stopped);
      steps, s' := hear + rest, stopped;
    }
  }

  lemma JoinRuns(s: State, a: seq<Step>, mid: State, b: seq<Step>, after: State)
    requires Legal(s, a) && mid == Run(s, a) && Legal(mid, b) && after == Run(mid, b)
    ensures Legal(s, a + b) && Run(s, a + b) == after
  {
    RunsJoin(s, a, b);
  }

  lemma StoppedVia(s: State, heard: State, stopped: State, t: TaskId, wakes: seq<Wake>, taken: nat, stop: nat)
    requires 0 < taken <= |wakes| && SameRead(s, heard, t)
    requires heard.bulk == s.bulk + match wakes[0].record case Some(r) => [r] case None => []
    requires Stopped(heard, stopped, t, heard.bulk + RecordsOf(wakes[1..][..taken - 1]), stop)
    ensures Stopped(s, stopped, t, s.bulk + RecordsOf(wakes[..taken]), stop)
  {
    RecordsOfFirst(wakes, taken);
    var first := match wakes[0].record case Some(r) => [r] case None => [];
    assert (s.bulk + first) + RecordsOf(wakes[1..][..taken - 1]) == s.bulk + RecordsOf(wakes[..taken]);
  }
}
