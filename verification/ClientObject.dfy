/** The client as the object it is: fields updated in place by its coroutines,
    between awaits, and by the transport's callbacks.

    Each method is one stretch of code between awaits and is shown to be the
    step of the same name in `Client`, so every result about runs of steps is a
    result about this object. The remaining steps are its surroundings: callers
    starting calls, sends progressing in the transport, the link and the clock. */
module ClientObject {
  import opened Bytes
  import opened Errors
  import opened Frames
  import opened Client
  import opened ClientInvariant

  /** The tables name existing futures, and never both a waiter and an abort. */
  lemma TablesName(s: State)
    requires Inv(s)
    ensures forall r <- s.waiters :: s.waiters[r].future < |s.futures|
    ensures forall a <- s.sends :: a < |s.futures| && s.futures[a].state.Pending?
    ensures s.sends != {} ==> s.waiters == map[]
  {
    if s.owner.Some? {
      assert HeldTables(s, s.owner.value);
    }
  }

  lemma DisconnectedFutures(s: State, mid: seq<Future>, futures: seq<Future>)
    requires |futures| == |mid| == |s.futures| && (s.sends != {} ==> s.waiters == map[])
    requires forall f | 0 <= f < |futures| :: mid[f] == if IsWaiting(s, f) then Fail(s.futures[f]) else s.futures[f]
    requires forall f | 0 <= f < |futures| :: futures[f] == if f in s.sends then Fail(mid[f]) else mid[f]
    ensures futures == Disconnected(s).futures
  {
  }

  class SpinEvCharger {
    const timeout: nat
    var owner: Option<TaskId>           // _lock
    var waiters: map<byte, Waiter>      // _waiters
    var sends: set<FutureId>            // _sends
    var bulk: seq<Bytes>                // _bulk
    var bulkEvent: bool                 // _bulk_event
    var tasks: map<TaskId, Task>        // the suspended coroutines
    var futures: seq<Future>
    var connected: bool                 // _transport.is_connected
    var now: nat
    // Kept for the record:
    var since: nat
    var stale: nat
    var wire: seq<Sent>
    var notes: seq<Bytes>

    ghost function View(): State
      reads this
    {
      State(timeout, owner, tasks, waiters, sends, futures, bulk, bulkEvent, connected, now, since, stale, wire,
            notes, false)
    }

    ghost predicate Valid()
      reads this
    {
      Inv(View())
    }

    constructor (timeout: nat)
      ensures Valid() && View() == Init(timeout)
    {
      this.timeout := timeout;
      owner, waiters, sends, bulk, bulkEvent, tasks, futures := None, map[], {}, [], false, map[], [];
      connected, now, since, stale, wire, notes := false, 0, 0, 0, [], [];
      new;
      InitInv(timeout);
    }

    // ---- Futures: completing one twice is an error ----

    method SetException(f: FutureId, error: Error)
      requires f < |futures| && futures[f].state.Pending?
      modifies this`futures
      ensures futures == old(futures)[f := old(futures)[f].(state := Broken(error))]
    {
      futures := futures[f := futures[f].(state := Broken(error))];
    }

    method SetResult(f: FutureId, payload: Bytes, at: nat)
      requires f < |futures| && futures[f].state.Pending?
      modifies this`futures
      ensures futures == old(futures)[f := old(futures)[f].(state := Valued(payload, at))]
    {
      futures := futures[f := futures[f].(state := Valued(payload, at))];
    }

    // ---- Transport callbacks ----

    method FailWaiters(error: Error)
      requires error == ConnectionError && forall r <- waiters :: waiters[r].future < |futures|
      modifies this`futures
      ensures |futures| == |old(futures)|
      ensures forall f | 0 <= f < |futures| ::
                futures[f] == if IsWaiting(View(), f) then Fail(old(futures)[f]) else old(futures)[f]
    {
      var left := waiters.Keys;
      while left != {}
        invariant left <= waiters.Keys && |futures| == |old(futures)|
        invariant forall f | 0 <= f < |futures| ::
                    futures[f] == if exists r :: r in waiters.Keys - left && waiters[r].future == f
                                  then Fail(old(futures)[f]) else old(futures)[f]
        decreases left
      {
        var r :| r in left;
        var f := waiters[r].future;
        if futures[f].state.Pending? {
          SetException(f, error);
        }
        assert waiters.Keys - (left - {r}) == (waiters.Keys - left) + {r};
        left := left - {r};
      }
    }

    /** No `done()` check here: `set_exception` itself demands a pending future. */
    method FailAborts(error: Error)
      requires error == ConnectionError && forall a <- sends :: a < |futures| && futures[a].state.Pending?
      modifies this`futures
      ensures |futures| == |old(futures)|
      ensures forall f | 0 <= f < |futures| ::
                futures[f] == if f in sends then Fail(old(futures)[f]) else old(futures)[f]
    {
      var left := sends;
      while left != {}
        invariant left <= sends && |futures| == |old(futures)|
        invariant forall a <- left :: a < |futures| && futures[a].state.Pending?
        invariant forall f | 0 <= f < |futures| ::
                    futures[f] == if f in sends - left then Fail(old(futures)[f]) else old(futures)[f]
        decreases left
      {
        var abort :| abort in left;
        SetException(abort, error);
        left := left - {abort};
      }
    }

    /** `_on_disconnect`. That every abort is pending, and so may be failed
        unasked, is the invariant's doing. */
    method OnDisconnect()
      requires Valid()
      modifies this
      ensures Valid() && View() == Disconnected(old(View()))
    {
      DisconnectedInv(View());
      TablesName(View());
      FailEverything();
    }

    method FailEverything()
      requires forall r <- waiters :: waiters[r].future < |futures|
      requires forall a <- sends :: a < |futures| && futures[a].state.Pending?
      requires sends != {} ==> waiters == map[]
      modifies this
      ensures View() == Disconnected(old(View()))
    {
      var error := ConnectionError;
      FailWaiters(error);
      ghost var guarded := futures;
      FailAborts(error);
      DisconnectedFutures(old(View()), guarded, futures);
      waiters := map[];
      sends := {};
      bulkEvent := true;
    }

    /** `_on_notify`. */
    method OnNotify(payload: Bytes)
      requires Valid()
      modifies this
      ensures Valid() && View() == Notified(old(View()), payload)
    {
      NotifiedInv(View(), payload);
      TablesName(View());
      TakePayload(payload);
    }

    method TakePayload(payload: Bytes)
      requires forall r <- waiters :: waiters[r].future < |futures|
      modifies this
      ensures View() == Notified(old(View()), payload)
    {
      notes := notes + [payload];
      if IsHistoryRecord(payload) {
        bulk := bulk + [payload];
        bulkEvent := true;
        return;
      }
      if IsReply(payload) {
        var register := payload[2];
        if register in waiters && payload[3] == waiters[register].flag {
          var future := waiters[register].future;
          waiters := waiters - {register};
          if futures[future].state.Pending? {
            SetResult(future, payload, |notes| - 1);
          }
        }
      }
    }

    // ---- Into the locked section ----

    /** Make the future of frame `i`, register it, start its send and deadline. */
    method StartFrame(t: TaskId, i: nat)
      requires t in tasks && tasks[t].Busy() && i < tasks[t].Current().Length()
      modifies this
      ensures View() == Launch(old(View()), t, i)
    {
      var call := tasks[t].Current();
      var frame := call.FrameAt(i);
      var future := |futures|;
      futures := futures + [Future(t, |tasks[t].answers|, frame, |notes|, Pending)];
      if call.Request? {
        waiters := waiters[frame[2] := Waiter(future, frame[3])];
      } else {
        sends := sends + {future};
      }
      tasks := tasks[t := tasks[t].(phase := Active(Delivering, future, i, Unstarted, Calm, now + timeout, 0))];
    }

    /** `_require_transport`, before the lock is asked for. */
    method RequireTransport(t: TaskId) returns (ok: bool)
      requires Valid() && Enabled(View(), Begin(t))
      modifies this
      ensures Valid() && View() == Apply(old(View()), Begin(t)) && ok == connected == old(connected)
    {
      StepInv(View(), Begin(t));
      ok := connected;
      if connected {
        tasks := tasks[t := tasks[t].(phase := Queued)];
      } else {
        tasks := tasks[t := Refused(tasks[t], Failed(ConnectionError))];
      }
    }

    /** The lock is free and this task gets it; runs to the first await. */
    method Acquire(t: TaskId)
      requires Valid() && Enabled(View(), Step.Acquire(t))
      modifies this
      ensures Valid() && View() == Apply(old(View()), Step.Acquire(t))
    {
      StepInv(View(), Step.Acquire(t));
      TakeLock(t);
    }

    method TakeLock(t: TaskId)
      requires t in tasks && tasks[t].Busy() && tasks[t].Current().WellFormed()
      modifies this
      ensures View() == Enter(old(View()), t)
    {
      owner, since := Some(t), now;
      if tasks[t].Current().History? {
        bulk := [];
        bulkEvent := false;
      }
      StartFrame(t, 0);
    }

    // ---- Out of it ----

    /** The `finally` blocks and the release of the lock. */
    method LeaveSection(t: TaskId, answer: Answer)
      requires IsActive(View(), t)
      modifies this
      ensures View() == Leave(old(View()), t, answer)
    {
      var k := tasks[t];
      Unregister(t);
      if k.phase.send.Open? {
        stale := stale + 1;
      }
      if answer.Collected? {
        bulk := [];
      }
      owner := None;
      var more := answer.Success() && |k.answers| + 1 < |k.program|;
      tasks := tasks[t := k.(answers := k.answers + [answer], phase := if more then Idle else Finished)];
    }

    /** Take the call's waiter or abort out of its table. */
    method Unregister(t: TaskId)
      requires IsActive(View(), t)
      modifies this`waiters, this`sends
      ensures var call := tasks[t].Current();
              && waiters == (if call.Request? then old(waiters) - {call.frame[2]} else old(waiters))
              && sends == if call.Request? then old(sends) else old(sends) - {tasks[t].phase.future}
    {
      var call := tasks[t].Current();
      if call.Request? {
        waiters := waiters - {call.frame[2]};
      } else {
        sends := sends - {tasks[t].phase.future};
      }
    }

    /** `payload = await future`. */
    method AwaitFuture(t: TaskId)
      requires IsActive(View(), t)
      modifies this
      ensures View() == TakeReply(old(View()), t)
    {
      var p := tasks[t].phase;
      match futures[p.future].state
      case Pending => tasks := tasks[t := tasks[t].(phase := p.(stage := AwaitingReply))];
      case Valued(payload, _) => LeaveSection(t, Returned(payload, p.future));
      case Broken(error) => LeaveSection(t, Failed(error));
      case Voided => LeaveSection(t, Cancelled);
    }

    /** One turn of the loop in `_collect_bulk`, and what follows its return. */
    method CollectTurn(t: TaskId)
      requires IsActive(View(), t)
      modifies this
      ensures View() == WaitForRecords(old(View()), t)
    {
      var p := tasks[t].phase;
      bulkEvent := false;
      if p.deadline <= now {
        LeaveSection(t, Collected(bulk, p.future, |notes|));
      } else {
        tasks := tasks[t := tasks[t].(phase := p.(until := WindowEnd(now, p.deadline)))];
      }
    }

    /** The idle window ran out: `wait_for` raises `TimeoutError`. */
    method IdleOut(t: TaskId)
      requires Valid() && Enabled(View(), Step.IdleOut(t))
      modifies this
      ensures Valid() && View() == Apply(old(View()), Step.IdleOut(t))
    {
      StepInv(View(), Step.IdleOut(t));
      LeaveSection(t, Collected(bulk, tasks[t].phase.future, |notes|));
    }

    /** `_deliver` has returned. */
    method FrameDelivered(t: TaskId)
      requires IsActive(View(), t)
      modifies this
      ensures View() == AfterDelivery(old(View()), t)
    {
      var p := tasks[t].phase;
      match tasks[t].Current()
      case Request(_) => AwaitFuture(t);
      case Write(frames) =>
        if p.index + 1 < |frames| {
          sends := sends - {p.future};
          StartFrame(t, p.index + 1);
        } else {
          LeaveSection(t, Completed);
        }
      case History(_) =>
        sends := sends - {p.future};
        tasks := tasks[t := tasks[t].(phase := p.(stage := Collecting, deadline := now + timeout))];
        CollectTurn(t);
    }

    /** The lock holder runs again after the await it was suspended in. */
    method Resume(t: TaskId)
      requires Valid() && Resumable(View(), t)
      modifies this
      ensures Valid() && View() == Apply(old(View()), Step.Resume(t))
    {
      StepInv(View(), Step.Resume(t));
      var p := tasks[t].phase;
      var future := futures[p.future];
      if p.interruption.Thrown? {
        LeaveSection(t, Unwound(p.interruption.why));
      } else if p.stage.Collecting? {
        CollectTurn(t);
      } else if p.stage.AwaitingReply? {
        AwaitFuture(t);
      } else if p.stage.Delivering? && !p.send.Done? && future.state.Broken? {
        LeaveSection(t, Failed(future.state.error));
      } else if !p.send.Done? {
        tasks := tasks[t := tasks[t].(phase := p.(stage := AwaitingSend))];
      } else if p.send.outcome.Raised? {
        LeaveSection(t, Mapped(p.send.outcome.failure, p.interruption));
      } else {
        FrameDelivered(t);
      }
    }

    /** `Task.cancel` reaches the lock holder. */
    method Interrupt(t: TaskId, why: Why)
      requires Valid() && Enabled(View(), Step.Interrupt(t, why))
      modifies this
      ensures Valid() && View() == Apply(old(View()), Step.Interrupt(t, why))
    {
      StepInv(View(), Step.Interrupt(t, why));
      Mark(t, why);
    }

    /** The interruption is noted, and the future being awaited is cancelled. */
    method Mark(t: TaskId, why: Why)
      requires IsActive(View(), t)
      modifies this
      ensures View() == Interrupted(old(View()), t, why)
    {
      var p := tasks[t].phase;
      var w := Worse(p.interruption, why);
      if p.stage.AwaitingSend? && !p.send.Done? {
        tasks := tasks[t := tasks[t].(phase := p.(interruption := Asked(w)))];
      } else {
        tasks := tasks[t := tasks[t].(phase := p.(interruption := Thrown(w)))];
        if p.stage.AwaitingReply? && futures[p.future].state.Pending? {
          futures := futures[p.future := futures[p.future].(state := Voided)];
        }
      }
    }
  }
}
