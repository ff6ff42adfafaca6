# Spin EV client: a verified model

This project models the client side of the Exicom Spin EV charger protocol: the
charger client as a concurrent state machine (`Client*.dfy`), the frame codec it
rests on (`Frames`, `Text`, `Sessions`, `Alarms`, `Config`, `Pieces`), a charger at
the other end (`Charger`), and the OCPP tunnel transport (`Tunnel`, `TunnelText`).

`Client.dfy` defines the machine. A `State` holds the lock's owner, the waiter
table, the abort set, the history buffer and event, every future ever made, and
every task with the await at which it is suspended. A `Step` is one stretch of
code between two awaits, or one thing that can happen around it: a notification,
a drop, a send starting, finishing or failing, a deadline or a cancellation
reaching a task, the clock. `Run` applies any legal sequence of steps, so a lemma
about `Run(Init(T), steps)` is about every interleaving. Completing a future that
is already done sets `fault`. Being interrupted takes two steps, as in asyncio: the
`CancelledError` is scheduled (which cancels the future being awaited), other
events may land, and then the task resumes and unwinds. Times are in milliseconds.

`ClientObject.dfy` is the client as a class whose methods update its fields in
place; each method equals a step of the machine. `Tunnel.dfy` does the same for
the tunnel transport.

`Charger.dfy` puts a charger with a register file at the other end. A frame handed
to the transport has arrived by the time its send is acknowledged; when the send is
not, because it failed or was abandoned, the frame may arrive at any later moment,
after frames sent since, or never. Answers to reads of the OCPP registers are under way for as long
as they like. The client of such a world makes the runs of the machine, and all of
them but those in which it hears an answer the charger never gave
(`WorldRunsTheClient`, `EveryStepIsPossible`). Lemmas about a world that is `WorldOk`
hold of every reachable one (`NewWorldOk`, `GoKeepsWorld`).

Results, in short: the shared tables stay safe in every interleaving and no future
is completed twice; every returned reply is matched and serves one request; a drop
ends calls at once without a timer, those still queued included; deadlines,
cancellations and errors of a send are told apart; the order of send and reply does
not matter; one call's frames are contiguous on the wire and a commit follows all it commits; a
history read returns exactly what arrived during it; lock holds are bounded, up to
the one event after which nothing bounds them; a configuration written among other
callers is sure to be held exactly when no earlier frame that disagrees may still
arrive, and reading it back then gives it back exactly when its texts survive the
codec; a read is sure to be fresh exactly when no stale answer is under way.

Where code and documentation differ the code is followed. The transport interface
says a transport never has two sends in flight (`src/spinev_ble/transports/base.py:25-26`).
An abandoned send is cancelled but not awaited, so that is false: `SendsCanOverlap`
gives a run, and `SendsOverlapExactlyAfterStrike` says when: sends stay apart until
an interruption, or a drop before the reply, lands while the lock holder waits in
`_deliver` with its send not over, and every such event can be followed by an
overlap. Three more promises hold only under a condition that the code does not
check. Each has a lemma with the exact condition and a run from a fresh client in
which it fails:

- a setter that returned normally may be undone by a frame handed over before it
  (`ConfigIsHeldExactlyWhenUnopposed`, `CompletedConfigCanBeUndone`);
- a read may return a late answer to an earlier one
  (`ReadIsFreshExactlyWhenNothingStale`, `StaleReadCanHappen`);
- a request may hold the lock past its timeout
  (`LockHoldIsBoundedExactlyUntilSnag`, `LockCanBeHeldTooLong`).

Choices that make the model allow more runs than the code, so that what is proved
of all its runs holds of the code's: any queued task may take a free lock (the real
lock is first come, first served); a task between two of its calls may be overtaken;
notifications and drops may arrive at any time, connected or not; an unacknowledged
frame may arrive at any time, or never.

Choices that allow fewer: a send started while the link is down fails with a
connection error, as in both bundled transports. And `asyncio.wait_for` is the one of Python 3.12 and later; `pyproject.toml:8`
also allows 3.11, whose `wait_for` returns normally when a cancellation arrives just
after the event was set, so that there a collecting history read may swallow it.

## Model

| member | source | states |
|---|---|---|
| ClientInvariant.SharedTablesAreSafe | src/spinev_ble/charger.py:285-352 | in every reachable state waiters plus aborts number at most one and belong to the lock holder, registered aborts are pending, a pending future being awaited is in its table, both tables are empty when the lock is free, and no done future has been completed, the unguarded `set_exception` included |
| ClientInvariant.OutcomesAreFinal | src/spinev_ble/charger.py:308-352 | over any run a future that is done keeps its outcome, and steps only settle pending ones |
| ClientInvariant.RepliesAreMatched | src/spinev_ble/charger.py:382-416 | every payload a request returns was notified after its waiter was installed, echoes the register and flag sent, and no notification serves two requests |
| ClientInvariant.NotificationReachesOnlyItsWaiter | src/spinev_ble/charger.py:321-352 | a notification settles the lock holder's reply future exactly when it matches and that future is pending; otherwise waiters and futures are untouched |
| ClientInvariant.CancelledReplyIsNotCompleted | src/spinev_ble/charger.py:341-343 | a reply future cancelled while awaited stays cancelled: a matching reply takes its entry out of the table and completes nothing |
| ClientInvariant.CallersStopExactlyAtFailureOrEnd | src/spinev_ble/charger.py:686-693 | a caller's calls succeed in turn and it stops exactly at the first that fails or after the last |
| ClientInvariant.DisconnectedInv | src/spinev_ble/charger.py:308-319 | a drop keeps the whole invariant, so failing aborts without a `done()` check never hits a done one |
| ClientInvariant.RunInv | src/spinev_ble/charger.py:134-155 | every step of every interleaving keeps the invariant |
| ClientDrop.DropLeavesNothingPending | src/spinev_ble/charger.py:308-319 | after a drop both tables are empty and nothing a task awaits is pending; the lock holder can run at once unless, exactly, its reply is in hand and it awaits its open send |
| ClientDrop.DropEndsCallsFast | src/spinev_ble/charger.py:134-155 | after a drop, whatever else happens while the link stays down, the call holding the lock (a request without its reply, a write or a history read) takes fewer than five steps of its own and no request timer, is never stuck, and ends as a connection error or as the error its own send raised; a write whose last frame was delivered succeeds; a history read whose frame was delivered ends with what it collected within one idle window |
| ClientQueued.DropEndsWaitingCalls | src/spinev_ble/charger.py:389-390 | after a drop, while the link stays down, a call queued for the lock or still to check the link takes fewer than five steps of its own, needs no timer, waits for nothing but the lock, and ends as a connection error |
| ClientQueued.BarredStep | src/spinev_ble/charger.py:426-427 | each step of such a call ends it or lowers the bound on its remaining steps, a late reply to its waiter included |
| ClientDrop.StruckStep | src/spinev_ble/charger.py:285-306 | each step of such a call ends it or lowers the bound on its remaining steps; other steps do not raise it |
| ClientDrop.DrainingStep | src/spinev_ble/charger.py:951-965 | once a history read has turned after a drop, only the idle window running out ends it |
| ClientDrop.DeliveredWriteSucceeds | src/spinev_ble/charger.py:302-306 | once a write's last frame was delivered it succeeds whatever lands before its task runs, drops included |
| ClientDrop.HistoryEndsWithinIdleWindow | src/spinev_ble/charger.py:951-965 | a drop wakes a collecting read, which then ends at once or one idle window later |
| ClientInterrupt.InterruptionsAreToldApart | src/spinev_ble/charger.py:395-409 | in any run a call ends as `Cancelled` only if it was cancelled and as `Failed(TimeoutError)` only if its deadline expired, or if its own send raised an error meaning the same |
| ClientInterrupt.ThrownCallUnwinds | src/spinev_ble/charger.py:400-416 | once its deadline has interrupted it a call ends as `Failed(TimeoutError)`, and once cancelled as `Cancelled`, whatever lands before its task runs, its reply and further deadlines included |
| ClientInterrupt.InterruptionDooms | src/spinev_ble/charger.py:291-297 | a deadline that expires or a cancellation dooms a call at once, except that one awaiting its send has that cancelled first; of two interruptions the cancellation prevails in either order |
| ClientInterrupt.RaisedSendEndsCall | src/spinev_ble/charger.py:400-409 | whatever a send raises ends the call so: a package error as itself, a plain timeout as the package's, any other error as a connection error, `CancelledError` as a timeout if the deadline cancelled the send and as a cancellation if not; drops and replies landing meanwhile change nothing |
| ClientInterrupt.QueuedCallIsCancelled | src/spinev_ble/charger.py:389-390 | a call waiting for the lock can be cancelled, and then nothing but its own record changes |
| ClientInterrupt.SendMayRaise | src/spinev_ble/charger.py:146-155 | an open send may raise anything |
| ClientOrder.OrderDoesNotMatter | src/spinev_ble/charger.py:146-155 | without failures every order of send start, send end, reply (even repeated), other notifications, other callers queueing and task turns ends with the same payload returned and the same state of the request, the lock, the tables and the wire |
| ClientOrder.SmoothCanGoOn | src/spinev_ble/charger.py:397-399 | such an exchange can always go on until only the reply is missing |
| ClientWire.CallsAreContiguous | src/spinev_ble/charger.py:418-429 | on the wire of any interleaving a call's frames are one contiguous run in order: all of them and all acked if it completed, otherwise a prefix with at most the last unacked |
| ClientWire.CommitFollowsItsFrames | src/spinev_ble/charger.py:686-693 | a frame of a later call of a task, such as a setter's commit, is on the wire only after every frame of each earlier write, all acked |
| ClientWire.FramesLeaveExactlyWhenSent | src/spinev_ble/charger.py:285-306 | a frame reaches the transport exactly when a send starts on a link that is up, uncancelled, and is the one its task has come to; an entry is acked exactly when its send is acknowledged |
| ClientWire.StepKeepsWire | src/spinev_ble/charger.py:261-306 | every step keeps the wire chained, ordered and in step with its tasks |
| ClientHistory.HistoryIsExact | src/spinev_ble/charger.py:928-949 | in any run a history read returns exactly the records notified between clearing the buffer and stopping, and its sessions are exactly theirs |
| ClientHistory.BufferChangesExactly | src/spinev_ble/charger.py:324-327 | the buffer grows by each record notified, read or no read, and is emptied by a history read alone, when it takes the lock and when it returns |
| ClientHistory.CollectBulk | src/spinev_ble/charger.py:951-965 | collecting ends by its deadline, has exactly the records that arrived before it stopped, stops at the deadline or at the first idle gap, whichever comes first, and takes a gapless stream whole; a drop counts as a wake without a record |
| ClientHistory.CollectingIsARun | src/spinev_ble/charger.py:928-936 | every outcome the loop allows is that of a run of the machine in which those wakes come at their moments, with the same records and the same stop |
| ClientHistory.MachineStarts | src/spinev_ble/charger.py:951-955 | the machine's read begins with what is in the buffer when its frame was delivered |
| ClientHistory.MachineWakes | src/spinev_ble/charger.py:951-965 | in the machine a record or drop within the window is taken and the read sleeps on from there, as the loop does, or stops at its deadline |
| ClientHistory.MachineStops | src/spinev_ble/charger.py:960-964 | in the machine a window without a wake ends the read with what it has |
| ClientTiming.LockHoldIsBoundedExactlyUntilSnag | src/spinev_ble/charger.py:291-292 | with no scheduling latency a request holds the lock at most T, a write of n frames at most n T and a history read at most 2 T, until an interruption, its deadline included, lands while a request with its reply in hand awaits a send that is not over; and the next step is such an event if and only if some punctual continuation without another exceeds the limit |
| ClientTiming.LockCanBeHeldTooLong | src/spinev_ble/charger.py:148-155 | from a fresh client, with nobody cancelling anything, a request holds the lock for any time n past T |
| ClientTiming.LockHoldIsBounded | src/spinev_ble/charger.py:427-429 | in all punctual runs the lock holder is within its bound, unless it is such a request itself: calls after it keep theirs |
| ClientTiming.TimeIsNeverLocked | src/spinev_ble/charger.py:395-399 | when such a run may not let time pass, the lock holder can run, be interrupted by its deadline, or close its window |
| ClientTiming.DeadlinesAreNotEarly | src/spinev_ble/charger.py:395-399 | in no run does a deadline interrupt a call before it has held the lock for the whole timeout |
| ClientConfig.CompletedConfigIsHeld | src/spinev_ble/charger.py:757-792 | whatever ran before, if no frame that may still arrive disagrees when the write takes the lock, then once it has completed the charger holds exactly that configuration for as long as nobody hands over a frame that disagrees |
| ClientConfigLost.ConfigIsHeldExactlyWhenUnopposed | src/spinev_ble/charger.py:152-155 | and that condition is exact: with a disagreeing frame outstanding some run completes the write and ends up with something else |
| ClientConfigLost.OutstandingFrameCanUndo | src/spinev_ble/charger.py:418-429 | such a run: the write is acked frame by frame, and then the earlier frame arrives |
| ClientReached.CompletedConfigCanBeUndone | src/spinev_ble/charger.py:152-155 | from a fresh client and any memory: a write is cancelled with its first frame handed over, another caller's write completes, and the charger does not hold it |
| ClientReadBack.CommitFindsConfigHeld | src/spinev_ble/charger.py:692-693 | when the charger gets the commit of a configuration it holds exactly that configuration, unless a disagreeing frame was outstanding or handed over since |
| ClientReadBack.SetThenGet | src/spinev_ble/charger.py:739-792 | set and get as calls among other callers: the configuration got is the one set if and only if no text has a NUL or outer whitespace, given that nothing that disagrees is outstanding, handed over meanwhile, or under way as a late answer |
| ClientStale.ReadIsFreshExactlyWhenNothingStale | src/spinev_ble/charger.py:389-416 | a read about to begin is sure to return what its register holds at some moment from then on, however the run goes, if and only if no answer under way to an earlier read of it says something else |
| ClientStale.StaleAnswerMayBeReturned | src/spinev_ble/charger.py:321-352 | otherwise that late answer may be what it returns, with nothing changing meanwhile |
| ClientReached.StaleReadCanHappen | src/spinev_ble/charger.py:321-352 | from a fresh client, any memory and configuration: a read is cancelled, the configuration is written and held, and the next read returns what the register held before |
| Charger.WorldRunsTheClient | src/spinev_ble/charger.py:285-352 | what the client does beside a charger is a run of the machine |
| Charger.AcknowledgedFramesArrived | src/spinev_ble/charger.py:418-425 | in every world what the client saw acknowledged the charger has got |
| Charger.EveryStepIsPossible | src/spinev_ble/charger.py:285-352 | and every step of the machine can happen there, apart from hearing an answer not given |
| Pieces.HoldsExactlyKept | src/spinev_ble/protocol.py:161-186 | a charger holds a configuration exactly when it keeps the piece each frame of the batch writes |
| Pieces.AcceptKeepsExactlyAgreeing | src/spinev_ble/protocol.py:161-168 | a frame leaves a piece as it was exactly when it writes another piece or the same bytes |
| ClientResults.SettersSendWriteFrames | src/spinev_ble/protocol.py:183-186 | every frame a setter sends, to whatever register, bears a flag no plain read bears, and bank 2's flag only on text registers |
| ClientResults.EchoLeavesReadWaiting | src/spinev_ble/charger.py:328-343 | the echo of a written frame leaves a waiting read's table entry and future alone |
| ClientResults.ReadsNeverReturnEchoes | src/spinev_ble/charger.py:328-343 | in no run does a read return the echo of a written frame |
| ClientResults.AlarmsComeFromTheirBank | src/spinev_ble/charger.py:478-505 | alarms reported are exactly the table's alarms set in their own bank's word, in table order; the word counted for bank 1 came in a reply with the read flag and that for bank 2 with flag 0x10; a silent bank 2 costs only its own |
| ClientResults.AlarmsAreTheChargers | src/spinev_ble/protocol.py:415-426 | beside a charger that answers each flag with its bank's word, the alarms reported are exactly the table's bits of those two words |
| ClientResults.SilentBank2CostsOnlyItsAlarms | src/spinev_ble/charger.py:496-504 | in any run, when the deadline of the second read expires, whatever else lands, the call reports exactly bank 1's alarms |
| ClientResults.AlarmReadFails | src/spinev_ble/charger.py:496-504 | how the whole read fails: as its first read does, as its second unless that timed out, as a protocol error on a short reply |
| ClientResults.AlarmReadLayout | src/spinev_ble/protocol.py:415-426 | bank 1 is read with `10 AC 39 00`, bank 2 with `10 AC 39 10`, any other is a protocol error |
| ClientResults.ControlIsConfirmedOnlyByEcho | src/spinev_ble/charger.py:581-585 | in any run a start or stop is confirmed exactly when the reply is the sent frame byte for byte |
| ClientSends.SendsOverlapExactlyAfterStrike | src/spinev_ble/charger.py:146-155 | in any run the transport sees one send at a time until the first strike: an interruption, or a drop before the reply, that lands while the lock holder waits in `_deliver` with its send not over; and the next step is a strike if and only if some continuation without any further strike overlaps two sends |
| ClientSends.AbandonedExactlyWhenLeftOpen | src/spinev_ble/charger.py:148-155 | a send joins the abandoned ones exactly when its task runs on with it open, interrupted or told of the drop by its future |
| ClientSends.SendsCanOverlap | src/spinev_ble/charger.py:152-155 | from a fresh client a run reaches two sends in the transport at once |
| ClientObject.SpinEvCharger.constructor | src/spinev_ble/charger.py:184-216 | a new client is the machine's initial state |
| ClientObject.SpinEvCharger.OnDisconnect | src/spinev_ble/charger.py:308-319 | is the machine's drop; each abort is pending when `set_exception` is called on it |
| ClientObject.SpinEvCharger.OnNotify | src/spinev_ble/charger.py:321-352 | is the machine's notification step and keeps the invariant |
| ClientObject.SpinEvCharger.RequireTransport | src/spinev_ble/charger.py:255-259 | checks the link before the lock is asked for |
| ClientObject.SpinEvCharger.Acquire | src/spinev_ble/charger.py:389-398 | from taking the lock to the first await |
| ClientObject.SpinEvCharger.Resume | src/spinev_ble/charger.py:146-155 | from any await in the locked section to the next await or the release |
| ClientObject.SpinEvCharger.LeaveSection | src/spinev_ble/charger.py:410-416 | the `finally` blocks and the release |
| ClientObject.SpinEvCharger.CollectTurn | src/spinev_ble/charger.py:951-965 | one turn of the collection loop |
| ClientObject.SpinEvCharger.Interrupt | src/spinev_ble/charger.py:397-402 | a deadline or cancellation reaching the lock holder |
| Frames.ControlSucceedsExactlyOnEcho | src/spinev_ble/protocol.py:251-275 | for a matched reply the check passes exactly on the echo, which is never the refusal |
| Frames.ControlLayout | src/spinev_ble/protocol.py:237-248 | a control frame is `10 AC 3C 01`, 01 to start or 10 to stop, and three bytes that are the password; a password that does not fit is a password error |
| Frames.ControlCheckLaw | src/spinev_ble/protocol.py:251-275 | what the check makes of any reply at all: not a control reply, a refusal, the echo, or another command |
| Frames.ControlFrameDeterminesCommand | src/spinev_ble/protocol.py:237-248 | a control frame determines command and password |
| Frames.ReadPasswordIsAccepted | src/spinev_ble/charger.py:542-548 | a password taken from the charger's word is its low three bytes and always accepted |
| Frames.ParseFrameInvertsMakeFrame | src/spinev_ble/protocol.py:278-286 | parsing succeeds exactly on eight byte frames and inverts building |
| Frames.ClockTimeLayout | src/spinev_ble/protocol.py:189-196 | accepted times are carried as `00 SS MM HH` |
| Frames.ClockDateLayout | src/spinev_ble/protocol.py:199-210 | accepted dates are carried as `00 DD MM YY`, month from 0, year from 1900 |
| Frames.ClockErrors | src/spinev_ble/protocol.py:189-220 | out of range, a clock or timezone field is a protocol error |
| Frames.TimezoneLayout | src/spinev_ble/protocol.py:213-220 | an offset is written as `10 AC 78 01 00 00 HH MM` |
| Frames.FixedFrames | src/spinev_ble/protocol.py:223-225 | the commit is `10 AC 3B 01 01 00 00 00`; history is read with its count |
| Frames.PayloadKinds | src/spinev_ble/protocol.py:371-377 | replies are the payloads of five bytes or more that begin `10 AC`; history records those of 20 or 26 between 7C and 25; never both |
| Frames.ValueOfReply | src/spinev_ble/charger.py:118-126 | the value is bytes 4 to 7 of the reply, and a shorter reply a protocol error |
| Frames.ClockWordsAreInjective | src/spinev_ble/protocol.py:189-210 | different times or dates give different frames |
| Frames.TimezoneRoundTrip | src/spinev_ble/charger.py:794-812 | the offset written is the offset read back |
| Bytes.UnpackPack | src/spinev_ble/protocol.py:304-307 | big endian words survive packing |
| Text.StringWriteLaw | src/spinev_ble/protocol.py:161-186 | a field is accepted exactly if it fits; chunks are numbered 1, 2, .. and together carry the zero padded value, which decodes to the value cut at its first NUL and stripped |
| Text.DecodeStringLaw | src/spinev_ble/protocol.py:228-234 | any reply reads as its bytes up to the first NUL, those not ASCII replaced, less all the whitespace around them and nothing else |
| Text.AsciiSpaces | src/spinev_ble/protocol.py:228-234 | which of those characters are whitespace |
| Text.FieldRoundTrip | src/spinev_ble/protocol.py:228-234 | a field reads back unchanged if and only if it has no NUL and no outer whitespace |
| Config.BatchWritesSettings | src/spinev_ble/charger.py:775-792 | the batch is built exactly for acceptable settings and leaves exactly them in the four registers of any memory, touching no other |
| Config.BatchLayout | src/spinev_ble/charger.py:781-790 | the batch is 41 frames in the order host, port, path, identifier |
| Config.RefusedSettings | src/spinev_ble/charger.py:775-780 | an empty host or a bad port is a value error, a text that does not fit a protocol error |
| Config.SetterCalls | src/spinev_ble/charger.py:791-792 | the setter is one call for the batch and, with `commit`, a second for the commit frame |
| Config.ConfigRoundTrip | src/spinev_ble/charger.py:739-792 | setting then getting the configuration returns it, whatever was stored before, if and only if its text fields survive |
| Config.ChunksFillField | src/spinev_ble/protocol.py:161-168 | the chunks replace the whole register, so nothing of a longer old value is left |
| Sessions.DecodeAcceptsExactlyRecords | src/spinev_ble/protocol.py:346-368 | decoding yields a session exactly for the records that encode it, with days of the calendar from 1900 to 2155 |
| Sessions.AcceptedDatesAreDays | src/spinev_ble/protocol.py:330-343 | the dates accepted are the days of the calendar as defined by day numbers, month offsets and year lengths |
| Sessions.DaysAreConsecutive | src/spinev_ble/protocol.py:330-343 | those days are numbered 693596 to 787097 without a gap |
| Sessions.DayNumbersDiffer | src/spinev_ble/protocol.py:330-343 | and no two share a number |
| Sessions.CalendarLandmarks | src/spinev_ble/protocol.py:330-343 | 29 February exists in 2000 and 2024 and not in 1900 and 2100; the ends of the range |
| Sessions.Deduplicate | src/spinev_ble/charger.py:938-949 | the loop returns the first occurrences of the decodable sessions |
| Sessions.FirstOccurrencesInOrder | src/spinev_ble/charger.py:938-949 | no session twice, in order of first appearance |
| Sessions.FirstOccurrencesKeeps | src/spinev_ble/charger.py:938-949 | no session is lost or added |
| Alarms.IndexAlarms | src/spinev_ble/protocol.py:121-128 | the index holds the last definition of every bit and the banks of the table |
| Alarms.IndexShippedTable | src/spinev_ble/protocol.py:64-118 | the shipped table defines no bit twice and fills both banks |
| Alarms.ShippedTableLayout | src/spinev_ble/protocol.py:64-118 | its 44 entries are bits 0 to 17 of bank 1 and 0 to 25 of bank 2, by name |
| Alarms.BitIsDigit | src/spinev_ble/protocol.py:392-401 | a bit of a word is its binary digit |
| Alarms.IndexAgreesWithTable | src/spinev_ble/protocol.py:392-401 | decoding through the index is the bit-ordered filter of the table |
| Alarms.BitOrderIsUnique | src/spinev_ble/protocol.py:392-401 | that list is determined by its elements |
| Alarms.DecodedBitsReassemble | src/spinev_ble/protocol.py:392-401 | the decoded bits are the word masked to the bank's defined bits |
| Alarms.DecodeOfOrIsMerge | src/spinev_ble/protocol.py:392-401 | decoding a bitwise or is the ordered merge of the decodings |
| TunnelText.ParseReplyLaw | src/spinev_ble/transports/ocpp.py:46-61 | text parses to given bytes exactly if, less underscores and whitespace and in lower case, it is their hex |
| TunnelText.ParsesExactlyHex | src/spinev_ble/transports/ocpp.py:46-61 | squeezed text parses exactly if it is an even number of hex digits; the only error is a protocol error |
| TunnelText.InsertionsDoNotMatter | src/spinev_ble/transports/ocpp.py:46-61 | underscores and whitespace may be inserted anywhere |
| TunnelText.TextRoundTrip | src/spinev_ble/transports/ocpp.py:27-31 | both the printed request form and the charger's joined form come back as the same bytes |
| Tunnel.TunnelIsSafe | src/spinev_ble/transports/ocpp.py:130-208 | over any run `on_disconnect` is called at most once per connect and never after a requested disconnect; only replies are handed over, and only to the registration in force; no call leaves unregistered or for a streamed register |
| Tunnel.EveryStepIsSeen | src/spinev_ble/transports/ocpp.py:130-208 | what each step of any run adds to what others see, and that it adds nothing else: a carried frame leaves exactly when somebody is registered, an accepted call's register reply is handed to the registration in force, any other result to nobody, a drop is told once |
| Tunnel.CheckFrameLaw | src/spinev_ble/transports/ocpp.py:167-176 | which frames are refused and with which error, in order |
| Tunnel.InterpretLaw | src/spinev_ble/transports/ocpp.py:184-203 | a payload comes of exactly an accepted call whose text is a register reply in hex; nothing, and no error, of one without data |
| Tunnel.InterpretErrors | src/spinev_ble/transports/ocpp.py:177-203 | its errors: timeout, the package's own, connection error for other exceptions, protocol error for what the charger answered |
| Tunnel.TunnelCarriesFramesFaithfully | src/spinev_ble/transports/ocpp.py:178-208 | a frame leaves as text that means that frame, and an accepted reply arrives as its bytes |
| Tunnel.OcppTunnelTransport.AsyncConnect | src/spinev_ble/transports/ocpp.py:130-135 | is the machine's connect |
| Tunnel.OcppTunnelTransport.AsyncDisconnect | src/spinev_ble/transports/ocpp.py:137-140 | is the machine's release |
| Tunnel.OcppTunnelTransport.NotifyDisconnected | src/spinev_ble/transports/ocpp.py:142-152 | fires the registered callback once and forgets both |
| Tunnel.OcppTunnelTransport.StartSend | src/spinev_ble/transports/ocpp.py:154-178 | checks, then sends text that parses back to the frame |
| Tunnel.OcppTunnelTransport.FinishSend | src/spinev_ble/transports/ocpp.py:179-208 | maps every outcome of the call and hands a reply to whoever is registered by then |

## Left out

- The Bluetooth transport, the command line and scanning: wrappers over libraries that are not part of this model.
- Floats: 32-bit float registers are opaque bytes and session energy is the integer count, not count times 0.01.
- Logging, error texts, timeout hints, argument type checks and the exception hierarchy beyond the error names.
- One-register getters, load balancing, status assembly, WiFi field rules and the current limit's range and session checks: they add only calls of the kinds modelled.
- Caching of the password between commands: each control command is modelled from its password on.
- Alarm codes, severities and constants: display data carried along with a bit.
- The lock's first-come order and fairness between callers.
- ClientHistory.CollectBulk: takes the task to run as soon as it may; arbitrary scheduling latency is covered by the runs of ClientHistory.HistoryIsExact, which do not bound time.
- Text.StringWriteLaw: field widths stop at 1020 bytes, because a chunk's number is one byte; a wider field fails in the source with a plain `ValueError`.
- Frames.BuildRead: parameters of 32 bits or more, for which `struct.pack` fails in the source.
- Step.Connect of the machine: connecting is one step, and a connect that fails leaves the state as it was.
