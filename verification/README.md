# Verified model of zwrt-datad

`zwrt-datad` is a device daemon: it reads the vendor's services over ubus, publishes the state of the device as
blocks with an event stream, and changes settings in transactions that confirm themselves or go back. This project
models the parts of it that are protocols, codecs or schedulers, and proves what they promise.

Verify everything with `dafny verify dfyconfig.toml`.

## How it is laid out

| files | what they hold |
|---|---|
| `OpsTxn`, `OpsTxnLaws`, `OpsTxnExact`, `OpsTxnSaved`, `OpsTxnObject` | the write transaction: operations as functions, the laws of its life, what each event does exactly, its life together with the copy on disk, the same operations in place |
| `OpsState`, `OpsStateLaws`, `OpsStateExact`, `OpsEngine` | the engine's state: every section run under its lock as a function, what each keeps, what each leaves exactly, and in place |
| `OpsProtocol`, `OpsSafety`, `OpsAllRuns`, `OpsEvidence`, `OpsTheorems`, `OpsSteps`, `OpsReuse`, `OpsQueue` | the engine as a state machine: tasks that stop at every lock, device call and sleep, a disk cell, process crashes, reboots; its invariant and the theorems over all runs |
| `BlockHub`, `BlockHubLaws`, `BlockHubExact`, `BlockHubObject`, `EventFeed` | blocks, publishing and derived data: what every operation keeps, and what each does exactly; the broadcast channel and its subscribers |
| `UbusBlob`, `UbusBlobLaws`, `UbusBlobMeaning`, `UbusBlobCoder` | the blob/blobmsg wire format: functions, round trip, what bytes mean without a decoder, encoders and parsers in place |
| `UbusCall`, `UbusCallLaws`, `UbusCallMeaning`, `UbusClient` | the retrying client as functions of whatever ubusd does, its laws, where the value of a call comes from, the client in place and the backend that falls back to the command line |
| `Uci`, `UciLaws`, `UciFile`, `UciLexer`, `UciRefs` | the UCI parser: what it reads, the printer it undoes, whole files, the lexer in its line buffer, section references |
| `Executor`, `ExecutorObject` | the round-robin scheduler, timeout limits, job queue, write gate |
| `SmsList`, `CellWindow`, `Civil` | paging of messages, the packet window, calendar arithmetic |

A file that ends in `Object`, `Engine`, `Coder`, `Client` or `Lexer` holds classes and methods that change their fields in
place; their contracts tie the new state to the functions of the file beside it.

Times are natural numbers of milliseconds (seconds in `Civil`), levels in dB are reals, byte strings are sequences of
0–255, JSON doubles are their bit patterns. A history variable is a field that the source does not have and that no
operation branches on: `serial`, `arrival`, `retired`, `judgedAt`, `past`, `lost`, `sent`, `history`.

## What was found

- *One rollback write per transaction* is false if a submit goes ahead with an op_id while a task of an earlier use
  of it still runs. A client can do that after sixteen other transactions have pushed the op_id out of the list of
  recent ones: the old driver then takes the new transaction for its own and two drivers send the rollback.
  `ReuseCanHappen` is such a run from the start, `ReuseWritesTwice` shows that every accepted reuse of that kind can
  end so, and `AtMostOneWriteEachWay` that nothing else can; a repeated request that is refused does no harm.
- *Verified or rolled back only on a reading begun in the current phase* is false in the same situation: drivers are told
  apart by op_id and generation number alone (`rust/src/ops/engine.rs:785-791`), so the old driver can end the new transaction
  with a reading that was begun before its write (`StaleReadingCanProve`, a run from the start). In every run,
  whatever op_ids the clients use, the reading proves what it is taken for, and it is fresh if and only if the
  driver that hands it in is the transaction's own (`EveryRunEndsOnEvidence`).
- *Not applied means that no reading ever showed the target* is false across a restart: a match that was noted less
  than ten seconds before is not on disk yet. While verifying, some continuation ends as not applied if and only if the
  copy on disk does not have the match, where a reading without it is possible at all (`CanEndIgnoredIff`);
  `NotAppliedNeverShown` says what must have happened to a match that was shown.
- A list of messages is refused when one store has *1000 or more* messages above the id; the error text and the
  comment at `rust/src/sms.rs:223` speak of more than 1000 (`ListExact`).
- A name of 65536 bytes or more, a string with a NUL in it, an integer above 63 bits or an attribute of 4 GiB, whose
  length wraps before it is checked, does not survive the wire format; a name with a NUL in it does. `RoundTripIff` is
  exact for every object that the encoder accepts.
- A frame whose body is not a whole number of words leaves its padding in the stream for the next read. Bodies made of
  attributes always are (`FrameRound`, `AttrsAreWords`).
- Resuming a transaction without a reboot does not look at the deadline (`RestartAloneWaitsOn`); the bound on the whole
  wait therefore needs regular ticks (`TotalWaitBounded`).
- The client's comments say that it retries only what was certainly not delivered, and that an INVOKE which the service
  itself answers with NOT_FOUND is not sent again to the same id (`rust/src/ubus/client.rs:20-24` and 284-286). The second
  is false: if the lookup after such an answer cannot be written because ubusd has restarted, the whole call is made
  again, and the same id is invoked twice (`SameIdTwice`; `SameIdIff` says exactly when). `RepeatIff` says exactly when a delivered INVOKE is followed
  by another: it was answered NOT_FOUND, and the lookup after it gave another id or, in the first pass, could not be written on the old
  connection. After any other answer, or none, nothing more is sent (`CallLaws`).

## Model

| member | source | states |
|---|---|---|
| OpsTxnLaws.SoundForever | rust/src/ops/txn.rs:415-764 | through any sequence of readings, ticks, user requests, interruptions, restarts and reboots: a terminal phase comes with a reason of the documented table, an intent is pending only while applying or rolling back, while verifying there was at most one reboot and the wait carried over is below the deadline |
| OpsTxnLaws.TerminalAbsorbs | rust/src/ops/txn.rs:600-764 | no event whatsoever changes a transaction that has ended |
| OpsTxnLaws.RollbackOffNeedsUser | rust/src/ops/txn.rs:590-597 | with automatic rollback off, a rollback phase is reached only by a user's revert among the events |
| OpsTxnLaws.VerifiedIff | rust/src/ops/txn.rs:600-664 | an event confirms a transaction as verified if and only if it is a reading, taken while it waits, that shows the target, a registration, the same card (iccid and slot, or no card before and now) and proven data (for an APN a connection newer than the write) |
| OpsTxnLaws.RolledBackIff | rust/src/ops/txn.rs:654-661 | the same for a rollback and the value it goes back to |
| OpsTxnLaws.CheckSimExact | rust/src/ops/txn.rs:225-232 | the check says same, unknown or changed exactly by iccid and slot |
| OpsTxnLaws.SimChangedIff | rust/src/ops/txn.rs:613-618 | a transaction ends because of its card if and only if a reading taken while it waits shows a card that is not the one captured, in iccid or in slot, or its driver found one before a rollback |
| OpsTxnExact.WaitOutcome | rust/src/ops/txn.rs:600-685 | what any reading or tick makes of a waiting transaction, case by case: a reading that decides ends it by its value; nothing else ends it before the deadline, and at the deadline it is not applied, rolled back, unverified or a failed rollback, each under its exact condition |
| OpsTxnExact.ReadingNoted | rust/src/ops/txn.rs:600-664 | what a reading leaves noted, whether or not it ends the wait: when it came, the last connection, and with the same card what it showed and how its probe counts; a transaction that does not wait takes no notice |
| OpsTxnExact.RestartOutcome | rust/src/ops/txn.rs:723-764 | what a restart makes of a transaction in each phase: verifying is given up exactly on the second reboot or when the time waited before a reboot has reached the deadline |
| OpsTxnExact.RequestOutcome | rust/src/ops/txn.rs:688-710 | a user keeps or reverts a change exactly while it is verified, whatever the rollback setting |
| OpsTxnExact.WriteOutcome | rust/src/ops/txn.rs:438-469 | a write starts the wait anew; a rollback also what counts as a new connection and the probes |
| OpsTxnExact.ProbeCounted | rust/src/ops/txn.rs:563-577 | failed probes are counted up to three per round on one connection; another connection or a full round starts over |
| OpsTxnExact.ProbeGoesTo | rust/src/ops/txn.rs:501-561 | a probe goes over the interface and to the name servers of the reading, by IPv6 exactly where there is no IPv4 address |
| OpsTxnLaws.OnlyReadingsProve | rust/src/ops/txn.rs:600-764 | no tick, restart, user request or write result ends a transaction as verified or rolled back |
| OpsTxnLaws.ProbeDecides | rust/src/ops/txn.rs:528-588 | a probe is asked for if and only if its success would make the reading the evidence that it is not without one and no probe was sent lately (five seconds, thirty after three failures on this connection); a failed probe is as good as none |
| OpsTxnLaws.MatchedStays | rust/src/ops/txn.rs:625-627 | once a reading has shown the target, no later event forgets it, and the transaction does not end as not applied |
| OpsTxnSaved.NotAppliedNeverShown | rust/src/ops/txn.rs:678-684 | over any events and restarts: if a transaction ends as not applied, every accepted reading that showed the target was followed by a restart from a copy on disk that did not have the match yet |
| OpsTxnSaved.SavedMatchStays | rust/src/ops/engine.rs:415-429 | once the match is on disk, no event, restart or reboot leads to not applied |
| OpsTxnSaved.CanEndIgnoredIff | rust/src/ops/engine.rs:414-429 | while verifying, some continuation ends as not applied if and only if the copy on disk does not have the match (and a reading without it is possible: the target or the value before is not empty, or one was read already) |
| OpsTxnSaved.MatchCanBeForgotten | rust/src/ops/engine.rs:414-429 | so a match that was shown but not saved can be forgotten |
| OpsTxnSaved.CopyIsEnough | rust/src/ops/engine.rs:414-429 | over any events, restarts and reboots that go on from the copy on disk the transaction stays sound, and the copy differs from it only in what readings leave noted and is less than ten seconds behind |
| OpsTxnLaws.TwoRebootsEndVerifying | rust/src/ops/txn.rs:723-764 | after two reboots, in any sequence of events, the transaction no longer verifies |
| OpsTxnLaws.BootsCountReboots | rust/src/ops/txn.rs:727-733 | the counter of boots is the number of restarts under another boot id while the transaction was open |
| OpsTxnSaved.TotalWaitBounded | rust/src/ops/txn.rs:667-764 | with regular ticks the whole time spent verifying, over all restarts and reboots from the copy on disk and with what reboots forgot of it, stays below two deadlines, the slack of the ticks and the ten seconds between saves; a confirmed transaction reports less than two deadlines and the slack |
| OpsTxnSaved.RestartAloneWaitsOn | rust/src/ops/txn.rs:723-764 | without ticks a restart within the same boot goes on waiting, however late it comes |
| OpsTxnObject.TxnObject.OnReading | rust/src/ops/txn.rs:600-664 | in place: leaves the transaction as the laws' function says, keeps it sound, and asks for a rollback exactly when one has just begun |
| OpsTxnObject.TxnObject.OnTick | rust/src/ops/txn.rs:667-685 | in place, keeping it sound, with what the driver is told |
| OpsTxnObject.TxnObject.Resume | rust/src/ops/txn.rs:723-764 | in place: taking up a transaction found on disk, keeping it sound |
| OpsTxnObject.TxnObject.WriteReturned | rust/src/ops/txn.rs:438-447 | in place, keeping it sound: the write call came back |
| OpsTxnObject.TxnObject.RollbackSent | rust/src/ops/txn.rs:457-469 | in place, keeping it sound: the rollback was written, connections count as new from now |
| OpsTxnObject.TxnObject.Revert | rust/src/ops/txn.rs:688-697 | in place, keeping it sound: allowed while verifying without a write under way, refused otherwise with the phase's message |
| OpsTxnObject.TxnObject.Keep | rust/src/ops/txn.rs:700-710 | in place, keeping it sound: the user keeps the change |
| OpsTxnObject.TxnObject.Cancel | rust/src/ops/txn.rs:714-718 | in place, keeping it sound: interrupted unless already ended |
| OpsTxnObject.TxnObject.NoteProbe | rust/src/ops/txn.rs:563-577 | in place: failures are counted per connection and per round of three |
| OpsTheorems.AtMostOneWriteEachWay | rust/src/ops/engine.rs:573-879 | over every interleaving of drivers, submits, user requests, crashes and reboots: each transaction is written at most once, none is live while a session is open, every transaction has the item of the one it overrode, and the live one and the one on disk go back to the value read, for their item, before the first of their chain; if no submit goes ahead with an op_id whose earlier task still runs, each is also rolled back at most once, to that value |
| OpsSteps.WriteStepsAtMostOnce | rust/src/ops/engine.rs:573-879 | in every run at most one step writes the change of a transaction to the device, and at most one its rollback, if no submit goes ahead with an op_id whose earlier task still runs |
| OpsSteps.RunCounts | rust/src/ops/engine.rs:692-879 | the counts of writes that the theorems speak of are the numbers of write steps in the run |
| OpsSteps.RollbackSteps | rust/src/ops/engine.rs:746-879 | a driver sends a rollback only for a live transaction that is to be rolled back, after its intent was saved and the card was found the same; another card ends the transaction, a card that cannot be read puts the rollback off |
| OpsSteps.ReadingSteps | rust/src/ops/engine.rs:746-802 | a reading is handed in with the result of its probe and the generation the driver went to sleep with; a driver whose transaction is gone kicks the queue |
| OpsSteps.AskSteps | rust/src/ops/engine.rs:895-975 | a safety write leaves nothing live and nothing queued; a user's other write ends what is live, no other source's does; reverts and keeps are taken exactly while verifying |
| OpsSteps.QueueSteps | rust/src/ops/engine.rs:978-1057 | one drainer at a time; one that found nothing puts the flag down and looks again exactly if nothing holds the lock and something waits |
| OpsSteps.SessionSteps | rust/src/ops/engine.rs:1082-1168 | a session that opens has a watcher; one that is closed or over kicks the queue |
| OpsSteps.TakenOverIsDropped | rust/src/ops/engine.rs:573-609 | after an emergency write a start resumes nothing and leaves nothing on disk |
| OpsAllRuns.RunCore | rust/src/ops/engine.rs:573-1057 | the invariant behind the unconditional part holds after every step of every run |
| OpsTheorems.RunKeeps | rust/src/ops/engine.rs:573-1057 | the invariant behind the single rollback holds after every step of every run without an accepted reuse of a busy op_id |
| OpsReuse.ReuseWritesTwice | rust/src/ops/engine.rs:616-738 | wherever an op_id is accepted while a task of an earlier use runs, some continuation writes the rollback twice |
| OpsReuse.ReuseCanHappen | rust/src/ops/engine.rs:307-330 | a run from the start that does so |
| OpsEvidence.EveryRunEndsOnEvidence | rust/src/ops/engine.rs:746-802 | in every run, whatever op_ids the clients use, the step that ends a transaction as verified or rolled back is the hand-in, by a driver of its op_id, of a reading that shows the awaited value, registration, the same card and proven data; that reading was begun for it in its current phase if and only if the driver is its own |
| OpsEvidence.RunInformed | rust/src/ops/engine.rs:746-802 | in every run no driver of the live transaction has seen more of it than there is |
| OpsReuse.StaleReadingCanProve | rust/src/ops/engine.rs:785-799 | a run from the start in which the driver of an earlier use of the op_id ends a transaction as verified on a reading begun before its write |
| OpsTheorems.EveryRunEndsOnProof | rust/src/ops/engine.rs:746-802 | in every run without an accepted reuse of a busy op_id that reading is fresh |
| OpsTheorems.EveryRunKnowsItsOpIds | rust/src/ops/engine.rs:246-257 | in every run, a submit whose op_id is live or among the last sixteen retired ends without a write |
| OpsTheorems.RecentForever | rust/src/ops/engine.rs:307-330 | in every run the list of recent transactions is the last sixteen that ended, each in a state of the table |
| OpsQueue.NoRequestStranded | rust/src/ops/engine.rs:926-1057 | in every run: the queue of old requests holds one per item in order of arrival, at most one drainer runs, and a queue that is not empty has a drainer, a kick, a driver, a submit or a watcher; every live transaction and every session has its own |
| OpsQueue.EveryScheduleLooks | rust/src/ops/engine.rs:1003-1057 | in every run and under every continuation during which requests wait and nothing holds the lock, whatever other tasks do and whatever calls bring: a driver, submit, watcher, kick or drainer that gets at most four turns comes to look at the queue, or has ended because another drainer has the flag |
| OpsQueue.QueueIsReached | rust/src/ops/engine.rs:1003-1057 | in every such state there is a task that can take those steps |
| OpsQueue.LeavesOnlySo | rust/src/ops/engine.rs:926-1057 | in every run, a request leaves the queue only by being handed to the runner, by a newer one of its item, by a clear or a safety write, with the process, or after waiting at least its time when a drainer looks while nothing holds the lock |
| OpsQueue.LookHandsOutOldest | rust/src/ops/engine.rs:1014-1032 | in every run, a look while nothing holds the lock hands out the oldest request that has not waited too long, if there is one, and keeps all others that have not |
| OpsQueue.RefusedIsPutBack | rust/src/ops/engine.rs:1045-1054 | a request that the runner could not take is first in the queue again, unless another one of its item waits |
| OpsStateLaws.DrainPopExact | rust/src/ops/engine.rs:1014-1032 | what a look takes and leaves, request by request: nothing while something holds the lock; otherwise exactly those that waited less than their time stay, without the oldest of them, which is handed out |
| OpsStateLaws.WithoutItemExact | rust/src/ops/engine.rs:978-1001 | exactly the requests of other items stay |
| OpsStateLaws.ClearIsMayGo | rust/src/ops/engine.rs:231-257 | a submit is clear to go if and only if its op_id is neither live nor recent, no session is open, and the live transaction, if any, waits without a write under way, is about the same item, and the source may override |
| OpsStateLaws.InstallLaws | rust/src/ops/engine.rs:651-692 | an overriding submit has the item of the transaction it ends, ends it as superseded, remembers it, and hands its rollback target to the new one, which is on disk with its write intent before the write |
| OpsStateLaws.FeedGoes | rust/src/ops/engine.rs:785-799 | whatever driver hands in whatever reading, the state keeps its invariant: the live transaction goes on with the same change, or ends and is remembered |
| OpsStateLaws.StartKeeps | rust/src/ops/engine.rs:573-609 | a start with a sound transaction on disk, or none, gives a state with the invariant and the same change |
| OpsStateExact.FeedExact | rust/src/ops/engine.rs:785-799 | a reading, or a failure to read, counts exactly if the transaction is still the one, in the phase, that the driver set out for; one that ends is remembered and off the disk; one that goes on is saved at once if its phase or intent changed, otherwise when the copy is ten seconds old |
| OpsStateExact.SavedAtOnce | rust/src/ops/engine.rs:709-728 | a write that came back, the intent of a rollback, a rollback that was sent and a user's revert are on disk when their section ends; another op_id changes nothing |
| OpsStateExact.InterruptExact | rust/src/ops/engine.rs:926-947 | an interruption puts the transaction away as cancelled for its reason; a safety write also empties the queue |
| OpsStateExact.GateExact | rust/src/ops/engine.rs:950-975 | an old request passes exactly if no session is open and what is live, if anything, is about its item and waits without a write under way; that one ends as superseded |
| OpsStateExact.InstallExact | rust/src/ops/engine.rs:651-692 | the new transaction has everything the request is about, the connection before the write as its reference, and rollback as set but never for an old client |
| OpsStateExact.StartExact | rust/src/ops/engine.rs:573-609 | what a start leaves live, on disk and remembered, after an emergency write and otherwise |
| OpsStateExact.SessionExact | rust/src/ops/engine.rs:1082-1168 | a session is over after seven minutes or a minute without renewal; one opens exactly if none stands and nothing is live; renewing and closing concern the session of that id alone |
| OpsEngine.Engine.Find | rust/src/ops/engine.rs:246-257 | answers exactly whether the op_id is live or recent |
| OpsEngine.Engine.Look | rust/src/ops/engine.rs:619-632 | existing, busy or clear to go, each exactly by session, item, source, phase and intent |
| OpsEngine.Engine.SubmitNow | rust/src/ops/engine.rs:652-692 | in place, keeping the engine's invariant: the lock section before the write; it goes ahead exactly by session, item, source, phase and intent |
| OpsEngine.Engine.WriteDone | rust/src/ops/engine.rs:709-728 | in place, keeping the engine's invariant: the lock section after the write |
| OpsEngine.Engine.TakeReading | rust/src/ops/engine.rs:785-799 | in place, keeping the engine's invariant: a reading counts only if the phase has not changed since it began |
| OpsEngine.Engine.RollbackDone | rust/src/ops/engine.rs:872-879 | in place, keeping the engine's invariant: the rollback is recorded and saved |
| OpsEngine.Engine.Revert | rust/src/ops/engine.rs:895-907 | in place, keeping the engine's invariant: intent and disk, or refused |
| OpsEngine.Engine.Keep | rust/src/ops/engine.rs:910-923 | in place, keeping the engine's invariant: ends and retires the transaction, or refused |
| OpsEngine.Engine.PreemptNow | rust/src/ops/engine.rs:926-947 | in place, keeping the engine's invariant: ends the transaction and empties the queue |
| OpsEngine.Engine.LegacyGate | rust/src/ops/engine.rs:950-975 | in place, keeping the engine's invariant: pass, supersede and pass, or queue |
| OpsEngine.Engine.Enqueue | rust/src/ops/engine.rs:978-1001 | in place, keeping the engine's invariant: the newest request of an item replaces the older one |
| OpsEngine.Engine.NextQueued | rust/src/ops/engine.rs:1014-1032 | in place, keeping the engine's invariant: nothing while something holds the lock, otherwise the oldest request that has not waited too long |
| OpsEngine.Engine.PutBackFirst | rust/src/ops/engine.rs:1045-1054 | in place, keeping the engine's invariant: back to the front unless a newer one of its item came in |
| OpsEngine.Engine.SessionOpen | rust/src/ops/engine.rs:1095-1114 | in place, keeping the engine's invariant: opens exactly when no transaction is live and no session is left after the expired one is taken back |
| OpsEngine.Engine.StartUp | rust/src/ops/engine.rs:573-609 | in place, keeping the engine's invariant: what was on disk is dropped after an emergency write, otherwise resumed |
| OpsEngine.Engine.Save | rust/src/ops/engine.rs:415-429 | in place: forced saves always, others every ten seconds, the file removed at the end |
| BlockHubLaws.HubForever | rust/src/block.rs:504-619 | after any sequence of hub operations: every fresh block's data is what its shape function makes of its own latest reply and, in the order of its dependencies, the latest replies of the blocks of those names (nothing where there is none); the block shows its newest data (a signal block: or a value of the same cell with every level within 1 dB, published less than 30 s before), its revision is the number of its events, and each event differs from the block's one before |
| BlockHubLaws.ReshapeKeeps | rust/src/block.rs:562-584 | recomputing only the dependents of the block whose raw reply changed restores that agreement with the latest replies for all blocks |
| BlockHubLaws.ReadOkKeeps | rust/src/block.rs:504-545 | a good read leaves the block fresh with the reply, and keeps everything |
| BlockHubLaws.ReadFailedKeeps | rust/src/block.rs:536-543 | a failed read leaves the block stale, and keeps everything |
| BlockHubLaws.RoundEndLaws | rust/src/block.rs:627-681 | after the end of a round no fresh block is older than its maximum age, fresh live blocks show their newest data, and the last event is a heartbeat with the present observation times |
| BlockHubLaws.RevisionCounts | rust/src/block.rs:587-619 | a revision in the log is the number of events of that block so far |
| BlockHubLaws.ReadInTime | rust/src/block.rs:453-475 | if checks come at most a sample interval apart, a block that one check leaves alone is at the next still within five seconds of a failed read, or its interval and one sample interval of a good one |
| BlockHubLaws.MarkedIsDue | rust/src/block.rs:478-485 | a control request marks exactly the blocks it names, or all, and changes nothing else; a marked block is due at once, unless it is derived |
| BlockHubLaws.CrossesIff | rust/src/block.rs:240-278 | a signal crosses if and only if it is not of the same cell with every level present in both and less than 1 dB apart |
| BlockHubExact.ReadOkExact | rust/src/block.rs:504-584 | a good read publishes the block if and only if it was stale or the new data differs and its policy wants it (a signal block: another cell, a level 1 dB away, or 30 s since the last time); of the other blocks only fresh dependents change, only if their data does, and by the same rule |
| BlockHubExact.ReadFailedExact | rust/src/block.rs:536-543 | a failed read makes the block stale and says so once, keeping its data and what it shows, and touches no other |
| BlockHubExact.RoundEndExact | rust/src/block.rs:622-660 | at the end of a round exactly the fresh blocks past their age become stale, and exactly the fresh live blocks with data not yet shown are published |
| BlockHubExact.MaxAgeIs | rust/src/block.rs:387-394 | a block may be three intervals old, three sample intervals where it has none, and fifteen seconds at least |
| BlockHubExact.ReplyIsLast | rust/src/block.rs:495-527 | over every run a block's reply is the last object that came for it, by number or by name |
| BlockHubExact.QuietBeatIff | rust/src/block.rs:685-698 | a heartbeat goes out unless there was one less than the quiet time ago, and tells when each block was observed |
| BlockHubExact.NotReadTooOften | rust/src/block.rs:453-475 | a block that is due again without being marked was left alone for its interval, or failed and would otherwise be read more than five seconds after that |
| BlockHubObject.HubObject.Record | rust/src/block.rs:504-545 | in place: a read, good or failed, keeps the hub's invariant, and every fresh block agrees with the latest replies |
| BlockHubObject.HubObject.ReshapeDependents | rust/src/block.rs:562-584 | in place: the loop over the dependents; afterwards every fresh block agrees with the latest replies |
| BlockHubObject.HubObject.Publish | rust/src/block.rs:587-619 | in place: what goes out, the revision, the number and the event |
| BlockHubObject.HubObject.ExpireAll | rust/src/block.rs:622-637 | in place: the loop that marks blocks stale by age |
| BlockHubObject.HubObject.FinishRound | rust/src/block.rs:640-660 | in place: expiry, hooks, heartbeat |
| BlockHubObject.HubObject.HeartbeatIfQuiet | rust/src/block.rs:685-698 | in place: a heartbeat only after a quiet time |
| BlockHubObject.HubObject.MarkForReading | rust/src/block.rs:478-485 | in place: the named blocks, or all |
| EventFeed.NoGap | rust/src/v2.rs:163-189 | any subscriber of any run has received the events cut+1, cut+2, … without a gap |
| EventFeed.CaughtUp | rust/src/v2.rs:163-189 | in any run a subscriber's rows are its snapshot with the received events replayed on it, and once it has received everything sent so far they are the hub's revision, stale flag and published data of every block, right after a heartbeat the observation times too |
| EventFeed.EndsOnlyByLag | rust/src/v2.rs:174-189 | a stream ends exactly when more than 64 events are waiting for it |
| EventFeed.StreamsApart | rust/src/v2.rs:163-189 | a new stream has not ended and starts at the newest event; one that has ended receives nothing more; no step but a receive of its own changes a stream |
| EventFeed.RunJoined | rust/src/block.rs:706-712 | every subscriber's rows agree with the log after the last event it received, at every moment of every run |
| UbusBlobLaws.RoundTripIff | rust/src/ubus/blob.rs:242-374 | for every object that the encoder accepts: decoding the encoding gives the object back if and only if its strings have no NUL, its integers fit 63 bits and sign, its names are shorter than 65536 bytes, at most 32 containers are nested in it and no attribute is so long that its length wraps |
| UbusBlobMeaning.DecodingIsMeaning | rust/src/ubus/blob.rs:142-374 | for every buffer whatsoever: decoding gives a value if and only if the bytes mean it, where the meaning is said attribute by attribute without a decoder: head word, name, types, signed numbers, text up to a NUL, arrays in order, tables as sorted maps with the last value of each name, at every level of nesting up to 32; it fails if and only if the bytes mean nothing |
| UbusBlobMeaning.InsertAllExact | rust/src/ubus/blob.rs:354-361 | whatever fields are found, in whatever order: the table is sorted by name and holds the last field found with each name and nothing else |
| UbusBlobMeaning.EveryNameIsThere | rust/src/ubus/blob.rs:354-361 | no name that was found is missing from the table |
| UbusBlobMeaning.BelowIsLexical | rust/src/ubus/blob.rs:354-361 | the order of names is the lexical order of their bytes |
| UbusBlobMeaning.SplitsIsParse | rust/src/ubus/blob.rs:142-165 | a buffer parses into attributes if and only if it consists of exactly these |
| UbusBlobMeaning.ReceivedCanBeSentOn | rust/src/ubus/blob.rs:242-374 | whatever was decoded, from whatever bytes: if the encoder takes it, decoding the encoding gives it again |
| UbusBlobMeaning.EncodesIff | rust/src/ubus/blob.rs:168-285 | a value without attributes whose length wraps is taken if and only if none is longer than 24 bits can say, and then takes exactly its length, padded to whole words |
| UbusBlobMeaning.NearestDouble | rust/src/ubus/blob.rs:247-262 | an integer beyond 63 bits goes out as the nearest double, at a tie the one with the even mantissa |
| UbusBlobLaws.DecodeEncode | rust/src/ubus/blob.rs:242-374 | with names and attributes whose lengths fit their fields: decoding an encoded object gives what the wire can carry of it, or refuses it for its depth from the 33rd level on |
| UbusBlobLaws.ReceivedSame | rust/src/ubus/blob.rs:242-276 | a value arrives unchanged exactly when it is plain |
| UbusBlobLaws.ParseAppend | rust/src/ubus/blob.rs:142-181 | attributes after a whole number of words are parsed independently |
| UbusBlobLaws.UnfitIsHeavy | rust/src/ubus/blob.rs:168-181 | a value that the encoder accepts only because a length wrapped is larger than any attribute can hold |
| UbusBlobLaws.FieldsWeight | rust/src/ubus/blob.rs:298-374 | whatever bytes come in, what is decoded is no larger than they are |
| UbusBlobLaws.FieldsClean | rust/src/ubus/blob.rs:298-361 | whatever bytes come in, what is decoded has no NUL in its strings, names under 65536 bytes and 64-bit integers |
| UbusBlobLaws.InsertAscending | rust/src/ubus/blob.rs:354-361 | inserting the fields of a sorted map in order builds that map |
| UbusBlobLaws.FrameRound | rust/src/ubus/blob.rs:406-469 | a frame read back is the frame written; the stream then stands at the next frame exactly if the body is a whole number of words |
| UbusBlobLaws.LargeFrameRefused | rust/src/ubus/blob.rs:417-440 | a frame of more than a megabyte is refused by its head |
| UbusBlobLaws.StreamRound | rust/src/ubus/blob.rs:406-469 | any sequence of frames with such bodies comes out of the stream as it went in |
| UbusBlobCoder.Parse | rust/src/ubus/blob.rs:142-165 | the loop over the buffer, every error included; what it gives is what the buffer consists of |
| UbusBlobCoder.Decode | rust/src/ubus/blob.rs:298-347 | one field, with the depth limit and every error; what it gives is what the attribute holds |
| UbusBlobCoder.DecodeTable | rust/src/ubus/blob.rs:354-361 | the fields inserted one by one, the first error wins; what it gives is the sorted map of the last field of each name |
| UbusBlobCoder.DecodeArray | rust/src/ubus/blob.rs:369-374 | the values without their names |
| UbusBlobCoder.Frame | rust/src/ubus/blob.rs:406-414 | the bytes of a frame |
| UbusBlobCoder.Buffer.Value | rust/src/ubus/blob.rs:242-276 | in place: appends the encoding of a value |
| UbusBlobCoder.Buffer.Attribute | rust/src/ubus/blob.rs:168-181 | in place: appends one attribute, refusing what does not fit 24 bits |
| UbusBlobCoder.Buffer.Table | rust/src/ubus/blob.rs:279-285 | in place: appends the fields of an object |
| UbusCallLaws.CallLaws | rust/src/ubus/client.rs:239-304 | against any behaviour of ubusd: of the requests one call may have delivered, only the very last can be an INVOKE that was not answered NOT_FOUND, and at most three are INVOKEs; the flag for the backend is exact; success means that the last INVOKE was answered OK |
| UbusCallLaws.AtMostOneRuns | rust/src/ubus/client.rs:20-24 | at most one INVOKE of a call may have run, other than with the answer NOT_FOUND |
| UbusCallLaws.RepeatIff | rust/src/ubus/client.rs:257-304 | a delivered INVOKE is followed by another attempt if and only if it was answered NOT_FOUND and the lookup after it gave another id or, in the first pass, could not be written on the old connection |
| UbusCallLaws.SameIdIff | rust/src/ubus/client.rs:257-304 | the same id is invoked twice in one call if and only if the first pass, after a delivered INVOKE answered NOT_FOUND, failed to write on the old connection and the second delivers an INVOKE to that id |
| UbusCallLaws.SameIdTwice | rust/src/ubus/client.rs:280-292 | a run in which that happens, for every object and id, with both INVOKEs delivered and answered |
| UbusCallLaws.PassLaws | rust/src/ubus/client.rs:267-304 | in one pass a second INVOKE goes to another id than the first, and nothing may have run if a write failed on an old connection |
| UbusCallLaws.RequestLaws | rust/src/ubus/client.rs:439-498 | one request is sent at most once; a write that failed on an old connection sends nothing and leaves no id |
| UbusCallLaws.ReplyIsOurs | rust/src/ubus/client.rs:469-497 | a reply is the DATA bodies and the STATUS of frames with this request's number and peer, in the order they came |
| UbusCallLaws.LookUpLaws | rust/src/ubus/client.rs:306-340 | a lookup invokes nothing, and leaves the id that it returns in the cache |
| UbusCallMeaning.CallGives | rust/src/ubus/client.rs:342-374 | whatever ubusd does, a call that returns a value has delivered an INVOKE last, and DATA frames and a STATUS 0 with its number and object came in, the first of them with an object meaning that value |
| UbusCallMeaning.LookUpTells | rust/src/ubus/client.rs:306-340 | a lookup returns, and keeps, the id in the first frame of its reply that is about the object; frames before it are well formed and about others |
| UbusCallMeaning.RequestCache | rust/src/ubus/client.rs:439-498 | after a timeout the id asked for is forgotten, after a broken connection every id, and no other failure changes the cache |
| UbusCallMeaning.CallKeeps | rust/src/ubus/client.rs:267-304 | after a call the connection is open if and only if the conversation was not cut short by the connection, the time or the format; the cache keeps the id invoked last after success and after an error of the object's own, and forgets it after "method not found" and after "not found", unless a lookup then gave the same id |
| UbusCallMeaning.ConnectIff | rust/src/ubus/client.rs:409-437 | there is a connection if and only if it was accepted and the first frame says hello |
| UbusCallMeaning.StatusExact | rust/src/ubus/client.rs:469-497 | a status is the last attribute of its type read as a signed number of 32 bits, and nothing else is one |
| UbusCallLaws.NumbersDiffer | rust/src/ubus/client.rs:388-394 | a request number comes again after exactly 65,535 requests, never sooner |
| UbusCallLaws.OldRepliesDropped | rust/src/ubus/client.rs:447-497 | over any sequence of requests of one client and whatever happens on the connection, no frame with the number of one of the previous 65,534 requests becomes part of a reply |
| UbusClient.Client.Call | rust/src/ubus/client.rs:239-265 | in place: the loop over the passes makes of the client, and of whatever ubusd does, what the laws are about; a value came in as the answer to the last INVOKE |
| UbusClient.Client.CallOnce | rust/src/ubus/client.rs:267-304 | in place: the loop over the attempts of a pass |
| UbusClient.Client.Request | rust/src/ubus/client.rs:439-498 | in place: one request with the next number |
| UbusClient.Client.Frames | rust/src/ubus/client.rs:469-497 | in place: the loop that reads frames |
| UbusClient.Client.LookUp | rust/src/ubus/client.rs:306-340 | in place: the first id that the reply has for the object |
| UbusClient.Client.DoInvoke | rust/src/ubus/client.rs:342-374 | in place: the first object in the reply |
| UbusClient.AutoBackend.Call | rust/src/ubus/backend.rs:263-293 | the command line runs if and only if the socket is out of use for now, or failed by an error of the connection, a timeout or a broken format with no INVOKE of this call possibly delivered; its time limit is what the socket left of the full one, 500 ms at least; for 30 s after it the socket is not used; a value of the socket came in as the answer to the last INVOKE |
| UciLaws.QuoteRound | rust/src/uci.rs:130-244 | reading a printed value followed by white space or the end gives back exactly that value, whatever bytes and newlines it holds, and leaves the text after it |
| UciLaws.QuotedBody | rust/src/uci.rs:165-182 | the same from inside the quotes, across lines |
| UciLaws.DoubleRound | rust/src/uci.rs:142-164 | the same for a value between quotation marks with escapes |
| UciLaws.BareWord | rust/src/uci.rs:184-215 | a word without quotes is itself; a semicolon or `#` right after it drops the rest of the line |
| UciLaws.ContinuesIff | rust/src/uci.rs:130-141 | a backslash continues its line if and only if nothing but the end of the line follows it |
| UciLaws.LinesAreCounted | rust/src/uci.rs:101-117 | the line number of errors and the newlines still to come always add up to the same |
| UciLaws.NamesAre | rust/src/uci.rs:62-70 | names are letters, digits and underscores, of packages also hyphens; types are visible ASCII |
| UciFile.FileRound | rust/src/uci.rs:285-414 | writing out any well-formed package as `config`, `option` and `list` lines with quoted values and parsing that file gives exactly the package |
| UciFile.OptionInFile | rust/src/uci.rs:326-357 | one `option` or `list` line, over as many text lines as its value takes, does to the current section what the value says and leaves the rest of the file |
| UciFile.ConfigInFile | rust/src/uci.rs:285-325 | one `config` line opens a section, named or not |
| UciFile.ConfigAgain | rust/src/uci.rs:285-325 | a `config` line with the name of an earlier section goes on with that section, or is an error if it gives another type |
| UciFile.OptionEffect | rust/src/uci.rs:326-357 | the option of that name is set, or grows into a list, in its place, and comes last if it is new; all others stay; an option without a value changes nothing |
| UciFile.PackageInFile | rust/src/uci.rs:358-364 | a `package` line changes nothing |
| UciFile.CommentInFile | rust/src/uci.rs:365-383 | nor does a line that starts with `#` |
| UciLexer.Parse | rust/src/uci.rs:387-414 | the in-place parser ends on every input and gives what the functions on the text say, every error with its line |
| UciLexer.Lexer.Arg | rust/src/uci.rs:223-244 | in place: the next argument, with the buffer and its cursors kept in bounds |
| UciLexer.Lexer.ParseStr | rust/src/uci.rs:184-215 | in place: the word ends up where it started in the buffer, and the text after it is what the functions say |
| UciLexer.Lexer.Collect | rust/src/uci.rs:184-209 | in place: the write cursor never passes the read cursor |
| UciLexer.Lexer.SingleQuote | rust/src/uci.rs:165-182 | in place: copies down over the quotes, reading more lines as it needs them |
| UciLexer.Lexer.DoubleQuote | rust/src/uci.rs:142-164 | in place: the same with backslashes |
| UciLexer.Lexer.FinishWord | rust/src/uci.rs:210-214 | in place: the terminator drops the rest of the line exactly if an unread semicolon stands under it |
| UciLexer.Lexer.GetLn | rust/src/uci.rs:101-117 | in place: the next line is put at the read cursor, what was collected stays |
| UciLexer.Lexer.Strtok | rust/src/uci.rs:262-276 | in place: the keyword and the mark after it |
| UciLexer.Lexer.SkipWord | rust/src/uci.rs:253-260 | in place: past the keyword, never past the buffer |
| UciLexer.Parser.Config | rust/src/uci.rs:285-325 | in place: a section is opened, found again or refused |
| UciLexer.Parser.Option | rust/src/uci.rs:326-357 | in place: an option is set, a list extended |
| UciLexer.Parser.Line | rust/src/uci.rs:365-383 | in place: all commands of a line |
| UciRefs.ParsedWellFormed | rust/src/uci.rs:285-357 | whatever the file holds, a parsed package has valid names, distinct among sections and within each section, no empty single value and no empty list |
| UciRefs.TypeRefsDistinct | rust/src/uci.rs:430-451 | two sections never share a type reference |
| UciRefs.ShownIsFound | rust/src/uci.rs:454-460 | the name a section is shown by leads back to that section |
| UciRefs.GetFindsShown | rust/src/uci.rs:495-530 | in every parsed file, `get` with the shown name of a section and the name of an option gives that option's value |
| UciRefs.ListTypeRefs | rust/src/uci.rs:430-451 | the counting loop gives each section its type and its number among the sections of that type |
| UciRefs.AppendQuoted | rust/src/uci.rs:417-427 | the loop appends the printed value |
| UciRefs.JoinItems | rust/src/uci.rs:512-528 | the loop joins a list, quoting items with white space |
| UciFile.ListReadsBack | rust/src/uci.rs:512-528 | a list as `get` shows it is read back item by item, if each item has white space, and is quoted, or is a bare word |
| UciFile.JoinedFront | rust/src/uci.rs:512-528 | the items stand one after another with one space between two of them |
| Executor.EveryBlockGetsItsTurn | rust/src/executor.rs:571-594 | with n blocks, a block that stays due is attempted within n rounds, wherever the cursor stands and however long calls take |
| Executor.WithinBudget | rust/src/executor.rs:584-590 | the block reads of a round take less than the budget and one more call |
| Executor.ScanExact | rust/src/executor.rs:571-594 | a round attempts every due block in rotation up to the place where it stops: the end, or the first due block that it comes to with its budget used up; the objects that timed out are those of the attempts that did |
| Executor.FewTimeouts | rust/src/executor.rs:425-485 | the timed-out calls of a round number at most the larger of six and its timed-out block reads |
| Executor.CursorMoves | rust/src/executor.rs:576-588 | a round that does not attempt a due block leaves the cursor closer to it |
| ExecutorObject.Shared.ReadBlocks | rust/src/executor.rs:571-594 | in place: the rotation, its cursor, the time used and the objects skipped |
| ExecutorObject.Shared.RawCall | rust/src/executor.rs:425-498 | in place: in a round skipped exactly if the object timed out in this round, or in the old collection if it cools down or six objects timed out; time used, objects that timed out and the cooling-down map afterwards are exact |
| ExecutorObject.Shared.ReopenGate | rust/src/executor.rs:379-400 | in place: probes up to the first answer, four at most, then the gate is open |
| ExecutorObject.Shared.CallHere | rust/src/executor.rs:353-375 | in place: the gate is open at the moment a write goes out, after as many probes as it takes, and is shut afterwards exactly if the write timed out |
| ExecutorObject.Queue.Drain | rust/src/executor.rs:502-521 | in place: runs exactly the jobs waiting at its start, in order, whatever arrives meanwhile |
| ExecutorObject.Queue.Push | rust/src/executor.rs:596-609 | in place: a control job is refused exactly when the limit is reached; the counter always agrees with the queue |
| SmsList.ListExact | rust/src/sms.rs:256-309 | on two fixed stores: refused exactly if one has 1000 or more messages above the id, otherwise exactly the oldest `limit` above it in order, with an exact `has_more` |
| SmsList.WalkListsAll | rust/src/sms.rs:248-255 | repeating from the last id lists every message above the start exactly once, in order |
| SmsList.StorePages | rust/src/sms.rs:266-306 | paging one store from any page on finds everything above the id |
| SmsList.List | rust/src/sms.rs:256-309 | the loops compute that function for any way of fetching pages, every error included |
| SmsList.ReadStore | rust/src/sms.rs:267-305 | the loop over the pages of one store |
| CellWindow.RingIsExact | rust/src/cell_window.rs:40-84 | after any readings and losses the trimmed ring answers the window of the full history since the last reset |
| CellWindow.PushAgrees | rust/src/cell_window.rs:43-57 | a push drops only samples older than the baseline |
| CellWindow.Ring.Add | rust/src/cell_window.rs:43-57 | in place: the trimming loop |
| CellWindow.Ring.Answer | rust/src/cell_window.rs:64-83 | the window of the full history; no subtraction goes below zero |
| Civil.CivilIsGregorian | rust/src/ops/record.rs:371-390 | for every day the date is valid and its Gregorian day number is the day |
| Civil.DateOfItsNumber | rust/src/ops/record.rs:371-390 | every valid date since 1970 is the date of its day number |
| Civil.NextDayNextDate | rust/src/ops/record.rs:371-390 | consecutive days have consecutive dates |
| Civil.CivilExact | rust/src/ops/record.rs:371-390 | date and time together are the count of seconds |

## Left out

- OpsTheorems.AtMostOneWriteEachWay: the single rollback holds for runs in which no submit goes ahead with an op_id while
  a task of an earlier use of it runs; `ReuseWritesTwice` shows that this is exact.
- OpsTheorems.RunKeeps: under the same condition.
- OpsTheorems.EveryRunEndsOnProof: under the same condition; `EveryRunEndsOnEvidence` is the statement for every run, and `StaleReadingCanProve` shows that freshness needs it.
- OpsTxnSaved.TotalWaitBounded: needs ticks at a regular pace; `RestartAloneWaitsOn` shows why.
- UbusBlobLaws.DecodeEncode: for names shorter than 65536 bytes and attributes whose length does not wrap; `RoundTripIff` covers the rest.
- UbusClient.Client.Call: the checks of names and arguments and the building of request bodies are one flag; a write that returns an error is taken as not delivered, as the code takes it.
- UciFile.FileRound: the file writer is this project's own; the repository prints values with `quote` but does not write files.
- UciFile.ListReadsBack: for items that have white space or are bare words; an item without white space but with a quote, a backslash, `#` or `;` is shown as it is and read otherwise.
- UbusBlobMeaning.EncodesIff: for values without attributes of 4 GiB or more, whose length wraps; `UnfitIsHeavy` says what becomes of those.
- SmsList.ListExact: the stores do not change during a call, their ids are distinct and served in descending pages of 50.
- BlockHubLaws.HubForever: shape functions are pure, block names distinct and no block depends on itself; the battery block reads live values in its shape.
- The comparison key of the signal block (identity fields and levels out of its JSON and its carrier strings) is a parameter of the policy.
- The engine holds its transaction as a value (`OpsEngine`); that the same operations work in place is shown separately (`OpsTxnObject`).
- The event stream is a state machine on values, not an object; frames are events, not text.
- Failed saves, and a pending file of a version that does not know the action.
- The last finished change with its acknowledgement, notices, the journal and its dropped-line counting, the published `op` block. `op.interrupt` is the same step as another user write.
- Each engine method runs to its end unless the process crashes.
- UTF-8 repair of received names and strings: byte strings stay as they are.
- `render_show`, `choose` and the file system around the UCI parser.
- A round run inside a drained job at startup, the heartbeat timer's schedule, liveness ages and the watchdog.
- HTTP, authentication, SSE text, vendor actions, AT port, message encryption, display wording, calendar text formatting.
