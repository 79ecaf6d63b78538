# Zond Daemon: a verified model

Zond Daemon wraps a scanning engine: it admits scans, judges and records them, follows them in
an event log, and answers clients over a pipe. The engine itself (probing, journals, resolving
names, exporting) is not part of the repository; this project models the daemon's own
machinery around it and proves what that machinery keeps.

Atomics are taken to be sequentially consistent and locks to exclude. Everything the daemon
cannot decide (what the engine does, what a resolver, a journal or a file answers, when a
client goes away) is a choice of the run, so each theorem holds whatever was chosen.

## What is here

**One scan's log, its follower and its watchers** (`EventLog`, `Digest`, `ScanProtocol`,
`ScanFollower`, `ScanWatch`, `ScanRuns`, `ScanConverges`, `ScanProgress`, `ScanWitness`,
`ScanReturn`, `ScanAsk`, `ScanNotices`, `ScanSays`, with `Fairness`). A state machine whose moves are single atomic accesses: an append and
the wake-up after it are two moves, so are the two reads of `Scan::after`, and so are the
watermark, the list of hosts and each host of a snapshot (which is more than the store may allow
to come apart, so the results do not depend on how it takes its snapshot). A run is any finite
sequence of possible moves of the engine, the follower, any number of watches over any number of
connections, and any number of `get` requests. `Log` is also there as the class it is, each
method proved to make the one change the machine makes.

**Admission and the gate** (`AuditLog`, `Gate`, `Daemon`, `Admission`, `Start`). A second state machine for
any number of requests at once: the compare-and-exchange loop with stale readings and spurious
failures, the slot moved through a request's life, and the order room, resolve, permit, journal,
audit, wire, for three kinds of start and three of resume. A trace keeps what can be seen
afterwards. `Start` has the same order as the code is written, over the mutable audit, journals
and wire, and proves that a request run alone does exactly what the machine's moves do.
`AuditLog` is the audit's file byte by byte, with writes that fail part way, and whatever an
earlier daemon left in it.

**The daemon and its scans** (`Capacity`). Admission and every scan's own machine, run together:
closing a log and giving a slot back are moves of the follower and of the request at once, so what
is proved of slots is proved of the logs themselves.

**The address policy** (`AddressRanges`, `Scope`). The engine's range set is given a reference:
lists of ranges, put into canonical form and subtracted, proved against plain sets of numbers.
The policy is built on it with the same two subtractions the code makes.

**Names** (`ScanNames`). 64-bit arithmetic written out, thirteen base-32 digits, byte order on
strings.

**A connection and its client** (`Lines`, `Speak`, `SpeakRuns`, `Client`, `Conversation`). A
third state machine: lines read, a task for each question, one output behind a lock, frames
written in pieces. `Client` is the client of `examples/scan.ts`, and `Conversation` puts both
together.

**All of it, from the store to the client** (`EndToEnd`, `EndToEndProgress`, `EndToEndFairness`). The scan's machine
and the connection's, run together: for one question and the watch that answers it, what the
task decides to write is what the watch has to tell next, and a frame written whole is a frame
told; everybody else moves as they like. It ends in `TheClientHoldsTheStore`: a client that
watched from nothing, whose promise resolved and that saw the end of the log, by the `finished`
event or by the number a `get` gives for a scan that is over, holds exactly what the final store
holds of every host whose last notice got through and whose history settles. `EndToEndProgress`
bounds how long that can take and builds a run to it; `EndToEndFairness` shows that in a run that
goes on for ever the promise resolves, whatever all the others do, so long as nobody needed for it
is kept waiting for ever.

## Where the code and its words differ

The code is modelled; what it does is proved, with a run or an input for each difference.

- `Scan::after` says it answers with nothing "only when the scan is over and the cursor has
  reached the end" (`src/scans.rs:235-236`). The entries are read before the flag, so the last
  entries and the close can fall in between: `finished` alone (`ScanWitness.EndCanComeEarly`) or
  a host with it (`ScanWitness.HostCanBeMissed`). From which states a watch cannot come to that
  is `ScanAsk.SafeToAskExactly`: exactly those in which the log already ends in `Finished`, as
  it does once a `get` has found the scan over (`ScanAsk.AGetTells`). Afterwards a client can
  tell by `finished` (`ScanRuns.NothingMissedExactly`), and watching again delivers the rest
  (`ScanProgress.RewatchDeliversTheRest`).
- The repository's front page, `src/scans.rs:199-201` and `examples/scan.ts:103-105` say a
  client that comes back with the number it reached misses nothing. Every frame of a snapshot
  carries the same number, so a client dropped in the middle of one does miss the rest of it
  (`ScanReturn.MidSnapshotReconnectMisses`). `ScanReturn.SafeToReturnExactly` says when coming
  back is safe: exactly when as many frames of the snapshot had arrived as there are hosts. Such
  a client can lack a host; it never has one wrong (`ScanConverges.WhatIsHeldIsRight`).
- A snapshot reads the store, and the log compares with what it last logged, so a host that goes
  from one document to another and back can leave a client with the one in between.
  `ScanWitness.SafeExactlyWhenSettled` says for which histories that can happen: exactly those
  where a host leaves a document with the digest of its final one.
- "Names sort into the order the scans started" (`src/id.rs:15-16`) fails when the counter wraps
  within a millisecond (`ScanNames.LaterNameCanSortEarlier`); when it holds is
  `ScanNames.SuccessiveNamesSortExactly`, and for a whole run `ScanNames.RunSortsExactly`.
- "Unique on this host" (`src/id.rs:34`) fails for two daemons that start together, each
  counting from nothing (`ScanNames.TwoDaemonsCanClash`). When it holds is
  `ScanNames.NamesDistinctExactly` within one and `ScanNames.TwoDaemonsApartExactly` across two.
- "Whether this policy bounds anything at all" (`src/scope.rs:77-80`): an allow list of both
  full ranges counts as a bound and refuses nothing (`Scope.EverythingAllowedIsBounding`), and
  is the only such policy (`Scope.BoundingMeansRefusingExactly`).
- "A line is complete or absent" (`src/audit.rs:26-27`): a write that fails may leave part of a
  line, and the next line is then glued to it (`AuditLog.TornLineSwallowsTheNext`). When every
  line the daemon was told was written can be read back is `AuditLog.EveryLineReadableExactly`.
- The order of the gate keeps a refused request from leaving a record of a scan that never ran
  (`src/policy.rs:28-30`). A start can still leave one: exactly when its journal was made and
  then its own line could not be written or the engine would not take the scan
  (`Start.JournalWithoutScanExactly`); with many requests at once, only then or when it is given
  up while the engine is being asked (`Daemon.JournalLeftBehind`; each of the three happens,
  `Admission.EachWayToLeaveAJournal`).

## Model

| member | source | states |
|---|---|---|
| EventLog.Log.Push | src/scans.rs:77-90 | one entry, numbered one past the last, and every reader woken; nothing else changes |
| EventLog.Log.Changed | src/scans.rs:93-98 | true exactly when the digest remembered for the address is another or none; the new one is remembered either way |
| EventLog.Log.Watermark | src/scans.rs:100-102 | the number of the last entry |
| EventLog.Log.After | src/scans.rs:104-112 | filtering by number yields exactly the suffix past the cursor, in order |
| EventLog.Log.Close | src/scans.rs:114-117 | the flag set and the readers woken, entries untouched |
| EventLog.LastOfConcat | examples/scan.ts:163-170 | the latest document of a host over two stretches of events is the second's if it has one, else the first's |
| Digest.Hash | src/scans.rs:129-138 | the loop computes 64-bit FNV-1a |
| Digest.PublishedDigest | src/scans.rs:124-138 | the digest of the one letter `a` is the published one, so basis, prime and order of the two operations are FNV-1a's |
| Digest.SameTailKeepsApart | src/scans.rs:124-138 | two texts with different digests keep different digests however the same text goes on |
| Digest.OneByteChangeIsSeen | src/scans.rs:124-128 | a document changed in exactly one byte is never taken for the one before |
| ScanFollower.EngineKeeps | src/scans.rs:663-703 | whatever the engine does, the log stays backed by the store and every host stays on its way into it |
| ScanFollower.CompareKeeps | src/scans.rs:675-680 | dropping a document whose digest was the last one keeps the digests remembered those of the last documents logged |
| ScanFollower.FollowerKeeps | src/scans.rs:658-727 | every step of the follower keeps the log, its digests, the order a scan ends in and the catching up |
| ScanWatch.WatchStands | src/stdio.rs:366-395 | nothing anybody else does makes a watch's snapshot, splice or sleep wrong |
| ScanWatch.SnapshotGoes | src/scans.rs:202-231 | taking the watermark before the hosts keeps the snapshot covering everything logged up to it |
| ScanWatch.ReadHostKeeps | src/scans.rs:206-221 | a host read for a snapshot is no older than the log's word on it at the watermark |
| ScanWatch.ReplayGoes | src/stdio.rs:378-380 | a snapshot frame sent extends what the client holds by the next of the snapshot |
| ScanWatch.SendGoes | src/stdio.rs:389-392 | a frame of the tail extends what the client holds by the very next entry of the log |
| ScanWatch.ReadsTheTail | src/scans.rs:239-243 | registering before reading leaves nothing unread behind a reader that found nothing, or a wake-up still owed |
| ScanWatch.WatchKeeps | src/stdio.rs:345-396 | every step of a watch, connections lost and taken up again included, keeps all of that |
| ScanRuns.EndsInOrder | src/scans.rs:160-174 | slot given back, only after the log is closed, only after one `Finished` stands last in it, only after a report there is was kept; a `get` that found the scan over carries the log's final number (with src/scans.rs:705-725) |
| ScanRuns.LogOnlyGrows | src/scans.rs:77-117 | along any run the log only grows, and once closed is frozen |
| ScanRuns.WoundUpIsQuiet | src/scans.rs:663-705 | once the follower has seen the end of its channel nothing is on its way to the log any more |
| ScanRuns.LogTellsTheStore | src/scans.rs:663-703 | with nothing on its way, the log mentions a host whose last notice got through if and only if the store has it, last with the digest of what it now is |
| ScanNotices.NoticesAreLogged | src/scans.rs:663-703 | over any stretch of any run what the log says of stages, progress and failures grows by exactly what the notices received in between come to, in order |
| ScanNotices.OnlyTheDroppedAreLost | src/scans.rs:663-703 | what the follower has received or has still to receive is what the engine announced, in order, all but as many as the channel dropped |
| ScanNotices.EveryStageAndFailureIsLogged | src/scans.rs:682-695 | a scan wound up with none dropped has every stage, its progress and every failure announced in its log, in order, and no other |
| ScanNotices.AStageIsLogged | src/scans.rs:682-687 | a stage at the head of the channel becomes exactly two entries, the stage and then the progress, and the follower is back at its channel |
| ScanNotices.AFailureIsLogged | src/scans.rs:688-695 | a failure becomes exactly one entry |
| ScanNotices.MissingExactly | src/scans.rs:696-699 | a host's last notice is lost when it is dropped from the channel with none after it or never sent, and made good by the next notice of it and by nothing else |
| ScanNotices.ADroppedHostIsMissed | src/scans.rs:696-699 | for any host a run in which its one notice is dropped and a client with its whole snapshot and the log to `finished` is never told of it |
| ScanSays.NoHostIsSaidTwice | src/scans.rs:675-680 | in every run no host entry has the digest of the host's entry before it |
| ScanSays.AGetIsToldExactly | src/scans.rs:160-174 | in every run a `get` is told the scan is running if and only if its log was open when it was asked, and a number the log had from then on; of a scan that is over, its last |
| ScanSays.TheCauseIsTheHandles | src/scans.rs:713-720 | however a run goes on, the cause in `Finished` is what the handle answered when asked, or `Aborted` for a task that failed |
| ScanSays.ReportedExactly | src/scans.rs:707-709 | a scan that is over has a report if and only if its task came to its end |
| ScanSays.AReadIsToldWhole | src/scans.rs:104-112 | one read of the log by a watch finds every entry numbered past its cursor, and all of them are told before it looks again (with src/stdio.rs:383-393) |
| ScanRuns.NoGapNoRepeat | src/stdio.rs:366-395 | over any chain of connections a client holds part of one snapshot and then one unbroken stretch of the log |
| ScanRuns.NoLostWakeup | src/scans.rs:237-248 | a reader asleep and not yet woken has nothing to read and an open log, or the follower stands just before the wake-up it owes |
| ScanRuns.EndIsAlmostTheEnd | src/scans.rs:235-247 | at `end` the log is closed; what was missed is a suffix that ends in `Finished`, empty if and only if nothing was appended after the last read of the entries, as when the log was already closed by then (with src/scans.rs:718-721) |
| ScanAsk.SafeToAskExactly | src/scans.rs:233-248 | from any reachable state and any cursor up to the end of the log, a watch begun there is told all of the log before `end` in every run if and only if the log already ends in `Finished` (with src/scans.rs:705-721, src/stdio.rs:366-395) |
| ScanAsk.AskedTooEarly | src/scans.rs:233-248 | from every other state, a run that ends the watch with something unread |
| ScanAsk.AGetTells | src/scans.rs:160-174 | a `get` that found the scan over makes every watch begun after it safe |
| ScanRuns.FinishedMeansAll | src/scans.rs:718-721 | a client that was told `finished` has the log to its end |
| ScanConverges.WhatIsHeldIsRight | src/scans.rs:202-231 | a client that read the log to its end, connections gone in the middle of its snapshot or not, has no host wrong: whatever it holds of one whose last notice got through is what the store holds (with src/stdio.rs:366-393) |
| ScanConverges.HeardLate | src/scans.rs:202-231 | what a client holds of a host is no older than the log's last word on it |
| ScanConverges.Converges | src/scans.rs:202-231 | a client sent every host of its snapshot and the log to its end holds, under any interleaving, what the final store holds of each host whose last notice got through, whatever became of other notices (with src/scans.rs:658-703, src/stdio.rs:366-393) |
| ScanWitness.SnapshotGoesStale | src/scans.rs:93-98 | for any history that returns to a digest, a run that leaves a client with the document in between (with src/scans.rs:202-231) |
| ScanWitness.SafeExactlyWhenSettled | src/scans.rs:93-98 | a history of documents is safe under every interleaving if and only if it never leaves a document with the digest of its final one (with src/scans.rs:202-231) |
| ScanReturn.MidSnapshotReconnectMisses | src/scans.rs:196-231 | for any hosts and any number of snapshot frames short of all of them, a run in which a client that came back with its number is never told of the next one, its log read to the end (with src/stdio.rs:368-381) |
| ScanReturn.SafeToReturnExactly | src/scans.rs:196-231 | for any hosts, coming back after so many frames of the snapshot leaves a client with the store in every run if and only if they were as many as there are hosts (with src/stdio.rs:366-381, examples/scan.ts:103-105) |
| ScanWitness.EndCanComeEarly | src/scans.rs:235-247 | a run in which `end` is sent with `finished` still unread |
| ScanWitness.HostCanBeMissed | src/scans.rs:235-247 | a run in which a client with its whole snapshot and its one connection is sent `end` and never told of a host the store holds |
| ScanProgress.FollowerAdvances | src/scans.rs:662-726 | every step of the follower leaves it strictly less to do |
| ScanProgress.WatchAdvances | src/stdio.rs:366-395 | every step of a watch leaves it strictly less to do before it must wait (with src/scans.rs:237-248) |
| ScanProgress.NeverStuck | src/scans.rs:237-248 | once the engine is done, the follower or the watch can move until the watch has ended |
| ScanProgress.WaitIsBounded | src/scans.rs:237-248 | among any other moves, follower and watch together make no more moves than a bound fixed when the engine was done (with src/scans.rs:705-725) |
| ScanProgress.EveryWatchEnds | src/stdio.rs:383-395 | once the engine is done and neither follower nor watch has a move, the watch has ended or its client is gone, the log is closed and the slot given back (with src/scans.rs:705-725) |
| ScanProgress.TheyEndIt | src/stdio.rs:383-395 | from every reachable state with the engine done, follower and watch by themselves, in no more moves than the bound, bring the watch to its end with the log closed and the slot back (with src/scans.rs:237-248) |
| ScanProgress.EveryFairRunEndsIt | src/scans.rs:237-248 | in every infinite run in which they are not kept waiting for ever the watch ends, whatever the engine's, other watches' and requests' moves in between (with src/stdio.rs:383-395) |
| ScanProgress.RewatchDeliversTheRest | src/scans.rs:237-248 | a watch begun from a number reached, after the log was closed, is sent exactly the rest of it (with src/stdio.rs:383-393) |
| AuditLog.Audit.Write | src/audit.rs:94-112 | the file grows by the whole line, or on a failure by exactly the bytes the disk took before it, and the caller is told so |
| AuditLog.EntriesDiffer | src/audit.rs:64-87 | no two lines are written the same: whether a scan started or was refused, its name, its kind and the code can be read back (with src/audit.rs:98-99) |
| AuditLog.ReadableExactly | src/audit.rs:26-27 | a line written whole can be read back by itself if and only if nothing was hanging where it was written |
| AuditLog.SomebodyWrote | src/audit.rs:54-60 | any file found, torn line at its end or not, is one that some writes left, so what is proved of writes is proved of every file opened |
| AuditLog.EveryLineReadableExactly | src/audit.rs:26-27 | every line the daemon was told was written can be read back if and only if none was written where a failed write had left a part of one |
| AuditLog.TornLineSwallowsTheNext | src/audit.rs:94-112 | any line cut short and any line after it make one line of the file, which is neither |
| Lines.CutKeepsLinesBefore | src/audit.rs:26-27 | a file cut off anywhere still gives every line before the cut |
| Gate.Policy.Room | src/policy.rs:74-83 | without room it always fails, with the refusal once its line is written and with `audit.unwritable` if it cannot be |
| Gate.Policy.Permit | src/policy.rs:91-103 | succeeds if and only if every address is allowed; a refusal's line comes before its answer |
| Gate.Policy.Record | src/policy.rs:109-111 | success means the start is in the audit under its name, where there is one (with src/audit.rs:64-72) |
| Daemon.CapacityHolds | src/scans.rs:282-288 | in every interleaving the counter is the number of slots held and at most the ceiling, and so is the number of scans between the engine's answer and the close (with src/scans.rs:348-378, src/scans.rs:721-725) |
| Capacity.OpenLogsHaveSlots | src/scans.rs:282-288 | admission and all scans together: the logs open at once are those of scans whose follower has its slot, and number at most what is counted as taken, which is at most the ceiling (with src/scans.rs:705-725) |
| Capacity.SlotsComeBackLast | src/scans.rs:718-725 | a scan's slot comes back once, and only after its log is closed with `Finished` at its end |
| Capacity.FollowerIsNotHeldBack | src/scans.rs:396-407 | once its scan is filed, running with admission keeps a follower from no move its scan allows it |
| Capacity.EverySlotComesBack | src/scans.rs:718-725 | from every state a scan whose engine is done is brought by its own steps, at most what its follower has left and one to file it, to a closed log and its slot back (with src/scans.rs:396-407) |
| Daemon.SlotsAreConserved | src/scans.rs:348-407 | a slot is claimed at most once and given back exactly once unless still held; nothing gets past `room` without one (with src/scans.rs:723-725) |
| Daemon.RefusedOnlyWhenFull | src/scans.rs:348-368 | a request is refused for room only if the counter it last read was the ceiling (with src/policy.rs:74-83) |
| Admission.AdmittedExactly | src/scans.rs:348-368 | from every state racing requests can come to, one that has just arrived can get a slot by its own moves if and only if the counter is short of the ceiling and it is a start or records are kept (with src/scans.rs:371-393) |
| Admission.RefusedExactly | src/scans.rs:348-368 | and can be refused for want of room if and only if the counter is at the ceiling (with src/policy.rs:74-83) |
| Admission.NoStartIsTurnedAway | src/scans.rs:370-378 | no start is turned away before it is weighed |
| Admission.NoRecordNoResume | src/scans.rs:384-387 | in every interleaving a resume on a daemon that keeps no records ends as an unknown scan or not at all, with no slot and no effect |
| Daemon.NothingUnaccounted | src/start.rs:84-221 | before every launch stands its line in the audit under the same name, and what is launched was permitted, kind by kind (with src/start.rs:306-386, src/policy.rs:16-30) |
| Daemon.EveryAddressIsAllowed | src/start.rs:112-129 | no address of any unit of any launched plan is off the allow list or on the deny list (with src/start.rs:337-350, src/policy.rs:114-133) |
| Admission.EverySweptAddressIsAllowed | src/start.rs:156-158 | no address of any sweep launched, started or resumed, is off the allow list or on the deny list (with src/start.rs:351-357) |
| Admission.LaunchedAsAsked | src/start.rs:50-72 | what is launched for a request is of the kind it asked for, for a resume under the name it asked for, and under its journal's name where one was made (with src/start.rs:243-253, src/start.rs:306-386) |
| Admission.FailuresStand | src/scans.rs:371-393 | a request that has failed ends with the fault it first met, whatever else goes on |
| Daemon.RefusalsLeaveNoTrace | src/start.rs:58-62 | a request refused for room or scope made no journal, launched nothing and has its line; one whose refusal could not be written made no journal and launched nothing; one whose start could not be written launched nothing (with src/start.rs:110-119, src/policy.rs:74-103) |
| Daemon.JournalLeftBehind | src/start.rs:114-127 | in any interleaving a failed request that made a journal failed at its own line, by the engine's answer, or by being given up |
| Admission.EachWayToLeaveAJournal | src/start.rs:114-127 | for each of those three a run in which it leaves a journal and no scan |
| Admission.GivenUpWhileResolving | src/scans.rs:371-378 | a run in which a request is given up while its targets are resolved, which leaves no journal, nothing launched and no slot held (with src/start.rs:99-110) |
| Daemon.EveryWriteIsAccounted | src/audit.rs:94-112 | every write of a refusal or a start is one of the file's in its turn, with the bytes the disk took, whether it went well or not |
| Daemon.LaunchIsReadableExactly | src/audit.rs:94-112 | whatever the file held when it was opened, each launch has its line among this daemon's writes before it, and that line can be read back by itself if and only if nothing hung where it was written (with src/audit.rs:26-27, src/audit.rs:54-60) |
| Daemon.AlwaysAWayOut | src/scans.rs:371-393 | from every reachable state each request can be brought to an end by its own moves, and then holds no slot (with src/scans.rs:718-725) |
| Daemon.EveryAnswerIsBounded | src/scans.rs:371-393 | whatever is answered from outside and whoever moves in between, a request makes at most fourteen moves from its arrival to its end, the loop of the exchange apart |
| Daemon.RetriesAreOthersProgress | src/scans.rs:348-368 | in that loop exchanges fail no oftener than the counter is changed by somebody in the meantime, and once more if the first reading was old; spurious failures apart |
| Start.AStartAlone | src/start.rs:50-221 | what the moves of one start come to, undisturbed, for every answer from outside |
| Start.AResumeAlone | src/start.rs:306-386 | the same for a resume |
| Start.StartLaunchesExactly | src/start.rs:50-221 | a start is launched, once, on what was resolved, as the kind asked for and under its journal's or a minted name, if and only if there is room, it can be read and resolved, no address resolved is turned down unless it only listens, and its line can be written; it is a scan to file if and only if the engine then takes it |
| Start.StartJournalsExactly | src/start.rs:114-118 | it makes a journal if and only if it gets as far as its line and one can be made (with src/start.rs:160-164, src/start.rs:207-211) |
| Start.StartIsWrittenDown | src/start.rs:50-81 | what stands in the audit of it in each case, under `port_scan`, `discovery` or `listen` (with src/policy.rs:74-111) |
| Start.StartFailsBy | src/start.rs:50-221 | which fault it fails by in each case, an audit that cannot be written before a refusal |
| Start.ResumeLaunchesExactly | src/start.rs:306-386 | a resume is launched, once, on what its record holds and under the name asked for, if and only if there is a record and room, the record holds what its kind needs, no address of it is turned down now unless it only listens, and its line can be written |
| Start.ResumeIsWrittenDown | src/start.rs:306-386 | what stands in the audit of it in each case |
| Start.ResumeFailsBy | src/start.rs:306-386 | which fault it fails by in each case |
| Start.JournalWithoutScanExactly | src/policy.rs:28-30 | a start leaves a journal and no scan to file if and only if a journal was made and then its line in the audit could not be written or the engine answered with an error (with src/start.rs:114-127) |
| Start.AResumeMakesNoJournal | src/start.rs:306-386 | a resume makes no journal |
| Start.Starter.RecordAndLaunch | src/start.rs:119-129 | the line, then the wire, and nothing launched that could not be written down |
| Start.Starter.Ports | src/start.rs:84-130 | the port scan's order of effects is the machine's from the reading of the request on, and nothing is launched with an address of any unit turned down |
| Start.Starter.Discover | src/start.rs:137-174 | the sweep's is, and nothing is launched with a resolved address turned down |
| Start.Starter.Watch | src/start.rs:180-221 | the listen's is, which is not judged |
| Start.Starter.Scan | src/start.rs:50-72 | run alone, a start leaves in the audit, in the journals and on the wire exactly what the machine's moves leave, and answers as they end |
| Start.Starter.ResumeOne | src/start.rs:306-386 | so does a resume, whose plan and name are the record's; nothing is launched with an address of the record turned down |
| AddressRanges.CanonicalUnique | src/scope.rs:155-165 | a set of addresses has one canonical list of ranges |
| AddressRanges.CountIsSize | src/scope.rs:95-102 | the lengths of canonical ranges add up to the number of addresses |
| AddressRanges.InsertDenotes | src/scope.rs:155-165 | merging a range in adds exactly its addresses and keeps the list canonical |
| AddressRanges.CanonDenotes | src/policy.rs:119-133 | canonical form stands for the same addresses |
| AddressRanges.MinusDenotes | src/scope.rs:106-125 | subtracting ranges is set difference, at both ends of a family too, and keeps canonical lists canonical |
| Scope.TidyUnique | src/scope.rs:155-165 | two canonical sets of either family with the same addresses are the same |
| Scope.IpSet.Subtract | src/scope.rs:108-125 | set difference on addresses of both families |
| Scope.IpSet.ExtendRanges | src/scope.rs:155-165 | set union, left canonical |
| Scope.Scope.Outside | src/scope.rs:106-129 | exactly the addresses the policy turns down, in canonical ranges |
| Scope.Scope.Permits | src/scope.rs:88-103 | succeeds if and only if every address is allowed; a refusal holds exactly the others and their number, none counted twice |
| Scope.Scope.IsBounded | src/scope.rs:78-80 | true if and only if an allow list was given or an address is denied |
| Scope.RefusesNothingExactly | src/scope.rs:77-80 | a policy refuses no address there is if and only if it denies none and its allow list, if any, is the two full ranges |
| Scope.EverythingAllowedIsBounding | src/scope.rs:77-80 | the policy that counts as bounded and refuses nothing |
| Scope.BoundingMeansRefusingExactly | src/scope.rs:77-80 | being bounded is refusing something if and only if the policy is not that one |
| Scope.ReadSide | src/scope.rs:133-148 | succeeds if and only if every expression parses, with their union; else names the first that does not and its list |
| Scope.Read | src/scope.rs:67-75 | both sides read, the allow list first; no allow list only if none was written |
| Scope.TurnedDownIsOutsideOrDenied | src/scope.rs:105-129 | what is turned down is what is asked less the allow list, with what is asked and denied |
| Scope.DenyingMoreNeverPermitsMore | src/scope.rs:52-54 | a longer deny list permits nothing new (with src/scope.rs:117-128) |
| Scope.ReachedBy | src/policy.rs:119-133 | the union of all units, canonical, in no more ranges than they hold |
| Scope.JudgingThePlanJudgesEveryUnit | src/policy.rs:114-133 | judging the union is judging every unit's every address |
| ScanNames.Encode | src/id.rs:48-57 | the digit loop fills in the thirteen digits of the value, and they read back as it |
| ScanNames.NameReadsBack | src/id.rs:46-57 | every 64-bit value comes back from its name, so no two share one |
| ScanNames.NamesAreReadable | src/id.rs:24-26 | names hold only digits and capitals, and no `I`, `L`, `O` or `U` |
| ScanNames.NameHoldsItsMoment | src/id.rs:35-57 | a name is thirteen digits that read back as its millisecond and the low sixteen bits of its counter |
| ScanNames.OrderIsNumeric | src/id.rs:46-47 | names of one width sort as strings if and only if their values do as numbers |
| ScanNames.Mint.Next | src/id.rs:35-44 | the name of the millisecond and the counter drawn, the counter one on, wrapping |
| ScanNames.NamesSort | src/id.rs:15-16 | names sort by millisecond, then by the counter's low sixteen bits (with src/id.rs:35-44) |
| ScanNames.CounterWrapIsUnseen | src/id.rs:41-43 | the counter's own wrap at 2^64 changes no name |
| ScanNames.NameComesBack | src/id.rs:28-44 | two draws give one name if and only if they share a millisecond and a whole number of counter wraps lies between |
| ScanNames.NamesDistinctExactly | src/id.rs:34-44 | a run of calls repeats no name if and only if no two calls a multiple of 65536 apart read the same millisecond |
| ScanNames.TwoDaemonsApartExactly | src/id.rs:31-44 | the names of two daemons are apart if and only if no calls of the two drew the same sixteen bits in one millisecond |
| ScanNames.TwoDaemonsCanClash | src/id.rs:31-44 | two daemons whose first scans start in one millisecond name them the same |
| ScanNames.LaterNameCanSortEarlier | src/id.rs:15-16 | a later name of the same millisecond that sorts before an earlier one (with src/id.rs:41) |
| ScanNames.SuccessiveNamesSortExactly | src/id.rs:15-16 | two successive names sort in order if and only if the clock went forward, or stood still and the counter did not wrap (with src/id.rs:41-43) |
| ScanNames.RunSortsExactly | src/id.rs:15-16 | all names of a run are in order if and only if that holds at every step of it |
| Lines.SplitLine | src/stdio.rs:402-409 | a line and its newline make one line more, after whatever was left hanging |
| SpeakRuns.SplitRecovers | src/stdio.rs:397-409 | splitting whole frames at newlines gives back each as it was written |
| SpeakRuns.WholeFrames | src/stdio.rs:402-409 | at any moment the output splits into the frames written whole and a part of the one whose writer holds the lock |
| SpeakRuns.EveryQuestionAnswered | src/stdio.rs:83-129 | when `speak` returns, every line but blank ones has one answer, a watch its events before it; no task is left and the output is those frames (with src/stdio.rs:132-189, src/stdio.rs:350-396) |
| SpeakRuns.FramesSuitTheirLines | src/stdio.rs:99-189 | every frame written bears its question's own label and is a result or an error, or for a watch an event, an end or an error; a line that could not be read gets an error with no label, a blank line nothing (with src/stdio.rs:350-396) |
| SpeakRuns.RefusalsStandAlone | src/stdio.rs:350-366 | a question that gets an error gets nothing else |
| SpeakRuns.UnreadableIsAnsweredFirst | src/stdio.rs:106-114 | a line that could not be read has been answered before anything after it is read |
| SpeakRuns.QuestionsAreNotWaitedFor | src/stdio.rs:116-120 | however many questions are still being answered, the reader can go on |
| SpeakRuns.LabelTellsThemApart | src/stdio.rs:34-39 | the frames under a label used once are those of its question, in the order its task wrote them |
| SpeakRuns.NeverStuck | src/stdio.rs:99-128 | until `speak` has returned somebody can move (with src/stdio.rs:402-409) |
| Client.Zond.Call | examples/scan.ts:73-87 | a fresh id, its handler registered, its question written |
| Client.Zond.Watch | examples/scan.ts:107-123 | the same with a stream |
| Client.Zond.Receive | examples/scan.ts:59-65 | an event goes to its stream, anything else settles its promise and removes its handlers, unknown and null ids are passed over |
| Client.StaysSound | examples/scan.ts:51-66 | ids stay in step with the questions asked and handlers are only those of questions asked |
| Client.HostMap.OnEvents | examples/scan.ts:163-170 | after any events the map holds of each address its latest document, and no other address |
| Conversation.StepKeeps | examples/scan.ts:59-66 | every step of client, daemon or pipe keeps each promise what the frames taken under its label make of it (with src/stdio.rs:83-129) |
| Conversation.HearsItsOwn | examples/scan.ts:107-123 | at any moment a watch has heard a first part of its own events and no promise settled twice (with src/stdio.rs:34-39) |
| Conversation.EveryPromiseSettles | examples/scan.ts:73-123 | once the daemon has returned and all is read, every promise settled once with its own answer, every watch heard exactly its own events, and no handler is left (with src/stdio.rs:123-128) |
| Conversation.ACallGetsItsAnswer | examples/scan.ts:73-87 | once all is read, a question that is no watch has resolved to a text if and only if its one answer is a result of that text, and been rejected with it if and only if it is an error of that text |
| Conversation.AWatchGetsItsAnswer | examples/scan.ts:107-123 | a watch has resolved if and only if its last frame is the end, and been rejected if and only if it is an error |
| EndToEnd.HalvesHappen | src/stdio.rs:350-396 | what scan and connection do together is a run of each by itself |
| EndToEnd.KeepsInStep | src/stdio.rs:366-395 | whoever moves, the events a watch's task has written are those its watch has told, and the frame on its way is the next |
| EndToEnd.NothingElseHoldsItBack | src/stdio.rs:366-395 | a watch's task, taking its snapshot or telling, can move whenever the scan allows its watch a move and nobody else has the output |
| EndToEndProgress.AnswerIsBounded | src/stdio.rs:366-395 | once the engine is done, follower and watch between them make no more moves than a bound fixed then, whatever else goes on in the scan and on the connection |
| EndToEndProgress.EveryWatchIsAnswered | src/stdio.rs:383-395 | once the engine is done and neither the follower, the question's task nor whoever has the output has a step left, the watch has ended, the log is closed and the question's answer is out (with src/stdio.rs:402-409) |
| EndToEndProgress.JointWeighs | src/stdio.rs:366-409 | once the engine is done no step of anybody adds to what is left to do for the question, and each step of the follower or of its task takes something off |
| EndToEndProgress.TheyAnswer | src/stdio.rs:366-409 | from every state the two can come to with the engine done, a run of the follower, the question's task, whoever has the output and the client's reader that ends with the answer out and the promise resolved, once (with examples/scan.ts:107-123) |
| EndToEndFairness.EveryFairRunResolves | examples/scan.ts:107-123 | in every infinite run the promise of a watched question resolves, once, if the follower and its task are not passed over for ever, nobody keeps the output for ever and the client goes on reading (with src/scans.rs:705-725, src/stdio.rs:366-409) |
| EndToEnd.ResolvedHasEnded | examples/scan.ts:107-123 | a watch's promise that resolved means the scan's watch ended, its log closed, and the client heard all it told |
| EndToEnd.TheClientHoldsTheStore | examples/scan.ts:163-170 | from store to client, under every interleaving: promise resolved and the end of the log seen, the map the client keeps is the scan's final host store, host by host for each whose last notice got through and that never left a document with the digest of its last (with src/stdio.rs:350-396, src/scans.rs:202-248, src/scans.rs:658-727) |

## Left out

- The engine: what it probes and finds, journal files, resolving, exporting, comparing and
  merging. Each is a choice of the run or a parameter.
- Its `IpSet`: the repository only uses it. `AddressRanges` and `Scope.IpSet` are a reference,
  and the parsing of address expressions is a parameter (`Expression.parsed`).
- JSON. A frame is what it says and a line without a newline; a watch request, a policy or a
  record is what was read of it. A frame that could not be serialised, which the code replaces
  with an empty object, and a host that could not be, which it skips, are not modelled.
- Failures of the pipe: a write or a read that fails ends the task or `speak` itself early. A
  watch whose client goes away can stop at any frame in `ScanProtocol`; `Speak` has no such
  moves.
- ScanConverges.Converges: asks of a host that its last notice was not dropped (`missing`) and
  that its history settles. The first is the engine's channel to keep, and is made good by the
  next notice of that host (`src/scans.rs:696-699`); the second is shown to be needed.
- ScanReturn.SafeToReturnExactly: is about hosts whose histories settle, a position that is not
  zero, which would ask for a new snapshot.
- EndToEnd.TheClientHoldsTheStore: asks the same of the scan, and is about one question watched
  from nothing over one connection that stands; connections that go are in `ScanConverges` and
  `ScanReturn`.
- SpeakRuns.NeverStuck: somebody can always move, not that the scheduler is fair. Under a fair one
  a watch comes to its end by `ScanProgress.EveryFairRunEndsIt`, and its promise resolves by
  `EndToEndFairness.EveryFairRunResolves`; that the runtime's scheduler and its lock are fair is
  the runtime's to keep.
- Daemon.RetriesAreOthersProgress: bounds a request's failed exchanges by other requests'
  progress, which is all the loop promises; spurious failures have no bound.
- Scans read back from a record: their `after` is always empty (`src/scans.rs:523-529`), so
  everything about tails is about live scans.
- Where a scan stands (`progress`) is the engine's to say: the progress entry after a stage carries
  what the model's notice of the stage does, and a snapshot's is a fixed one.
- Registering a started scan under its name, so two scans of one name and the map they share;
  `list`, `get`, `prune`, `export`, `diff`, `merge` and `detections`.
- That the cause `get` reports and the cause in `Finished` agree: they are asked for separately
  (`src/scans.rs:166`, `src/scans.rs:713-716`) and need not.
- AuditLog.Audit.Write: a line of the audit is its event, name, code and kind; the time, the
  targets as asked for and the message are not kept. A crash of the machine is a file cut short.
- What a refusal says: the ranges and the count are proved, the sentence and its shortening
  (`src/scope.rs:167-200`) are not.
- Reading a request into settings (`request`, `evasion`, `settings`, `narrow`), `src/codec.rs`,
  `src/convert.rs`, `src/export.rs`, `src/error.rs`, `src/main.rs`, `src/listen.rs`: field
  copying, tables and plumbing.
- Panics, poisoned locks, weak memory order, and the clock: `mint` takes its millisecond as a
  parameter, and names are about milliseconds below 2^48.
