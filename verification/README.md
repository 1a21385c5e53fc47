# InboxKey in Dafny

InboxKey fills verification codes from mail and text messages into web pages. A browser extension polls mailboxes while
a page waits for a code; a native program, InboxBridge, holds the IMAP accounts and talks to the extension over stdin
and stdout. This project models the parts whose correctness depends on interleaving, persistence or arithmetic, and
proves what they promise.

| file | what it models |
|---|---|
| `WatchTypes`, `WatchProtocol` | the watch session: every handler of the session controller cut into atomic steps at its awaits, over worker memory, queued storage writes, timers and a clock; a worker restart is a step |
| `WatchInvariant`, `WatchSteps` | the inductive invariant and the proof that each step keeps it |
| `WatchTheorems`, `WatchStall` | what holds in every run; which sessions are left active |
| `WatchBaseline` | what a baseline holds, and what is classified against it |
| `WatchLife` | what starts, answers, cancellations and restarts do, field by field, and that no active session loses its polls and no cancelled one comes back |
| `WatchWitness` | runs from an empty browser to the exceptional states |
| `CodeMatcher` | the choice among scored codes |
| `SessionController` | the controller as an object: each method takes a protocol step and keeps the invariant |
| `SessionPoller` | the dual-timer scheduler as an object, alarm names, and the proof that its operations are the protocol's |
| `AccountStore` | the bridge's account file under its advisory lock, with any number of processes |
| `AccountKeys`, `BridgeState` | adding, removing and uninstalling accounts with their keychain entries |
| `MailSelection` | which messages a fetch returns |
| `Framing`, `BridgeServer` | the length-prefixed wire format and the bridge's reader, dispatch and writer tasks |
| `RateLimiter` | the 30-second limit on automatic polls |
| `Cooldown` | the two-level cooldown cache of field detection |
| `SplitInput` | codes split over several inputs: finding the group, its length, filling it |

`dafny verify dfyconfig.toml` checks everything.

A run is a sequence of steps, each enabled where it is taken. The environment chooses freely among them: which timer
fires, what an adapter returns, when storage applies a write, when the worker dies. The theorems quantify over all runs.

Eight places where the code does less than its comments or callers expect are stated as lemmas, each beside the exact
condition under which it does meet them:

- A start handled before `initialize` has loaded the stored sessions leaves a tab with two active sessions
  (`StartBeforeLoadBreaksTabs`, `StartBeforeLoadKeepsTabsIff`).
- An account added while an uninstall runs, or a deletion the keychain refuses, may leave a credential without a record
  (`FinishBoth`, `FinishUninstall`, `RemoveOrphansIff`, `UninstallSafeIff`).
- `--cleanup` repairs an unparseable account file before it reads it, reports success, and leaves every credential
  (`CleanupCommand`, `CommandCleansIff`).
- The two safety nets for skipped polls do not keep every session from sitting active: a skip followed by a last poll that
  is not skipped leaves it so (`SkipLeavesSessionActive`, `StillActiveIff`, `LeftActiveForGood`).
- The cap on fetched messages can hide a message of the requested window (`CapCanHideMail`, `GetsTheNewestInWindowIff`).
- Forgetting one field leaves another one with the same key in cooldown (`ForgottenByAnother`, `AgreesIffInjective`).
- Split boxes of two or more characters derive a length that filling then rejects, unless there are as many boxes as
  characters in one (`WideBoxesOccur`, `ExpectedLengthIff`).
- The group of a split input can depend on which of its inputs is the entry point (`EntryPointMatters`, `SameGroupIff`).

`SpacedIffClockPositive` states why a hypothesis is needed: the rate limiter relies on a clock above 0.

## Model

| member | source | states |
|---|---|---|
| `WatchTheorems.OneActiveSessionPerTab` | extension/src/background/session-controller.ts:309-372 | two active sessions of one tab are the same session, in memory and in every store ever written or queued, whatever starts, cancellations, polls and restarts interleave |
| `WatchTheorems.AnnouncedAtMostOnce` | extension/src/background/session-controller.ts:459-537 | the poll path announces a filled or timed-out completion at most once per session over the whole history, restarts included |
| `WatchTheorems.AnnouncedIsOver` | extension/src/background/session-controller.ts:513-519 | once a completion is announced, neither the stored record, nor any queued write, nor memory holds the session as active; a racing cancellation may have removed the record |
| `WatchTheorems.EachPollOncePerProcess` | extension/src/background/session-poller.ts:159-249 | within a process an index of a session passes the guards of handlePoll at most once, however often its timeout and alarm fire |
| `WatchTheorems.ProgressIsSound` | extension/src/background/session-controller.ts:431-506 | pollsCompleted is strictly increasing and in range, in memory and in every store; it is never full while the session is active |
| `WatchTheorems.ExhaustedMeansEveryPoll` | extension/src/background/session-controller.ts:521-537 | a timeout that is not a skip stall is announced only when pollsCompleted is exactly 0..n-1 |
| `WatchStall.SkipConsumesNothing` | extension/src/background/session-controller.ts:481-504 | an index skipped by this process is not in pollsCompleted |
| `WatchStall.StillActiveIff` | extension/src/background/session-controller.ts:470-541 | when every poll of a session, reached by any run, has completed or been skipped in this process and no code or cancellation ended it, it is still active exactly when some poll was skipped, none of the skipped ones had the last index, and each was answered before `start + 1000 * timeout` |
| `WatchStall.LeftActiveForGood` | extension/src/background/session-controller.ts:431-446 | such a session is not polled again: until the worker restarts no poll of it passes, and it stays active unless it is canceled |
| `WatchStall.TimeoutHasReason` | extension/src/background/session-controller.ts:481-537 | over all runs a session timed out only with exactly the polls 0..n-1 completed, or after a skip of its last index or one answered at or after `start + 1000 * timeout` |
| `WatchWitness.SkipLeavesSessionActive` | extension/src/background/session-controller.ts:470-504 | a run from an empty browser to such a session: three polls in ten seconds, the first slow, the second skipped at five seconds, the others without a code |
| `WatchTheorems.CaptureIsExclusive` | extension/src/background/session-controller.ts:633-722 | the baseline sentinel of a session is up exactly while one poll, and only one, is in its critical section |
| `WatchTheorems.MemoryOnlyEvolves` | extension/src/background/session-controller.ts:885-1045 | within a process: a terminal status is final, completed polls stay completed, a written baseline never changes (an empty one included), newArrivalCodes is append-only |
| `WatchTheorems.DiskOnlyEvolves` | extension/src/background/session-controller.ts:1162-1171 | the same on disk over whole runs and restarts; no later persist writes an active status back |
| `WatchTheorems.AppliedStays` | extension/src/background/session-controller.ts:1162-1171 | a write storage has applied is never taken back, by a restart either |
| `WatchTheorems.ArrivalsAreFreshOrNew` | extension/src/background/session-controller.ts:954-1042 | every google-messages arrival was received no earlier than 120000 ms before the start; every email arrival is that recent or absent from its mailbox baseline |
| `WatchTheorems.UnbaselinedContributesNothing` | extension/src/background/session-controller.ts:1203-1226 | a mailbox without a baseline has no entry in newArrivalCodes |
| `WatchTheorems.BaselinedMailNeverLeaks` | extension/src/background/session-controller.ts:885-1012 | old or undated mail recorded in a baseline, and a text message without a reference or whose conversation row in a snapshot-seeded baseline has its hash and was not read before it turned unread, is in no arrival list at any later time of the run, restarts included |
| `WatchTheorems.BaselinedMailNeverLeaksInMemory` | extension/src/background/session-controller.ts:885-1012 | the same from the moment the baseline is in memory, while the process lives |
| `WatchBaseline.EmailBatchIsBuffered` | extension/src/background/session-controller.ts:693-701 | of an email batch the key `provider:mailbox:message` of every message is buffered, in order, after what was there |
| `WatchBaseline.SmsBatchIsBuffered` | extension/src/background/session-controller.ts:674-691 | of a text-message batch one row for every message that has a reference and a hash is buffered, with its fields, in order |
| `WatchBaseline.EmailBaselineIsBuffer` | extension/src/background/session-controller.ts:930-942 | a mailbox's first baseline is what the poll has buffered for it, and its batch counts as just baselined |
| `WatchBaseline.SmsBaselineIsSnapshotOrBuffer` | extension/src/background/session-controller.ts:891-927 | a text-message baseline is the stored snapshot when that was taken 0 to 600000 ms before the start, and else the buffered rows; the buffered rows are saved as the next snapshot |
| `WatchBaseline.UsableSnapshotIff` | extension/src/background/session-controller.ts:1283-1310 | a snapshot is used exactly when it is neither from after the start nor older than ten minutes |
| `WatchBaseline.BatchEndsInBaseline` | extension/src/background/session-controller.ts:674-942 | whatever interleaves between a batch and the baseline its critical section writes: every message of the batch is in that baseline |
| `WatchBaseline.BatchedMailNeverLeaks` | extension/src/background/session-controller.ts:674-1042 | end to end: an old or undated message of a batch that baselined its mailbox is in no arrival list of the session while the process lives |
| `WatchBaseline.BatchedMailNeverLeaksAfterRestart` | extension/src/background/session-controller.ts:674-1042 | and, once storage has the baseline, in none at any later time, restarts included |
| `WatchBaseline.KeysAreDistinct` | extension/src/background/session-controller.ts:694-697 | different messages of a mailbox have different keys |
| `WatchBaseline.FetchedIsClassified` | extension/src/background/session-controller.ts:724-1042 | whatever interleaves, the candidates a poll fetched are the ones it classifies |
| `WatchBaseline.BaseliningBatchArrivesIff` | extension/src/background/session-controller.ts:960-1030 | a candidate of the batch that has just become its mailbox's baseline arrives exactly when it was received no earlier than 120000 ms before the start and has a code or link |
| `WatchBaseline.EmailArrivesIff` | extension/src/background/session-controller.ts:954-1030 | a later email arrives exactly when its mailbox has a baseline, the baseline lacks its key, and it has a code or link |
| `WatchBaseline.KnownConversationArrivesIff` | extension/src/background/session-controller.ts:1208-1226 | a text message of a conversation the baseline knows arrives exactly when it is recent, has a code or link, and its hash differs from the row's or it is unread where the row was not |
| `WatchBaseline.UnknownConversationArrivesIff` | extension/src/background/session-controller.ts:1208-1226 | one of a conversation it does not know: exactly when it has a reference, is recent and has a code or link |
| `WatchBaseline.UnbaselinedNeverArrives` | extension/src/background/session-controller.ts:1203-1226 | one of a mailbox without a baseline: never |
| `WatchLife.CancelledIsForgotten` | extension/src/background/session-controller.ts:385-414 | over all runs: a session whose cancellation was announced is in neither the map nor storage nor any queued write, at any later time, restarts included |
| `WatchLife.ActiveSessionsAreWatched` | extension/src/background/session-controller.ts:273-425 | over all runs: every active session has a timer for each of its polls and the poller's schedule, or its start still waits for storage |
| `WatchLife.CommitRemoves` | extension/src/background/session-controller.ts:404-408 | the commit of a cancellation drops the session, its schedule and its marks, and queues a write of exactly the other live sessions |
| `WatchLife.StartInserts` | extension/src/background/session-controller.ts:315-373 | a start that finds no active session of its tab adds one active, empty session with the request's fields, leaves the others, and queues a write of exactly the live ones |
| `WatchLife.StartCancelsFirst` | extension/src/background/session-controller.ts:309-313 | one that finds some cancels the first and changes nothing else |
| `WatchLife.NoCodeConsumes` | extension/src/background/session-controller.ts:506-541 | an answer without a code adds exactly its index to pollsCompleted and saves, or times the session out when that was the last one missing |
| `WatchLife.CodeFills` | extension/src/background/session-controller.ts:506-519 | an answer with a code fills the session with it and consumes the index |
| `WatchLife.FillsIff` | extension/src/background/session-controller.ts:1058-1140 | a poll's decision is the given arrival exactly when it is eligible, has the first highest score, at least 10, nothing suppresses it, and it is not a text-message code younger than 5000 ms |
| `WatchLife.RestartLoadsActive` | extension/src/background/session-controller.ts:273-288 | a new worker holds exactly the records stored as active, each with a timer for every poll |
| `WatchTheorems.AnnouncedFillIsSound` | extension/src/background/session-controller.ts:1058-1150 | an announced fill is the recorded code of a filled session: an eligible arrival with lawful provenance, of maximal score, first among its equals, at least 10 points; a text-message code (not a link) was at least 5000 ms old when it was chosen |
| `WatchTheorems.StartBeforeLoadBreaksTabs` | extension/src/background/session-controller.ts:273-288 | what atomic restart excludes: a start handled before initialize has loaded an active session of its tab always leaves two active sessions |
| `WatchTheorems.StartBeforeLoadKeepsTabsIff` | extension/src/background/session-controller.ts:273-313 | at the call: a start handled before the load keeps one active session per tab exactly when storage holds no active session of its tab |
| `WatchWitness.StoredSessionReachable` | extension/src/background/session-controller.ts:273-313 | such a stored session is reachable from an empty browser, for every tab |
| `WatchSteps.StepKeepsInv` | extension/src/background/session-controller.ts:273-576 | each of the 23 atomic steps keeps the invariant the theorems rest on |
| `WatchSteps.RunKeepsInv` | extension/src/background/session-controller.ts:273-576 | so does every run of any length |
| `WatchTypes.AdmitGivesProvenance` | extension/src/background/session-controller.ts:954-1030 | whatever the classification lets through has lawful provenance |
| `WatchTypes.DecideIsGood` | extension/src/background/session-controller.ts:1058-1140 | a decision picks the first best eligible arrival over the threshold and never one that has to settle |
| `WatchTypes.DecideIff` | extension/src/background/session-controller.ts:1086-1140 | a poll fills an arrival exactly when it is the first best eligible one, accepted and settled, and nothing suppresses the fill |
| `WatchTypes.DeferredIff` | extension/src/background/session-controller.ts:1228-1239 | a fill is deferred exactly for a google-messages code, not a link, received or seen less than 5000 ms ago; never for an email or a link |
| `WatchTypes.NewArrivalsComplete` | extension/src/background/session-controller.ts:954-1042 | every candidate of the poll that the gates admit becomes an arrival |
| `WatchTypes.EligibleScoresComplete` | extension/src/background/session-controller.ts:1058-1069 | every eligible arrival takes part in the choice |
| `WatchTypes.NewArrivals` | extension/src/background/session-controller.ts:954-1042 | nothing becomes an arrival that is not a candidate of the poll and admitted by the gates |
| `WatchTypes.FindRow` | extension/src/background/session-controller.ts:1214-1214 | the row found for a conversation is one of the baseline, and none is found only when there is none |
| `WatchTypes.PollTimesKept` | extension/src/background/session-controller.ts:325-332 | the offsets polled are exactly those of the schedule up to the timeout, in order, and just 0 when the timeout is negative |
| `WatchProtocol.NextToCancel` | extension/src/background/session-controller.ts:309-313 | live iteration of the session map: the next slot from the cursor on that holds an active session of the tab, none before it |
| `CodeMatcher.FindBestIsFirstMax` | extension/src/lib/matching/code-matcher.ts:189-203 | there is an answer exactly when the maximal score is accepted, and it is the first entry with that score |
| `CodeMatcher.SortDescSorts` | extension/src/lib/matching/code-matcher.ts:189-190 | the sort puts scores in falling order |
| `CodeMatcher.SortDescKeepsEntries` | extension/src/lib/matching/code-matcher.ts:189-190 | and is a permutation |
| `SessionControllerClass.SessionController.Initialize` | extension/src/background/session-controller.ts:273-288 | loading the stored records is the restart step of the protocol: only active records, all rescheduled; the invariant holds afterwards |
| `SessionControllerClass.SessionController.LoadActive` | extension/src/background/session-controller.ts:279-287 | the loop over persisted records keeps the active ones and nothing else |
| `SessionControllerClass.SessionController.ContinueStart` | extension/src/background/session-controller.ts:309-372 | one turn of the cancel loop, or the insertion when the walk finds no active session, is the protocol step and keeps the invariant |
| `SessionControllerClass.SessionController.InsertSession` | extension/src/background/session-controller.ts:315-373 | the new session is in the map and in the write queued for it |
| `SessionControllerClass.SessionController.CancelSession` | extension/src/background/session-controller.ts:385-394 | an active session is canceled before the first await and nothing else changes, stays what it was if it was over, and the invariant is kept |
| `SessionControllerClass.SessionController.FinishCancel` | extension/src/background/session-controller.ts:404-408 | polls dropped, session deleted and persisted: the protocol step, keeping the invariant |
| `SessionControllerClass.SessionController.TimerFired` | extension/src/background/session-poller.ts:222-249 | a poll starts exactly when its index is unmarked in this process, the session is live and active and the index not completed; the mark is set and the invariant kept |
| `SessionControllerClass.SessionController.TryCapture` | extension/src/background/session-controller.ts:635-648 | check-and-set of the sentinel in one step: taken exactly when it was free, held afterwards, invariant kept |
| `SessionControllerClass.SessionController.Release` | extension/src/background/session-controller.ts:720-722 | after the finally block the sentinel is down and no poll of the session is in its critical section; the invariant is kept |
| `WatchTypes.BatchRowsIff` | extension/src/background/session-controller.ts:676-691 | a row is kept exactly for a message that has both a reference and a hash, with its fields |
| `WatchTypes.BatchRowsInOrder` | extension/src/background/session-controller.ts:676-691 | rows come in the order of their messages |
| `SessionControllerClass.SessionController.CollectRows` | extension/src/background/session-controller.ts:676-691 | the hook keeps the rows with both a reference and a hash, in order |
| `SessionControllerClass.SessionController.CommitEmailBaseline` | extension/src/background/session-controller.ts:937-948 | an email baseline is written exactly when there is none; the invariant is kept |
| `SessionControllerClass.SessionController.SeedSmsBaseline` | extension/src/background/session-controller.ts:902-936 | an SMS baseline comes from a usable snapshot, else from this batch; the invariant is kept |
| `SessionControllerClass.SessionController.PassesGates` | extension/src/background/session-controller.ts:954-1021 | a candidate passes exactly when Admit says so |
| `SessionControllerClass.SessionController.ClassifyCandidates` | extension/src/background/session-controller.ts:954-1044 | the loop appends the admitted candidates in order and persists: the protocol step, keeping the invariant |
| `SessionControllerClass.SessionController.PollAnswered` | extension/src/background/session-controller.ts:459-541 | a session that is over is left alone, a skipped poll keeps its index, any other uses it up, a code fills, and a session still active has polls left; the invariant is kept |
| `SessionControllerClass.SessionController.Notify` | extension/src/background/session-controller.ts:518-519 | polls cancelled, then the announcement: the protocol step, which keeps at-most-once |
| `SessionControllerClass.SessionController.PersistSessions` | extension/src/background/session-controller.ts:1162-1171 | the queued write holds exactly the live sessions as they are now |
| `AlarmNames.ParseOfPrint` | extension/src/background/session-poller.ts:259-285 | parsing undoes printing for every nonempty id without line breaks and every index, ids ending in -digits included |
| `AlarmNames.ParsesIffMatches` | extension/src/background/session-poller.ts:275-285 | the parser accepts exactly what the regular expression matches, with the same groups |
| `AlarmNames.PrintInjective` | extension/src/background/session-poller.ts:259-261 | two polls never share an alarm name |
| `AlarmNames.NameSpelledOut` | extension/src/background/session-poller.ts:259-261 | the name is the prefix `session-poll-`, the id, a dash and the decimal index |
| `SessionPollerClass.SessionPoller.SchedulePolls` | extension/src/background/session-poller.ts:115-149 | a timeout and an alarm at its due time for every poll; nothing of other sessions changes |
| `SessionPollerClass.SessionPoller.CancelPolls` | extension/src/background/session-poller.ts:159-184 | all timers, alarms and marks of the session go; no timer, alarm or mark of another session is touched |
| `SessionPollerClass.SessionPoller.ExecutePoll` | extension/src/background/session-poller.ts:222-249 | runs exactly when there is no mark; then sets it and clears both timers |
| `SessionPollerClass.SessionPoller.OnAlarm` | extension/src/background/session-poller.ts:196-209 | an alarm runs the poll it was created for, once |
| `PollerRefinement.ExecutePollIsFire` | extension/src/background/session-poller.ts:222-249 | on the names of the alarms, running a poll is the protocol step on pairs of session and index |
| `PollerRefinement.CancelPollsIsCancelPolls` | extension/src/background/session-poller.ts:159-184 | cancelling drops the names of exactly the pairs the protocol drops |
| `PollerRefinement.SchedulePollsIsSchedulePolls` | extension/src/background/session-poller.ts:115-149 | scheduling sets timers for exactly the pairs the protocol adds |
| `AccountStore.Serializable` | inboxbridge/src/state.rs:88-227 | every reply of every interleaving is that of the mutations run one after the other in the order of the exclusive lock, between call and reply; the file holds the result of all of them |
| `AccountStore.NoLostUpdate` | inboxbridge/src/state.rs:124-156 | an account inserted and not removed since is in the store |
| `AccountStore.RemovedStaysGone` | inboxbridge/src/state.rs:220-227 | a removed account is not in the store unless it was inserted again |
| `AccountStore.OtherAccountsStay` | inboxbridge/src/state.rs:212-227 | a commit about one account leaves every other as it was |
| `AccountStore.ReadAfterRemoval` | inboxbridge/src/state.rs:88-227 | over runs: a read answered after a removal was committed, and before a new insertion, does not return the account |
| `AccountStore.ReadAfterInsertion` | inboxbridge/src/state.rs:88-227 | over runs: one answered after an insertion, with nothing about the account in between, returns it as inserted |
| `AccountStore.AtRestTheFileParses` | inboxbridge/src/state.rs:88-156 | with no exclusive lock held the file is absent or parses, except garbage the run began with and nobody has touched |
| `AccountStore.RepairTakesOnlyGarbage` | inboxbridge/src/state.rs:76-86 | repair removes the unparseable contents the run began with and nothing else, at most once |
| `AccountStore.UpgradeGapIsSafe` | inboxbridge/src/state.rs:105-122 | after the lock upgrade the reader answers with what was committed in the gap and leaves a file that parses as it found it |
| `AccountStore.RunKeeps` | inboxbridge/src/state.rs:88-260 | the lock and file invariant holds after every run |
| `AccountKeys.KeysAlwaysHaveAnAccount` | inboxbridge/src/dispatcher.rs:206-278 | from any file a bridge may find: each of the bridge's keychain entries is that of a stored account at every intermediate step of interleaved adds, rollbacks, removes, repairs and uninstalls, while no add overlaps an uninstall and no refused deletion is followed up, exactly when it was so at the start; a file that does not parse covers no entry |
| `AccountKeys.RollbackRemovesRecord` | inboxbridge/src/dispatcher.rs:228-231 | after a rollback that could write, the account has no record and every other record is as it was |
| `AccountKeys.RefusedAddLeavesNoRecord` | inboxbridge/src/dispatcher.rs:206-240 | over every run without deaths and failed rollbacks: a record not there at the start belongs to an account its caller was told of, or to an add under way; a refused add leaves none |
| `AccountKeys.AtRestRecordsAndKeysMatch` | inboxbridge/src/dispatcher.rs:206-278 | after every orderly run in which no add overlaps an uninstall, with nothing under way: every record was returned and has its key, and every key of the bridge has its record |
| `AccountKeys.RemoveOrphansIff` | inboxbridge/src/dispatcher.rs:260-269 | in every state: dropping the record at the end of a remove leaves an orphan exactly when its key is still there |
| `AccountKeys.UninstallLeavesNothing` | inboxbridge/src/cleanup.rs:76-100 | an uninstall that no add overlaps and no refusal spoils has deleted every bridge credential by the time it deletes the file |
| `AccountKeys.UninstallSafeIff` | inboxbridge/src/cleanup.rs:76-100 | over all runs: no point is one from which an orphan may follow exactly when no add is ever in flight between an uninstall's snapshot and its file deletion and no refused deletion is followed up |
| `AccountKeys.MayOrphanIff` | inboxbridge/src/cleanup.rs:76-100 | at every point: what is under way may leave an orphan exactly when an add waits for the keychain and an uninstall has taken its snapshot, or a remove or an uninstall has left a refused key behind |
| `AccountKeys.CallMayOrphanIff` | inboxbridge/src/cleanup.rs:76-100 | before the step: it makes an orphan possible exactly when it persists an account during an uninstall, takes the snapshot while an add waits for the keychain, or is a refused deletion of an existing entry |
| `AccountKeys.FinishBoth` | inboxbridge/src/cleanup.rs:83-100 | the run that shows it: the uninstall finishes, then the keychain takes the password of the account just forgotten |
| `AccountKeys.FinishUninstall` | inboxbridge/src/cleanup.rs:83-100 | and for a refusal: the uninstall finishes although a key was left behind |
| `AccountKeys.KeysBelongToOneAccount` | inboxbridge/src/dispatcher.rs:224-227 | two accounts never share a keychain entry |
| `BridgeState.AppState.constructor` | inboxbridge/src/state.rs:21-42 | starting leaves a file that parses or none, with unparseable contents in the backup |
| `BridgeState.AppState.ReadAccounts` | inboxbridge/src/state.rs:88-122 | the answer is the store as last seen; only contents unparseable under the exclusive lock are removed |
| `BridgeState.AppState.ReadModifyWrite` | inboxbridge/src/state.rs:124-156 | the new file means the old one without the removed id, or with the inserted account, and nothing else changed |
| `BridgeState.AppState.ListAccountsForCleanup` | inboxbridge/src/state.rs:188-210 | fails exactly on unparseable contents, which stay; otherwise lists every account once |
| `BridgeState.AppState.DeleteAccountsFile` | inboxbridge/src/state.rs:238-260 | Ok means the file is absent afterwards, whether or not it existed |
| `BridgeState.Keychain.DeletePassword` | inboxbridge/src/keychain.rs:23-27 | succeeds exactly when the entry is there and the keychain allows it |
| `BridgeState.RunFullCleanup` | inboxbridge/src/cleanup.rs:63-110 | on Ok removed plus failed is the snapshot size and the file is absent; on a snapshot failure file and keychain are unchanged; on a file failure the keys are gone and the file stays |
| `BridgeState.SweepAccounts` | inboxbridge/src/cleanup.rs:83-94 | each snapshot key is gone or listed as failed, other entries are untouched, a surviving key is one the keychain refused |
| `BridgeState.SweepLeavesIff` | inboxbridge/src/cleanup.rs:83-94 | a keychain entry is left exactly when it belongs to no listed account or was refused |
| `BridgeState.SweepFailsIff` | inboxbridge/src/cleanup.rs:83-94 | a failure is reported exactly for an account whose entry was missing or refused |
| `BridgeState.CleanSweepIff` | inboxbridge/src/cleanup.rs:83-94 | a cleanup without failures leaves no bridge credential exactly when every one belonged to a stored account; entries of other programs stay |
| `BridgeState.CleanupCommand` | inboxbridge/src/main.rs:31-66 | start, then uninstall, over any file and keychain: never a snapshot failure; unparseable contents give success with nothing removed and every credential left; a clean success leaves no bridge credential exactly when the file found covered them |
| `BridgeState.CommandCleansIff` | inboxbridge/src/main.rs:31-66 | for credentials that had their accounts before the file was damaged: a clean run leaves no bridge credential exactly when the file parsed or was absent, or there were none |
| `BridgeState.ReadIsProtocol` | inboxbridge/src/state.rs:88-109 | the sequential read answers what a reader among others answers under the shared lock |
| `BridgeState.RecheckIsProtocol` | inboxbridge/src/state.rs:111-121 | and after the lock upgrade |
| `BridgeState.UpdateIsProtocol` | inboxbridge/src/state.rs:124-156 | the sequential update leaves the file, the commit and the answer of load, truncate and write |
| `BridgeState.ListsEveryEntryOnce` | inboxbridge/src/state.rs:203-203 | the listed values are as many as the accounts and include each of them |
| `MailSelection.SelectionIsOrderIndependent` | inboxbridge/src/imap_client.rs:170-258 | for distinct UIDs the selection is the same in whatever order the search listed the UIDs and the server replied |
| `MailSelection.FetchRecent` | inboxbridge/src/imap_client.rs:160-259 | the response is the longest fitting prefix of the UID-descending in-window list of the newest messages fetched |
| `MailSelection.SelectRecent` | inboxbridge/src/imap_client.rs:223-256 | the loop, sort and truncation: in-window replies, newest first, cut to the limit |
| `MailSelection.FetchesNewest` | inboxbridge/src/imap_client.rs:179-219 | the UIDs asked for are those of the newest min(2*limit, 50) messages, in any reply order |
| `MailSelection.FilterThenSort` | inboxbridge/src/imap_client.rs:225-254 | dropping old replies and sorting commute |
| `MailSelection.SortMailsPermutes` | inboxbridge/src/imap_client.rs:254-254 | sorting messages permutes them and sorts their UIDs |
| `MailSelection.SortUidsSorts` | inboxbridge/src/imap_client.rs:181-182 | distinct UIDs come out in strictly falling order, none lost |
| `MailSelection.SortUidsCanonical` | inboxbridge/src/imap_client.rs:181-182 | the result does not depend on the order of the hash set |
| `MailSelection.EnforceBudget` | inboxbridge/src/dispatcher.rs:425-437 | keeps the longest prefix whose payload is at most 921600 bytes, or nothing |
| `MailSelection.LongestFitIsUnique` | inboxbridge/src/dispatcher.rs:425-437 | there is one such prefix and every shorter one fits too |
| `MailSelection.GetsTheNewestInWindowIff` | inboxbridge/src/imap_client.rs:187-206 | the caller gets the newest in-window messages exactly when the fetched ones fill the limit or none in the window was left unfetched |
| `MailSelection.FewHitsLoseNothing` | inboxbridge/src/imap_client.rs:187-206 | with at most 2*limit and at most 50 hits that is always so |
| `MailSelection.TopInWindow` | inboxbridge/src/imap_client.rs:187-258 | then the result is at most `limit` messages of the window in falling UID order, and whatever of the window is missing is older than all of them |
| `MailSelection.AsksForAtMost` | inboxbridge/src/imap_client.rs:187-189 | as many messages are asked for as there are hits, but at most 2*limit and at most 50 |
| `MailSelection.FitInBytes` | inboxbridge/src/dispatcher.rs:421-437 | in bytes of the serialized response: the kept messages have at most 921600, one more would have had more |
| `MailSelection.CapCanHideMail` | inboxbridge/src/imap_client.rs:187-206 | otherwise a message in the window can be missed: a concrete mailbox |
| `RateLimiter.GrantsAreSpaced` | extension/src/background/auto-poll-rate-limiter.ts:26-50 | any two grants recorded times at least 30000 ms apart, followers get false, each call one answer, each refusal is within the cooldown of a recorded or started poll; for all interleavings, storage errors and restarts |
| `RateLimiter.SpacedIffClockPositive` | extension/src/background/auto-poll-rate-limiter.ts:40-43 | the spacing holds for all runs exactly when the clock starts above 0: a stored 0 reads as never |
| `RateLimiter.StepKeepsInv` | extension/src/background/auto-poll-rate-limiter.ts:26-50 | every step keeps the invariant behind it |
| `RateLimiter.OnePoll` | extension/src/background/auto-poll-rate-limiter.ts:38-44 | a call with no leader in flight, working storage and the cooldown over is allowed and records its time |
| `RateLimiter.AutoPollRateLimiter.TryAcquirePoll` | extension/src/background/auto-poll-rate-limiter.ts:26-36 | the synchronous part: lead when nobody does, else follow |
| `RateLimiter.AutoPollRateLimiter.LastPollTimeRead` | extension/src/background/auto-poll-rate-limiter.ts:39-43 | refuses exactly within the cooldown, else starts to record the present time |
| `RateLimiter.AutoPollRateLimiter.Recorded` | extension/src/background/auto-poll-rate-limiter.ts:43-47 | the leader is allowed and the promise cleared |
| `RateLimiter.AutoPollRateLimiter.StorageThrew` | extension/src/background/auto-poll-rate-limiter.ts:45-47 | an error clears the promise |
| `RateLimiter.AutoPollRateLimiter.LeaderFinished` | extension/src/background/auto-poll-rate-limiter.ts:31-32 | a follower gets false |
| `Cooldown.RegistryRefinesTable` | extension/src/lib/detection/cooldown-registry.ts:130-232 | the two-level cache answers every lookup of every history as one key-to-expiry table does, if no two elements with one key are in use at once; replaced elements go on where the old one was |
| `Cooldown.LookupIff` | extension/src/lib/detection/cooldown-registry.ts:130-232 | after any history in which no two elements share a key at once, a lookup answers yes exactly when the last mark or forget of the key was a mark, less than 60000 ms ago for a rejected field, 30000 for a detected one |
| `Cooldown.RefinesTable` | extension/src/lib/detection/cooldown-registry.ts:130-232 | the simulation behind it, from any related states |
| `Cooldown.AgreesIffInjective` | extension/src/lib/detection/cooldown-registry.ts:130-232 | for elements that stay, the two agree on all histories exactly when no two share a key |
| `Cooldown.ForgottenByAnother` | extension/src/lib/detection/cooldown-registry.ts:225-231 | the history that tells them apart: forget of one element leaves the weak entry of another with the same key |
| `Cooldown.CleanupUnobservable` | extension/src/lib/detection/cooldown-registry.ts:208-223 | leaving all cleanups out of a history changes no answer, whether or not keys are shared |
| `Cooldown.CooldownRegistry.IsInCooldown` | extension/src/lib/detection/cooldown-registry.ts:161-186 | weak hit, restored hit, or removal of the expired entry |
| `Cooldown.CooldownRegistry.StoreEntry` | extension/src/lib/detection/cooldown-registry.ts:152-206 | both caches hold the new entry |
| `Cooldown.CooldownRegistry.CleanUp` | extension/src/lib/detection/cooldown-registry.ts:208-223 | exactly the expired persistent entries go |
| `Cooldown.CooldownRegistry.ForgetField` | extension/src/lib/detection/cooldown-registry.ts:225-231 | both caches drop the entry |
| `Framing.FramingRoundTrip` | inboxbridge/src/main.rs:99-132 | payloads within the limit (1000000 bytes for requests) come back from their frames as sent |
| `Framing.ReadIff` | inboxbridge/src/main.rs:113-132 | the messages read are the only ones whose frames start the input and leave a rest that yields none; the exit tells end of input from an oversized length |
| `Framing.PartialFrameIgnored` | inboxbridge/src/main.rs:126-132 | a frame cut off by the end of input is not taken for a message |
| `Framing.ReadRequests` | inboxbridge/src/main.rs:113-132 | the read loop computes that reading |
| `Framing.LengthRoundTrip` | inboxbridge/src/main.rs:99-122 | the four length bytes read back as the length modulo 2^32 |
| `Framing.FrameSpelledOut` | inboxbridge/src/main.rs:99-101 | the four bytes in front of a body are its length with the least significant byte first |
| `Framing.RequestIsTakenIff` | inboxbridge/src/main.rs:122-132 | a request that has arrived whole is taken exactly when it has at most 1000000 bytes; a longer one ends reading |
| `Framing.ResponseRoundTripIff` | inboxbridge/src/main.rs:99-101 | a response comes back from its frame exactly when it is shorter than 2^32 bytes |
| `BridgeServer.OutputIsWholeFrames` | inboxbridge/src/main.rs:80-173 | whatever order tasks finish in, stdout is whole frames and at most one part of the next; each request read is with its task, timed out, or has exactly one response sent; at most 64 responses wait for the writer |
| `BridgeServer.ExtensionReadsResponses` | inboxbridge/src/main.rs:80-173 | the other end reads exactly the bodies finished so far, at any moment |
| `BridgeServer.StepKeepsInv` | inboxbridge/src/main.rs:80-173 | spawning, finishing, timing out, sending, receiving and partial writes keep the framing and the accounts |
| `BridgeServer.WriteResponses` | inboxbridge/src/main.rs:91-111 | the writer loop puts out the frames of the serializable responses in channel order |
| `BridgeServer.BodiesIff` | inboxbridge/src/main.rs:91-98 | a body is put out exactly when some response has it |
| `BridgeServer.BodiesInOrder` | inboxbridge/src/main.rs:91-98 | in the order of the responses |
| `SplitInput.DetectIff` | extension/src/lib/detection/split-input-detector.ts:122-267 | a field has a group exactly when its nearest coherent container below any barrier exists, and the group is that container's candidates |
| `SplitInput.GetSimilarSiblings` | extension/src/lib/detection/split-input-detector.ts:205-267 | the search loop computes the group candidates |
| `SplitInput.FieldInItsGroup` | extension/src/lib/detection/split-input-detector.ts:205-267 | an enabled field is in its own group, and the group is coherent |
| `SplitInput.MembersIff` | extension/src/lib/detection/split-input-detector.ts:207-239 | the group is exactly the container's inputs of the field's type that are enabled, of its maxLength or in the leader-cell pairing with it, and, but for the field itself, visible |
| `SplitInput.GroupMeans` | extension/src/lib/detection/split-input-detector.ts:282-431 | a group has at least four inputs: all of one maxLength from 1 to 6, or none with a maxLength and no two in one parent, or a first one of 4 to 8 that is the group's size and the rest 1 |
| `SplitInput.SizedCellsAreDetected` | extension/src/lib/detection/split-input-detector.ts:321-326 | four to twelve visible inputs of one type and one maxLength from 1 to 6 in one parent are found from each of them |
| `SplitInput.WrappedCellsAreDetected` | extension/src/lib/detection/split-input-detector.ts:337-365 | so are inputs without a maxLength, each in its own wrapper, by consecutive numbers in their names |
| `SplitInput.ExpectedLengthIff` | extension/src/contents/watch-session.ts:787-810 | the derived length is the number of fillable inputs exactly when the boxes do not share a size of 2 to 6 other than their number; so always for size 1, no size, or an asymmetric leader |
| `SplitInput.WideBoxesOccur` | extension/src/contents/watch-session.ts:798-806 | such boxes make a group: four inputs of two characters each derive the length 2 |
| `SplitInput.EntryPointMatters` | extension/src/lib/detection/split-input-detector.ts:219-226 | the group depends on the entry point: a leader of length 5 above a container of four cells finds five inputs and derives 5, a cell finds the four and derives 4 |
| `SplitInput.SameGroupIff` | extension/src/lib/detection/split-input-detector.ts:205-267 | a member leads to the same group exactly when its search comes to the group's container, within eight levels and with nothing coherent and no barrier on the way, and there the two fields take the same inputs |
| `SplitInput.EqualFieldsMatchAlike` | extension/src/lib/detection/split-input-detector.ts:207-239 | visible fields of one type and maxLength do take the same inputs |
| `SplitInput.SameListSameContainer` | extension/src/lib/detection/split-input-detector.ts:241-266 | two fields that find the same inputs find them in the same container |
| `SplitInput.LeaderPatternIff` | extension/src/lib/detection/split-input-detector.ts:550-563 | the asymmetric-leader pattern is given exactly to groups whose inputs differ in maxLength, and then the leader is as long as the group |
| `SplitInput.AutofillSplitInputs` | extension/src/contents/autofill.ts:196-253 | fills leader-only, or one character per fillable input so that the values read in order are the code; a length mismatch writes nothing |
| `SplitInput.FillDerivedLength` | extension/src/contents/autofill.ts:120-128 | a code of the derived length is written whole exactly when the group has no wide boxes; otherwise nothing is written |

## Left out

Assumptions of the watch-session model:

- Storage writes are applied in the order they were issued and do not fail; callbacks do not throw. The `catch` branch
  of `handlePoll` (extension/src/background/session-controller.ts:543-575) is therefore not modelled. After a failed write
  it would record the same index twice; and when the write that fails is that of a filled or timed-out session, it
  returns early, so that nothing is announced at all.
- A restart and the load that follows are one step; `StartBeforeLoadBreaksTabs` shows why.
- Timers may fire at any time and any number of times once created, which includes every real schedule. Awaits that
  only SMS sessions have are possible for all sessions.
- Adapters, the polling service, extraction, eligibility, points and suppression are inputs: any result is possible.
  A candidate carries the mailbox of its batch and that mailbox's provider; a mailbox never changes its provider.
- An arrival is kept as the candidate it was made of, an SMS baseline with where it came from; the program stores less.
- An expired messages session of an SMS-only watch, and every other early return of a poll, is the step of a poll that
  gives up.
- Session ids are never drawn twice.
- The popup cache, mailbox sync status, badge updates, notifications to pages and logging are not modelled.
- `cancelSession` notifies whatever the poll path has announced, so completions of both kinds together are not counted.
- Poll indices of 2^53 and more, which a double cannot hold, are not modelled.

Assumptions of the bridge model:

- The lock file is not unlinked while in use, a crash does not fall inside `fs::write`, and reading a file or taking a
  lock does not fail; `delete_lock_file_best_effort` is not modelled.
- Serialization and parsing of the account map are inverse to each other. `Account.title` stands for the field `label`.
- Account ids are fresh, and removes name an id that an add has returned. Accounts edited by hand are not modelled, and
  no file becomes unparseable while the bridge runs; one that is so at the start is.
- How a port is printed in a keychain user name does not matter and is not modelled.
- Parameter checks, the TLS policy, account tests, other RPC methods, IMAP sessions and MIME parsing are not modelled.
- MailSelection.FetchRecent: the server answers with exactly the messages asked for, each with its UID; a reply
  without UID, `limit * 2` overflowing, and the size of one serialized message (a field here) are not modelled.
- BridgeServer.OutputIsWholeFrames: the bridge lives on; a failed write to stdout ends the process and the output with it.
- Stdin arrives as one sequence; how it is cut into reads does not matter to `read_exact`.

The smaller cores:

- RateLimiter.GrantsAreSpaced: the clock does not run backwards, and a write of a dead worker lands before anything the
  next worker asks of storage, or never.
- Cooldown.RegistryRefinesTable: the key of an element does not change while it is in use; the clock does not run backwards.
- How a field key is computed from the document is not modelled; it is a function given to the registry.
- SplitInput.DetectIff: style, text and pattern checks are flags of an input or element; a name or id ending in digits is
  given already cut. `querySelectorAll` lists inputs in document order, so sorting by position changes nothing.
- SplitInput.ExpectedLengthIff: only the length is derived; charset hints are not modelled.
- SplitInput.SameGroupIff: the paths of the inputs come from one document tree.
- Focus changes and dispatched events are not modelled; a page that changes inputs while they are filled is not either.
- User interface, keyword tables and classifiers, network code, and the rate limiters and caches not named above.
