# Cleanroom monitor: a verified model

The repository is a cleanroom monitor: collectors at each site poll particle counters
over Modbus, debounce alarms and queue what they measure; a cloud side stores it,
versions the configuration and notifies by mail. This project models its stateful
parts in Dafny and proves what they keep over every run. `dafny verify dfyconfig.toml`
checks all of it.

Operations the source performs step by step on rows, files or fields are methods of
classes (`Store`, `UpdateTransaction`, `Collector`, `AlarmStore`, `Database`,
`Service`, `Client`, `Loop`, `Recorder`, `DataDirectory`), each proved equal to a
function of the old state or to a stated property of it. The state machines and runs
are built on those functions: a `Step` type lists what can happen, including crashes,
lost replies and concurrent actors, `Can` and `Next` give one step, `Run` a sequence.
SQL transactions, atomic renames and single-row updates are atomic steps.

| files | part |
|---|---|
| `EmailStore`, `EmailProtocol`, `EmailTheorems` | the leased mail queue under competing workers |
| `SplitFinish` | the same queue when other transactions commit between the reads and the write of a finish |
| `EmailOutcomes`, `EmailWrites` | what each of its transactions leaves in the tables, and what makes a notice sent |
| `UpdateFiles`, `UpdateRuns`, `Supervisor` | the journalled self-update under power loss |
| `UploadQueue`, `UploadPass` | readings: at-least-once upload, idempotent ingest, quarantine, pruning |
| `AlarmUpload`, `AlarmRaces` | alarm events: upload of rows that still change, and when the cloud's copy goes wrong |
| `AlarmMachine`, `AlarmLog`, `Debounce`, `EventSpacing` | the four-state alarm machine, its log, a declarative debounce it equals, and the spacing of its events |
| `PollScheduler`, `PollDelays`, `SavedHistory` | the polling loop, its delays and what it saves |
| `Topology`, `TopologyOutcomes`, `TopologyDatabase`, `TopologyRuns`, `Revision`, `EdgeConfig`, `ConfigBlocks` | devices, rooms, sites, revisions, the collector's cached configuration, and what blocks it |
| `Enrollment`, `EnrollmentOutcomes`, `EnrollmentService`, `EnrollmentRuns` | enrolment of collectors |
| `Crc`, `Mbap`, `MbapTheorems`, `MbapDevice`, `Discovery` | Modbus checksums (section 2.5.1.2 of MODBUS over Serial Line V1.02) and framing (section 3.1.3 of MODBUS Messaging on TCP/IP V1.0b) |
| `Trend` | down-sampling of charts |
| `Migration` | moving legacy files into the data directory |

## What turned out not to hold

Each of these has an exact condition proved beside it.

- An update begun while the journal of an abandoned recovery is still there can end in
  a torn executable; it is safe exactly when there is none (`UpdateRuns.BeginSafeIff`),
  and such a journal can be left behind (`UpdateRuns.JournalLeftBehind`).
- "Synced means equal" fails for alarm events in three ways. An event that changes
  between the SELECT and the mark ends synced and different, and a close lost that way
  is lost for good (`AlarmRaces.PassIff`, `AlarmRaces.LostForEver`). A change of source
  closes an uploaded event without clearing the mark
  (`AlarmUpload.SampleKeepsCoherentIff`, `AlarmRaces.SourceChangeAfterUpload`). A
  request whose pass gave up may commit after a later pass and put an older peak back
  (`AlarmUpload.LateKeepsCoherentIff`, `AlarmRaces.LateCommitOverwrites`).
- A failing finish reads the event and the maintenance without a lock, so a stop that
  commits before its write leaves the notice queued; exactly when is
  `SplitFinish.RequeuedWithdrawnIff`, and it is never handed out while the stop lasts
  (`SplitFinish.StoppedNeverHandedOut`, `SplitFinish.QueuedThenCancelled`).
- The TCP client may return fewer registers than it asked for
  (`MbapTheorems.RegisterCount`); the discovery reader may not.
- A configuration apply fails exactly when a room name is still held locally or two
  devices share an address (`EdgeConfig.ApplyFailsIff`). A room deleted and recreated
  under its name, or rooms that exchange their names, block the collector's
  configuration for as long as that lasts (`ConfigBlocks.BlockedForGood`,
  `ConfigBlocks.BlockedIsReached`, `ConfigBlocks.SwapIsReached`).
- A machine whose site was retired can register and wait again but never be approved,
  because its token hash is still stored (`EnrollmentRuns.ApproveSucceedsIff`,
  `EnrollmentRuns.RetiredWaitsAgain`, `EnrollmentRuns.RetiredNeverApproved`).

## Model

| member | source | states |
|---|---|---|
| EmailStore.Store.FindFirst | email_alerts.py:254-262 | finds the oldest due row nobody has locked (pending and due, or sending with a lapsed lease), or that there is none |
| EmailStore.Store.ClaimNotification | email_alerts.py:251-320 | one claim: nothing due, or the first due row is dropped (cancelled, or failed when its outcome is unknown), given up after five attempts, or handed out under a fresh token and a 300 s lease; no other row changes |
| EmailStore.Store.FinishNotification | email_alerts.py:323-371 | only the live claim's token changes anything; a failure becomes cancelled when the notice is no longer wanted, failed at the fifth attempt, else pending with the back-off |
| EmailStore.Store.InsertAll | email_alerts.py:101-116 | enqueues for each recipient in order, doing nothing where that notice already exists |
| EmailStore.Store.EnqueueAlarmEvent | email_alerts.py:134-178 | notices follow the persisted event: none when suppressed, disabled, simulated or older than the subscription; a recovery cancels queued alarm notices first |
| EmailStore.Store.SaveSettingsFor | email_api.py:33-73 | policy replaced and every queued notice it no longer allows cancelled, in one transaction |
| EmailStore.Store.QueueTestFor | email_api.py:88-107 | a test is queued exactly when there are recipients and a minute has passed since the last |
| EmailStore.Store.IngestAlarm | cloud_api.py:3263-3297 | an uploaded event is stored or merged (first end time kept), or refused when the id belongs to another customer, site, room or device; then its notices are enqueued |
| EmailStore.Store.IngestAlarms | cloud_api.py:3247-3299 | a request stores all of its events in turn, or none of them when one conflicts |
| EmailTheorems.RequestIsUploads | cloud_api.py:3247-3299 | an accepted request is a run of single uploads at one moment, so requests of any length keep what every run keeps |
| EmailStore.Store.StartMaintenanceOf | device_lifecycle.py:192-207 | a period starts exactly when allowed and cancels every queued notice of the device |
| EmailStore.Store.EndMaintenanceOf | device_lifecycle.py:209-217 | every open, unexpired period of the device ends now |
| EmailProtocol.EnqueueAlarmEvolves | email_alerts.py:134-178 | enqueueing only cancels pending rows and appends fresh pending ones; nothing in flight or finished is touched |
| EmailProtocol.DueWaited | email_alerts.py:251-262 | a due row has waited at least the back-off or the lease since its last hand-out |
| EmailProtocol.StepKeepsInv | email_alerts.py:251-371 | every step of every interleaving of workers, crashes, clock advances, uploads, settings, maintenance and device changes keeps the invariant |
| EmailProtocol.RunKeepsInv | email_alerts.py:251-371 | the invariant holds after every run |
| EmailTheorems.InitInv | email_alerts.py:251-371 | an empty queue satisfies the invariant |
| EmailTheorems.RowMoves | email_alerts.py:251-371 | what one step may do to one row |
| EmailTheorems.ClaimsExclude | email_alerts.py:251-320 | no two workers hold an unexpired claim on one row, and a held row cannot be claimed |
| EmailTheorems.RowShape | email_alerts.py:251-371 | in every reachable state a row is sending exactly when it has a claim token and a lease, and its attempts count its hand-outs and never exceed five |
| EmailTheorems.FencedForever | email_alerts.py:361-371 | a superseded token never becomes its row's claim again, over any run |
| EmailTheorems.LaterClaimSupersedes | email_alerts.py:308-320 | a later hand-out supersedes every earlier claim on the row |
| EmailTheorems.TerminalForever | email_alerts.py:251-371 | sent, failed and cancelled rows never change again in any field |
| EmailTheorems.HandOutsCounted | email_alerts.py:308-320 | attempts count exactly the hand-outs of a run |
| EmailTheorems.HandOutsBounded | email_alerts.py:301-310 | a row goes to the mail server at most five times over any run, crashes included |
| EmailTheorems.HandOutsSpaced | email_alerts.py:313-368 | consecutive hand-outs of a row are at least 60, 120, 240 and 300 seconds apart |
| EmailTheorems.BackoffValues | email_alerts.py:366 | the one-hour cap is not reached within five attempts |
| EmailTheorems.EndedForever | cloud_api.py:3280 | a stored end time survives every later or out-of-order upload, and from then on no alarm notice of the event is enqueued, handed out or requeued |
| EmailTheorems.TargetKept | email_alerts.py:101-116 | customer, event, kind and recipient of a row never change |
| EmailTheorems.FailureAfterRecovery | email_alerts.py:332-356 | an in-flight alarm attempt whose event recovered and which then fails under the live claim ends cancelled |
| EmailTheorems.StoppedIsWithdrawn | email_alerts.py:278-305 | each of the stop conditions makes the claim drop the row |
| EmailTheorems.StoppedNeverSent | email_alerts.py:332-356 | while a disable, removed recipient, recovery opt-out, disabled device, maintenance or recovery stays in force the notice is not handed out and a failing attempt is not requeued |
| EmailTheorems.QueuedIsWanted | email_api.py:62-73 | every pending notice is one the present settings allow and none is queued under maintenance |
| EmailTheorems.NoticesUnique | cloud_schema.sql:444 | one event gives each recipient at most one alarm and one recovery notice |
| EmailTheorems.StepDrains | email_alerts.py:251-371 | each claim, skip and finish that takes effect strictly lowers the sum of 2(5 - attempts) plus the status weight |
| EmailTheorems.RunDrains | email_alerts.py:251-371 | for a fixed set of rows the number of effective steps of a run is bounded by that sum |
| EmailTheorems.Drainable | email_alerts.py:374-387 | from every reachable state with a worker some continuation empties the queue |
| SplitFinish.UndisturbedIsFinish | email_alerts.py:323-371 | the reads and the write of a finish with nothing in between are the one-step finish |
| SplitFinish.StepKeepsCore | email_alerts.py:323-371 | with anything committed between a finish's reads and its write, every step keeps the claim, lease, attempt, token, settings and uniqueness invariants |
| SplitFinish.DisableNeverRaces | email_alerts.py:335-341 | in every reachable state a queued notice is one the present settings allow: the share lock keeps a settings change out of a finish |
| SplitFinish.RequeuedWithdrawnIff | email_alerts.py:323-371 | whatever commits in between, a finish under a live claim leaves its notice queued exactly when the attempt failed under the limit and nothing withdrew it at the reads; a finish whose claim is gone changes nothing |
| SplitFinish.StoppedNeverHandedOut | email_alerts.py:251-371 | while a stop is in force no worker is handed the notice, even if a finish that read before the stop requeues it |
| SplitFinish.QueuedThenCancelled | email_alerts.py:278-300 | a queued notice to be stopped stays as it is until it is cancelled for good, and the next claim that picks it cancels it |
| SplitFinish.EndedNeverHandedOut | cloud_api.py:3280 | a stored end time stays, and no alarm notice of that event is handed out any more |
| SplitFinish.EndedQueuesNone | email_alerts.py:134-178 | nor is a new alarm notice of it enqueued |
| SplitFinish.RacedRequeue | email_alerts.py:332-371 | a maintenance that starts between the reads and the write of any failing finish leaves its notice queued |
| SplitFinish.RaceIsReached | email_alerts.py:332-371 | and that is reached from an empty queue |
| EmailOutcomes.ClaimOutcome | email_alerts.py:251-320 | a due row is handed out under the token for 300 s exactly when nothing stops it and it has attempts left; otherwise it ends cancelled if only queued, failed with an unknown outcome if handed out before; no other row and none of its identity changes |
| EmailOutcomes.OldestFirst | email_alerts.py:254-262 | of the due rows nobody has locked the one created first is claimed |
| EmailOutcomes.FinishOutcome | email_alerts.py:323-371 | under the live claim: sent exactly without an error, stamped now and without error text; cancelled exactly when to be stopped, failed exactly at the fifth attempt of a wanted notice, queued again after the back-off exactly before that; otherwise nothing changes |
| EmailOutcomes.SplitOutcome | email_alerts.py:323-371 | the same of a finish in two steps: its reads and their clock decide, whatever commits before its write |
| EmailOutcomes.SentIff | email_alerts.py:361-371 | over every run a notice is sent exactly when some worker reported its delivery under a claim still live |
| EmailOutcomes.RaceSentIff | email_alerts.py:361-371 | and so when other transactions commit between the reads and the write of any finish |
| EmailOutcomes.EveryRowStamped | email_alerts.py:356-368 | in every reachable state exactly the sent rows have a time of sending, none of them an error, and every failed row its error |
| EmailWrites.OverlapIsMoment | email_alerts.py:119-131 | the overlap test of a period and an event means that they share a moment |
| EmailWrites.WithdrawnIff | email_alerts.py:278-300 | in every state of the protocol a notice is withdrawn exactly when one of the stop conditions holds or its device was under maintenance during the event |
| EmailWrites.EveryRecipient | email_alerts.py:101-116 | enqueueing adds the notices of exactly the listed recipients |
| EmailWrites.EveryTest | email_api.py:100-102 | a test is queued for each recipient in turn, however many are queued already |
| EmailWrites.EnqueueOutcome | email_alerts.py:134-178 | exactly when the customer is to hear of the stored event its notices gain one of the kind called for to each recipient, and no alarm notice of an ended event stays queued |
| EmailWrites.NewUntried | email_alerts.py:101-116 | a new notice is due at once and untried |
| EmailWrites.StoreOutcome | cloud_api.py:3263-3288 | a first upload is stored whole, a later one can only add the end, one for another customer, site, room or device is refused |
| EmailWrites.RequestAcceptedIff | cloud_api.py:3247-3299 | a request is accepted exactly when each of its events is new, or stored or sent earlier in it for the same customer, site, room and device |
| EmailWrites.SaveOutcome | email_api.py:33-73 | the given settings are stored, the counting time moves only when notices are switched on, the last test is kept, and exactly this customer's ruled-out pending notices are cancelled |
| EmailWrites.TestOutcome | email_api.py:88-107 | a test reaches every recipient and is remembered |
| EmailWrites.TestsSpaced | email_api.py:92-99 | over every run two tests of one customer are at least a minute apart |
| EmailWrites.MaintenanceOutcome | device_lifecycle.py:192-207 | maintenance starts now, lasts until the given time and cancels exactly the pending notices of the device's events |
| EmailWrites.EndOutcome | device_lifecycle.py:209-217 | ending it leaves the device outside every period and changes no other |
| EmailWrites.SwitchOutcome | cloud_schema.sql:489-503 | a device switched off keeps its row otherwise and is left in no maintenance period |
| EmailWrites.PeriodsApart | device_lifecycle.py:192-207 | over every run no device is in two maintenance periods at once, and none was planned for less than a minute or more than a week |
| UpdateFiles.UpdateTransaction.Switch | collector_updater.py:70-78 | refuses any staged file but the released binary; otherwise runs backup, sync, journal and rename through exactly those intermediate disks |
| UpdateFiles.UpdateTransaction.Commit | collector_updater.py:80-82 | records the version, then drops the journal |
| UpdateFiles.UpdateTransaction.Recover | collector_updater.py:84-97 | nothing without a journal, refusal without a rollback copy, else copy, sync, rename, record and drop in that order |
| Supervisor.Updater.CheckUpdate | collector_updater.py:229-278 | exactly when an uninterrupted check gives each of its answers, and the exact files and recorded version an installation or a rollback leaves |
| UpdateFiles.BelowIsNumeric | update_protocol.py:18-21 | versions are ordered as numbers whose digits are their three parts |
| UpdateRuns.StepKeepsInv | collector_updater.py:70-97 | every file operation, and a crash between any two, keeps the invariant |
| UpdateRuns.RunKeepsInv | collector_updater.py:229-308 | the invariant holds over whole supervisor runs with repeated crashes |
| UpdateRuns.ExecutableComplete | collector_updater.py:70-97 | at every moment, and after any further crash, the executable is a complete old or new binary; a journal implies a complete rollback copy; without one the recorded version is the executable's |
| UpdateRuns.RecoveryKeepsBase | collector_updater.py:84-97 | recovery, however often it is cut short, keeps the last settled binary as its goal |
| UpdateRuns.FinishRecovery | collector_updater.py:84-97 | from every reachable recovering state the rest of recover can run and ends idle |
| UpdateRuns.RecoveryCompletes | collector_updater.py:84-97 | from any crash, letting recover finish ends without a journal, with the last settled binary and its version |
| UpdateRuns.SettledNeverFalls | collector_updater.py:246-288 | the settled version never decreases over a run |
| UpdateRuns.RecordedVersionNeverFalls | collector_updater.py:246-288 | the version recorded between transactions never decreases over a whole run |
| UpdateRuns.BeginSafeIff | collector_updater.py:70-78 | from an idle state of a good run, beginning an update is safe against every crash exactly when no journal of an abandoned recovery is left, which the code does not check |
| UpdateRuns.JournalLeftBehind | collector_updater.py:271-277 | from any installed collector and any newer release a good run reaches an idle state with such a journal, from which the next update may begin |
| UpdateRuns.TornFromBoot | collector_updater.py:70-97 | so from every installed collector some run ends with a torn executable |
| UpdateRuns.TornRestoreRuns | collector_updater.py:70-97 | the failing run: a power loss while a second update overwrites the only rollback copy, then a recovery that restores a torn file |
| UploadQueue.StepKeepsInv | cloud_sync.py:649-673 | recording, committing, marking, blaming, pruning and other collectors' uploads keep the invariant |
| UploadQueue.RunKeepsInv | cloud_sync.py:649-710 | the invariant holds over every interleaving |
| UploadQueue.InsertAdds | cloud_api.py:3147-3179 | a committed batch adds exactly its new ids with the batch's content and changes no stored one |
| UploadQueue.PruneKeeps | storage_maintenance.py:125-141 | pruning removes exactly the old rows already marked synced |
| UploadQueue.MarksAndBlames | cloud_sync.py:565-626 | a confirmed row is synced and out of quarantine, a blamed one has one attempt more and is quarantined at the limit; the record itself and every other row stay |
| UploadQueue.NothingLost | cloud_sync.py:542-563 | every reading ever recorded is in the local store or in the cloud with its content; a row marked synced is in the cloud |
| UploadQueue.FirstContentStays | cloud_api.py:3168 | the cloud keeps each record id with its first content for ever |
| UploadPass.Cloud.IngestBatch | cloud_api.py:3143-3182 | a batch is inserted as a whole or, when an item is malformed, refused as a whole |
| UploadPass.Collector.PendingRows | cloud_sync.py:542-563 | the first batch_size pending rows in the order of attempts, time and id |
| UploadPass.FewestFirst | cloud_sync.py:542-563 | a pass takes only real, unsynced, unquarantined rows, with fewer attempts first, then older, then lower ids, and leaves none while it has room |
| UploadPass.Collector.Upload | cloud_sync.py:649-673 | one request under every network outcome: what is stored in the cloud, what is marked, what the caller sees |
| UploadPass.Collector.RecordFailure | cloud_sync.py:597-647 | one more attempt for exactly the named rows, quarantined when the limit is reached |
| UploadPass.Collector.UploadOne | cloud_sync.py:692-704 | one item of a refused batch: synced, blamed or left alone |
| UploadPass.Collector.OneByOne | cloud_sync.py:690-705 | the rows of a prefix of the batch are each synced or blamed; the whole batch when every request is delivered |
| UploadPass.Collector.RefusedAlone | cloud_sync.py:685-689 | a refused batch of one is blamed without a second request |
| UploadPass.Collector.SyncOnce | cloud_sync.py:675-711 | poison isolation: a delivered pass syncs every valid row of its batch, adds exactly one attempt to each invalid row and changes nothing else; a failing pass does so for a prefix, and a transient first failure for no row; every pass is a run of the queue's steps |
| UploadPass.QuarantinedIffExhausted | cloud_sync.py:614-626 | over every run an unsynced row is quarantined exactly when its attempts have reached the limit |
| UploadPass.RemainingFalls | cloud_sync.py:675-705 | a pass that touches a pending row lowers the sum of remaining attempts |
| UploadPass.QueueEmpties | cloud_sync.py:675-705 | the number of non-empty delivered passes is bounded by that sum |
| UploadPass.NothingWaits | cloud_sync.py:542-563 | a pass that selects nothing means every uploadable row is synced or out of attempts |
| AlarmUpload.CloudEvents.IngestAlarms | cloud_api.py:3255-3297 | a batch of events is merged item by item: first end time kept, peak overwritten |
| AlarmUpload.StepKeepsInv | cloud_sync.py:752-837 | evaluations, selections, deliveries, marks, abandoned passes and late commits of abandoned requests keep the invariant |
| AlarmUpload.CloudLagsBehind | cloud_sync.py:752-837 | over every run, late commits included, the cloud's copy of an event is a past state of it: never an end not recorded locally, never a higher peak |
| AlarmUpload.SampleKeepsCoherentIff | monitoring_service.py:1312-1318 | an evaluation between passes keeps "synced means equal" exactly when it does not close an uploaded open event on a change of source |
| AlarmUpload.SyncedMeansEqual | cloud_sync.py:829-835 | over every run whose evaluations change no in-flight event and close none silently, and whose late commits bring a synced event no older peak, a synced event equals the cloud's copy |
| AlarmUpload.LateKeepsCoherentIff | cloud_api.py:3280-3284 | a request that commits after its pass gave up keeps "synced means equal" exactly when every synced event it carries still has the peak it carries |
| AlarmRaces.PassIff | cloud_sync.py:752-837 | whatever is evaluated and whatever older requests commit during a pass, each event of its batch ends marked synced, and equals the cloud's copy exactly when end and peak are those the SELECT read and the last older request to land after the pass's commit carried that peak |
| AlarmRaces.LostForEver | cloud_sync.py:829-835 | a close that lands between the SELECT and the mark, with no older request carrying the end, leaves the event open in the cloud under every later run |
| AlarmRaces.FrozenForEver | cloud_sync.py:752-766 | a closed and synced event that no request carries any more keeps both its copies, equal or not, under every later run |
| AlarmRaces.ClearDuringUpload | cloud_sync.py:752-837 | such a lost close happens, from an empty log: an alarm cleared while its first upload is in flight |
| AlarmRaces.LateCommitOverwrites | cloud_api.py:3280-3284 | a run from an empty log whose every step but the last is harmless: a pass gives up, the peak rises, the next pass uploads and marks the event, and the abandoned request then commits the old peak, for good |
| AlarmRaces.SourceChangeAfterUpload | monitoring_service.py:1312-1318 | such a close happens: an alarm raised, uploaded and marked, then a sample from another source; the event stays open in the cloud under every later run |
| AlarmMachine.AlarmStore.EvaluateMetric | monitoring_service.py:1287-1381 | one metric of one sample: state row, event log and the changed flag, every other metric untouched |
| AlarmMachine.AlarmStore.Evaluate | monitoring_service.py:1277-1395 | all checks of a reading, each by its own step |
| AlarmMachine.StepKeepsShape | monitoring_service.py:1287-1381 | every sample keeps the shape of state row and log |
| AlarmMachine.EveryViewShaped | monitoring_service.py:1287-1381 | over every history exactly one event is open in ALARM_ACTIVE and PENDING_CLEAR, of the state's source, and none otherwise; pending and active times are set exactly in their states |
| Debounce.AlarmedNext | monitoring_service.py:1319-1373 | the debounced level changes exactly at confirming samples |
| Debounce.EdgesConfirm | monitoring_service.py:1319-1373 | alarms start only at a confirmed exceedance and end only at a confirmed return |
| Debounce.MachineIsDebounce | monitoring_service.py:1319-1373 | on a stretch of one source the incremental machine's row and whole log, peaks included, are the declarative debounce of the stretch |
| Debounce.EveryHistoryDebounced | monitoring_service.py:1287-1373 | for every history, rule disabling and source changes included, row and log are the debounce of the samples since the last such cut, on top of closed earlier events |
| Debounce.AlarmsLast | monitoring_service.py:1319-1373 | with a constant delay a falling edge of the debounced level comes at least the delay after a rising one, and the other way round |
| Debounce.AlarmsSpan | monitoring_service.py:1319-1373 | m + 1 successive rising edges span at least 2Dm |
| EventSpacing.LoggedDeclared | monitoring_service.py:1319-1373 | the events the machine logs are the declared ones, one per rising edge |
| EventSpacing.EventsSpaced | monitoring_service.py:1319-1373 | with a constant delay D, time running forward and one source, every closed event of the machine's log lasts at least D and every later event starts at least D after its end |
| EventSpacing.EventsDisjoint | monitoring_service.py:1319-1373 | no moment belongs to two events of one metric |
| EventSpacing.EventsSpan | monitoring_service.py:1319-1373 | m + 1 successive events of the log span at least 2Dm between first and last start |
| AlarmLog.DisabledCloses | monitoring_service.py:1287-1303 | a disabled rule ends every open event at the sample's time, to be uploaded again, and forgets the state |
| AlarmLog.SwitchCloses | monitoring_service.py:1305-1321 | a sample of another source ends the old source's open events at its time, leaves their upload mark and starts afresh |
| AlarmLog.ChangesIff | monitoring_service.py:1287-1395 | a sample counts as a change exactly when it opens or ends an event by confirming, or a disabled rule ends one or breaks off a wait |
| AlarmLog.TimesAreSamples | monitoring_service.py:1287-1381 | over every history each event starts at a sample with its value and ends, if at all, at a later sample |
| PollScheduler.Loop.ReapDone | monitoring_service.py:1052-1059 | exactly the finished polls leave the in-flight list |
| PollScheduler.Loop.ChooseDue | monitoring_service.py:1092-1103 | the first free-worker-many due devices in the order of next poll and display position |
| PollScheduler.Loop.Round | monitoring_service.py:1051-1106 | one round of the loop starts exactly those devices |
| PollScheduler.Loop.PollEnded | monitoring_service.py:1164-1187 | a poll's end sets the next time and the failure count |
| PollScheduler.DelayGrowsToCap | monitoring_service.py:1181-1187 | the failure delay is positive, nondecreasing, capped, and constant from the ninth failure |
| PollDelays.DelayDoubles | monitoring_service.py:1184-1187 | the first failure waits the poll interval brought into one to two seconds, each further one twice as long, up to eight doublings and the maximum |
| PollDelays.NextPollSet | monitoring_service.py:1164-1188 | over every run the end of a poll sets the next one a poll interval ahead after a success, and after a failure the delay of as many failures as there were since the last success |
| PollDelays.SuccessResets | monitoring_service.py:1166 | the first failure after any success waits the base delay |
| PollDelays.NeverTooEarly | monitoring_service.py:1093-1104 | no poll of a device starts before that wait is over |
| PollScheduler.RunKeepsInv | monitoring_service.py:1047-1112 | at most `workers` polls are in flight and no device twice, over every run |
| PollScheduler.OvertakenOnce | monitoring_service.py:1092-1106 | for a fixed configuration, while a due device waits every other device is started at most once |
| PollScheduler.WaitsOnlyWhenFull | monitoring_service.py:1103-1106 | a round that leaves a due device waiting leaves no worker free |
| SavedHistory.Recorder.PersistSample | monitoring_service.py:1225-1231 | a sample is saved unless it was the last one saved |
| SavedHistory.Recorder.PollSucceeded | monitoring_service.py:1156-1167 | the first sample, a recovery, a change and one sample per interval are saved |
| SavedHistory.Recorder.PollFailed | monitoring_service.py:1181-1209 | the live value goes offline and the last live sample is saved at its own time |
| SavedHistory.SavedOnce | monitoring_service.py:1225-1231 | no sample is saved twice, and only received samples are, in order |
| SavedHistory.EverySampleCovered | monitoring_service.py:1156-1163 | every received sample at t has a saved one in (t - interval, t] |
| SavedHistory.OutageBordersSaved | monitoring_service.py:1156-1209 | the last sample before an outage and the first after it are saved at their own times |
| SavedHistory.RepeatedFailuresAddNothing | monitoring_service.py:1202-1209 | a failure after a failure saves nothing |
| SavedHistory.SavedIff | monitoring_service.py:1156-1209 | a sample is saved exactly when no sample came just before it, it changed an alarm, nothing was saved within the interval before it, or it is the last live one before an outage |
| TopologyDatabase.Database.CreateDevice | cloud_api.py:1378-1475 | refusals in the code's order with their status, or the new device and one bumped site |
| TopologyDatabase.Database.DeleteDevice | cloud_api.py:1995-2035 | an enabled device is disabled and its site bumped; a repeated request changes nothing |
| TopologyDatabase.Database.Edit | device_lifecycle.py:101-123 | optimistic check, role check, validation, then the device and both sites' revisions, or nothing |
| TopologyDatabase.Database.RestoreDevice | device_lifecycle.py:125-141 | a linked duplicate is refused; otherwise validated, counted, enabled and its site bumped |
| TopologyDatabase.Database.RebindDevice | device_lifecycle.py:143-190 | the duplicate is disabled and linked before the target is validated; a refusal takes both writes back |
| TopologyDatabase.Database.RetireSite | cloud_api.py:1782-1813 | only a site without enabled devices and without a live collector is retired |
| TopologyDatabase.Database.PurgeRetired | data_management.py:74-105 | exactly the disabled devices and the links touching them go |
| TopologyDatabase.Database.CreateCleanroom | cloud_api.py:1329-1375 | folded-name and count checks, then the room and every site's revision |
| TopologyDatabase.Database.DeleteCleanroom | data_management.py:118-169 | refused while any device or monitoring data refers to the room; then the room goes and every site is bumped |
| TopologyOutcomes.CreateOutcome | cloud_api.py:1378-1475 | a device is created exactly when its form is plausible, there is a site for it, the place is free and there is capacity; it is then enabled as given, and nothing else differs but its site's revision |
| TopologyOutcomes.DeleteOutcome | cloud_api.py:1995-2035 | deleting switches an existing device off and keeps the rest of its row |
| TopologyOutcomes.RestoreOutcome | device_lifecycle.py:125-141 | a device that is nobody's duplicate is switched on exactly when its old place is free and there is capacity |
| TopologyOutcomes.EditOutcome | device_lifecycle.py:101-123 | an edit succeeds exactly on an enabled device still as the editor saw it, moved by an administrator only, to a plausible free place; the form is then what is stored |
| TopologyOutcomes.RebindOutcome | device_lifecycle.py:143-190 | exactly when a rebind succeeds, and that the device then stands at the new address, otherwise unchanged, with a given duplicate off and linked to it, no other row different and its site told; or nothing changed when the request was met |
| TopologyOutcomes.RetireOutcome | cloud_api.py:1782-1813 | a site is retired exactly when no enabled device is on it and its collector is offline |
| TopologyOutcomes.PurgeOutcome | data_management.py:74-105 | a confirmed purge leaves exactly the enabled devices and the links between them |
| TopologyOutcomes.CreateRoomOutcome | cloud_api.py:1329-1375 | a room with a new folded name is appended while there is space, and every site is told |
| TopologyOutcomes.DeleteRoomOutcome | data_management.py:118-169 | a room goes exactly when it still has the name the administrator saw and neither a device nor monitoring data refers to it |
| TopologyOutcomes.RefusalMeans | device_lifecycle.py:53-190 | every refusal says why: 403 the role, 404 a missing row, 400 an improper request, 409 a conflict with the rows as they are |
| TopologyOutcomes.NoLostUpdate | device_lifecycle.py:101-190 | whatever happened since an editor read a device, his edit or rebind goes through only if its row is still exactly the one he read |
| TopologyOutcomes.PrivateRanges | cloud_api.py:365-368 | the addresses a device may have are the three private ranges |
| TopologyRuns.CreateKeeps | cloud_api.py:1378-1475 | creation keeps the topology invariant |
| TopologyRuns.EditKeeps | device_lifecycle.py:101-123 | an edit, across sites and rooms, keeps it |
| TopologyRuns.RestoreKeeps | device_lifecycle.py:125-141 | a restore keeps it, the capacity included |
| TopologyRuns.RebindKeeps | device_lifecycle.py:143-190 | a rebind with or without a duplicate keeps it |
| TopologyRuns.PurgeKeeps | data_management.py:74-105 | a purge keeps it and leaves no link |
| TopologyRuns.StepKeepsInv | device_lifecycle.py:43-190 | every transaction, refused or not, keeps: distinct addresses per site and folded names per room among enabled devices, existing rooms, non-retired sites, the capacity, disabled duplicates, canonical devices that are no duplicates |
| TopologyRuns.RunKeepsInv | device_lifecycle.py:43-190 | the invariant holds after every sequence of transactions |
| TopologyRuns.EveryTopologySound | device_lifecycle.py:56-64 | from a customer without devices, every sequence of transactions leads to enabled devices without a shared address or folded name, in existing rooms on active sites, within the capacity |
| TopologyRuns.DuplicateStaysOff | device_lifecycle.py:129-130 | a linked duplicate stays disabled and linked until a purge |
| Revision.ChangeRaises | device_lifecycle.py:120 | whatever changes what a site is sent raises its revision in the same transaction; nothing lowers one |
| Revision.RebindRaises | device_lifecycle.py:186-187 | a rebind that changes a site's snapshot bumps that site, and leaves other sites' snapshots alone |
| Revision.SameRevisionSameSnapshot | cloud_api.py:2680-2697 | two moments of a run with the same revision agree on all rooms, limits, devices, names and addresses the collector applies |
| EdgeConfig.AppliedMatches | monitoring_service.py:581-683 | a successful apply makes the local rooms and inventory the snapshot's |
| EdgeConfig.RoomsFailIff | monitoring_service.py:590-597 | the room upserts fail exactly when a new name is still held by another local room that no earlier upsert renamed |
| EdgeConfig.ApplyFailsIff | monitoring_service.py:581-683 | a whole apply fails exactly when the room upserts do or two of its devices share one address |
| ConfigBlocks.RecreatedNameNeverApplies | monitoring_service.py:590-597 | a name of a room deleted in the cloud and given to a new room there can never be applied at the collector |
| ConfigBlocks.TangledHinders | monitoring_service.py:590-597 | rooms that exchange their names among themselves, in a swap or any longer cycle, cannot be upserted in any order |
| ConfigBlocks.BlockedForGood | cloud_sync.py:325-330 | while the cloud's rooms hinder the upserts, no run of pulls, crashes and other cloud changes applies anything: local tables and their revision stay what they are |
| ConfigBlocks.GoneNameBlocks | cloud_sync.py:325-330 | so it is while the cloud keeps another room under the name of one it deleted |
| ConfigBlocks.TangleBlocks | cloud_sync.py:325-330 | so it is while rooms keep exchanged names, until one of them is given a name outside the exchange |
| ConfigBlocks.BlockedIsReached | cloud_sync.py:335-359 | the first is reached: a pull, a room deleted in the cloud, another created under its name, a second pull with nothing it can apply |
| ConfigBlocks.SwapIsReached | cloud_sync.py:335-359 | the second is reached: a pull, two rooms exchanging names by way of a third, a second pull with nothing it can apply |
| EdgeConfig.StepKeepsInv | cloud_sync.py:298-333 | cloud changes, fetch, skip, apply, remember, save, a failing save and crashes keep the cache invariant |
| EdgeConfig.SkipIsSound | cloud_sync.py:316-333 | over every run, crashes between apply and save included, an equal revision means the local tables already match; whenever the remembered revision is the cloud's, the local inventory is what the cloud would send |
| EdgeConfig.PullMirrors | monitoring_service.py:581-688 | a pull applied at once mirrors exactly the enabled devices the cloud has for the site; of the others those of this site are switched off, not deleted, and those of another stay |
| EdgeConfig.PullSettles | cloud_sync.py:298-333 | an undisturbed pull remembers its revision for this process and the next, and the next pull has nothing to apply |
| EnrollmentService.Service.Allocate | cloud_api.py:941-953 | the first of eight drawn codes no pending machine has |
| EnrollmentService.Service.RegisterCollector | cloud_api.py:879-1027 | every answer to a registration with its status, and the one row it writes |
| EnrollmentService.Service.ApproveCollector | cloud_api.py:1030-1106 | site, credential and row together, or nothing; a stored token hash fails the whole |
| EnrollmentService.Service.RejectCollector | cloud_api.py:1109-1130 | only a pending row is revoked |
| EnrollmentService.Service.RotatePackage | cloud_api.py:1300-1326 | the generation grows and exactly the pending rows are revoked |
| EnrollmentService.Service.RetireCollector | cloud_api.py:1782-1813 | the site, its credentials and its enrolment go together |
| EnrollmentOutcomes.RegisterOutcome | cloud_api.py:879-1027 | which registration gets which answer, told from the registry before it, and the row a waiting one leaves |
| EnrollmentOutcomes.OnlyOwnSecret | cloud_api.py:915-920 | over every run a machine is welcomed only with the current package and the secret its last accepted registration stored; without either the answer is 401 and nothing changes |
| EnrollmentOutcomes.ApproveOutcome | cloud_api.py:1030-1106 | approval succeeds exactly for a machine that still waits, under a new site name, with a place free and no credential ever issued; site, credential and row then come together |
| EnrollmentOutcomes.RejectOutcome | cloud_api.py:1109-1130 | rejection revokes exactly a waiting machine |
| EnrollmentOutcomes.RotateOutcome | cloud_api.py:1300-1326 | the next package, and exactly the waiting machines revoked |
| EnrollmentOutcomes.RetireOutcome | cloud_api.py:1782-1813 | an idle site goes with its credentials and its machine's enrolment, and nothing else |
| EnrollmentOutcomes.LicenceKept | cloud_api.py:1052-1075 | over every run the live sites stay within the licence and site names distinct |
| EnrollmentRuns.StepKeepsInv | cloud_api.py:879-1130 | every operation keeps the enrolment invariant |
| EnrollmentRuns.RunKeepsInv | cloud_api.py:879-1130 | over every run: a pending row carries the current generation; an approved row has its own active site and its own enabled credential; every enabled credential belongs to the approved row of its site |
| EnrollmentRuns.RevokedUntilNewer | cloud_api.py:938-940 | a revoked machine is pending or approved again only under a strictly newer generation |
| EnrollmentRuns.RotationSparesApproved | cloud_api.py:1300-1319 | rotation changes no approved row, site or credential and leaves nothing pending |
| EnrollmentRuns.ReRegister | cloud_api.py:921-937 | however long after its approval, a still approved machine that registers again gets the same site and token and changes nothing |
| EnrollmentRuns.SameSiteForGood | cloud_api.py:1070-1092 | at any two approved moments of a run a machine has the same site and token |
| EnrollmentRuns.ApproveSucceedsIff | cloud_api.py:1070-1083 | an approval that passes its checks succeeds exactly when no credential was ever issued to the enrolment |
| EnrollmentRuns.RetiredWaitsAgain | cloud_api.py:938-970 | every machine whose site is retired can, after a rotation, register and wait again, pass every check of approval, and then fail on the stored token hash |
| EnrollmentRuns.StrandedFromNothing | cloud_api.py:1070-1083 | this is reached from an empty registry: register, approve, retire, rotate, register |
| EnrollmentRuns.RetiredNeverApproved | cloud_api.py:1806-1808 | after its site is retired no run ever approves the machine |
| Crc.FeedByte | dcp8001_collector.py:105-111 | eight conditional shifts of the register are the specified feed |
| Crc.Crc16Modbus | dcp8001_collector.py:103-112 | the loop computes the register of the whole frame |
| Crc.CheckCrc | dcp8001_collector.py:120-126 | too short, mismatch with both values, or accepted, exactly |
| Crc.TrailerEmptiesRegister | dcp8001_collector.py:115-117 | two trailing bytes empty the register exactly when they spell it, low byte first |
| Crc.AcceptedIffResidueZero | dcp8001_collector.py:120-126 | a frame of four bytes or more is accepted exactly when the register over the whole frame is zero |
| Crc.AppendThenCheck | dcp8001_collector.py:115-126 | append then check succeeds and no other trailer does |
| Crc.RegisterPlus | dcp8001_collector.py:103-112 | the update is affine over exclusive or |
| Crc.CorruptedResidue | dcp8001_collector.py:120-126 | what a corrupted frame leaves depends on the error alone |
| Crc.RegisterParity | dcp8001_collector.py:103-112 | the register's parity is its starting parity plus the data's |
| Crc.OddErrorsDetected | dcp8001_collector.py:103-126 | any odd number of flipped bits is detected |
| Crc.SerialIsShifts | dcp8001_collector.py:103-112 | feeding up to sixteen bits one by one equals adding them as a word and shifting |
| Crc.RegisterIsSerial | dcp8001_collector.py:103-112 | the byte-wise loop equals the bit-serial register on every frame |
| Crc.BurstsDetected | dcp8001_collector.py:103-126 | every burst within sixteen consecutive bits is detected at any frame length |
| Crc.CheckValue | dcp8001_collector.py:103-116 | the published check value of the checksum, 0x4B37 for the digits 1 to 9 |
| Mbap.Socket.RecvExact | dcp8001_collector.py:377-389 | the result is the same for every chunking of the stream |
| Mbap.Client.RequestPdu | dcp8001_collector.py:305-360 | the frame sent, and the reply as a function of the bytes that arrive in time |
| Mbap.Client.ReadHoldingRegisters | dcp8001_collector.py:391-407 | the request that is sent, and registers or the error the code raises |
| Mbap.Client.ReadSample | dcp8001_collector.py:441-468 | the unit check, then thirteen reads threaded through one stream, on a fresh connection or not, with the sample's deadline passing before any of the requests; too few registers fail the sample; what is sent is a prefix of the requests for register 133 and registers 0 to 25, all of them for an accepted sample |
| MbapDevice.ServesRequest | dcp8001_collector.py:391-400 | a device that decodes the request answers with exactly the registers it was made for |
| MbapDevice.PairsRead | dcp8001_collector.py:445-447 | pairs asked for in turn come back as one stretch of the device memory, stale frames included |
| MbapDevice.SampleReadsMemory | dcp8001_collector.py:441-447 | such a device's answers to the fourteen requests the client sends, each behind any stale frames, give its registers 0 to 25 when its register 133 says the required unit, and are refused otherwise |
| MbapTheorems.AcceptedSampleComplete | dcp8001_collector.py:441-468 | whatever bytes arrive, an accepted sample has exactly 26 registers |
| MbapTheorems.SampleRebuilds | dcp8001_collector.py:441-447 | fourteen exchanges in time, each behind its own stale frames, yield the 26 registers of the device memory |
| MbapTheorems.StaleSkipped | dcp8001_collector.py:346-350 | any number of complete frames with other ids is read and dropped |
| MbapTheorems.MatchFound | dcp8001_collector.py:330-358 | stale frames followed by the matching one yield exactly its body and leave exactly the rest |
| MbapTheorems.AcceptedOnlyIf | dcp8001_collector.py:330-358 | an accepted body was carried by a frame with this id and unit behind complete stale frames: nothing else is ever accepted |
| MbapTheorems.FirstDecides | dcp8001_collector.py:330-350 | behind stale frames a wrong protocol, an impossible length and a stream that ends too early are told apart |
| MbapTheorems.MatchRefused | dcp8001_collector.py:350-358 | the frame with this id is refused for another unit, and for an exception |
| MbapTheorems.BodyRefused | dcp8001_collector.py:401-407 | exactly what each refused body is refused for |
| MbapTheorems.IdsCollideIff | dcp8001_collector.py:301-303 | two requests share an id exactly when their distance is a multiple of 65536 |
| MbapTheorems.LateRepliesIgnored | dcp8001_collector.py:301-350 | replies to any of the previous 65535 requests cannot match |
| MbapTheorems.DataRoundTrip | dcp8001_collector.py:129-132 | register decoding inverts the big-endian payload |
| MbapTheorems.RegisterCount | dcp8001_collector.py:400-407 | exactly when a body is accepted, and exactly when it yields as many registers as were asked for |
| MbapTheorems.ShortReplyAccepted | dcp8001_collector.py:404-407 | a short body with a full byte count yields too few registers |
| MbapTheorems.ExactReply | dcp8001_collector.py:391-407 | an exact-length reply decodes to the device's words |
| MbapTheorems.ReadsRebuild | dcp8001_collector.py:445-447 | two-register reads, each behind its own stale frames, rebuild the device memory |
| MbapTheorems.SampleIsOneRead | dcp8001_collector.py:445-447 | thirteen such reads equal one read of 26 registers |
| Discovery.ReadHoldingRegisters | device_discovery.py:158-192 | the request that is sent, and the answer as a function of the bytes that arrive in time |
| MbapDevice.ProbeReadsMemory | device_discovery.py:158-192 | the discovery gets from such a device the registers it asked for, high byte first |
| Discovery.StricterThanClient | device_discovery.py:184-192 | it accepts exactly the replies of exact length, always returns 2n bytes, and the client decodes whatever it accepts to the same registers |
| Discovery.ForeignRefused | device_discovery.py:171-191 | behind stale frames an impossible length or another protocol is no device, and a stream that ends too early runs dry |
| Discovery.ClientTakesMoreIff | device_discovery.py:184-192 | exactly which replies the client alone accepts |
| Trend.EnginesAgree | cloud_api.py:2919-2924 | the rounded numeric quotient's floor is SQLite's integer quotient |
| Trend.Clamp | dashboard_server.py:367 | the number of points is brought into [20, 600] and kept when it lies there |
| Trend.SameRowsSelected | cloud_api.py:2906-2932 | the two forms of the query keep the same rows while a device has fewer rows than twice the numeric scale |
| Trend.BucketReached | dashboard_server.py:398-407 | a bucket is reached exactly from its first position on |
| Trend.GapsEven | dashboard_server.py:398-407 | neighbouring kept positions are the floor or the ceiling of (n-1)/(m-1) apart |
| Trend.StartsIff | dashboard_server.py:398-414 | the positions that start a bucket are exactly the first positions |
| Trend.KeptIff | dashboard_server.py:380-420 | the window query keeps a row exactly when its position starts a bucket |
| Trend.TrendShown | dashboard_server.py:380-420 | a device with n rows is shown min(n, m) of them in order, first and last included, all when n <= m, at the even positions when n >= m, whatever other devices recorded |
| Migration.DataDirectory.CopyFile | runtime_paths.py:107-125 | temporary file, then atomic rename; an existing file is never touched |
| Migration.DataDirectory.MigrateLegacy | runtime_paths.py:66-127 | one start with power for so many file operations: refused, interrupted, or exactly the newly present files reported |
| Migration.NeverOverwrites | runtime_paths.py:66-127 | no attempt changes an existing file; what appears is the legacy file |
| Migration.SettingsNeverAlone | runtime_paths.py:105-126 | after any interrupted starts migrated settings are present only with the legacy identity and a database |
| Migration.ConflictPublishesNothing | runtime_paths.py:79-87 | a conflicting or invalid identity publishes nothing over any number of starts |
| Migration.SameEndState | runtime_paths.py:66-127 | all interruption patterns end in the files of an uninterrupted run |
| Migration.EverythingMigrated | runtime_paths.py:66-127 | an undisturbed start without settings and without a conflict brings every legacy file that is not there yet; any other changes nothing |
| Migration.StrangersRefused | runtime_paths.py:79-103 | nothing is brought from a directory with a malformed identity, another machine's, or none where settings would join a known machine |
| Migration.StripsAround | runtime_paths.py:79-87 | an identity is read without the blanks around it |
| Migration.IdentityDigits | runtime_paths.py:79-87 | an identity is 32 lower-case hexadecimal digits |

## Left out

- UpdateRuns.ExecutableComplete: stated for runs in which no update begins over the journal of an abandoned recovery; `BeginSafeIff` shows the condition is exact.
- EmailTheorems.StoppedNeverSent: in `EmailProtocol` a finish is one step; `SplitFinish` lets other transactions commit between its reads and its write, and there a stopped notice may be requeued but is not handed out.
- EmailTheorems.EndedForever: likewise; `SplitFinish.EndedNeverHandedOut` and `SplitFinish.EndedQueuesNone` are what holds of a finish in two steps.
- EmailTheorems.FailureAfterRecovery: likewise, about a recovery committed before the finish reads the event.
- SplitFinish.StepKeepsCore: all reads of one finish happen at one moment, as do the reads and the write of a claim and of an upload.
- EmailStore.Store.EnqueueAlarmEvent: the join with the event's cleanroom row (`email_alerts.py:149`) is not modelled; the code enqueues nothing for an event whose room row is gone.
- EmailTheorems.TerminalForever: the administrator's data cleanup deletes notices and events (`data_management.py:93-107`); it is not a step, here or in any other statement about the queue.
- EmailStore.Store.IngestAlarms: the tenant checks and the assignment check of each item, which refuse a request before it stores anything more, are not modelled.
- AlarmUpload.CloudEvents.IngestAlarms: the log of one metric of one collector, whose ids nobody else uses; the ownership check and the notices of an upload are in EmailStore.Store.IngestAlarms.
- AlarmUpload.CloudLagsBehind: pruning of closed, synced local events (`storage_maintenance.py:143-151`) and the cloud's data cleanup are not steps.
- AlarmRaces.LostForEver: for the same reason it speaks of runs in which neither side deletes the event.
- UploadPass.Collector.SyncOnce: answers other than success, 400 and 422 (403 and 409 among them) are one kind of transient failure, and a batch is refused exactly when it holds a malformed row.
- UploadQueue.NothingLost: the cloud's own data cleanup, which an administrator confirms, is not a step.
- AlarmUpload.StepKeepsInv: every event is one of a device; the SELECT's condition on the source (`cloud_sync.py:758`), which keeps simulated events at the collector, is not modelled. Attempts and quarantine of alarm events repeat those of readings.
- PollScheduler.OvertakenOnce: for a configuration that does not change, with a positive delay cap (the default is at least ten seconds); a worker always reaches the statement that sets the next poll.
- MbapTheorems.MatchFound: bytes discarded while a fresh connection settles are outside the stream it speaks of.
- SavedHistory.EverySampleCovered: storage succeeds and sample times increase; a sample received just before its device left the configuration is covered by the one saved before it. No event stands for the polling loop dropping the failure count of a device that left the configuration (`monitoring_service.py:1089-1091`).
- MbapTheorems.SampleIsOneRead: every reply has the exact length and the device's registers do not change between the reads.
- Trend.TrendShown: rows of one device have distinct times; which of two rows with equal times comes first is up to the engine.
- TopologyDatabase.Database.CreateDevice: a name is taken to be already stripped, and folding is the ASCII part of lower(); a device without a site, which only legacy provisioning creates, is not representable.
- Revision.ChangeRaises: saving the settings form is kept as an arbitrary rewrite of names, limits and devices with every site's revision bumped, because it reads the configuration before it takes the lock; the topology invariant is not claimed for it.
- EdgeConfig.SkipIsSound: the pull path alone; a configuration pushed from the collector is applied without the cloud's revision.
- Migration.SameEndState: compares the three published files; a power loss may leave a temporary file behind. Reading errors and a full disk are not modelled.
- HTTP routing, sessions, password hashing: no state worth a proof. Signatures, digests and tokens are abstract injective values.
- SMTP, sockets, serial ports, database engines, threads and process control appear only as steps, streams and nondecreasing clocks.
- Message texts, audit records, diagnostics and log lines are not part of the state, nor are threshold values (one number stands for a room's whole row) and display order of devices.
- The updater's blocked version after a crash, the text of its status file, manifest signatures and the download itself.
- Legacy activation codes, provisioning scripts, and device assignment periods, whose writer is a database trigger.
- The serial-line client shares the checksum; its request loop adds only the address check.
- Backups, storage limits, power management, report and spreadsheet generation, the web front end, packaging.
