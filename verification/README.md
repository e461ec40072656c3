# SpaceTerm, modelled and proved in Dafny

A model of the parts of SpaceTerm whose guarantees span whole runs, with those guarantees proved for every
input, every run or every interleaving:

- **Settings** (`Settings`, `SettingsStore`, `SettingsRuns`, `SettingsDriver`): previews, commits, reloads and
  recovery on a file other programs edit too.
- **Quitting** (`Quit`, `QuitStore`) and **updating** (`Updates`, `UpdatesStore`, `UpdatesRuns`), and the two
  together (`QuitWithUpdater`).
- **The desktop channel**: framing (`Framing`, `Streams`), negotiation and deadlines (`Channel`), and both ends run
  over bytes (`ChannelBytes`, `ChannelPorts`).
- **Stores that share a file**: presentation context (`CoreContext`, `ContextStore`), `SavedConnections`,
  `BackgroundImages`.
- **Color**: compositing and overlays (`Color`), contrast floors and the searches that keep them (`Contrast`,
  `Chrome`), translucent surfaces (`Materials`).
- **The desktop entry reader** (`DesktopEntry`, `EntryReader`).

Where the program updates fields in place, the model has a class whose methods do so, each proved to compute a
function on values; the guarantees are lemmas about those functions and about all runs built from them. A run is
any sequence of actions, each carrying what the surroundings answered; a `Drive` method per class makes the same calls
and is proved to compute the run. Runs keep a log of what can be seen from
outside, and the laws on the log (`Lawful`, `Founded`) say what an event may follow without mentioning the state.
`dafny verify dfyconfig.toml` checks everything.

## Assumptions

- The private filesystem compares and swaps on an entry identity that is never reused; expecting none means
  expecting no file. A write may fail after publishing, a published entry may not be identified, and other
  programs write at any point.
- JSON, SHA-256, the OKLab conversions, the sRGB curve and image inspection are parameters. Of JSON only what is
  needed is assumed: that a document reads back with its revision (`Codec.Faithful`) or as it was
  (`Rules.Faithful`, `Json.Faithful`). Of the sRGB curve only that 0 gives no light and 255 full light (`Transfer`).
- `f64` is exact real arithmetic up to the rounding to a byte. A search's position is counted in 65536ths, which
  is exact, as every amount is a sixteenth halved at most twelve times.
- Every continuation is delivered at most once, and launch begins once.
- A transfer loop is followed through any finite sequence of turns, each with the deadline as it was read then, so a
  caller may move it; `InProgress` and `Running` are calls the turns do not end.
- The monotonic clock is one clock: a client's readings come before those of the desktop that got its request.

## Where the code does not do what one might expect

- `src/updates.rs:920-921` authorizes an install when readiness is reported before any version is known, while
  startup is gated. If a release is then announced and the adapter reports installing, a retried restart installs a
  release that was never ready (`UnannouncedReadinessInstalls`). `ReadyReportIsSafeExactly` gives the exact
  condition, and `InstallsOnlyWhatWasReady` holds for all runs without such a report.
- A download progress report after readiness sets the launch timer again, which then releases a startup bound to
  the installer, and schedules it beneath the installer (`ProgressRearmsTheTimer`); without one only a failure or no
  update does.
- Settings Recovery first asks for a generation reset, which moves every file aside without looking at the version
  that was read (`src/settings/recovery.rs:41-51`, `crates/spaceterm-core/src/migration.rs:522-552`), so a version
  nobody read can be moved aside: one that replaced the one read (`ResetCanMoveAnUnreadVersion`), or one never looked
  at because the config root was refused first (`ResetMovesWhatWasNeverRead`). `RunResetsTheReadVersionExactly` says
  when it is the one read; without a reset it always is.
- The channel's documentation says that a request its client gave up on never acts. The request carries the deadline
  the client had when it was stamped, later by as much as lay between the client's two clock readings. So the desktop
  acts too late for a client whose deadline was brought forward since (`InterruptedRequestActs`), for one that was held
  up for more than the reply margin between the readings although its deadline never moved (`HeldUpRequestActs`), and
  when its own two readings lie apart. `ActsLateExactly` and `CanActLateExactly` give the exact conditions, and
  `LateRequestActs` a run over bytes for all of them whose request can be written in time.
- `exec_program` reads the whole value's escapes first, so arguments ending in an odd number of backslashes make it
  find no program (`ExecRoundTrip`); and a path holding a newline is never read back from its entry
  (`EntryRoundTrip`). The installer (`packaging/install.sh:483-487`, `:501`, `:557`) and the development launcher
  (`mise-tasks/lib/spaceterm_tasks/development_linux.py:37-41`) refuse such a path, so only another writer of the entry
  can bring one in.
- The 64-bit counter of background images wraps, so a retirement comes back into force after a whole turn
  (`DiscardLapsesExactly`). Retiring takes no lock, so a retirement made while an install is between its advance of the
  counter and its publication is in force for the image just installed (`RetiredWhileInstalled`);
  `NewerImageIsDiscardedExactly` says exactly when that happens. A renewal between a discard's test and its removal comes
  too late (`RenewedWhileDiscarded`).
- The comment on `presence` says its curve is monotonic only for residuals below one half; at one half it still is
  (`FadesExactly`).

## Model

| member | source | states |
|---|---|---|
| `SettingsRuns.WritesOnlyOverTheKnownVersion` | src/settings.rs:592-701 | in every run, a save replaces exactly the version last read or published, which the file then holds; no commit is prepared while no version is known; recovery quarantines only the version it read, its generation reset moves whatever version the file holds, and it writes only where no file is |
| `SettingsRuns.RunResetsTheReadVersionExactly` | crates/spaceterm-core/src/migration.rs:522-552 | in every run the generation reset moves aside the version of the last read exactly when there was a read, it identified the file and nothing was put there since |
| `SettingsRuns.ResetCanMoveAnUnreadVersion` | src/settings/recovery.rs:41-51 | a run in which recovery moves aside a version that was never read |
| `SettingsRuns.ResetMovesWhatWasNeverRead` | src/settings.rs:792-797 | when the config root is refused before the file is looked at, the reset moves aside a version that was never read, and without the reset nothing is moved |
| `SettingsRuns.ForeignEditIsAdoptedFirst` | src/settings.rs:545-576 | in every run, a version another program left is replaced by a save only after it was adopted |
| `SettingsRuns.BlockedUntilAdopted` | src/settings.rs:665-701 | after a conflict, a refused read or an unidentified publication nothing is prepared or written until a read is adopted or the defaults were written |
| `SettingsRuns.TransactionHasItsOwner` | src/settings.rs:592-624 | Committing exactly while one unfinished job exists, with its candidate and expected identity; a preview has its live token, accepted unless the catalog revision ran out; no owner left means Idle |
| `SettingsRuns.OldDropKeepsNewerPreview` | src/settings.rs:193-215 | dropping any live token but the current preview's changes nothing |
| `SettingsRuns.FailedCommitRollsBack` | src/settings.rs:688-732 | a failed or abandoned commit restores the state it was prepared in: committed, the preview with its revision stamp and a token that works, Idle for a gone owner, the recoverable copy for a direct save |
| `SettingsRuns.RunAdvances` | src/settings.rs:545-652 | committed changes only to a higher revision; two moments with the same catalog revision below the maximum show the same document up to its stamp |
| `SettingsRuns.StalePlanIsRefused` | src/settings.rs:400-448 | a theme change planned against a catalog revision is applied only to the document that revision showed |
| `SettingsRuns.RunInv` | src/settings.rs:126-155 | the invariant behind these holds after every sequence of operations, drops, job steps and outside writes |
| `SettingsRuns.NoteWriteLawful` | src/settings/storage.rs:192-234 | a conditional write, whatever it reports, replaces only the expected version and leaves known what its outcome identifies |
| `SettingsRuns.RecoverInv` | src/settings/recovery.rs:22-73 | Settings Recovery keeps the invariant, also when another program creates the file meanwhile |
| `SettingsStore.Store.constructor` | src/settings.rs:239-263 | opens from what reading gave, writing nothing |
| `SettingsStore.Store.BeginPreview` | src/settings.rs:318-337 | the new state and the lease, or why not |
| `SettingsStore.Store.UpdatePreview` | src/settings.rs:339-356 | the validated candidate replaces the preview of its own token only |
| `SettingsStore.Store.CancelPreview` | src/settings.rs:358-365 | only the preview's token ends it |
| `SettingsStore.Store.PlannedEdit` | src/settings.rs:400-448 | an import or removal is refused unless the catalog revision is the planned one |
| `SettingsStore.Store.PrepareCommit` | src/settings.rs:592-624 | the stamped candidate, its bytes and the expected identity, or why not |
| `SettingsStore.Store.CommitPreview` | src/settings.rs:368-376 | commits the preview of the token |
| `SettingsStore.Store.PrepareDirect` | src/settings.rs:478-490 | a direct save that cannot start stays recoverable |
| `SettingsStore.Store.UpdateCommitted` | src/settings.rs:378-386 | a direct save at the committed revision |
| `SettingsStore.Store.EnsureFile` | src/settings.rs:533-543 | creates a missing file only |
| `SettingsStore.Store.Adopt` | src/settings.rs:545-576 | a read replaces committed at a higher revision, a failed read blocks writing |
| `SettingsStore.Store.Reload` | src/settings.rs:493-501 | adopts a read when idle |
| `SettingsStore.Store.FollowFile` | src/settings.rs:505-529 | adopts only a changed file |
| `SettingsStore.Store.RestorePreviewAfterFailure` | src/settings.rs:712-732 | ends an unpublished commit |
| `SettingsStore.Store.Complete` | src/settings.rs:665-701 | what a job records once its write returned |
| `SettingsStore.Store.DropToken` | src/settings.rs:193-215 | a dropped lease ends its preview or disowns its commit |
| `SettingsStore.Store.RecoverByReset` | src/settings/recovery.rs:22-73 | the defaults are committed at the next revision, or the error noted |
| `SettingsDriver.Machine.Drive` | src/settings.rs:126-215 | calls of Settings, of its tokens and jobs, and other programs' writes, in any order, compute the run the lemmas above speak of |
| `SettingsDriver.Machine.Look` | src/settings/storage.rs:168-190 | a reading replaces the identity storage keeps, with none when it failed, except that an oversized file keeps its identity and a refused preparation leaves the earlier one |
| `SettingsDriver.Machine.WriteJob` | src/settings/storage.rs:192-234 | a job's conditional write outside the lock, and what it notes |
| `SettingsDriver.Machine.Recover` | src/settings/recovery.rs:22-73 | recovery step by step: moving aside, an intruder, the defaults |
| `Quit.QuitIsApproved` | src/app.rs:582-762 | in every run a confirmed quit follows a Quit answer to the last prompt, with no exit or prompt since, and ends the last observation, which has the shown boot and no live Session that was not shown |
| `Quit.AuthorizesTransitive` | src/app.rs:524-540 | approval carries through any number of re-observations |
| `Quit.OneContinuationMovesIt` | src/app.rs:543-557 | every state but Idle and SessionEnding has exactly one outstanding continuation, and no request but a session end moves it |
| `Quit.SessionEndIsFinal` | src/app.rs:551-554 | a session end is never left and leaves no new continuation |
| `Quit.NothingAfterSessionEnd` | src/app.rs:582-762 | after a session end no prompt, notice, question to the updater or quit follows, only late answers |
| `Quit.RunInv` | src/app.rs:477-495 | the invariant behind these holds in every run |
| `Quit.Continue` | src/app.rs:594-612 | delivering a continuation asks the updater at most once and leaves its continuation exactly when the quit must wait |
| `QuitStore.QuitCoordinator.constructor` | src/app.rs:487-495 | idle, with nothing outstanding |
| `QuitStore.QuitCoordinator.Request` | src/app.rs:543-557 | the state after a request; only a session end proceeds at once |
| `QuitStore.QuitCoordinator.Exit` | src/app.rs:565-569 | an exit observes when idle and no close confirmation is pending |
| `QuitStore.QuitCoordinator.Dismiss` | src/app.rs:571-580 | a dismissal exits only without a status menu |
| `QuitStore.QuitCoordinator.Observe` | src/app.rs:582-615 | observes, or reviews at once when no Sessions end with the client |
| `QuitStore.QuitCoordinator.Review` | src/app.rs:617-634 | finishes what the approval covers, otherwise asks |
| `QuitStore.QuitCoordinator.ObservationFailed` | src/app.rs:636-662 | shows the notice that only cancels |
| `QuitStore.QuitCoordinator.CompleteAfterSave` | src/app.rs:664-689 | a failed save abandons, a good one is deferred |
| `QuitStore.QuitCoordinator.Finish` | src/app.rs:691-711 | asks the updater, then quits or waits |
| `QuitStore.QuitCoordinator.WaitForSettings` | src/app.rs:713-726 | waits for Settings with the approval |
| `QuitStore.QuitCoordinator.PresentConfirmation` | src/app.rs:728-745 | prompts from Idle only |
| `QuitStore.QuitCoordinator.Deliver` | src/app.rs:594-761 | what each continuation does when it is delivered |
| `QuitStore.QuitCoordinator.Drive` | src/app.rs:543-762 | any sequence of requests and delivered continuations computes the run the lemmas above speak of |
| `UpdatesRuns.InstallsOnlyWhatWasReady` | src/updates.rs:760-931 | without a premature readiness report, the installer runs, now or at quit, only for the release that was ready in this check cycle when authorized; readiness alone authorizes it only before startup is released, and a confirmation only when it was opened for that release in this cycle and accepted |
| `UpdatesRuns.ReadyReportIsSafeExactly` | src/updates.rs:859-931 | a readiness report can lead to installing a release that was never ready exactly when it comes while the gate is closed, no version is known and one may still be announced |
| `UpdatesRuns.UnannouncedReadinessInstalls` | src/updates.rs:920-931 | a run that installs a release that was never ready |
| `UpdatesRuns.StartupIsScheduledOnce` | src/updates.rs:671-711 | startup is scheduled at most once, after launch began, and not after a quit was prepared since |
| `UpdatesRuns.BoundLaunchIsReleasedByFailure` | src/updates.rs:917-934 | once readiness bound the launch to the installer, only a failure, no update, or a timer set by later progress releases startup |
| `UpdatesRuns.ProgressRearmsTheTimer` | src/updates.rs:917-919 | a run from the start for every release: once readiness bound the launch no timer fires, but after a progress report it does, releases the launch and schedules startup |
| `UpdatesRuns.WaitingQuitResumesAtCycleEnd` | src/updates.rs:954-978 | a stored quit is scheduled at its cycle's first end, not before, and before anything but the release of startup |
| `UpdatesRuns.RunInv` | src/updates.rs:180-202 | the invariant behind these holds in every run |
| `UpdatesRuns.PrepareInv` | src/updates.rs:954-978 | a quit that must wait is stored unless one is stored already |
| `QuitWithUpdater.WaitingQuitIsNeverLost` | src/app.rs:691-711 | with both together, a coordinator waiting for the updater has exactly its own quit stored in a running cancelled cycle whose end schedules it, or already scheduled |
| `QuitWithUpdater.ScheduledQuitResumesOnce` | src/app.rs:694-706 | a scheduled quit moves the coordinator on and leaves nothing to schedule again |
| `QuitWithUpdater.RunLinked` | src/app.rs:691-726 | the link between coordinator and updater holds in every run |
| `Updates.PrepareBeforeQuit` | src/updates.rs:954-978 | the stored quit is the first one, and a quit that waits cancels the cycle |
| `UpdatesStore.UpdateModel.BeginCheck` | src/updates.rs:204-216 | a check begins only outside a cycle, and revokes confirmation and authority |
| `UpdatesStore.UpdateModel.OpenConfirmation` | src/updates.rs:218-230 | one confirmation at a time, of the ready release |
| `UpdatesStore.UpdateModel.Confirm` | src/updates.rs:232-248 | authorizes only the release still ready in the generation presented |
| `UpdatesStore.UpdateModel.Receive` | src/updates.rs:250-324 | what a report does to the model |
| `UpdatesStore.UpdateModel.constructor` | src/updates.rs:187-202 | idle or unavailable, with a retained version only when available |
| `UpdatesStore.ApplicationUpdates.constructor` | src/updates.rs:537-573 | startup is not gated, and nothing waits |
| `UpdatesStore.ApplicationUpdates.LaunchTimeout` | src/updates.rs:686-691 | a timer that is still set releases startup |
| `UpdatesStore.ApplicationUpdates.ReceiveEnd` | src/updates.rs:932-946 | a failure or the end of the cycle, which the service also reports to itself |
| `UpdatesStore.ApplicationUpdates.OpenLaunch` | src/updates.rs:703-711 | releases startup, scheduling what waits once |
| `UpdatesStore.ApplicationUpdates.BeginLaunch` | src/updates.rs:671-684 | gates startup unless updates are unavailable or a session runs |
| `UpdatesStore.ApplicationUpdates.ReleaseLaunch` | src/updates.rs:693-701 | not while installing |
| `UpdatesStore.ApplicationUpdates.Check` | src/updates.rs:760-775 | begins a cycle; a refusal ends it |
| `UpdatesStore.ApplicationUpdates.Download` | src/updates.rs:777-790 | from Available only |
| `UpdatesStore.ApplicationUpdates.Tick` | src/updates.rs:713-742 | downloads and checks that are due |
| `UpdatesStore.ApplicationUpdates.ReceiveFound` | src/updates.rs:897-916 | gates or releases startup and starts the download |
| `UpdatesStore.ApplicationUpdates.InstallAtLaunch` | src/updates.rs:920-931 | installs a ready release before startup is released |
| `UpdatesStore.ApplicationUpdates.Receive` | src/updates.rs:859-946 | what each report does |
| `UpdatesStore.ApplicationUpdates.Cancel` | src/updates.rs:792-799 | not once authorized |
| `UpdatesStore.ApplicationUpdates.FinishInstallConfirmation` | src/updates.rs:810-822 | an accepted confirmation installs |
| `UpdatesStore.ApplicationUpdates.RetryInstall` | src/updates.rs:850-857 | repeats an authorized install |
| `UpdatesStore.ApplicationUpdates.Relaunch` | src/updates.rs:832-838 | installs what is ready, or retries |
| `UpdatesStore.ApplicationUpdates.RetryDownload` | src/updates.rs:749-754 | checks again and remembers the request |
| `UpdatesStore.ApplicationUpdates.DismissFailure` | src/updates.rs:842-847 | clears a failure |
| `UpdatesStore.ApplicationUpdates.PrepareBeforeQuit` | src/updates.rs:954-978 | whether the quit must wait, and what is kept for it |
| `UpdatesStore.ApplicationUpdates.Drive` | src/updates.rs:671-978 | any sequence of reports, timers and requests computes the run the lemmas above speak of |
| `Framing.SequenceRoundTrip` | src/desktop_channel.rs:358-483 | for every split into partial writes, reads and retries, what is read is a first part of what was sent, the whole is read back, nothing that follows it is consumed, and every wait is timely |
| `Framing.HealthyRoundTrip` | src/desktop_channel.rs:429-483 | turns that are neither late nor failing, one moving turn a byte, bring exactly the whole sequence through, also when more bytes follow |
| `Framing.Move` | src/desktop_channel.rs:445-483 | bytes move in order, it ends well exactly when all moved, and no operation starts at its deadline or waits beyond the poll or the time left |
| `Framing.SplitsNeverFail` | src/desktop_channel.rs:445-483 | no split and no retry makes a transfer fail |
| `Framing.ReadBack` | src/desktop_channel.rs:429-443 | a message is read back as it was sent, not a byte more |
| `Framing.HealthyRead` | src/desktop_channel.rs:429-443 | healthy turns read a message that arrived, one moving turn a byte being enough |
| `Framing.ReceivedInOrder` | src/desktop_channel.rs:429-443 | the messages read from any part of the wire are the first ones sent, and no byte beyond them is consumed |
| `Framing.SentInOrder` | src/desktop_channel.rs:465-483 | what is on the wire is a first part of the frames, all of them exactly on success |
| `Framing.LengthRoundTrip` | src/desktop_channel.rs:358-367 | the length prefix is read back |
| `Streams.Stream.ReadExactBy` | src/desktop_channel.rs:445-463 | the loop fills the buffer with exactly the bytes that moved |
| `Streams.Stream.ReadBy` | src/desktop_channel.rs:429-443 | the loop reads one message, refusing an overlong one |
| `Streams.Stream.WriteBy` | src/desktop_channel.rs:465-483 | the loop puts exactly the moved bytes on the wire |
| `Channel.HandledAsAgreed` | src/desktop_channel.rs:237-346 | with client and desktop run against each other, the handler runs once, for this request, with identities equal and both on the selected version, and must act later than now, within 60 s of arrival and 250 ms before the deadline the client had when it stamped the request, up to the skew of the paired readings |
| `Channel.ActByBounds` | src/desktop_channel.rs:397-402 | the last instant to act lies in the future within both limits; an expired request has none; and when it has none is said |
| `Channel.HandlerRunsOnce` | src/desktop_channel.rs:307-354 | whatever the client, at most one call, only after a well-formed Hello of the same identity with an agreed version |
| `Channel.NothingRequestedWithoutAgreement` | src/desktop_channel.rs:237-282 | another identity or no shared major leaves only the Hello written; a request is written only on agreement |
| `Channel.AnswersAreTheHandlers` | src/desktop_channel.rs:275-281 | an answer to a request is the handler's, and without a request nothing was handled |
| `Channel.ActsLateExactly` | src/desktop_channel.rs:266-271 | for every skew between the desktop's readings, some readings let a request act after its client gave up exactly when both that instant and the earliest the desktop can read are more than 250 ms before the stamp moved by the skew, and the skew is below 60 s |
| `Channel.CanActLateExactly` | src/desktop_channel.rs:397-402 | some desktop can act after the client gave up exactly when the stamp is more than 250 ms ahead and the client gave up less than the effect window after what it allows |
| `Channel.StampedLate` | src/desktop_channel.rs:266-271 | the stamp is the deadline read, later by the time between the two readings |
| `Channel.NegotiateMeans` | crates/spaceterm-core/src/protocol/version.rs:44-62 | agreement exactly when the listener's major is offered, at a minor both speak; otherwise the older side is named |
| `ChannelBytes.HandledAsAgreedOverBytes` | src/desktop_channel.rs:237-483 | both ends over bytes, at any moment of any run with any splits, retries, faults and moving deadlines, each having received some first part of what the other sent: what is handled is handled as agreed, an accepted answer is the handler's, and every wait is timely |
| `ChannelBytes.EagerExchangeCompletes` | src/desktop_channel.rs:237-354 | when all bytes arrive and enough turns are healthy, ends that agree in time complete: the handler runs once and the client returns its reply |
| `ChannelBytes.RunsHappen` | src/desktop_channel.rs:237-354 | for all ends that agree in time there are such complete runs |
| `ChannelBytes.LateRequestActs` | src/desktop_channel.rs:15-18 | for all readings that let a request act late, the request stamped before its deadline and given up after, there is a run of both ends over bytes whose client finds its deadline reached at the instant it gave up, times out, and is acted for later |
| `ChannelBytes.InterruptedRequestActs` | src/desktop_channel.rs:39-41 | such a run for every client whose deadline is brought forward after its request to more than 250 ms before the stamp |
| `ChannelBytes.HeldUpRequestActs` | src/desktop_channel.rs:266-270 | such a run for every client held up for more than 250 ms between its readings, with one deadline throughout |
| `ChannelBytes.ClientRefines` | src/desktop_channel.rs:237-282 | over bytes the client does what `Exchange` says of the messages it heard |
| `ChannelBytes.DesktopRefines` | src/desktop_channel.rs:307-354 | over bytes the desktop does what `Serve` says of the messages it heard |
| `ChannelBytes.NextTaken` | src/desktop_channel.rs:429-443 | however little arrived and however it is split, a message read is the next one the other end wholly sent |
| `ChannelBytes.PutCarries` | src/desktop_channel.rs:358-367 | what an end has sent is the frames of the messages it wrote and less than one more; a message is whole exactly when its transfer ended well |
| `ChannelPorts.Port.Exchange` | src/desktop_channel.rs:237-282 | the client's steps on a stream give the outcome, the bytes sent and taken, and the waits |
| `ChannelPorts.Port.Serve` | src/desktop_channel.rs:307-354 | the desktop's steps on a stream give the end, the handler calls, the bytes sent and taken, and the waits |
| `CoreContext.MergeAssociates` | src/core_context.rs:224-251 | merging is associative |
| `CoreContext.MergeIdempotent` | src/core_context.rs:224-251 | merging is idempotent |
| `CoreContext.FoldIsLatest` | src/core_context.rs:224-251 | folding observations gives, for each of general, network and device facts, the last one with the greatest timestamp |
| `CoreContext.MergeStaysValid` | src/core_context.rs:200-220 | merging valid facts gives valid facts |
| `CoreContext.TrySound` | src/core_context.rs:433-474 | whatever other processes write meanwhile, a publication applies the change to exactly the document it replaces, which is the one read last; a good result is what the file holds; unreadable data is never replaced; and what is displayed is the change applied to what was read last, or to what was presented |
| `CoreContext.RememberMerges` | src/core_context.rs:383-400 | remembering merges one machine's facts and leaves the others |
| `CoreContext.ReconcileKeepsAvailable` | src/core_context.rs:359-379 | exactly the available machines keep their facts, and the selection is available |
| `ContextStore.Context.Load` | src/core_context.rs:333-337 | a document is adopted only when it reads; a storage failure and unreadable data are told apart and change nothing |
| `ContextStore.Context.Update` | src/core_context.rs:429-492 | what is presented always validates and is the change applied to the document read last, or presented before when none was, even when storage fails; malformed data leaves it as it was |
| `ContextStore.Context.Select` | src/core_context.rs:352-355 | only the selection differs from the document that was read or presented |
| `ContextStore.Context.Reconcile` | src/core_context.rs:359-379 | nothing unavailable stays selected or known, and every available machine keeps the facts it had there |
| `ContextStore.Context.Remember` | src/core_context.rs:383-400 | the observation is merged into the facts the machine had in the document that was read or presented, or is its first, and every other machine keeps its own |
| `SavedConnections.SavesOnlyOverTheAcceptedEntry` | src/direct_connection_storage.rs:35-104 | in every run with competing writers a save replaces exactly the entry last accepted or published, or no file, with no rejected read, commit error or unidentified publication since |
| `SavedConnections.RecordFile.Load` | src/direct_connection_storage.rs:35-67 | the authority after a read, taken or not |
| `SavedConnections.RecordFile.Store` | src/direct_connection_storage.rs:69-104 | the authority, the file and the result of a commit |
| `BackgroundImages.DiscardLapsesExactly` | src/background_image.rs:235-358 | in every run, with installs and discards in their two halves, a discard lapses exactly when the counter advanced since its retirement other than by whole turns of 64 bits |
| `BackgroundImages.NewerImageIsDiscardedExactly` | src/background_image.rs:235-304 | in every run a discard is in force for an image installed after its retirement exactly when that install was under way then and the counter has not moved since, or has moved by whole turns |
| `BackgroundImages.RemovalWasDecided` | src/background_image.rs:327-358 | in every run a discard about to remove decided with its retirement in force, and no image installed since is there but one whose install was under way when it was retired |
| `BackgroundImages.RetiredWhileInstalled` | src/background_image.rs:235-240 | the run in which an image just installed is removed |
| `BackgroundImages.RenewedWhileDiscarded` | src/background_image.rs:244-246 | the run in which a copy named again is removed |
| `BackgroundImages.InstalledImageLoads` | src/background_image.rs:250-325 | an installed image loads as given; a refused one changes nothing, and only an accepted one advances the counter |
| `BackgroundImages.NameRoundTrip` | src/background_image.rs:91-112 | names and digests correspond one to one |
| `BackgroundImages.Parse` | src/background_image.rs:99-112 | the loop reads the digest a name says |
| `BackgroundImages.ImageStore.Copy` | src/background_image.rs:250-304 | the counter, the copy and the result of an install |
| `BackgroundImages.ImageStore.Remove` | src/background_image.rs:327-358 | what a discard removes |
| `Color.OverlayReconstructs` | src/appearance/color.rs:133-158 | over every opaque base the rounded overlay composited back is within one of the target in each channel |
| `Color.OverlayShareIsLeast` | src/appearance/color.rs:133-151 | the overlay uses the smallest alpha at which every channel's exact ink stays in range |
| `Color.OverOpaque` | src/appearance/color.rs:110-129 | over an opaque color the result is opaque and each channel the rounded weighted mean |
| `Color.OpaqueCovers` | src/appearance/color.rs:110-129 | an opaque color covers |
| `Color.MixEnds` | src/appearance/color.rs:161-171 | mixing starts at one color and ends at the other |
| `Color.ChannelMoves` | src/appearance/color.rs:161-171 | a channel never moves away from where it is mixed to |
| `Color.ClearIsUnseen` | src/appearance/color.rs:110-129 | a layer without coverage shows what is beneath it |
| `Contrast.ReadablePaintReaches` | src/appearance/color.rs:217-329 | every result reaches the floor on every background, a readable proposal is kept, and any other is where one of the four searches, to black or white by lightness or by neutral, settled with nothing readable one position nearer |
| `Contrast.OpacityYieldsLast` | src/appearance/color.rs:298-329 | opacity differs from the proposal only when none of the sixteen steps of either lightness search is readable |
| `Contrast.ReadablePaintExists` | src/appearance/color.rs:298-329 | there is none only where neither black nor white reaches the floor |
| `Contrast.ReadablePaintOnSurface` | src/appearance/color.rs:217-329 | on one surface there always is one, up to the square root of 21 |
| `Contrast.PaintTowardKeepsSide` | src/appearance/color.rs:333-424 | the directed search keeps opacity, side and floor, and fails only when no step is readable |
| `Contrast.NeutralsMultiply` | src/appearance/color.rs:199-214 | the contrasts of black and white multiply to 21 on every surface |
| `Contrast.Search` | src/appearance/color.rs:255-288 | the walk and the bisection loop |
| `Contrast.Candidate` | src/appearance/color.rs:234-254 | the gamut bisection loop |
| `Contrast.ReadablePreservingChroma` | src/appearance/color.rs:217-329 | the order of the searches and the nearer find |
| `Contrast.ReadablePreservingChromaToward` | src/appearance/color.rs:333-424 | the directed search |
| `Contrast.SearchSettles` | src/appearance/color.rs:255-288 | a search finds a paint exactly when one of the sixteen steps is good |
| `Contrast.ChosenReaches` | src/appearance/compiler.rs:553-568 | on every surface the chosen paint reaches every floor up to the square root of 21 |
| `Chrome.NearestReadableReaches` | src/appearance/compiler.rs:573-577 | so does the nearest readable color, which is the proposal when that does |
| `Chrome.CaptionAlwaysReads` | src/appearance/compiler.rs:608-646 | on every surface all caption text composites to at least 4.5 and the focus mark to 3 |
| `Chrome.CaptionControlsAlwaysRead` | src/appearance/compiler.rs:619-645 | caption controls read on their own backgrounds |
| `Chrome.StatusAlwaysReads` | src/appearance/compiler.rs:662-671 | status marks reach 3 on every surface |
| `Chrome.PullRequestAlwaysReads` | src/appearance/compiler.rs:688-695 | pull request text reaches 4.5 on every surface |
| `Chrome.CaptionKeepsAuthored` | src/appearance/compiler.rs:608-646 | each caption paint stays its own authored color wherever that reads |
| `Chrome.MarksKeepAuthored` | src/appearance/compiler.rs:662-695 | so do status marks and pull request text |
| `Materials.EdgeShowsTheAuthored` | src/appearance/composition.rs:388-393 | over an opaque host a resolved edge shows the authored one within one per channel |
| `Materials.CompressFits` | src/appearance/composition.rs:279-286 | compression never increases an alpha, keeps order strictly, never stretches a difference and stays under the ceiling |
| `Materials.FadesExactly` | src/appearance/composition.rs:260-270 | the resting curve fades steadily exactly when the residual is at most a half |
| `DesktopEntry.ExecRoundTrip` | src/installed_app.rs:332-364 | the installer's quoted path followed by anything reads back as the path exactly when what follows does not end inside an escape |
| `DesktopEntry.EntryRoundTrip` | src/installed_app.rs:318-329 | an installed entry gives back its program exactly when the path holds no newline, and otherwise none |
| `DesktopEntry.UnescapeFailsExactly` | src/installed_app.rs:333-351 | escapes fail exactly when an odd number of backslashes ends the text |
| `DesktopEntry.UnescapeUndoes` | src/installed_app_tests.rs:63-73 | string escaping is undone |
| `DesktopEntry.UnquoteUndoes` | src/installed_app_tests.rs:63-73 | Exec quoting is undone |
| `EntryReader.ReadExec` | src/installed_app.rs:332-364 | the two loops |
| `EntryReader.ReadEntry` | src/installed_app.rs:318-329 | the line scan |
| `EntryReader.Unescaped` | src/installed_app.rs:333-351 | the first loop |
| `EntryReader.Unquoted` | src/installed_app.rs:355-363 | the second loop |

## Left out

- Windows, prompts, menus, notices and reminders: what is shown to the person is an input or an event, not modelled further.
- Update history, release age and due times: whether a release is overdue and a check due are inputs.
- The grammar of a stable version, image format signatures and the display rules of observed facts: parameters.
- Theme translation, installation and removal on a document: `PlannedEdit` takes the resulting body as a function of the document.
- Developer-tool edits of a preview (`reset_preview`): the same as an update without a plan.
- `fade`, `fit_oklab`, `paint` and `floating_wash`: only easy members or tuned constants.
- Settings.Restore: the order of notifications to subscribers is not modelled.
- BackgroundImages.Erase: another program's change of a copy between reading and removing it is a fault of the removal.
- Channel.Exchange: a half-close that fails after the whole request was written ends as `Protocol`, and nothing is said of whether the desktop acted.
- Settings files moved aside: where the copies are kept is not modelled.
- Preparing the config root before a read: it may migrate the file or restore its backup, which a run shows only as another program's write.
- Framing.Move: termination of a call that is told to try again forever is not claimed.
- Color: IEEE rounding of intermediate values is not modelled.
- Filesystem, locks, sockets, peer authentication and process listing: outside the model.
