# Verified model of Offisim's core

This project models the parts of Offisim whose correctness spans many calls, and proves what
their documentation and tests promise.

- **Run streams** (`RunStream.dfy`, `PiReplay.dfy`, `CodexReplay.dfy`): the bounded replay buffer of a run.
  `RunStreamCore` is a class over the ring; its specification is the full log of everything
  published. `PiReplay` and `CodexReplay` are state machines whose steps are the critical
  sections of the two hosts, for any number of subscribers and any interleaving.
- **Dramaturgy** (`Orders.dfy`, `Staging.dfy`, `Ambient*.dfy`, `Beats.dfy`, `Timeline*.dfy`): the ambient-life
  scheduler, the beat composer and the staging matcher. Each loop of the source is a method proved
  equal to a function, and the theorems are about runs of that function.
- **Install** (`Install*.dfy`, `Transaction*.dfy`): the materializer with its backends under any pattern of
  failing writes, the rollback, the promise-chain lock over all interleavings at its awaits, and
  the persisted life of a transaction: `TransactionTrace` has the table, what each call writes and the
  service object, `TransactionRuns` a state machine in which any number of calls overlap, each step
  taking one of them from one await to the next.
- **Placement** (`Placement.dfy`), **line breaking** (`LineBreaking.dfy`), **browser sessions**
  (`Browser.dfy`), **package integrity** (`Integrity.dfy`).

Every lemma is marked `{:induction false}`: each induction is written out where it happens and none
is inferred.

What the source takes from outside is a parameter: seeded hashes, routes, trigonometry and font
widths are functions with at most range or monotonicity assumptions; failing writes are a function
from the number of the write to a boolean; SHA-256, text encoding, zip, JSON and white space are
functions in `Integrity` and `LineBreaking`. Numbers are exact: `real` or `int` for the source's
doubles, and offsets that the source rounds to two decimals are whole hundredths. Identifiers that
the source builds by joining strings (beat ids, lock keys, anchor ids) are tuples.

Where a promise is false of the code, the project gives the failing case and the condition under
which it holds: `RunStream.CodexVerdictSound`, `InstallExact.FallbackAtomicIff` with
`InstallComplete.FallbackStrandsSkill`, `InstallLock.OneRowPerKey` with `InstallLock.TwoKindsBothInstall`,
`InstallPassthrough.PassthroughEndingsIff` with `InstallPassthrough.PassthroughNeverSafe`,
`TransactionTrace.CancelMustNotOverlapConfirm`, `TransactionTrace.CancelMustNotOverlapImport` and
`TransactionTrace.RetryMustNotOverlapConfirm` with `TransactionRuns.StaleRetryLeavesTheTable`,
`TimelineOrder.OrderShowsIff` with `TimelineOrder.SameMillisecondArtifacts`,
`Browser.BareShutBreaksIff`, `Integrity.BuiltPackagePasses`.

Where code and documentation disagree the model follows the code:

- `packages/dramaturgy/src/ambient.ts:904-906` says that a recruited partner's clock was newly
  rebased. It is not: the partner spends its own attempt when its turn comes, because it is
  already active.
- `packages/dramaturgy/src/beat-composer.ts:625-648` says that the order of events with equal keys
  cannot affect the output. It can, exactly when the two events are not interchangeable.
- `packages/install-core/src/materializer.ts:818-827` calls skill installation transactional. The
  plain path used when no transaction is available is not; nor are the backends whose `asyncTransact`
  only runs its body (`packages/core/src/runtime/drizzle-repositories.ts:43-53`,
  `packages/core/src/runtime/memory-repositories.ts:149-153`), which pass the guard there.

## Model

| member | source | states |
|---|---|---|
| PiReplay.ExactlyOnce | apps/desktop/src-tauri/src/pi_agent_host/stream.rs:290-430 | for every interleaving of publishes, the terminal mark, attaches, replay and drain turns and drops: what a subscriber was handed is exactly the log after its attach cursor, without gap, duplicate or reorder; a live one is up to date; a finished one has everything published before the terminal mark |
| PiReplay.StepKeeps | apps/desktop/src-tauri/src/agent_host_stream.rs:133-301 | every step keeps the invariant that ties ring, subscriber queues and sessions to the full log |
| PiReplay.OverflowFailsClosed | apps/desktop/src-tauri/src/agent_host_stream.rs:145-163 | a subscriber whose pending queue overflowed never goes live and is never reported finished, whatever happens next |
| PiReplay.OverflowsIff | apps/desktop/src-tauri/src/agent_host_stream.rs:145-163 | in every run, a subscriber that is still replaying has overflowed exactly when more than 4096 events followed its attach |
| PiReplay.DrainOverflowsIff | apps/desktop/src-tauri/src/agent_host_stream.rs:145-163 | a publish overflows a draining subscriber exactly when more than 4096 events are still owed to it |
| PiReplay.ReplayFailsIff | apps/desktop/src-tauri/src/agent_host_stream.rs:286-301 | a replay turn fails exactly when the next event has been evicted, otherwise the subscriber moves by exactly one event |
| PiReplay.DrainCompletes | apps/desktop/src-tauri/src/agent_host_stream.rs:217-238 | draining takes one turn per queued entry and one more, and ends live, or finished if the stream is terminal |
| CodexReplay.ExactlyOnce | apps/desktop/src-tauri/src/codex_agent_host/stream.rs:217-304 | for every interleaving and at every moment: a subscriber whose cursor was not ahead has the whole log after its cursor exactly when the cursor is positive or nothing was evicted when it joined; one whose cursor was ahead has exactly what was published since it joined |
| CodexReplay.TerminalFreezes | apps/desktop/src-tauri/src/codex_agent_host/stream.rs:557-587 | after the terminal step neither the stream nor any history changes again |
| RunStream.StrictVerdictSound | apps/desktop/src-tauri/src/agent_host_stream.rs:240-275 | the strict check passes exactly when the cursor is not ahead and the replay from it is every event up to the live cursor, once, in order |
| RunStream.CodexVerdictSound | apps/desktop/src-tauri/src/agent_host_stream.rs:240-275 | a replay admitted by the CODEX check is complete exactly when the cursor is positive or the buffer never evicted |
| RunStream.CodexFromZeroLosesHistory | apps/desktop/src-tauri/src/agent_host_stream.rs:248-262 | concrete run of 4097 events: a CODEX reattach from 0 is admitted although event 1 is gone |
| RunStream.BufferedIff | apps/desktop/src-tauri/src/agent_host_stream.rs:313-324 | a cursor is buffered exactly when it is among the last 4096 published |
| RunStream.SpanBufferedIff | apps/desktop/src-tauri/src/agent_host_stream.rs:240-275 | all events after a cursor are buffered exactly when the cursor is at or past the evicted part, or at the end |
| RunStream.AfterEntries | apps/desktop/src-tauri/src/agent_host_stream.rs:277-284 | filtering the ring by cursor yields the log range after that cursor |
| RunStream.FindEntries | apps/desktop/src-tauri/src/agent_host_stream.rs:286-301 | looking up a cursor in the ring yields that event of the log, or nothing when it is evicted or ahead |
| RunStream.RunStreamCore.constructor | apps/desktop/src-tauri/src/agent_host_stream.rs:115-123 | starts empty, under the given policy |
| RunStream.RunStreamCore.BufferEvent | apps/desktop/src-tauri/src/agent_host_stream.rs:313-324 | appends to the log view; the ring stays the last 4096 entries with consecutive cursors |
| RunStream.RunStreamCore.Publish | apps/desktop/src-tauri/src/agent_host_stream.rs:133-163 | the new view is Published of the old one: queued for replaying subscribers (overflow empties and marks), delivered to live ones, refused after terminal where the policy says so |
| RunStream.RunStreamCore.BufferEvents | apps/desktop/src-tauri/src/agent_host_stream.rs:165-173 | a batch is appended in order with consecutive cursors |
| RunStream.RunStreamCore.MarkTerminal | apps/desktop/src-tauri/src/agent_host_stream.rs:175-188 | terminal is set; all subscribers are drained or only live ones removed, by policy |
| RunStream.RunStreamCore.InsertSubscriber | apps/desktop/src-tauri/src/agent_host_stream.rs:190-211 | exactly the named subscriber is added, live or replaying with an empty queue |
| RunStream.RunStreamCore.RemoveSubscriber | apps/desktop/src-tauri/src/agent_host_stream.rs:213-215 | exactly the named subscriber is removed |
| RunStream.RunStreamCore.TakePending | apps/desktop/src-tauri/src/agent_host_stream.rs:217-238 | hands out the oldest queued entry, reports overflow and removes, or completes: live, or removed on a terminal stream |
| RunStream.RunStreamCore.ValidateReplayCursor | apps/desktop/src-tauri/src/agent_host_stream.rs:240-275 | the ring-based check agrees with the verdict on the full log |
| RunStream.RunStreamCore.ReplayEntriesAfter | apps/desktop/src-tauri/src/agent_host_stream.rs:277-284 | returns the buffered part of the log after the cursor |
| RunStream.RunStreamCore.NextReplayEventExact | apps/desktop/src-tauri/src/agent_host_stream.rs:286-301 | returns the next log event, nothing at the bound, or the gap |
| AmbientTheorems.EveryRunConsistent | packages/dramaturgy/src/ambient.ts:789-1148 | after any run whose last advance was enabled: each employee in at most one activity, participants on the roster and not busy, actor and away caps kept (a break counts two), no fixture shared or blocked, phases ordered and not over |
| AmbientTheorems.AdvanceConsistent | packages/dramaturgy/src/ambient.ts:834-1148 | one enabled advance establishes that invariant from any well-shaped previous state |
| AmbientTheorems.RunShape | packages/dramaturgy/src/ambient.ts:789-1148 | every reachable state, enabled or not, keeps the shape the next advance relies on |
| AmbientTheorems.OneAttemptPerDueClock | packages/dramaturgy/src/ambient.ts:144-169 | an enabled advance adds exactly one attempt to every due clock, next due 20000 to 75000 ms ahead, and leaves the others alone |
| AmbientTheorems.LateWakeDropsAll | packages/dramaturgy/src/ambient.ts:810-846 | more than 5000 ms past the expected wake: all activities are dropped, none started, no directions |
| AmbientStutter.EarlyWakeChangesNothing | packages/dramaturgy/src/ambient.ts:707-731 | re-advancing at any time before the announced wake reproduces the whole snapshot, apart from lastAdvancedAt |
| AmbientStutter.WakeIsAhead | packages/dramaturgy/src/ambient.ts:707-731 | the announced wake is always after now |
| AmbientStutter.NextBoundaryIsLeast | packages/dramaturgy/src/ambient.ts:707-731 | nextBoundary is the least due time, phase end or break-segment change after now, and there is none if it is infinite |
| AmbientStutter.NextBoundaryStays | packages/dramaturgy/src/ambient.ts:707-731 | the boundary does not move before it is reached |
| AmbientStutter.SegmentStays | packages/dramaturgy/src/ambient.ts:611-632 | the break performance segment changes only at a boundary |
| AmbientStutter.DirectionsStay | packages/dramaturgy/src/ambient.ts:634-705 | directions do not change between boundaries |
| AmbientStutter.OneDirectionEach | packages/dramaturgy/src/ambient.ts:634-705 | the directions of an advance name distinct employees |
| AmbientInvariants.KeepAllOk | packages/dramaturgy/src/ambient.ts:834-866 | what is retained of a well-shaped previous list satisfies the invariant, counts included |
| AmbientInvariants.ChooseGood | packages/dramaturgy/src/ambient.ts:916-1107 | any activity chosen for a due employee respects the caps, free fixtures and free partners of that moment |
| AmbientInvariants.BeginOk | packages/dramaturgy/src/ambient.ts:1114-1128 | starting a chosen activity keeps the invariant and the running counts |
| AmbientInvariants.SignatureAnchors | packages/dramaturgy/src/ambient.ts:750-771 | equal geometry signatures mean equal world anchors |
| AmbientLoops.NextOfActivity | packages/dramaturgy/src/ambient.ts:716-729 | the loop over one activity computes the least boundary so far |
| AmbientLoops.NextBoundaryLoop | packages/dramaturgy/src/ambient.ts:707-731 | the loops of nextBoundary compute the specified least boundary |
| AmbientLoops.PushDirections | packages/dramaturgy/src/ambient.ts:643-700 | the directions of one activity are pushed in order |
| AmbientLoops.DirectionsLoop | packages/dramaturgy/src/ambient.ts:634-705 | the loop of directionsFor computes the specified sorted list |
| AmbientLoops.PhoneLoop | packages/dramaturgy/src/ambient.ts:930-953 | first phone destination with both routes |
| AmbientLoops.BreakLoop | packages/dramaturgy/src/ambient.ts:980-1023 | first break fixture with all four routes for one partner |
| AmbientLoops.SocialLoop | packages/dramaturgy/src/ambient.ts:1035-1059 | first social destination with both routes for one partner |
| AmbientLoops.SoloLoop | packages/dramaturgy/src/ambient.ts:1064-1087 | first free anchor with both routes |
| AmbientLoops.MovementLoop | packages/dramaturgy/src/ambient.ts:956-1090 | routines in cyclic order from the preferred one, first that yields an activity |
| AmbientLoops.ChooseActivity | packages/dramaturgy/src/ambient.ts:916-1107 | phone, then movement, then the in-place fallback |
| AmbientLoops.RetainLoop | packages/dramaturgy/src/ambient.ts:834-866 | the retain loop keeps exactly the specified activities and counts |
| AmbientLoops.DueLoop | packages/dramaturgy/src/ambient.ts:899-1129 | the due loop starts activities and spends attempts as specified, re-reading each clock |
| AmbientLoops.AdvanceAmbientScheduler | packages/dramaturgy/src/ambient.ts:789-1148 | the whole step equals the specified Advance that the theorems are about |
| TimelineIssues.TimelineLimits | packages/dramaturgy/src/beat-composer.ts:789-856 | for the timeline of any event stream: the movement cooldown, the chatter limit, one relocation per activity stream, and alternating variants |
| TimelineIssues.IssueBeatsEndWhenResolved | packages/dramaturgy/src/beat-composer.ts:164-168 | each approval or failure beat ends at the first later resolving event of its run, at most ten minutes after it began, whatever the pace; a run has at most one tracked issue beat, the unresolved one |
| TimelineOrder.OrderShowsIff | packages/dramaturgy/src/beat-composer.ts:604-648 | for two events with one sort key, both arrival orders give one timeline exactly when they are interchangeable: they stage the same signal or nothing, or one stages nothing and neither resolves the other's run nor starts a sibling child of it |
| TimelineOrder.ArrivalOrderIrrelevant | packages/dramaturgy/src/beat-composer.ts:616-648 | when events with equal sort keys are interchangeable, every permutation of the stream gives the same timeline |
| TimelineOrder.InterchangeableCommute | packages/dramaturgy/src/beat-composer.ts:789-854 | interchangeable events of one time and rank commute in every state a stream leads to |
| TimelineOrder.SameMillisecondArtifacts | packages/dramaturgy/src/beat-composer.ts:616-620 | concrete pair: artifacts of two employees in one run and millisecond share a key, and their order shows |
| TimelineIssues.IssueSignalsResolve | packages/dramaturgy/src/beat-composer.ts:764-772 | every event that raises an issue first resolves its own run |
| TimelineLaws.MovementCooldown | packages/dramaturgy/src/beat-composer.ts:848-853 | a movement beat other than an artifact delivery comes at least the cooldown after every earlier movement beat of its actor |
| TimelineLaws.ChatterLimits | packages/dramaturgy/src/beat-composer.ts:814-846 | unbroken in-place beats of one kind are more than microMinMs apart, and one activity stream relocates at most once |
| TimelineLaws.ParallelMeansOpenSibling | packages/dramaturgy/src/beat-composer.ts:730-754 | a beat is parallel exactly when it stages a child start while another start of a child of its root is open |
| TimelineLaws.RunningIsOpen | packages/dramaturgy/src/beat-composer.ts:730-754 | the tracked running children are exactly the started and not ended ones |
| TimelineLaws.IdsUnique | packages/dramaturgy/src/beat-composer.ts:671-698 | when each run has one employee no two beats share an id |
| TimelineLaws.VariantsAlternate | packages/dramaturgy/src/beat-composer.ts:685-689 | with more than one variant consecutive beats of one actor and kind differ in variant |
| TimelineLaws.OriginsOk | packages/dramaturgy/src/beat-composer.ts:789-856 | every beat comes from one event, in event order, with its time and run |
| TimelineLaws.TracksIndexed | packages/dramaturgy/src/beat-composer.ts:671-675 | the beats of one actor and kind are numbered from 0 in order, without gaps |
| TimelineComposer.Composer.TrackRunStart | packages/dramaturgy/src/beat-composer.ts:732-745 | adds the child and reports whether another was running |
| TimelineComposer.Composer.TrackRunEnd | packages/dramaturgy/src/beat-composer.ts:746-754 | removes an ended run from its root |
| TimelineComposer.Composer.ResolveIssueBeats | packages/dramaturgy/src/beat-composer.ts:773-787 | clamps the live tracked beats of the run to the event time and forgets them |
| TimelineComposer.Composer.NextVariant | packages/dramaturgy/src/beat-composer.ts:676-689 | the seeded variant, moved on when it repeats |
| TimelineComposer.Composer.Emit | packages/dramaturgy/src/beat-composer.ts:671-728 | appends one beat and updates index, variant, issue list and movement time |
| TimelineComposer.Composer.StageActivity | packages/dramaturgy/src/beat-composer.ts:814-846 | continues the stream, perhaps relocating once, or starts a new one |
| TimelineComposer.Composer.StageSignal | packages/dramaturgy/src/beat-composer.ts:796-854 | interrupt, milestone, activity and major branches |
| TimelineComposer.Composer.Accept | packages/dramaturgy/src/beat-composer.ts:789-854 | one event of the loop equals one specified step |
| TimelineComposer.ComposeBeats | packages/dramaturgy/src/beat-composer.ts:625-857 | the sorted loop equals the specified composition |
| Staging.PlacesAsManyAsPossible | packages/dramaturgy/src/staging.ts:209-266 | for the returned list: of each kind exactly the smaller of its requests and anchors are placed |
| Staging.NoDoubleBooking | packages/dramaturgy/src/staging.ts:209-266 | for the returned list: no anchor is given out more often than it stands in the world, once unless a prefab is listed twice |
| Staging.UnplacedComeLast | packages/dramaturgy/src/staging.ts:209-266 | for the returned list: after an unplaced request everyone later of its kind is unplaced |
| Staging.OrderIndependent | packages/dramaturgy/src/staging.ts:209-266 | with distinct actor and instance ids the input order of prefabs and requests does not matter |
| Staging.GreedyUnique | packages/dramaturgy/src/staging.ts:209-266 | the greedy conditions determine the reservation |
| Staging.WorldAnchorsFor | packages/dramaturgy/src/staging.ts:167-194 | expands the prefabs in instance order into world anchors |
| Staging.NearestFree | packages/dramaturgy/src/staging.ts:228-242 | the inner scan finds the nearest free anchor of the kind, first index on ties |
| Staging.ReserveStaging | packages/dramaturgy/src/staging.ts:209-266 | the loops produce the greedy reservation in priority, time and id order |
| InstallLaws.AsyncSkillInstallEndings | packages/install-core/src/materializer.ts:829-888 | over a real async transaction, for every pattern of failing writes: done with all rows and files; or database back and vault back except overwritten paths; or leftovers all listed in an attempted repair record |
| InstallLaws.WrittenEndsWell | packages/install-core/src/materializer.ts:838-888 | on every backend those three endings hold once all rows are written |
| InstallPassthrough.PassthroughEndingsIff | packages/core/src/runtime/drizzle-repositories.ts:43-53 | where asyncTransact merely runs its body, the three endings hold for every pattern of failures in which the inner rollback deletes what it lists, exactly when no skill of the plan would be inserted before its missing content throws |
| InstallPassthrough.PassthroughNeverSafe | packages/core/src/runtime/memory-repositories.ts:149-153 | and without that restriction they hold for no plan: when only the first write succeeds the package row stays, without a repair record |
| InstallLaws.FreshPathsLeaveNoTrace | packages/install-core/src/materializer.ts:829-888 | over a real async transaction and with fresh vault paths, a failure without repair record leaves database and vault as before |
| InstallLaws.TransactionalAllOrNothing | packages/install-core/src/materializer.ts:890-956 | without skills a real transaction, synchronous or not, writes everything or nothing |
| InstallLaws.FallbackSkillFree | packages/install-core/src/materializer.ts:951-1020 | without skills and without a real transaction only recorded rows are left on failure, none if every delete succeeds |
| InstallLaws.FallbackStrandsAtMostOneSkill | packages/install-core/src/materializer.ts:958-1020 | with skills and clean deletes the plain path leaves at most one extra skill row and nothing else |
| InstallExact.FallbackAtomicIff | packages/install-core/src/materializer.ts:676-740 | on the plain path a rollback without errors restores the database for every pattern of failing writes exactly when the plan never inserts a skill row, which a caller can read off the ordered assets and the backend |
| InstallLaws.WriteAllOk | packages/install-core/src/materializer.ts:958-1012 | wherever writing stops, every new row is recorded, except at most the last skill |
| InstallLaws.RollbackLaw | packages/install-core/src/rollback.ts:97-181 | rollback removes only listed things, and all of them unless it reports errors |
| InstallLaws.RollbackRestores | packages/install-core/src/rollback.ts:97-181 | rolling back a grown database gives the old one when nothing failed, and otherwise leaves only listed rows beside it |
| InstallComplete.SuccessIsComplete | packages/install-core/src/materializer.ts:958-1012 | success means one package row, one asset row per asset in order, one employee or skill per asset of that kind, one binding per requirement, one file per deferred skill |
| InstallComplete.FallbackStrandsSkill | packages/install-core/src/materializer.ts:724-734 | concrete plan: on the plain path a skill without content fails between insert and recording, and its row survives a clean rollback |
| InstallRepos.Repos.MaterializeAsset | packages/install-core/src/materializer.ts:665-784 | one asset row, then the employee or skill row of its kind |
| InstallRepos.Repos.MaterializeSkill | packages/install-core/src/materializer.ts:699-740 | insert, then write or defer the file, then record, failing where the source fails |
| InstallRepos.Repos.WriteRows | packages/install-core/src/materializer.ts:958-1012 | package, assets in order, bindings, stopping at the first failing write |
| InstallRepos.Repos.RollBack | packages/install-core/src/rollback.ts:97-181 | bindings, assets, employees, skills, files, package; every delete attempted, errors counted |
| InstallRepos.Repos.MaterializeFallback | packages/install-core/src/materializer.ts:958-1020 | writes, and rolls back what was recorded when a write throws |
| InstallRepos.Repos.EndTransaction | packages/install-core/src/materializer.ts:838-843 | commit of a real transaction, or the database as before |
| InstallRepos.Repos.EndAsync | packages/core/src/runtime/drizzle-repositories.ts:43-53 | the same where asyncTransact is a real transaction, and nothing where it only ran its body |
| InstallRepos.Repos.FlushFiles | packages/install-core/src/materializer.ts:848-851 | writes the deferred files in order until one fails |
| InstallRepos.Repos.InstallSkills | packages/install-core/src/materializer.ts:829-888 | transaction, flush, compensating rollback, repair record |
| InstallRepos.Repos.MaterializePlan | packages/install-core/src/materializer.ts:804-1020 | chooses the backend path as the source does |
| InstallLock.MutualExclusionInArrivalOrder | packages/install-core/src/install-service.ts:491-513 | over all interleavings at the awaits: at most one caller per key inside, and nobody enters before an earlier caller released |
| InstallLock.FirstInLineMayEnter | packages/install-core/src/install-service.ts:491-513 | the first caller that has not released is inside or may enter: no deadlock |
| InstallLock.EntryExactlyWhileInUse | packages/install-core/src/install-service.ts:504-512 | the lock map has an entry for a key exactly while some caller has not released |
| InstallLock.OneRowPerKey | packages/install-core/src/install-service.ts:311-349 | a caller cleared by the check still finds nothing when it inserts, and no key is installed twice |
| InstallLock.TwoKindsBothInstall | packages/install-core/src/install-service.ts:515-525 | two packages of different kinds with one id and version can both pass the check and install, for the check ignores the kind |
| TransactionRuns.HistoriesFollowTheTable | packages/install-core/src/install-service.ts:110-640 | over every interleaving at the awaits of imports, confirms through the lock, cancels and disposals, with writes failing anywhere: the history of a row that no cancel and no stale retry of it shared with another working call is a path of the table from created, of at most ten states |
| TransactionRuns.EndedStaysEnded | packages/install-core/src/install-service.ts:561-640 | in those runs no step of any call rewrites a persisted history or moves such a row once it has ended |
| TransactionRuns.FinishOnlyAtTheEnd | packages/install-core/src/install-service.ts:323-331 | in those runs finish is called on such a row only in the terminal state it writes |
| TransactionRuns.KeyHasOneActive | packages/install-core/src/install-service.ts:116-155 | however imports of one key race: a row with a younger row of its key is failed, rolled back or cancelled |
| TransactionRuns.CachedPlanIsConfirmable | packages/install-core/src/install-service.ts:351-363 | a plan that is cached, or held by a confirm that waits, is refused for its row's state exactly when the row has ended |
| TransactionRuns.ConfirmsTakeTurns | packages/install-core/src/install-service.ts:491-513 | whatever overlaps, at most one confirm of a row is between reading the row and returning |
| TransactionRuns.OneAfterAnother | packages/install-core/src/install-service.ts:110-605 | every sequence of whole calls, as the service methods run them, is such a run in which no two calls meet |
| TransactionRuns.StaleRetryLeavesTheTable | packages/install-core/src/install-service.ts:127-134 | a run in which dispose and a same-key import during a confirm take a row from materializing to failed to installed |
| TransactionTrace.CancelAmongWrites | packages/install-core/src/install-service.ts:561-640 | a cancel among the writes of any call, complete or cut: the history stays on the table exactly when the cancel writes last and the row may still go where it sends it |
| TransactionTrace.CancelMustNotOverlapConfirm | packages/install-core/src/install-service.ts:561-640 | with a cancel interleaved into a confirm the history is a path exactly when the cancel read after the confirm's last write |
| TransactionTrace.CancelMustNotOverlapImport | packages/install-core/src/install-service.ts:160-230 | with a cancel interleaved into an import: with a good plan exactly when it writes after the import's last write, with a failed plan exactly when it reads after it |
| TransactionTrace.RetryMustNotOverlapConfirm | packages/install-core/src/install-service.ts:127-134 | with a stale retry that read materializing: exactly when the confirm wrote nothing after that read |
| TransactionTrace.TerminalMeansNoWayOut | packages/install-core/src/state-machine.ts:20-72 | terminal states are exactly those without transitions, and every other state can fail |
| TransactionTrace.TransitionsDescend | packages/install-core/src/state-machine.ts:20-48 | every transition lowers the rank |
| TransactionTrace.CancelScriptOk | packages/install-core/src/install-service.ts:561-605 | cancel ends every non-terminal transaction: cannot_cancel is never thrown |
| TransactionTrace.ConfirmScriptShape | packages/install-core/src/install-service.ts:323-443 | the writes of a confirm from every state, none refused by the table |
| TransactionTrace.ImportScriptOk | packages/install-core/src/install-service.ts:160-230 | a failed plan ends in failed at any reported stage, a good one in a confirmable state |
| TransactionTrace.StepKeeps | packages/install-core/src/install-service.ts:110-233 | one whole call, cut at any failing write, keeps the service invariant |
| TransactionTrace.InstallService.Transition | packages/install-core/src/install-service.ts:624-640 | refuses what the table refuses before writing, else one write |
| TransactionTrace.InstallService.TransitionToFailed | packages/install-core/src/install-service.ts:649-664 | reports whether it applied |
| TransactionTrace.InstallService.TryTransitionAndFail | packages/install-core/src/install-service.ts:670-704 | through the stage if the table allows it, then failed and finished |
| TransactionTrace.InstallService.ImportFile | packages/install-core/src/install-service.ts:110-233 | idempotent reply, stale retry, or a new row and its pipeline |
| TransactionTrace.InstallService.ConfirmBindings | packages/install-core/src/install-service.ts:264-309 | with a cached plan the locked confirm, else no write |
| TransactionTrace.InstallService.ConfirmBindingsLocked | packages/install-core/src/install-service.ts:311-446 | the confirm script of the state it read |
| TransactionTrace.InstallService.Cancel | packages/install-core/src/install-service.ts:561-605 | the cancel script, and the plan forgotten when it finished |
| Placement.ResolvedIsClear | packages/shared-types/src/prefab-spatial.ts:462-482 | same prefabs in the same order, each inside the zone, no two overlapping |
| Placement.EachAtTheNearest | packages/shared-types/src/prefab-spatial.ts:403-482 | each goes to the strictly nearest offered point (ties by z, then x) that fits beside the earlier ones |
| Placement.UnchangedIffClear | packages/shared-types/src/prefab-spatial.ts:462-482 | a layout is returned unchanged exactly when it is clear and on hundredths |
| Placement.ResolveIdempotent | packages/shared-types/src/prefab-spatial.ts:462-482 | resolving the output again changes nothing |
| Placement.ThrowsOnlyWhenTheGridIsFull | packages/shared-types/src/prefab-spatial.ts:440-482 | an error means some prefab fits at no point of the half-unit grid of the zone |
| Placement.ClearIffAllValid | packages/shared-types/src/prefab-spatial.ts:355-368 | evaluatePrefabPlacement accepts every prefab among the others exactly when the layout is clear |
| Placement.FitsAtNext | packages/shared-types/src/prefab-spatial.ts:383-397 | at the next index the same-id skip hides no collision |
| Placement.BoundsAreTheTurnedBox | packages/shared-types/src/prefab-spatial.ts:239-281 | for the four quarter turns, placement bounds are exactly the padded local box turned by the rotation |
| Placement.OverlapsIff | packages/shared-types/src/prefab-spatial.ts:306-315 | no overlaps reported exactly when every other-id placement is apart |
| Placement.CandidateMembers | packages/shared-types/src/prefab-spatial.ts:403-460 | the sorted candidates are exactly the offered points |
| Placement.AddRings | packages/shared-types/src/prefab-spatial.ts:417-439 | origin, twelve rings of twelve points |
| Placement.AddGrid | packages/shared-types/src/prefab-spatial.ts:441-451 | the half-unit grid of the zone |
| Placement.PlacementCandidates | packages/shared-types/src/prefab-spatial.ts:403-460 | offered points without duplicates in order of distance, z, x |
| Placement.PlaceOne | packages/shared-types/src/prefab-spatial.ts:470-475 | first candidate that fits |
| Placement.ResolveNonOverlapping | packages/shared-types/src/prefab-spatial.ts:462-482 | the loop equals the specified resolver, error included |
| LineBreaking.FewestLines | packages/doc-engine/src/pdf-exporter.ts:137-173 | when every word fits and widths shrink with prefixes and suffixes, no way of breaking at spaces into fitting lines uses fewer lines, and one uses as many |
| LineBreaking.NoCharacterLost | packages/doc-engine/src/pdf-exporter.ts:137-173 | for any widths the lines hold the characters of the text in order, white space apart |
| LineBreaking.EveryLineFits | packages/doc-engine/src/pdf-exporter.ts:137-173 | when single characters and the empty line fit, every line fits |
| LineBreaking.LinesFit | packages/doc-engine/src/pdf-exporter.ts:137-173 | for any widths a line that does not fit is one character, or the lone empty line |
| LineBreaking.LongestPrefix | packages/doc-engine/src/pdf-exporter.ts:149-157 | with prefix-monotone widths a prefix fits exactly up to the length the binary search returns |
| LineBreaking.SplitKeeps | packages/doc-engine/src/pdf-exporter.ts:137-137 | the words hold the text without its white space |
| LineBreaking.WrappedIsGreedy | packages/doc-engine/src/pdf-exporter.ts:160-173 | on words that fit the lines are the greedy breaking |
| LineBreaking.FindPrefix | packages/doc-engine/src/pdf-exporter.ts:149-157 | the binary search loop, at least one character |
| LineBreaking.ForceBreak | packages/doc-engine/src/pdf-exporter.ts:147-159 | cuts a wide word into prefixes until nothing remains |
| LineBreaking.WrapText | packages/doc-engine/src/pdf-exporter.ts:131-173 | the nested loops compute the specified lines, and terminate for any widths |
| Browser.ClosedAreBounded | apps/desktop/src-tauri/src/browser_session.rs:533-546 | over any calls at most 256 closed sessions are kept beside those closed through mutate, each with a tombstone |
| Browser.ClosedAreTheNewest | apps/desktop/src-tauri/src/browser_session.rs:452-482 | while no reservation is abandoned the closed sessions kept are exactly the last 256 closed |
| Browser.QueueIsNewestClosings | apps/desktop/src-tauri/src/browser_session.rs:452-482 | the queue is always the last 256 closings |
| Browser.PruneExact | apps/desktop/src-tauri/src/browser_session.rs:533-546 | pruning keeps the newest tombstones and removes exactly the closed sessions a dropped one names |
| Browser.ActiveNeverPruned | apps/desktop/src-tauri/src/browser_session.rs:533-546 | a close leaves every other active session untouched, however stale the tombstones |
| Browser.BareShutBreaksIff | apps/desktop/src-tauri/src/browser_session.rs:391-405 | closing through mutate keeps the bound's invariant exactly when a tombstone already names the session |
| Browser.SessionEvolves | apps/desktop/src-tauri/src/browser_session.rs:374-450 | while a session is kept, over any calls: scope and owner fixed, every change raises the sequence, closed stays closed, and nothing but the closing mutation touches a closed one |
| Browser.ClosedIsFinal | apps/desktop/src-tauri/src/browser_session.rs:277-292 | over any calls a closed session is neither reopened nor reserved while kept |
| Browser.OnlyClosedAreDropped | apps/desktop/src-tauri/src/browser_session.rs:319-321 | a session leaves by abandon, or closed |
| Browser.BrowserSessionRegistry.ReserveSession | apps/desktop/src-tauri/src/browser_session.rs:265-317 | creates, returns the existing one, or the first mismatch |
| Browser.BrowserSessionRegistry.AbandonSession | apps/desktop/src-tauri/src/browser_session.rs:319-321 | removes the record only |
| Browser.BrowserSessionRegistry.Access | apps/desktop/src-tauri/src/browser_session.rs:323-341 | not found, scope mismatch, or the record |
| Browser.BrowserSessionRegistry.ActiveAccess | apps/desktop/src-tauri/src/browser_session.rs:343-353 | also refuses closed sessions |
| Browser.BrowserSessionRegistry.SetPendingOrigin | apps/desktop/src-tauri/src/browser_session.rs:362-366 | announces the origin of the next navigation of an existing session |
| Browser.BrowserSessionRegistry.ClearPendingOrigin | apps/desktop/src-tauri/src/browser_session.rs:368-372 | takes the announcement back |
| Browser.BrowserSessionRegistry.Navigate | apps/desktop/src-tauri/src/browser_session.rs:374-389 | refused when closed; the announced origin is consumed once |
| Browser.BrowserSessionRegistry.MutateSession | apps/desktop/src-tauri/src/browser_session.rs:391-405 | refused when closed, except the closing mutation |
| Browser.BrowserSessionRegistry.ReattachSession | apps/desktop/src-tauri/src/browser_session.rs:407-430 | host and bounds replaced, shown, two sequence steps |
| Browser.BrowserSessionRegistry.HistoryIfChanged | apps/desktop/src-tauri/src/browser_session.rs:432-450 | nothing exactly when the session is absent, closed or unchanged, else one step |
| Browser.BrowserSessionRegistry.PruneTombstones | apps/desktop/src-tauri/src/browser_session.rs:533-546 | the loop equals the specified pruning |
| Browser.BrowserSessionRegistry.CloseRecord | apps/desktop/src-tauri/src/browser_session.rs:452-482 | closes once, entombs once, prunes always |
| Browser.BrowserSessionRegistry.CloseAll | apps/desktop/src-tauri/src/browser_session.rs:509-524 | no session is active afterwards and the bound holds |
| Integrity.ValidIff | packages/install-core/src/integrity-checker.ts:32-103 | valid exactly when the files are the declared ones with matching digests, the manifest and nothing else, and anchor and expected hash agree |
| Integrity.BuiltPackagePasses | packages/install-core/src/package-builder.ts:117-257 | a built package passes against its own hash in any letter case, and with no expected hash exactly when its anchor is not all zeros |
| Integrity.ManifestPinsFiles | packages/install-core/src/integrity-checker.ts:32-103 | two archives that pass with one manifest hold the same files, or the two files of a path collide |
| Integrity.AnchorIgnoresOrder | packages/install-core/src/hash.ts:27-35 | the order of declaration does not change the anchor |
| Integrity.AnchorPinsDeclaration | packages/install-core/src/hash.ts:27-35 | anchors of one-line entries agree exactly when the declared digests do, or the two hashed texts encode alike or collide |
| Integrity.BuiltIsAsDeclared | packages/install-core/src/package-builder.ts:117-154 | the built archive is its declared payload and the manifest |
| Integrity.AllowedIsNotReserved | packages/install-core/src/package-builder.ts:70-93 | no accepted archive path names the manifest or the readme |
| Integrity.CheckIntegrity | packages/install-core/src/integrity-checker.ts:32-103 | the loops compute the specified result and error list |
| Integrity.CollectExtras | packages/install-core/src/package-builder.ts:121-133 | extra files in order, or the first refused path |

## Left out

- PiReplay.ExactlyOnce: an entry counts as handed over inside the critical section; the sends that
  follow after the lock is released, and workspace events that the PI host replaces by their cursor,
  are not modelled.
- CodexReplay.ExactlyOnce: the order in which terminal events and cursors are written to one channel
  is not modelled.
- RunStream.RunStreamCore.BufferEvent: cursors are unbounded; saturation at 2^64-1 is not modelled.
- AmbientTheorems.EveryRunConsistent: employee ids are non-empty, and blocked anchors are anchors of
  prefabs; the ids of social and phone spots are a separate constructor.
- AmbientStutter.EarlyWakeChangesNothing: the repeated input equals the first in all but the time.
- TimelineComposer.ComposeBeats: the visual and flow intents of a beat are not modelled, being tables over
  its kind and its detail (thread, work kind, tool activity, artifact or failure kind), which are.
- TimelineLaws.IdsUnique: an id is the triple of run, kind and index, not the joined string.
- InstallLaws.AsyncSkillInstallEndings: the contents of rows other than their keys and kinds, the
  asset kinds that `assertSupportedAssetKind` refuses, and the text of error messages are not modelled;
  the repair record is kept beside the vault.
- InstallLock.MutualExclusionInArrivalOrder: the key is a tuple, so two ids that join to one string
  are not identified; sharing a lock would only serialize more.
- TransactionTrace.InstallService.ConfirmBindings: the method runs without other calls in between; overlap is
  the subject of `TransactionRuns`, of which its runs are a special case.
- TransactionRuns.HistoriesFollowTheTable: the package a row is created for, the outcome of its plan and what a
  confirm finds installed and materialized are arbitrary, not tied to the other rows. Row ids are numbers in
  order of creation, and the unique index on active idempotency keys is part of the repository.
- Placement.EachAtTheNearest: arithmetic is exact and rotations are the four quarter turns; the id of a
  placement is its index, and the table of footprints is a parameter.
- LineBreaking.EveryLineFits: a character is one UTF-16 code unit, so a cut may fall inside a surrogate pair.
- Browser.BrowserSessionRegistry.MutateSession: titles and messages arrive already trimmed and cut;
  the registry's mutex is taken to serialize calls; creating and driving webviews is not modelled.
- Browser.BrowserSessionRegistry.CloseAll: no other call runs in between.
- Integrity.BuiltPackagePasses: unzipping is taken to give back the zipped files and the manifest;
  letter case is folded for ASCII only; locale order, the JSON schema and the rest of the manifest are
  parameters.
- Templates, office layouts and prefab assets: unreachable behind the check of supported kinds.
- Tauri channels and webviews, HTTP, SQL schemas, React views, process spawning: input and output.
- Upgrade differ, exporters other than line breaking, label and visual tables: easy members only.
- Listing of sessions by scope: a filter and a sort.
