# Verified model of a durable cognition runtime

A Dafny model of a crash-recoverable runtime that keeps all of its state in tables. Every
transaction is one atomic step; the process may stop between any two of them. The project states
what the runtime's own integrity checks demand of the tables as predicates over the rows and proves
that no sequence of transactions can leave them.

How a component is laid out:

- a module of rows and transactions (`Cognition`, `Ingestion`, `Exploration`, `Autonomy`,
  `Personal`, `ContextPacker`, ...): each transaction is one function from rows to rows, errors
  included, with the branches, order of tests and constants of the code;
- a store (`CognitionStore`, `IngestionStore`, `ExplorationStore`, `AutonomyStore`,
  `ReflectionStore`, `PersonalStore`, `ContextCompiler`): the same transactions as methods that update fields in place
  with the loops of the code, each proved equal to its function;
- invariants, steps and runs: what every transaction keeps, and what follows for whole runs over
  all interleavings.

| modules | component |
|---|---|
| `Cognition`, `CognitionInvariant`, `CognitionSteps`, `CognitionRuns`, `CognitionInterruptions`, `CognitionStore`, `CognitionRuntime`, `Wakes` | claiming wakes, the turn and attempt budgets, exactly-once decisions, runs with and without interruptions, coalescing |
| `Deduplication`, `Ingestion`, `IngestionInvariant`, `IngestionRuns`, `IngestionStore` | pages, receipt chain, inbound groups |
| `JsonText`, `LocalJson` | decimal and array text, paging over a fixture |
| `Exploration`, `ExplorationInvariant`, `ExplorationSteps`, `ExplorationRuns`, `ExplorationStore` | exploration allowances and their cadence |
| `Heartbeat`, `Autonomy`, `AutonomyProofs`, `AutonomyRuns`, `AutonomyStore` | heartbeat arithmetic and bookkeeping |
| `CandidateOrder`, `ContextPools`, `ContextPacker`, `ContextGuarantees`, `ContextRotation`, `ContextCrowding`, `ContextCompiler` | ranking, deduplication, interleaving and packing of context |
| `PersonalRows`, `Executive`, `Maturation`, `Personal`, `PersonalHistory`, `PersonalRuns`, `PersonalStore` | personal objects of all families, plan-then-write, revision histories |
| `Development`, `PersonalMaturation` | maturation of interests, preferences and self-states, and its histories in every run |
| `Reflection`, `ReflectionSchedule`, `ReflectionInvariant`, `ReflectionRuns`, `ReflectionStore` | fair review batches with rotating cursors, their scheduling and accounting |
| `SchedulerClocks`, `Schedulers` | heartbeat, reflection, exploration and inbound groups on shared cycles and one clock |
| `JointRuns` | the protocol and these schedulers in the same transactions |
| `Lineage` | parent cycles |
| `Common` | identities, instants, options, reference unions, findings |

Conventions: identities are natural numbers with their order; an instant is an integer number of
microseconds; `now`, generated identities, policy flags, model replies and query results about other
tables are parameters. In runs these parameters are arbitrary, with these bounds: generated
identities are new; a finished inbound cycle does not end before it started; an exploration cycle
does not end before it started, ends by the last representable instant and has its deadline before
it; and in `Schedulers` and `JointRuns` the clock does not go backwards. Everything else, clocks that do go backwards
included, is covered: the transactions then refuse as the code does. A transaction that raises is
rolled back: its step changes nothing. A predicate named `Inv` collects the demands on a component's
rows.

Compiling context has an interface precondition that the code relies on without checking it. Every
lexical match is packed after the direct candidates, mandatory or not, so optional context cannot
displace mandatory context exactly when no surviving optional candidate is packed ahead of a mandatory
one (`ContextCrowding.MandatoryDecides`; the condition on the candidates is
`ContextRotation.Crowdable`). The selection that feeds it marks only urgent commitments as mandatory,
never a lexical match, and then the condition holds (`ContextCrowding.LexicalFreeLeads`);
`ContextCrowding.ExampleCrowds` is a list on which it would fail.

## Model

| member | source | states |
|---|---|---|
| `CognitionSteps.RunKeepsInv` | src/cognition/db/checks.py:299-347 | every run of committed steps, interrupted between any two of them, meets all inspector demands on cycles, turns, calls, decisions and wakes, and no step raises |
| `CognitionSteps.StepKeepsInv` | src/cognition/runtime/cognition.py:130-307 | each single transaction, interruption or other writer keeps those demands |
| `CognitionSteps.BeginOk` | src/cognition/stores/cognition.py:238-367 | claiming or resuming keeps one active cycle with one unfinished turn, linked to exactly its claimed wakes |
| `CognitionSteps.HeadOk` | src/cognition/runtime/cognition.py:147-159 | the loop's head never meets a missing turn, a turn without its frozen request or a turn not open to invocation |
| `CognitionSteps.StartOk` | src/cognition/stores/cognition.py:724-750 | a started call takes the next attempt number within the budget and belongs to an invoking turn; the not-eligible error is unreachable |
| `CognitionSteps.SettleOk` | src/cognition/stores/cognition.py:678-721 | interrupted calls are abandoned, and either the cycle ends or an attempt is left |
| `CognitionSteps.RecordOk` | src/cognition/stores/cognition.py:781-861 | recording any result, refusal, failure or mismatch leaves the linked tables sound |
| `CognitionSteps.ApplyOk` | src/cognition/stores/cognition.py:893-1003 | applying or rejecting a decision leaves all tables sound, whichever way the cycle goes on |
| `CognitionSteps.EffectOk` | src/cognition/stores/cognition.py:930-975 | an accepted decision records each operation once and keeps pending keys, claims and managed wakes as they were |
| `CognitionSteps.LatestIsUnfinished` | src/cognition/db/checks.py:328-347 | an active cycle has a unique latest turn and it is the unfinished one |
| `CognitionInvariant.SameStageKeepsTurns` | src/cognition/db/checks.py:328-347 | a turn that moves between unfinished stages stays the one unfinished turn |
| `CognitionInvariant.OpenKeepsTurns` | src/cognition/stores/cognition.py:328-360 | a new cycle starts with its one unfinished first turn |
| `CognitionInvariant.EndTurnKeepsTurns` | src/cognition/stores/cognition.py:753-764 | ending the turn together with its cycle leaves no unfinished turn behind |
| `CognitionInvariant.StartKeepsNumbers` | src/cognition/stores/cognition.py:730-748 | attempts of a turn stay numbered 1..k within the limit |
| `CognitionInvariant.ChooseIsSound` | src/cognition/stores/cognition.py:258-327 | what is claimed is pending and due; a managed wake comes alone and within its allowance |
| `CognitionInvariant.AddKeepsScope` | src/cognition/stores/exploration_scope.py:243-308 | another writer's new wake keeps managed wakes unkeyed and at most one allowance live |
| `CognitionInvariant.ScheduleExtends` | src/cognition/stores/attention.py:79-134 | scheduling the wakes a decision asks for never alters claimed or unkeyed wakes and adds only pending ones |
| `CognitionRuns.CallBudget` | src/cognition/stores/cognition.py:678-750 | over all interruptions and resumptions a cycle makes at most max turns times max attempts calls |
| `CognitionRuns.DecisionAppliedOnce` | src/cognition/stores/cognition.py:893-1003 | a recorded decision is never replaced or asked for again; its operations are all recorded exactly when its turn is applied, at most once |
| `CognitionRuns.RunGrows` | src/cognition/runtime/cognition.py:142-307 | finished turns, finished cycles, recorded decisions, operations and wake links of any prefix of a run are unchanged at its end |
| `CognitionRuns.StepGrows` | src/cognition/stores/cognition.py:753-861 | no step rewrites a finished turn or a decision |
| `CognitionRuns.OnlyWhileAllowed` | src/cognition/stores/cognition.py:165-187 | while paused or blocked no cycle opens, no call starts and no decision takes effect |
| `CognitionRuns.InFlightResultIsRecorded` | src/cognition/runtime/cognition.py:297-307 | a call once started may be answered after any administration, pauses included, and any other writers; a fitting decision still decides its turn |
| `CognitionInterruptions.InterruptedRunsAgree` | src/cognition/runtime/cognition.py:142-307 | a run interrupted any number of times, between any two transactions and again on the way back, has at every moment the turns, decisions, applied operations and tables of the run left alone; only calls differ, one more per repetition |
| `CognitionInterruptions.RunsShadow` | src/cognition/runtime/cognition.py:142-307 | at every moment the interrupted process is where the other one is or on its way back there |
| `CognitionInterruptions.RepeatShadows` | src/cognition/runtime/cognition.py:130-307 | each repeated transaction brings the interrupted process one place closer and changes no table but calls |
| `CognitionInterruptions.ResumptionIsTransparent` | src/cognition/stores/cognition.py:247-258 | interrupted anywhere before a call is started, claiming again and repeating the pass leads to the same tables and place, whatever follows |
| `CognitionInterruptions.OnlyTheCallIsLost` | src/cognition/stores/cognition.py:678-721 | interrupted during a call, exactly that call is abandoned and nothing else changes; then the turn is open for its next attempt or the cycle fails with the settled reason |
| `CognitionInterruptions.WhenCallIsLost` | src/cognition/stores/cognition.py:700-719 | after a lost call the cycle goes on if and only if an attempt, time and the exploration's permission are left; otherwise it fails for lack of attempts, then for the deadline, then for the denial |
| `CognitionInterruptions.SettlesInPlace` | src/cognition/stores/cognition.py:678-721 | interrupted before a call is started, claiming again and settling leads back to the same turn and tables if and only if an attempt, time and permission are left |
| `CognitionInterruptions.RoomIsNeeded` | src/cognition/stores/cognition.py:678-721 | settling after repeated calls goes on as in the run left alone if and only if an attempt is left where that run has one |
| `CognitionRuns.NewCycleTakes` | src/cognition/stores/cognition.py:259-327 | a new cycle holds the earliest due ordinary wake; inbound and exploration wakes travel alone; exploration starts only when nothing ordinary is due |
| `CognitionRuns.OrdinaryChoice` | src/cognition/stores/cognition.py:261-304 | the ordinary claim is the earliest inbound group alone, or exactly the earliest ordinary wakes within the limit |
| `CognitionRuns.OpeningApproaches` | src/cognition/stores/cognition.py:259-304 | opening a cycle takes a due wake or something ahead of it |
| `CognitionRuns.ClaimedWithinPredecessors` | src/cognition/stores/cognition.py:259-356 | a due wake with k predecessors is claimed within k + 1 openings, unless other writers or wake requests bring work due earlier or withdraw it |
| `CognitionRuns.StepKeepsPlace` | src/cognition/stores/cognition.py:259-356 | no step of the protocol itself puts anything ahead of a due wake or postpones it, and each opening brings it closer |
| `CognitionRuns.RecordAddsNothing` | src/cognition/stores/cognition.py:781-861 | recording a result starts no call, opens no cycle and applies nothing |
| `CognitionStore.RecoveryCarriesScope` | src/cognition/stores/cognition.py:370-413 | a claim without a cycle is superseded and a pending wake carries its references, cause, due time and a link back |
| `CognitionStore.Store.RecoverOrphans` | src/cognition/stores/cognition.py:370-413 | the recovery loop equals recovering the earliest orphans one by one |
| `CognitionStore.Store.ClaimOrResume` | src/cognition/stores/cognition.py:238-367 | the stored claim equals its specification: orphaned claims are recovered first, then the active cycle resumes or a new one opens |
| `CognitionStore.RecoveryRestoresLinks` | src/cognition/stores/cognition.py:370-413 | however many claims were orphaned, if the limit covers them, recovery leaves every claim with its cycle |
| `CognitionStore.Store.Choose` | src/cognition/stores/cognition.py:258-327 | the selection of wakes and limits equals its specification |
| `CognitionStore.Store.OpenCycle` | src/cognition/stores/cognition.py:328-366 | every chosen wake is claimed and linked, and nothing else is touched |
| `CognitionStore.Store.FinishCycle` | src/cognition/stores/cognition.py:637-671 | a finished cycle consumes exactly its claimed wakes; a second call changes nothing |
| `CognitionStore.Store.FailTurn` | src/cognition/stores/cognition.py:753-764 | the turn fails and its cycle ends with it |
| `CognitionStore.Store.Settle` | src/cognition/stores/cognition.py:678-721 | started calls are abandoned and a spent budget ends the cycle with the first applicable reason |
| `CognitionStore.Store.StartCall` | src/cognition/stores/cognition.py:724-750 | a started call and its turn's stage, or nothing but the settlement |
| `CognitionStore.Store.FailCall` | src/cognition/stores/cognition.py:767-778 | the call fails with its error and nothing else changes |
| `CognitionStore.Store.RecordResult` | src/cognition/stores/cognition.py:781-861 | each kind of result leaves exactly the specified rows |
| `CognitionStore.Store.Findings` | src/cognition/stores/cognition.py:900-960 | no finding is collected if and only if the whole proposal is acceptable |
| `CognitionStore.Store.RequestFindings` | src/cognition/stores/cognition.py:940-960 | wake requests pass if and only if their identities are new |
| `CognitionStore.DistinctByCount` | src/cognition/stores/cognition.py:912-916 | counting distinct operation ids detects every duplicate |
| `CognitionStore.Store.ApplyDecision` | src/cognition/stores/cognition.py:893-1003 | the stored application equals its specification: all operations or none, then the next turn or the end |
| `CognitionStore.Store.ScheduleRequests` | src/cognition/stores/cognition.py:958-985 | the loop over wake requests equals coalescing them one after another |
| `CognitionRuntime.RunOnce` | src/cognition/runtime/cognition.py:130-307 | one run is a run of the protocol, ends, keeps every demand, and reports idle, blocked or ended truthfully |
| `CognitionRuntime.Pass` | src/cognition/runtime/cognition.py:142-307 | one pass of the loop ends the run or spends remaining turns, stages or attempts in that order |
| `CognitionRuntime.CallModel` | src/cognition/runtime/cognition.py:216-307 | the invocation part of a pass spends an attempt unless it stops the run |
| `CognitionRuntime.HeadProgress` | src/cognition/runtime/cognition.py:142-159 | applying or settling spends budget or leaves it for the call |
| `CognitionRuntime.RecordSpends` | src/cognition/stores/cognition.py:781-861 | no answer gives budget back |
| `CognitionRuntime.LatestTurn` | src/cognition/stores/cognition.py:435-455 | the scan returns the turn with the highest ordinal |
| `CognitionRuntime.Head` | src/cognition/runtime/cognition.py:142-159 | the first transaction of a pass is the protocol's head step |
| `CognitionRuntime.Begin` | src/cognition/runtime/cognition.py:130-140 | the opening transaction is the protocol's begin step; idle means no active cycle |
| `Wakes.RequestsCoalesce` | src/cognition/stores/attention.py:79-134 | any requests, under any keys in any order, leave for each key asked for one pending wake at the minimum due time, first references in front, every reference and cause kept; a wake that held the key before counts as the first request |
| `Wakes.RequestsLeaveOthers` | src/cognition/stores/attention.py:79-134 | wakes without a key, no longer pending or under other keys stay as they were |
| `Wakes.CreateOrMergeKeepsKeys` | src/cognition/stores/attention.py:79-134 | at most one pending wake per key; unkeyed wakes are never altered |
| `Wakes.MergeCarriesBoth` | src/cognition/stores/attention.py:97-126 | a merge loses no reference, cause or earlier due time and invents nothing |
| `Common.UnionKeepsBoth` | src/cognition/stores/personal_core.py:50-55 | earlier references stay a prefix, incoming ones are all present, once |
| `Wakes.AppendMissing` | src/cognition/stores/personal_core.py:50-55 | the loop equals the union |
| `Wakes.CreateOrMergePending` | src/cognition/stores/attention.py:79-134 | the stored operation equals coalescing and returns the carrying wake |
| `Wakes.InOrderMembers` | src/cognition/stores/cognition.py:269-272 | an ordered, limited selection has distinct members and exactly as many as the limit allows |
| `Wakes.InOrderTakesEarliest` | src/cognition/stores/cognition.py:269-272 | whatever the limit leaves out comes after everything taken |
| `Wakes.Select` | src/cognition/stores/cognition.py:269-304 | repeatedly taking the least row is the selection in (due time, id) order |
| `IngestionInvariant.RunKeepsInv` | src/cognition/db/perception_checks.py:79-145 | in every run of ingesting, claiming, finishing and enabling, receipts form one chain 1..n, counts match, groups validate and the binding refers to the one open group |
| `IngestionInvariant.StepKeepsInv` | src/cognition/stores/perception.py:235-484 | each transaction keeps the receipt chain, counts, groups, order and keys |
| `IngestionInvariant.CheckpointAccepted` | src/cognition/stores/perception.py:107-186 | the checkpoint validation accepts every state the inspector accepts |
| `IngestionInvariant.OpenAccepted` | src/cognition/stores/perception.py:287-308 | the open-membership validation accepts every such state |
| `IngestionInvariant.PlaceAllOk` | src/cognition/stores/perception.py:353-433 | writing any number of new items keeps groups of 1..8, one open at most, in creation order |
| `IngestionInvariant.PlaceKeepsGroups` | src/cognition/stores/perception.py:353-433 | one more member keeps every group's refs equal to its immutable membership |
| `IngestionInvariant.AddedKeepsCounts` | src/cognition/db/perception_checks.py:90-131 | each receipt counts exactly its observations and each observation has its receipt |
| `IngestionInvariant.AppendKeepsChain` | src/cognition/db/perception_checks.py:113-140 | a new receipt continues the cursor, revision and predecessor of the last one |
| `IngestionInvariant.ClaimKeepsInv` | src/cognition/stores/inbound_scope.py:386-445 | sealing on claim keeps the demands, and its own validation never fails |
| `IngestionInvariant.FinishKeepsInv` | src/cognition/stores/inbound_scope.py:283-317 | finishing the cycle leaves a valid consumed group |
| `IngestionInvariant.FinishNeedsClock` | src/cognition/stores/inbound_scope.py:283-317 | finishing the cycle of a claimed group leaves valid rows if and only if the clock is not behind the cycle's start |
| `IngestionInvariant.EnableKeepsInv` | src/cognition/stores/connectors.py:176-222 | changing enablement leaves checkpoint and groups valid |
| `IngestionRuns.RefusedExactlyWhen` | src/cognition/stores/perception.py:244-331 | a reachable source refuses a page exactly for its clock, its snapshot or a contradicted identity; never for corruption |
| `IngestionRuns.PageOutcome` | src/cognition/stores/perception.py:324-338 | an accepted page stores the first occurrences, counts every item once, and writes a receipt unless nothing is new and the cursor stays |
| `IngestionRuns.SeenPageAddsNothing` | src/cognition/stores/perception.py:324-338 | a page seen before adds no observation and, with the same cursor, changes nothing at all |
| `IngestionRuns.RunStoresFirstOccurrences` | src/cognition/stores/perception.py:310-336 | over any run the store holds exactly the first occurrence of each key of all accepted items, in order |
| `IngestionRuns.GroupsSplitHistory` | src/cognition/stores/perception.py:353-433 | groups in creation order concatenate to the observation sequence; sizes 1..8; all but the last sealed |
| `IngestionRuns.RunGrowsScopes` | src/cognition/stores/inbound_scope.py:386-445 | a sealed group never changes its members again; an open one only grows at its end |
| `IngestionStore.Connector.PersistPage` | src/cognition/stores/perception.py:235-484 | the stored operation equals its specification; a refused page changes no row |
| `IngestionStore.Connector.WriteItems` | src/cognition/stores/perception.py:346-433 | the grouping loop equals placing the items one by one and reports each touched group once |
| `IngestionStore.Connector.Claim` | src/cognition/stores/inbound_scope.py:386-445 | seal and claim, or an error and no change |
| `IngestionStore.Connector.Finish` | src/cognition/stores/cognition.py:650-663 | exactly the cycle's claimed group is consumed |
| `IngestionStore.Connector.SetEnabled` | src/cognition/stores/connectors.py:176-222 | enablement, revision and clock change together, or a conflict changes nothing |
| `Deduplication.ScreenMeaning` | src/cognition/stores/perception.py:310-336 | the screening refuses exactly contradicted pages and otherwise yields the items whose key is new, in order |
| `Deduplication.FirstOfKeepsKeys` | src/cognition/stores/perception.py:324-336 | each key survives exactly once |
| `Deduplication.FirstOfInOrder` | src/cognition/stores/perception.py:324-336 | kept items are the first with their key, in order, none skipped |
| `Deduplication.FirstOfPages` | src/cognition/stores/perception.py:310-336 | deduplicating page by page equals deduplicating everything at once |
| `Deduplication.AgreePages` | src/cognition/stores/perception.py:324-331 | consistency with what was stored is consistency with everything received |
| `Deduplication.ScreenPage` | src/cognition/stores/perception.py:324-336 | the loop equals the screening |
| `LocalJson.DrainReturnsRest` | src/cognition/connectors/local_json.py:134-158 | polling from a cursor returns what lies behind it, each member once and in order |
| `LocalJson.PollAdvances` | src/cognition/connectors/local_json.py:134-158 | a readable fixture's poll is a nonempty, maximal run of at most 32 members and 256 KiB, or the end, where the cursor stays |
| `LocalJson.AloneFits` | src/cognition/connectors/local_json.py:148-150 | the member-cannot-fit error is unreachable under the per-item limit |
| `LocalJson.CursorRoundTrip` | src/cognition/connectors/local_json.py:46-66 | a cursor reads back as the hash and offset it was made from |
| `LocalJson.CursorCanonical` | src/cognition/connectors/local_json.py:46-66 | no two canonical texts read the same |
| `LocalJson.PageEnd` | src/cognition/connectors/local_json.py:142-151 | a page ends at the item limit, the byte limit or the end, and every shorter page fits |
| `LocalJson.SelectMembers` | src/cognition/connectors/local_json.py:140-153 | the selection loop returns exactly the members up to the page's end |
| `LocalJson.PollFixture` | src/cognition/connectors/local_json.py:105-158 | the polling operation equals its specification in every error case |
| `JsonText.ValueOfDigits` | src/cognition/connectors/local_json.py:46-66 | decimal text reads back as its number |
| `JsonText.DigitsMonotone` | src/cognition/runtime/context.py:386-389 | a smaller counter is never longer |
| `ExplorationSteps.RunKeepsInv` | src/cognition/stores/exploration.py:84-285 | every run keeps grants, links, outcome counts, anchors and cadence consistent |
| `ExplorationRuns.NeverInvalid` | src/cognition/stores/exploration.py:84-285 | the retained validation accepts every reachable state, and every exploration cycle lies within its allowance |
| `ExplorationRuns.OneLiveAllowance` | src/cognition/stores/exploration_scope.py:243-308 | at most one allowance is live and the state refers to it |
| `ExplorationRuns.ExactlyOneOutcome` | src/cognition/stores/exploration.py:355-464 | a consumed or released cancelled allowance has exactly one outcome, a live one none |
| `ExplorationRuns.CadenceHolds` | src/cognition/stores/exploration.py:355-464 | whenever a cycle starts, in any run, 604800 seconds have passed since every outcome recorded so far, cut off at the last instant |
| `ExplorationRuns.CadenceAfterScheduling` | src/cognition/stores/exploration.py:409-464 | a started cycle is a week past every outcome recorded before its allowance was scheduled |
| `ExplorationRuns.AWeekBetweenCycles` | src/cognition/stores/exploration.py:509-582 | consecutive exploration cycles are at least a week apart |
| `ExplorationRuns.EligibilityNeverAdvances` | src/cognition/stores/exploration.py:355-381 | no step, cancelling included, brings the next eligible time forward |
| `ExplorationInvariant.Accepted` | src/cognition/stores/exploration.py:84-285 | the validation follows from the invariant, also in the middle of a finishing transaction |
| `ExplorationSteps.EnsureKeepsInv` | src/cognition/stores/exploration.py:467-506 | ensuring fails only for a clock behind its anchor |
| `ExplorationSteps.CancelKeepsInv` | src/cognition/stores/exploration.py:355-381 | cancelling ends the allowance with one outcome and keeps the cadence |
| `ExplorationSteps.ScheduleKeepsInv` | src/cognition/stores/exploration.py:409-464 | a new allowance waits for the cadence and begins only after every earlier one has ended |
| `ExplorationSteps.MaterializeKeepsInv` | src/cognition/stores/exploration.py:384-464 | releasing and scheduling in one step keeps the invariant |
| `ExplorationSteps.FinishKeepsInv` | src/cognition/stores/exploration.py:509-582 | a finished exploration cycle is accounted in the same transaction |
| `ExplorationSteps.ReplayChangesNothing` | src/cognition/stores/exploration.py:541-545 | accounting again changes nothing |
| `ExplorationSteps.CadenceIs` | src/cognition/stores/exploration.py:43-43 | the cadence is the anchor plus a week, cut off at the last instant |
| `ExplorationStore.Allowances.EnsureExploration` | src/cognition/stores/exploration.py:467-506 | the stored operation equals its specification; an error changes nothing |
| `ExplorationStore.Allowances.RecordOutcome` | src/cognition/stores/exploration.py:509-582 | the stored accounting equals its specification |
| `ExplorationStore.Allowances.Materialize` | src/cognition/stores/exploration.py:384-464 | release, cancel and schedule in place equal the specification |
| `ExplorationStore.Allowances.Cancel` | src/cognition/stores/exploration.py:355-381 | cancelling in place equals the specification |
| `Heartbeat.AddSecondsIsCutOffSum` | src/cognition/domain/heartbeat.py:32-42 | splitting off whole seconds loses nothing: the result is the rounded exact sum, cut off at the last instant |
| `Heartbeat.SplitSeconds` | src/cognition/domain/heartbeat.py:36-39 | whole seconds and rounded microseconds recombine to the rounded total |
| `Heartbeat.BackoffIsCutOffProduct` | src/cognition/domain/heartbeat.py:83-97 | the guarded backoff step is the minimum of the maximum and the product |
| `Heartbeat.IdleIsGeometric` | src/cognition/domain/heartbeat.py:83-97 | k idle cycles from reset give the minimum of the maximum and minimum times factor to the k |
| `Heartbeat.MaximumIsReached` | src/cognition/domain/heartbeat.py:83-97 | with a factor above one the maximum is reached after finitely many idle cycles and kept |
| `Heartbeat.ScheduleBounds` | src/cognition/domain/heartbeat.py:99-120 | a due time lies between anchor plus minimum and anchor plus interval; a deadline only shortens it |
| `Heartbeat.ScheduleMonotone` | src/cognition/domain/heartbeat.py:99-120 | a longer interval is never due earlier |
| `Autonomy.Deadline` | src/cognition/stores/autonomy.py:267-279 | the commitment considered is open, due after the anchor, and none such is sooner |
| `AutonomyProofs.RunKeepsInv` | src/cognition/stores/autonomy.py:139-203 | every reachable scheduler row passes its validation, across configuration changes and deferred materialization |
| `AutonomyProofs.EnsureKeepsInv` | src/cognition/stores/autonomy.py:407-448 | ensuring fails only for a clock before its anchor; a claimed heartbeat is never materialized |
| `AutonomyProofs.EnsureIsIdempotent` | src/cognition/stores/autonomy.py:407-448 | a second call on unchanged inputs alters no row, revision or event |
| `AutonomyProofs.OutcomeKeeps` | src/cognition/stores/autonomy.py:451-567 | accounting leaves exactly one event for the cycle, or changes nothing if it had one |
| `AutonomyProofs.FinishAccounts` | src/cognition/stores/autonomy.py:451-567 | a cycle ending while a configuration exists is accounted in the same transaction |
| `AutonomyProofs.CountsStay` | src/cognition/stores/autonomy.py:487-502 | an accounting is never taken back or repeated |
| `AutonomyProofs.ReplayChangesNothing` | src/cognition/stores/autonomy.py:485-502 | replaying an accounted cycle changes nothing |
| `AutonomyProofs.OneLiveHeartbeat` | src/cognition/stores/autonomy.py:295-330 | at no moment of any run are two scheduled heartbeats live, and the row refers to the live one |
| `AutonomyProofs.IdleCycleBacksOff` | src/cognition/stores/autonomy.py:526-545 | each idle autonomous cycle moves the interval one place along the cut-off geometric sequence |
| `AutonomyRuns.IdleCyclesBackOff` | src/cognition/stores/autonomy.py:526-545 | in any run without reconfiguration, k idle autonomous cycles after a reset leave the interval at the minimum of the maximum and minimum times factor to the k, whatever is interleaved |
| `AutonomyRuns.IdleCyclesReachMaximum` | src/cognition/domain/heartbeat.py:83-97 | with a factor above one a number of idle cycles, independent of the run, leaves the interval at the maximum for good |
| `AutonomyProofs.ClosedSettles` | src/cognition/stores/cognition.py:637-675 | ending a cycle leaves the scheduler row ready to account for it |
| `AutonomyStore.Scheduler.EnsureHeartbeat` | src/cognition/stores/autonomy.py:407-448 | the stored operation equals its specification; an error changes nothing |
| `AutonomyStore.Scheduler.RecordCycleOutcome` | src/cognition/stores/autonomy.py:451-567 | the stored accounting equals its specification |
| `AutonomyStore.Scheduler.Materialize` | src/cognition/stores/autonomy.py:295-330 | creating or rescheduling the heartbeat in place equals the specification |
| `AutonomyStore.Scheduler.Record` | src/cognition/stores/autonomy.py:333-404 | an event and a revision exactly when something visible changed |
| `ContextGuarantees.CompiledContext` | src/cognition/runtime/context.py:283-475 | a compiled context is within budget with its final counters, accounts for every candidate, holds every mandatory one, and no omitted one could be added; the final overflow is unreachable |
| `ContextCrowding.MandatoryDecides` | src/cognition/runtime/context.py:335-448 | whether compiling fails for lack of room depends, at every budget, on the mandatory candidates alone if and only if no surviving optional candidate is packed ahead of a mandatory one |
| `ContextRotation.LeadExactly` | src/cognition/runtime/context.py:361-381 | a mandatory candidate is packed behind an optional one exactly when a mandatory lexical match survives next to an optional direct candidate, or the turns of the lexical families put an optional match first |
| `ContextRotation.RotationLeads` | src/cognition/runtime/context.py:376-381 | an interleaving keeps mandatory items in front exactly when no family reaches its first optional item before another's last mandatory one, by round and family |
| `ContextRotation.EveryPlace` | src/cognition/runtime/context.py:376-381 | every position of the interleaving belongs to one item of one family |
| `ContextCrowding.ExampleCrowds` | src/cognition/runtime/context.py:361-448 | an optional direct candidate and a mandatory lexical match: at 264 tokens the mandatory one fits alone and compiling fails |
| `ContextCrowding.CrowdingExactly` | src/cognition/runtime/context.py:428-452 | packing any order is decided by its mandatory candidates at every budget if and only if none is packed behind an optional one |
| `ContextCrowding.LexicalFreeLeads` | src/cognition/runtime/context.py:325-375 | candidates none of whose mandatory ones is a lexical match, as selection provides them, never crowd |
| `ContextGuarantees.OrderKeeps` | src/cognition/runtime/context.py:361-381 | bucketing and interleaving lose and repeat nothing |
| `ContextGuarantees.FamiliesKeep` | src/cognition/runtime/context.py:376-381 | interleaving families rearranges them |
| `ContextPacker.PackIsGood` | src/cognition/runtime/context.py:428-452 | selected and omitted partition the order; nothing omitted fits behind the selection |
| `ContextPacker.FinalFits` | src/cognition/runtime/context.py:453-467 | the final counters take no more room than was reserved |
| `ContextPacker.SummaryShrinks` | src/cognition/runtime/context.py:384-396 | counters that add up to the count are no longer than the count |
| `ContextPacker.NoRoomLater` | src/cognition/runtime/context.py:430-445 | what did not fit behind a selection does not fit behind a longer one |
| `ContextPools.RoundRobinPlaces` | src/cognition/runtime/context.py:376-381 | item r of a family stands exactly behind every family's first r items and the r-th of earlier families |
| `ContextPools.EarlierRoundsFirst` | src/cognition/runtime/context.py:376-381 | no family's later item comes before another's earlier item |
| `ContextPools.RoundRobinLength` | src/cognition/runtime/context.py:376-381 | the interleaving has as many items as the families |
| `ContextPools.KindsAscend` | src/cognition/runtime/context.py:379-379 | families are visited in text order, each kind once |
| `ContextPools.Interleave` | src/cognition/runtime/context.py:376-381 | the popping loop equals the interleaving |
| `CandidateOrder.SortSorts` | src/cognition/runtime/context.py:207-280 | the order is total on rank, status, search rank, time, reference and rendering, and sorting permutes |
| `CandidateOrder.LessOrder` | src/cognition/runtime/context.py:272-280 | the comparison is asymmetric and its negation transitive |
| `CandidateOrder.UniqueKeeps` | src/cognition/runtime/context.py:355-360 | each primary reference survives once and the order is kept |
| `CandidateOrder.UniqueIsLeast` | src/cognition/runtime/context.py:355-360 | the least candidate of a reference survives |
| `CandidateOrder.MandatoryWins` | src/cognition/runtime/context.py:355-360 | a mandatory candidate wins its reference over optional ones |
| `CandidateOrder.Deduplicate` | src/cognition/runtime/context.py:355-360 | the loop equals the deduplication |
| `ContextCompiler.CompileContext` | src/cognition/runtime/context.py:283-475 | the compilation loops equal the specification in every error case |
| `ContextCompiler.PackAll` | src/cognition/runtime/context.py:428-452 | the packing loop equals greedy packing |
| `ContextCompiler.Queues` | src/cognition/runtime/context.py:362-375 | one pass fills the family queues in order |
| `ContextCompiler.Partition` | src/cognition/runtime/context.py:361-375 | every candidate goes to its bucket, in order |
| `PersonalRuns.RunKeepsInv` | src/cognition/db/personal_checks.py:263-302 | after any decisions every object of all eleven families has revisions 1..n, each before equal to the previous after, the last equal to the row; supersession links stay proper; no entity has two relationships |
| `PersonalRuns.ApplyKeepsInv` | src/cognition/stores/personal.py:671-738 | a batch is applied if and only if it is valid and new and is exactly what was recorded for its decided turn; then only declared targets change |
| `PersonalRuns.BatchKeepsInv` | src/cognition/stores/personal.py:573-668 | snapshots taken while planning still describe the rows when written |
| `PersonalRuns.PlanAllMeaning` | src/cognition/stores/personal.py:181-550 | no findings exactly when targets are distinct, no two new relationships are about one entity, and each operation is valid by itself |
| `PersonalHistory.RelationshipKeeps` | src/cognition/stores/executive_personal.py:181-243 | a relationship is created only with an entity that has none, and stays with its entity |
| `PersonalHistory.OtherFamiliesKeep` | src/cognition/stores/executive_personal.py:91-312 | operations of other families leave relationships as they are |
| `PersonalMaturation.RunKeepsStories` | src/cognition/stores/development.py:180-422 | in every run the stored history of each interest, preference and self-state comes from operations that maturation accepted one after another |
| `PersonalMaturation.EstablishedInEveryRun` | src/cognition/stores/development.py:256-286 | in every run whatever was ever established had passed the 24 hour gate with separated anchors |
| `PersonalMaturation.PromotedInEveryRun` | src/cognition/stores/development.py:365-410 | in every run staged content that changed had been the same uninterrupted pending content for a day |
| `PersonalMaturation.RetiredInEveryRun` | src/cognition/stores/development.py:293-313 | in every run an established preference or dormant interest was retired a week after entering that status at the earliest |
| `PersonalHistory.SecondChangeBreaksHistory` | src/cognition/stores/personal.py:222-226 | a second change planned on the same row would break its history |
| `PersonalHistory.WriteKeepsHistory` | src/cognition/stores/personal.py:573-668 | one write extends its target's history by one revision and touches no other |
| `PersonalHistory.OperationKeepsInv` | src/cognition/stores/personal.py:254-550 | writing one valid operation keeps histories, types, supersession, evidence and relationships |
| `PersonalHistory.SupersedeKeeps` | src/cognition/stores/personal.py:424-483 | a replacement adds one link at the end of an open chain |
| `PersonalHistory.OtherKindsKeep` | src/cognition/stores/personal.py:254-375 | operations of other families leave beliefs alone |
| `PersonalHistory.ValidOperation` | src/cognition/stores/personal.py:254-536 | an operation without findings changes exactly its declared targets, none of them ended, each by one revision |
| `PersonalRuns.EndingsAreFinal` | src/cognition/stores/personal.py:104-123 | ended goals, commitments, projects and threads, withdrawn or superseded beliefs, retired interests and preferences, and episodes never change again |
| `PersonalRuns.NoSupersessionCycle` | src/cognition/db/personal_checks.py:213-225 | no belief supersedes itself, however long the chain |
| `PersonalHistory.SupersessionExtends` | src/cognition/db/personal_checks.py:213-225 | each superseded belief has exactly one successor and is older than it |
| `PersonalStore.PersonalState.PlanBatch` | src/cognition/stores/personal.py:181-550 | the planning loops equal the specification and write nothing |
| `PersonalStore.PersonalState.WriteChanges` | src/cognition/stores/personal.py:573-668 | the write loop equals the specification |
| `PersonalStore.PersonalState.ApplyOperations` | src/cognition/stores/personal.py:671-738 | all operations take effect or none, and only the recorded ones |
| `Development.PromotionWaited` | src/cognition/stores/development.py:365-410 | staged content changes only after exactly it was pending without interruption for a day, with two separated anchors among references gathered for it alone |
| `Development.PendingBegan` | src/cognition/stores/development.py:365-410 | the deadline and evidence of pending content belong to its own uninterrupted stretch |
| `Development.EstablishedHasMatured` | src/cognition/stores/development.py:256-286 | whatever is or was established first passed the 24 hour gate and the anchors |
| `Development.InitialSinceCreation` | src/cognition/stores/development.py:229-249 | a row in its first status is unchanged since creation and carries its own deadline |
| `Development.RetirementWaits` | src/cognition/stores/development.py:293-313 | an established preference or dormant interest retires a week after entering that status at the earliest, with a new anchor |
| `Development.RetiredIsFinal` | src/cognition/stores/development.py:256-313 | no operation follows a retirement |
| `ReflectionRuns.EveryTargetIsReviewed` | src/cognition/stores/reflection.py:399-530 | in every run a target eligible for each of ceil(n/2) consecutively completed batches was reviewed in one of them, n counting the identities of its family eligible for any of them; rows may come, go and change |
| `ReflectionRuns.StepKeepsInv` | src/cognition/stores/reflection.py:277-530 | every transaction keeps batches fair, links, accounting, anchors and the chain of cursors sound |
| `ReflectionRuns.EnsureKeepsInv` | src/cognition/stores/reflection.py:399-434 | ensuring fails only for a clock behind its anchor; in particular candidates never disappear |
| `ReflectionRuns.FinishKeepsInv` | src/cognition/stores/reflection.py:437-530 | a finished review is accounted in the same transaction or refused for its clock |
| `ReflectionRuns.ReplayChangesNothing` | src/cognition/stores/reflection.py:467-480 | accounting a cycle again changes nothing |
| `ReflectionRuns.NeverInvalid` | src/cognition/stores/reflection.py:61-203 | the retained validation accepts every reachable state and at most one batch is live |
| `ReflectionRuns.ExactlyOneAccounting` | src/cognition/stores/reflection.py:437-530 | a batch is accounted exactly when its wake was consumed, and once |
| `ReflectionRuns.ADayBetweenReviews` | src/cognition/stores/reflection.py:505-508 | whenever a cycle takes up a batch a day has passed since the latest completed review |
| `ReflectionRuns.BatchLooksAtTables` | src/cognition/stores/reflection.py:300-340 | each batch is selected once and for all from the rows eligible when it is due |
| `ReflectionInvariant.SelectionIsFair` | src/cognition/stores/reflection_candidates.py:71-150 | whatever waits for review is eligible when its batch is due, so a selection is never empty |
| `ReflectionInvariant.FairIsValid` | src/cognition/stores/reflection_scope.py:52-100 | a fair batch has one to eight distinct targets |
| `ReflectionInvariant.ReconcileKeepsInv` | src/cognition/stores/reflection.py:277-372 | keeping, replacing or dropping the managed batch always succeeds and leaves sound rows |
| `ReflectionStore.Reviews.EnsureReflection` | src/cognition/stores/reflection.py:399-434 | the stored operation equals its specification |
| `ReflectionStore.Reviews.RecordOutcome` | src/cognition/stores/reflection.py:437-530 | the stored accounting equals its specification |
| `ReflectionStore.Reviews.Reconcile` | src/cognition/stores/reflection.py:277-372 | reconciling in place equals its specification, with the fair selection |
| `ReflectionStore.Reviews.Advance` | src/cognition/stores/reflection.py:505-506 | each cursor ends on its family's last reviewed target |
| `Reflection.EveryTargetReviewed` | src/cognition/stores/reflection_candidates.py:88-150 | a target that stays eligible is reviewed within ceil(n/2) completed batches, n counting the identities of its family eligible at any time meanwhile |
| `Reflection.OneRound` | src/cognition/stores/reflection.py:505-506 | a completed batch reviews a target or leaves at least two fewer ever-eligible identities between its family's cursor and the target |
| `Reflection.BatchIsFullAndDistinct` | src/cognition/stores/reflection_candidates.py:124-150 | a batch has exactly min(8, total) distinct targets |
| `Reflection.FairShare` | src/cognition/stores/reflection_candidates.py:141-149 | each family gets at least min(2, its size) slots |
| `Reflection.PoolRotates` | src/cognition/stores/reflection_candidates.py:88-121 | a pool is a contiguous cyclic run right behind its cursor |
| `Reflection.CursorSplits` | src/cognition/stores/reflection_candidates.py:109-113 | the two identity ranges split the eligible rows at the cursor |
| `Reflection.CursorBounds` | src/cognition/stores/reflection_candidates.py:109-113 | the rows a cursor has passed are exactly those up to it, whether or not it stands on a row |
| `Reflection.CursorApproaches` | src/cognition/stores/reflection.py:505-506 | a share that misses a target leaves the cursor at least two ever-eligible identities closer to it |
| `Reflection.SelectCandidates` | src/cognition/stores/reflection_candidates.py:141-150 | the popping loop yields the fair offer |
| `Reflection.OfferRound` | src/cognition/stores/reflection_candidates.py:143-149 | one round gives each family one slot unless the batch fills up |
| `Reflection.AdvanceCursors` | src/cognition/stores/reflection.py:505-506 | each family's cursor ends on its last reviewed target |
| `Reflection.Eligible` | src/cognition/stores/reflection_candidates.py:98-106 | exactly the pending rows eligible by the cutoff |
| `Schedulers.RunNeverRaises` | src/cognition/stores/cognition.py:637-675 | while the clock does not go backwards, no preparing, opening or ending of a cycle raises on account of a scheduler or an inbound claim, and all their rows stay sound |
| `Schedulers.EveryEndIsAccounted` | src/cognition/stores/cognition.py:637-675 | in every run ending a cycle takes effect in all schedulers at once, with one heartbeat accounting |
| `Schedulers.FinishKeepsInv` | src/cognition/stores/cognition.py:637-675 | no accounting refuses when a cycle ends |
| `Schedulers.PrepareKeepsInv` | src/cognition/runtime/cognition.py:130-137 | the three operations every run begins with always succeed |
| `SchedulerClocks.InboundClaims` | src/cognition/stores/inbound_scope.py:386-445 | a pending group can always be claimed |
| `SchedulerClocks.ReviewsFinish` | src/cognition/stores/reflection.py:437-530 | with time moving on, accounting for a review never refuses |
| `SchedulerClocks.AllowancesFinish` | src/cognition/stores/exploration.py:509-582 | with time moving on, accounting for an exploration never refuses |
| `SchedulerClocks.HeartbeatFinishes` | src/cognition/stores/autonomy.py:451-567 | with time moving on, heartbeat accounting never refuses |
| `JointRuns.RunNeverRaises` | src/cognition/runtime/cognition.py:130-307 | in every run of the protocol with the scheduler operations inside its transactions, interrupted anywhere, no transaction raises, and all rows of both stay sound and agree on the active cycle |
| `JointRuns.StepKeepsInv` | src/cognition/stores/cognition.py:637-675 | each joint transaction commits on both sides or on neither, and keeps both sound and agreeing |
| `JointRuns.RunProjects` | src/cognition/runtime/cognition.py:130-307 | the protocol's side of every joint run is a run of the protocol alone, so all its theorems apply |
| `JointRuns.EndIsShared` | src/cognition/stores/cognition.py:637-675 | a cycle that the protocol ends is over in every scheduler after the same transaction |
| `Lineage.LineageCycles` | src/cognition/db/checks.py:194-215 | reports exactly the individuals on a parent cycle of length two or more, each once, following each edge once |
| `Lineage.Follow` | src/cognition/db/checks.py:196-214 | one walk finds exactly the cycle members it passes, despite the shared visited set |
| `Lineage.ClosedWalk` | src/cognition/db/checks.py:206-214 | a walk that returns to itself has found one cycle, and nothing before it is on a cycle |
| `Lineage.OpenWalk` | src/cognition/db/checks.py:200-205 | a walk into visited or unknown individuals passes no cycle |
| `Lineage.EscapedNotOnCycle` | src/cognition/db/checks.py:200-205 | a walk entering a closed set without its start never returns to its start |

## Left out

- CognitionSteps.RunKeepsInv: the protocol alone; with the scheduler and inbound operations in the same transactions it is `JointRuns.RunNeverRaises`.
- JointRuns.RunNeverRaises: the wake rows of the protocol and those of each scheduler stay separate tables; that what a new cycle takes is pending in the scheduler's own rows is a condition on the step (`Schedulers.Openable`), and only the cycles are proved to agree.
- CognitionInterruptions.InterruptedRunsAgree: the repeated call gets the answer that the lost one would have got, and repetitions happen while the cycle has time and attempts left; otherwise the interrupted run ends its cycle, for the reasons and under the exact conditions of `WhenCallIsLost`, `SettlesInPlace` and `RoomIsNeeded`.
- CognitionSteps.StepKeepsInv: the protocol's side of a transaction; with the scheduler and scope calls inside it, it is `JointRuns.StepKeepsInv`.
- CognitionSteps.BeginOk: sealing and validating an inbound group when it is claimed is in `IngestionInvariant.ClaimKeepsInv` and `SchedulerClocks.InboundClaims`, and in the same transaction in `JointRuns.StepKeepsInv`.
- CognitionInvariant.AddKeepsScope: that other writers add no second live allowance is assumed here and proved in `ExplorationRuns.OneLiveAllowance`.
- CognitionSteps.ApplyOk: takes the verdicts of the reference lookup and of the personal validation as a parameter.
- CognitionStore.Store.Findings: takes the same two verdicts as a parameter.
- CognitionRuntime.RunOnce: the three scheduler operations of its first transaction are in `Schedulers.PrepareKeepsInv` and in the same transaction in `JointRuns.StepKeepsInv`.
- IngestionInvariant.FinishKeepsInv: a cycle does not end before it started; `FinishNeedsClock` shows that this is needed.
- ExplorationSteps.FinishKeepsInv: a cycle does not end before it started, nor after the last representable instant.
- ExplorationRuns.NeverInvalid: grant hashes, governance revisions and event envelopes are not among the validated columns.
- CognitionStore.Store.ApplyDecision: takes the verdicts of the reference lookup and of the personal validation as a parameter; personal operations are modelled in `Personal`, and the two are not composed.
- CognitionRuns.ClaimedWithinPredecessors: counts cycle openings made while the wake is due; openings of exploration cycles cannot occur then.
- IngestionInvariant.RunKeepsInv: models the rows of one source; several sources share the wake table, but every query filters by binding.
- Deduplication.ScreenMeaning: treats the digests of identity and content as given keys and fingerprints.
- LocalJson.CursorCanonical: the reader accepts only the canonical spelling of a cursor; the program also accepts other spellings of the same JSON object.
- LocalJson.PollFixture: parsing and shape validation of the fixture are inputs; only size, digest, member texts and cursor are decided here.
- Heartbeat.IdleIsGeometric: exact reals; binary floating-point rounding is not modelled.
- ExplorationSteps.RunKeepsInv: grant hashes, governance revisions and policy snapshots are not columns of the model.
- PersonalRuns.RunKeepsInv: self-states are keyed by their layer, of which an individual has one row each; changes by redaction or restoration are not modelled.
- Development.EstablishedHasMatured: which events qualify as original evidence, and whether the wakes of the cycle qualify the target, are parameters; the rules that classify events and wakes are not modelled.
- PersonalRuns.ApplyKeepsInv: the row of the turn is a parameter, and equality of the recorded decision stands for equality of its payload and digest; action requests and the wake requests counted against the limit of 64 are not among the operations.
- ContextGuarantees.CompiledContext: the reasons recorded per selected reference, the content hash and the token estimate's calibration.
- CandidateOrder.SortSorts: the status and time components of the sort key are given per candidate.
- ReflectionRuns.EveryTargetIsReviewed: the bound counts every identity of the family that was eligible for any of the batches; it says nothing about a target that loses its eligibility in between.
- ReflectionRuns.StepKeepsInv: batch hashes and event envelopes are not columns of the model; the rows a selection looked at are kept for the proofs only.
- Row locks, advisory locks, connection loss and skipped locked rows: one owner per individual is assumed, with other writers between transactions.
- Several individuals in one database: each model holds one individual's rows.
- Event envelopes, provenance, redaction, audit rows and retention.
- Table definitions, migrations, configuration loading, authentication and the command line.
- Lexical search, event rendering and the prose of context sections.
- Protocol versions other than the equality tests between request, result and decision.
- Overflow of a cycle deadline beyond the last representable instant.
