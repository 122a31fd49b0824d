# manyforge: a verified model of its protocols

This project models, in Dafny, the parts of manyforge whose correctness does not show in any one
function: automation graphs and their execution, the local-first sync of the `mf` command, agent runs
and approved actions, the two lease and lock protocols, and a few small algorithms they rest on. It
proves what those parts promise over every input, every interleaving and every run.

## The parts

**Automation graphs and their execution** (`Graphs`, `Cycles`, `Reachability`, `Waits`, `Configs`,
`Documents`, `Validation`, `WellFormed`, `Witness`, `Engine`, `Trails`, `Accounts`, `Ledgers`, `Enrollments`,
`Agreement`, `Progress`, `Polling`, `Storms`, `Stepper`, `Lifecycle`). Validation runs Kahn's algorithm, a
breadth-first search and shape and configuration checks; it reports nothing exactly when the graph meets a
declarative definition, in which a configuration is sound by what its fields say. The engine walks such a graph for one enrollment inside transactions fenced by a claim generation. The
store is modelled after its SQL functions: the fence, the step rows, the deliveries, and the fact that
a worker past the fence holds the row lock until it commits or rolls back. Claims, reads, visits,
commits, crashes, pauses and exits interleave freely. The graph theorem carries the run theorem: on an
acyclic graph the completed nodes form a simple path, so nothing is mailed or waited for twice.

**The sync of mf** (`Sync`, `SyncClient`). A client with a cache, a cursor and an outbox; a server that
stamps every write with a fresh revision; other writers; responses that may be lost after the server
has acted. The server follows `internal/work/sync.go`: operations apply one by one, then a page of
changed tasks in revision order.

**Agent runs and approvals** (`AgentRuns`, `Approvals`). The bounded loop over arbitrary model output,
with allowlist, permission and gate in that order; and the approval state machine with an executor whose
event is delivered at least once, possibly several times at once.

**Leases and locks** (`Codex`, `Outbound`). Refresh-token rotation under a row lock, and the outbound
queue with its lease and attempt cap.

**Small algorithms** (`Base64Url`, `Paging`, `MarkedBlock`). Keyset pages over opaque cursors, and the
rewriter of the marked section in AGENTS.md.

What lies outside enters as a parameter: clocks, provider and HTTP answers, permission checks, the
network, encoded sizes, the time zone offsets and accepted web addresses (`Library`), the active lists
and templates (`References`), and how timestamps and uuids are written (`Format`). A successful token
refresh is assumed to bring a new refresh token, which section 6 of RFC 6749 leaves optional.

## Where a promise needs a condition

- *A finished sync leaves the cache equal to the server.* Not when the server refuses an operation for
  its own reasons: the client drops it like any other and the cache keeps what the server never had
  (`Sync.RefusalDiverges`). For each round and key, `Sync.RoundAgreesIff` says exactly when the two agree
  afterwards, and `Sync.SyncConvergesIff` when the whole cache does; over whole histories they agree on
  every key that is not still under a refusal (`Sync.SyncConverges`), and without refusals everywhere
  (`Sync.AcceptedSyncConverges`), including creates that are retried after a lost response and then
  conflict. `SyncClient.FinishedSyncConverges` carries this over to the client's own loop.
- *An approved tool runs once.* Its claim and its audit row do. The call happens again when a delivery
  goes away between its call and its claim (`Approvals.ToolsMayRunTwice`); only the reply's key prevents
  a second reply. A further call is possible exactly as long as `Approvals.MoreCallsIff` says, and there
  is one call at most exactly when deliveries look in turn (`Approvals.ToolsRunOnceInTurn`,
  `Approvals.OutOfTurnCallsTwice`).
- *The stored refresh token is the newest.* Exactly when the latest rotation was not lost with its
  transaction (`Codex.RotationIsSafe`). Wherever a rotation can begin it can be lost
  (`Codex.RotationMayBeLost`), and a single connect leads there (`Codex.LostRotationIsStale`).
- *The lease exceeds the time for one operation.* That is what the comment at
  `internal/connectors/outbound.go:65-68` asks for, and it is not enough: a whole batch is claimed at
  once, so for every lease, however quick the operations, a batch that outlives it leads to a second post
  (`Outbound.SlowBatchesPostTwice`). A second dispatcher gets an operation in flight exactly then
  (`Outbound.ReclaimedIffOverdue`); with the batch inside the lease the queue is safe
  (`Outbound.PromptDispatchIsSafe`).
- *The node budget of a tick does not matter.* Not when a turn rolls back after others in its tick: the
  rollback takes those with it (`Storms.BudgetsMatterInStorms`). That is the only way: enough ticks always
  leave the same enrollment if and only if the walk never goes on from one node to another whose turn
  rolls back (`Storms.BudgetsAgreeIff`); rollbacks that undo nothing do no harm. They leave it finished if
  and only if the walk meets no rollback at all (`Progress.FinishesIff`, and `Polling.PollingFinishesIff` for
  ticks that wait until the enrollment is due), and what makes a turn roll back is `Progress.RollsBackIff`.
- *The engine exits inactive subscribers.* It decides to, but the fence reads the same status and refuses
  the record; they leave through the exit that follows their status change
  (`internal/automations/trigger.go:64`, `Enrollments.EngineExitsNobody`). The engine's exit commits exactly
  when the two reads disagree (`Accounts.DismissesIff`).
- *Following the cursor lists everything.* Exactly when every row lies before the first page's sentinel
  (`Paging.WholeListIff`).
- *Upserting the block is idempotent.* Exactly when the first end marker in the block closes it
  (`MarkedBlock.IdempotentIffClosed`).

## Model

| member | source | states |
|---|---|---|
| Cycles.GraphHasCycle | internal/automations/graph.go:340-362 | true if and only if the edges have a closed walk of at least one arc, whatever order the nodes are taken in, with self-loops and parallel edges |
| Cycles.LeftoverMeansCyclic | internal/automations/graph.go:349-361 | nodes that Kahn's loop never releases contain a closed walk, by pigeonhole along their predecessors |
| Cycles.OrderedMeansAcyclic | internal/automations/graph.go:350-360 | an order in which all predecessors come first rules out every closed walk |
| Reachability.ReachableFrom | internal/automations/graph.go:364-378 | the set found is exactly what some walk from the root reaches |
| Reachability.IsAncestor | internal/automations/graph.go:380-385 | true if and only if the nodes differ and a walk leads from one to the other |
| Graphs.AcyclicWalksAreSimple | internal/automations/graph.go:153-155 | without closed walks, no walk visits a node twice |
| Validation.CheckNodes | internal/automations/graph.go:66-89 | the first loop reports exactly the issues each node has on its own account and collects first nodes, triggers and engagement references |
| Validation.CheckEdges | internal/automations/graph.go:94-116 | the second loop reports exactly each edge's own issues and groups the edges between known nodes by both ends |
| Validation.CheckShapes | internal/automations/graph.go:118-146 | the third loop reports exactly the branch and out-degree issues |
| Validation.CheckReachable | internal/automations/graph.go:156-163 | reported are exactly the nodes no walk from the trigger reaches |
| Validation.CheckReferences | internal/automations/graph.go:164-169 | reported are exactly the conditions whose named node is no send_email node strictly upstream |
| Validation.Validate | internal/automations/graph.go:60-171 | an issue is reported if and only if it is flagged by its declarative condition, for every graph |
| Validation.TriggersCount | internal/automations/graph.go:81-92 | the list of triggers has one entry for each trigger node |
| WellFormed.UnflaggedIsWellFormed | internal/automations/graph.go:60-171 | a graph with no flagged issue meets the declarative definition: unique sound ids, configurations sound by their fields, one unentered trigger, acyclic, shaped, reachable, references to proper send_email ancestors |
| WellFormed.WellFormedIsUnflagged | internal/automations/graph.go:60-171 | a graph that meets the definition has no flagged issue |
| WellFormed.ValidateInTenant | internal/automations/service.go:581-592 | valid if and only if the graph meets the declarative definition |
| Witness.WelcomeIsWellFormed | internal/automations/graph.go:60-171 | the definition is met by a graph that mails whoever joins a list, so the results about valid graphs are not empty |
| Documents.CheckMeans | internal/automations/graph.go:173-322 | for every document and kind, validateConfig gives the verdict its fields call for: unknown kind, unsound document, missing list, missing template, a reference to a node, or none of these |
| Documents.TriggerMeans | internal/automations/graph.go:178-203 | a trigger is accepted if and only if it is an object with only its four keys, names a list that is known, and has one of the three type shapes with its label and no other |
| Documents.LabelOkMeans | internal/automations/graph.go:395-398 | a label is accepted if and only if between the blanks at its ends it is not empty and no longer than allowed |
| Documents.UuidMeans | internal/automations/graph.go:173-322 | a text reads as a uuid if and only if it is one of that uuid's spellings |
| Documents.ReadSendMeans | internal/automations/engine.go:91-98 | the engine reads exactly the template and flags a sound send_email document names |
| Documents.ReadTagMeans | internal/automations/engine.go:150-160 | the engine reads exactly the tag as written, if it is not blank |
| Documents.ReadConditionMeans | internal/automations/engine.go:259-358 | the engine asks exactly the question the document denotes |
| Documents.WakeMeans | internal/automations/engine.go:397-451 | for every document and instants: the wait ends then if and only if it is now plus the seconds given, or the first instant after now with the clock time and weekday given |
| Configs.AcceptedIsReadable | internal/automations/graph.go:173-322 | every configuration validation accepts is one the engine can decode at its node, and an engagement reference it extracts is the node the engine will ask about |
| Configs.ValidationIsStricter | internal/automations/graph.go:173-322 | for every kind the engine reads, validation accepts exactly the readable configurations that also meet its extra demands on lengths, references, labels and clock form |
| Configs.SpellingsAgree | internal/automations/graph.go:173-322 | a uuid in a configuration counts by its value: bare, hyphenated, braced and urn spellings in either case read alike |
| Configs.WakesLater | internal/automations/engine.go:397-451 | a wait lies ahead by at most a year, a duration by at least a minute, and whether it is readable does not depend on the clock |
| Configs.WakesFirst | internal/automations/engine.go:414-450 | no earlier instant after now has the requested clock time and weekday |
| Waits.NextOccurrenceMatches | internal/automations/engine.go:436-450 | the chosen instant is after now and has the requested clock time and ISO weekday |
| Waits.NextOccurrenceIsFirst | internal/automations/engine.go:436-450 | every instant after now with that clock time and weekday is at or after the chosen one |
| Waits.ValidClockReads | internal/automations/graph.go:400-403 | a clock text validation accepts is one the engine reads |
| Engine.RetriesDouble | internal/automations/engine.go:383-395 | retries wait half a minute and then twice as long each time, up to an hour |
| Engine.ReplaysChangeNothing | migrations/0135_automation_security.up.sql:560-639 | under a standing claim, recording a completed node again or queueing its mail again changes nothing, and a delivery of another generation is not reused |
| Trails.DecidesSensibly | internal/automations/engine.go:61-191 | every decision either follows an edge of the graph, parks an unparked wait or ends the enrollment; only a send_email step mails |
| Trails.VisitKeeps | internal/automations/engine.go:61-211 | one turn of the loop keeps the state good: path from the trigger, step rows, deliveries and their links, and it goes on only to the node it recorded |
| Trails.VisitIsFenced | migrations/0135_automation_security.up.sql:417-474 | a turn writes only while its claim is the current one, and everything it writes carries that claim's generation |
| Trails.VisitIsTimely | internal/automations/engine.go:113-133 | if the promised instant has passed, no node is completed before the instant it was parked until, also across failures |
| Accounts.EvaluatesTruly | internal/automations/engine.go:259-358 | an answer is yes exactly when what the condition asks holds, mail that was never sent was neither opened nor clicked, and there is no answer exactly when the first of its reads that fails does, with that fault |
| Accounts.YesIsGrounded | internal/automations/engine.go:134-151 | a condition that takes its yes branch about an opened or clicked mail does so only after the node it names queued that mail |
| Accounts.DecidesMeaningfully | internal/automations/engine.go:61-191 | on a valid graph every decision has the meaning of its node: outcome, configured template or tag, wake instant, and the successor its label leads to |
| Accounts.VisitAccounts | internal/automations/engine.go:61-211 | what a turn appends to the journal is one failure or one explained step with its mail or tag change beside it; a yes about a mail rests on that mail having been queued; and the attempt counter stays the number of failures of the current node |
| Accounts.ParksFirst | internal/automations/engine.go:113-133 | a wait node is parked, with an instant, before it is ever completed |
| Enrollments.StepKeeps | internal/automations/stepper.go:125-166 | every claim, read, visit, commit, crash, pause and exit keeps the invariant of row, workers and drafts |
| Enrollments.EveryRunIsASimpleWalk | internal/automations/engine.go:42-250 | in every run the completed nodes are a simple path from the trigger, each node has at most one delivery and only if completed, each wait parks once before it is completed and is not cut short, every journal entry is explained by the graph, and every yes recorded at an opened_email or clicked_link condition is preceded by the mail of the node it names |
| Ledgers.VisitKeepsLedger | migrations/0135_automation_security.up.sql:546-588 | a turn leaves every column as the journal has it: status, node, instant due, attempts, step rows and delivery generations |
| Enrollments.EveryColumnFollows | migrations/0135_automation_security.up.sql:546-588 | in every state of every run the columns follow from the journal; an active enrollment always has an instant at which it is due, which is the one promised, the one recorded or the retry's, and has attempts left |
| Enrollments.OldClaimsDoNothing | internal/automations/service.go:534-541 | after a pause or exit, every journal entry added later carries a generation above the bump: nothing is recorded, mailed or tagged by a claim taken before it |
| Enrollments.FinishedIsFinal | internal/automations/enrollments.go:204-210 | a finished enrollment never changes again, whatever workers still hold |
| Enrollments.LeavingIsFinal | migrations/0135_automation_security.up.sql:750-762 | an exit ends the enrollment at once, and nothing is recorded, mailed or changed afterwards |
| Enrollments.CrashLosesTheDraft | internal/automations/stepper.go:145-160 | a crash takes a worker and what it had not committed, nothing else, and frees the row |
| Enrollments.EngineExitsNobody | internal/automations/engine.go:83-90 | in every run in which fence and snapshot agree about the subscriber, the engine's decision to exit an inactive one never commits |
| Accounts.DismissesIff | internal/automations/engine.go:80-186 | under a standing claim, a turn ends an enrollment for an inactive subscriber if and only if the snapshot says inactive while the fence lets the record through, at a node that looks at the snapshot |
| Agreement.ReadableFailsOnlyOutside | internal/automations/engine.go:91-98 | where the configuration is readable, a step fails only with a fault the world reported |
| Agreement.FailsIff | internal/automations/engine.go:61-191 | a node fails with a fault if and only if its document cannot be read or the first read it depends on that failed did so with that fault |
| Agreement.GraphNeverFailsARun | internal/automations/engine.go:61-191 | in every reachable state of every run on a valid graph, a standing claim is at a node that exists, can be read and has a successor for both answers |
| Agreement.ErrorsAreEarned | internal/automations/engine.go:203-250 | in every reachable state, a visit errors an enrollment on a valid graph only when its node has just failed as often as the cap allows with nothing else in between, or on an invalid reference from outside |
| Agreement.ErrsIff | internal/automations/engine.go:227-250 | a turn that fails errors the enrollment if and only if the fault is an invalid reference or the attempts are used up, and one that does not fail never does |
| Progress.OnceMoves | internal/automations/engine.go:61-211 | every turn that does not roll back lowers a measure of nodes left, parks and attempts, and a turn that goes on leaves a different enrollment |
| Progress.OnceIsDueAgain | migrations/0135_automation_security.up.sql:579-579 | a turn that goes on leaves the enrollment due now, and one that stops leaves it due within a year or finished |
| Progress.RollsBackIff | internal/automations/engine.go:61-247 | a turn under a standing claim rolls back if and only if the database is down, or a failure cannot be reported, or a step cannot be recorded or its mail not queued |
| Progress.OnceTheSame | internal/automations/engine.go:61-211 | claim generations and the clock change nothing about a turn, a rollback included, but the stamps and the instant of a park |
| Progress.AdvanceIsWalked | internal/automations/engine.go:47-66 | an advance under any node budget is as many moves of the unbounded walk as the budget allows unless one of them stops, or it rolls back because the walk stalls within the budget |
| Progress.BudgetsDoNotMatter | internal/automations/engine.go:42-250 | where no turn of the walk rolls back: for every sequence of node budgets and tick times, after at most two rounds of attempts per node the enrollment is completed, exited or errored and equals the unbounded walk |
| Progress.FinishesIff | internal/automations/engine.go:42-250 | for every sequence of enough ticks, the enrollment ends finished if and only if no turn of the walk rolls back |
| Progress.CalmNeverStalls | internal/automations/engine.go:61-247 | with the database up and automation, subscriber, list and tenant open at every node of the graph, no turn of the walk rolls back |
| Polling.PollingFinishesIff | internal/automations/stepper.go:125-166 | for ticks that claim only what is due, come at least every so often and last long enough: the enrollment ends finished if and only if no turn of the walk rolls back, and then equals the walk |
| Polling.TickIsARun | internal/automations/stepper.go:125-166 | an uninterrupted tick is a run of one worker among the interleavings and leaves the same row |
| Storms.BudgetsAgreeIff | internal/automations/engine.go:42-250 | all sequences of enough ticks, whatever their node budgets and times, leave the same enrollment if and only if the walk never goes on from a node to one whose turn rolls back |
| Storms.RollbacksUndoTheTick | internal/automations/stepper.go:145-160 | where the second turn of a tick rolls back, every tick of two or more nodes loses the first turn and a tick of one node keeps it |
| Storms.BudgetsMatterInStorms | internal/automations/engine.go:47-66 | a valid graph and a world in which what a tick commits, and what enough ticks leave, depends on the node budget |
| Stepper.Store.Record | migrations/0135_automation_security.up.sql:546-588 | the row after automation_record_step, or no change when the fence is lost |
| Stepper.Store.Fail | migrations/0129_automation_definers.up.sql:142-170 | the row after automation_fail_step, or no change when the claim is stale |
| Stepper.Store.Enqueue | migrations/0135_automation_security.up.sql:590-639 | one delivery per source node, refused when the fence is lost or another generation queued it |
| Stepper.Store.ClaimDue | migrations/0135_automation_security.up.sql:476-544 | an active, due enrollment is claimed exactly when its lease, automation, version, subscriber and tenant allow it, with the next generation and its own attempt count |
| Stepper.Turn | internal/automations/engine.go:61-211 | one turn over the node and edge tables is the specified visit |
| Stepper.BuildNodes | internal/automations/engine.go:51-55 | the node table holds the last node with each id and no other id |
| Stepper.BuildEdges | internal/automations/engine.go:52-58 | the edge table groups the edges by their start, in order |
| Stepper.Advance | internal/automations/engine.go:42-212 | the loop leaves the row the specification gives under the node budget, or reports a rollback |
| Stepper.RunBatch | internal/automations/stepper.go:145-160 | each claimed enrollment gets everything its transaction did or nothing, and one that rolls back does not disturb the others |
| Stepper.TickOne | internal/automations/stepper.go:125-166 | a due enrollment that may be claimed is claimed, advanced and committed as one tick; any other is untouched |
| Lifecycle.StepShapes | internal/automations/service.go:267-553 | every operation keeps pointers, numbers and the version bound, and freezes what has been active |
| Lifecycle.StepChecks | internal/automations/service.go:408-418 | only a validated graph becomes active |
| Lifecycle.StepEffects | internal/automations/service.go:267-553 | what each operation changes, by pointer and version: a clone copies the active graph under the next number, a write replaces one graph, an activation promotes the draft and retires the active version |
| Lifecycle.ActivatedIsFrozen | internal/automations/service.go:322-362 | over every run, a version that has ever been active keeps its graph and number for as long as it exists |
| Lifecycle.EveryRunIsOrderly | internal/automations/service.go:38-553 | over every run: at most one active version, the one pointed to; unique numbers with the draft one above the active; at most a hundred versions; everything that is or was active passed validation, with the given time zones and web addresses, against the references of some moment |
| Lifecycle.PruningMakesRoom | db/query/automations.sql:84-106 | pruning leaves room for a version exactly when there was room or a superseded version without enrollments |
| Lifecycle.Automation.Prune | db/query/automations.sql:84-106 | only superseded versions without enrollments go, lowest numbers first, no more than needed |
| Lifecycle.Automation.Clone | internal/automations/service.go:267-320 | succeeds exactly when not archived, without draft, with an active version and with room; then the draft copies the active graph under the next number |
| Lifecycle.Automation.PutGraph | internal/automations/service.go:322-362 | succeeds exactly for the current draft and changes its graph only |
| Lifecycle.Automation.Activate | internal/automations/service.go:386-464 | succeeds exactly for the current draft of an unarchived automation whose graph is well-formed; then it replaces the active version |
| Lifecycle.Automation.Archive | internal/automations/service.go:474-509 | succeeds exactly once and drops the draft pointer |
| Sync.SettleLags | cmd/mf/sync.go:116-118 | once the server has settled the first queued operation the client may forget it: whatever still differs is queued, ahead of the cursor or refused |
| Sync.UnsettledLags | cmd/mf/sync.go:112-115 | if the response is lost the client keeps its outbox and still only lags |
| Sync.PullLags | cmd/mf/sync.go:166-177 | laying a page over the cache and moving the cursor loses no difference, mends every key the page brings, and the last page leaves no revision ahead |
| Sync.StepKeeps | cmd/mf/sync.go:108-178 | every edit, foreign write, served request, delivery and loss keeps the invariant |
| Sync.SyncConverges | cmd/mf/sync.go:108-178 | after any history, a last response that settles the outbox and has no more pages leaves the cache equal to the server of that moment, off the keys with an operation refused and not brought by a page since |
| Sync.SyncConvergesIff | cmd/mf/sync.go:108-178 | after any history, a last round leaves the whole cache equal to the server if and only if every key had an operation accepted, was ahead of the cursor or agreed before |
| Sync.AcceptedSyncConverges | cmd/mf/sync.go:108-178 | without refusals the cache becomes exactly the server's map, retried creates included |
| Sync.RoundAgreesIff | cmd/mf/sync.go:108-178 | for every round without more pages and every key: afterwards the cache agrees on it if and only if an operation on it was accepted, a revision was ahead of the cursor, or the two agreed before |
| Sync.RefusalDiverges | cmd/mf/sync.go:116-117 | a concrete run in which a finished sync leaves the cache different from the server |
| Sync.NothingIsLost | cmd/mf/sync.go:91-126 | acknowledged operations followed by the outbox are all queued operations in order, for every run |
| Sync.EditShows | cmd/mf/commands.go:447-531 | an edit shows in the cache at once, leaves the other tasks alone and queues its operation last |
| Sync.LossLeavesBothSides | cmd/mf/sync.go:112-115 | losing a response changes neither side |
| SyncClient.NextBatch | cmd/mf/sync.go:130-145 | the longest prefix of at most 1000 operations and 512 KiB, never empty while the outbox is not |
| SyncClient.State.Edit | cmd/mf/commands.go:447-531 | the task changes locally and its operation goes to the end of the outbox |
| SyncClient.State.ApplyResponse | cmd/mf/sync.go:147-178 | server snapshots win in order and the cursor never goes back |
| SyncClient.State.SyncRounds | cmd/mf/sync.go:108-126 | the state is that of the answered rounds, each settling one longest batch; at most max(1, outbox) + 19 requests; success means an empty outbox and a last page or the page bound |
| SyncClient.SyncIsARun | cmd/mf/sync.go:108-126 | against a server that keeps the protocol, the rounds of a sync are a run of requests and deliveries among other writes, ending in the same client |
| SyncClient.FinishedSyncConverges | cmd/mf/sync.go:108-178 | after any history, a sync that emptied the outbox and reached the last page agrees with the server off the refused keys, and equals it when none is |
| AgentRuns.Offer | internal/agents/runner.go:196-252 | the allow set is exactly the registered allowed tools, without provider-side ones, and the tools found for the run; a name leads to the tool found last, or else to the registry |
| AgentRuns.ExecTool | internal/agents/runner.go:321-360 | refused exactly when not admitted by allowlist and permission; otherwise run or queued as the gate says |
| AgentRuns.Execute | internal/agents/runner.go:133-312 | for every sequence of responses: no request unless the run may begin; every response but the last led on, and the last is the first that ends the run or the iterations are used up; what was asked for until then was refused, run or queued, call by call, as allowlist, permission and autonomy mode demand, and nothing else; status and reason are those of the end |
| AgentRuns.ProperIsFated | internal/agents/runner.go:321-360 | what became of a call is what the agent's tools, its permissions and its mode say must become of it |
| AgentRuns.NothingExternalRunsInline | internal/agents/gate.go:23-42 | in the log of any run outside autonomous mode, whatever ran is a read or a reversible write, and only reads when writes are queued |
| Approvals.StepKeeps | internal/agents/approval_executor.go:66-149 | every decision, sweep and step of any delivery keeps the invariant |
| Approvals.ApprovalsRunOnce | internal/agents/approval_executor.go:66-158 | in every interleaving: approved is left at most once, at most one executed row, no tool call unless approved, at most one reply under the approval's key |
| Approvals.DecisionsAreFinal | internal/agents/approval.go:126-230 | denied, expired, executed and failed are final, and approved leads only to executed or failed |
| Approvals.FirstDecisionStands | db/query/approval_item.sql:22-32 | over every run an item is pending until something decides it, and from then on stands as the first decision before, or the first sweep after, its expiry left it |
| Approvals.OnlyTimelyApprovalsExecute | db/query/approval_item.sql:31-31 | in every run in which the event went out or the tool was called, the first deciding action was an approval before the expiry |
| Approvals.LateDeliveries | internal/agents/approval_executor.go:124-158 | a claim that comes too late writes no executed row; giving up writes a failed row in any case |
| Approvals.ToolsMayRunTwice | internal/agents/approval_executor.go:78-130 | a run with one delivery at a time in which the tool is called twice and the reply sent once |
| Approvals.MoreCallsIff | internal/agents/approval_executor.go:76-130 | in every reachable state after approval, a further tool call is possible if and only if the item is still approved or a delivery has already looked |
| Approvals.ToolsRunOnceInTurn | internal/agents/approval_executor.go:76-135 | in every run in which a delivery looks only when no other is about to call and every call so far was claimed, the tool is called at most once |
| Approvals.OutOfTurnCallsTwice | internal/agents/approval_executor.go:76-130 | whenever a delivery looks out of turn, a run with two calls follows |
| Approvals.Item.Approve | internal/agents/approval.go:161-197 | succeeds exactly for a pending item before its expiry, which becomes approved together with its event; anything else is unchanged |
| Approvals.Item.Deny | internal/agents/approval.go:126-150 | succeeds exactly for a pending item before its expiry |
| Approvals.Item.Sweep | migrations/0032_approval_expire_fn.up.sql:7-15 | a pending item at or past its expiry becomes expired, anything else is unchanged |
| Approvals.Item.Handle | internal/agents/approval_executor.go:66-149 | an uninterrupted delivery: nothing unless approved; otherwise executed, failed or left for a retry, with the matching audit row |
| Approvals.HandlingIsARun | internal/agents/approval_executor.go:66-149 | such a delivery is a run of the state machine and leaves the same state, calls and rows |
| Codex.StepKeeps | internal/agents/credential_codex.go:198-273 | every mint, sweep, lock, answer, commit, rollback and connect keeps the invariant of row, lock holder and issued tokens |
| Codex.RotationIsSafe | internal/agents/credential_codex.go:229-273 | in every interleaving no committed token is presented again, and with the lock free the stored token is its grant's newest if and only if the latest rotation was not lost |
| Codex.RotationMayBeLost | internal/agents/credential_codex.go:558-590 | from every state in which a rotation can begin, a rollback after the exchange leads to a stored token older than its grant's newest, with the row unchanged |
| Codex.LostRotationIsStale | internal/agents/credential_codex.go:229-273 | such a run from the start, by one connect and one lost rotation |
| Codex.DisconnectedStays | internal/agents/credential_codex.go:242-244 | after a disconnect every mint reports disconnected until a connect or a pasted token |
| Codex.InvalidGrantDisconnects | internal/agents/credential_codex.go:253-254 | once an invalid grant is committed nothing is stored, and every mint says disconnected until a connect or a pasted token |
| Codex.StepStores | internal/agents/credential_codex.go:558-590 | the columns change only by a connect, a paste or a committed exchange, to what it brought; the lock leads to an exchange exactly when the sweep finds the credential due or the mint finds it stale |
| Codex.Vault.Mint | internal/agents/credential_codex.go:198-273 | column by column, what is answered and stored: pasted and usable tokens as they are, otherwise what the exchange brings, nothing after an invalid grant; what is handed out is what is stored |
| Codex.MintIsARun | internal/agents/credential_codex.go:198-273 | an uninterrupted mint is a run of the state machine and leaves the same row |
| Codex.Vault.RefreshOne | internal/agents/credential_codex.go:597-631 | the earliest due credential not excluded stores what its one exchange brings, the others are untouched |
| Codex.Vault.ClaimDue | migrations/0115_tenant_merge_fencing.up.sql:540-563 | the due credential that expires first among those not excluded, or none if there is none |
| Codex.Vault.RefreshDue | internal/agents/credential_codex.go:279-317 | each credential is handled at most once, at most 500 in all, the others are untouched, nothing due is left out below the bound, and the count is that of the rotations |
| Outbound.StepKeeps | internal/connectors/outbound.go:104-148 | while batches fit the lease, every step keeps one job at most, the attempt bound and the finality of the write-back |
| Outbound.PromptDispatchIsSafe | internal/connectors/outbound.go:37-68 | then: one dispatcher in flight, at most five dispatches between resets plus one per unrecorded end, a resting operation is not in progress, and no post after the write-back |
| Outbound.ReclaimedIffOverdue | internal/connectors/outbound.go:65-68 | while an operation is in flight, another dispatcher can claim it if and only if its batch has outlived the lease, and then two have it |
| Outbound.WrittenIsFinal | internal/connectors/outbound.go:332-338 | after the write-back nothing but the clock moves |
| Outbound.SlowBatchesPostTwice | internal/connectors/outbound.go:104-148 | for every lease, even when each operation is done the moment it is turned to, a batch that outlives the lease leads to two posts, one of them after the write-back |
| Outbound.Queue.ClaimBatch | migrations/0115_tenant_merge_fencing.up.sql:408-434 | the oldest claimable operations, as many as the limit allows, each with one more attempt |
| Outbound.Queue.DispatchOnce | internal/connectors/outbound.go:104-148 | every claimed operation counts one attempt and ends done, in progress, pending again, or failed when hopeless or at the fifth attempt; the others are untouched |
| Outbound.DispatchedIsARun | internal/connectors/outbound.go:104-148 | what a pass makes of a claimable operation is what an uninterrupted run of one dispatcher makes of it |
| Outbound.PostErrorIsARun | internal/connectors/outbound.go:215-262 | so does a pass whose post fails |
| Outbound.BackErrorIsARun | internal/connectors/outbound.go:215-262 | and one whose write-back fails |
| Outbound.SeenIsNotPosted | internal/connectors/outbound.go:224-243 | a dispatcher that sees the write-back finishes without another post |
| Outbound.FivePasses | internal/connectors/outbound.go:104-148 | an operation that keeps failing is offered again after each of its first four passes and fails with the fifth |
| Outbound.FailedIsRetriedOrDismissed | internal/connectors/manage.go:366-390 | a failed operation can be tried anew from zero attempts, or dismissed for good |
| Base64Url.RoundTrip | internal/agents/run_cursor.go:38-53 | decoding an encoding gives the bytes back, for all bytes |
| Base64Url.KnownTexts | internal/agents/run_cursor.go:38-53 | the encoding gives the test vectors of section 10 of RFC 4648, unpadded |
| Paging.CursorRoundTrip | internal/agents/run_cursor.go:38-67 | a cursor is kind, timestamp and id between bars, and one of a kind decodes to the keyset it was made of |
| Paging.KindsDoNotMix | internal/agents/run_cursor.go:54-57 | no token is accepted for two kinds |
| Paging.ForeignCursorIsRejected | internal/automations/service.go:872-894 | a cursor made for one kind is rejected by every other |
| Paging.ListPage | internal/agents/agent_run.go:352-402 | a page is the first rows past its cursor within the limit, the standard or the most, with a next cursor exactly when rows are left |
| Paging.FollowAll | internal/automations/enrollments.go:22-84 | following next_cursor from the empty cursor gives the rows past the start, newest first, each once, for limits that may change from page to page |
| Paging.WholeListIff | internal/agents/run_cursor.go:29-34 | the whole list comes out exactly when the page-one sentinel exceeds every row |
| MarkedBlock.OnlyTheBlockChanges | cmd/mf/agentsmd.go:48-53 | where a marked section exists, only it changes |
| MarkedBlock.OnlyNewlinesChange | cmd/mf/agentsmd.go:40-47 | where none exists, the block is appended and only trailing newlines change |
| MarkedBlock.FailsIffUnclosed | cmd/mf/agentsmd.go:48-51 | fails exactly when there is a begin marker and every end marker precedes every begin marker |
| MarkedBlock.IdempotentIffClosed | cmd/mf/agentsmd.go:39-54 | for blocks that open with the begin marker: idempotent on every content if and only if the first end marker closes the block |

## Left out

- Validation.Validate: states which issues are reported, not their order or how often a repeated one appears.
- Validation.CheckNodes: the collected reference list is characterised by membership, not by order.
- Enrollments.StepKeeps: leases are not consulted, so claims are more frequent in the model than in the system; the result covers both.
- Approvals.Item.Handle: speaks of one uninterrupted delivery; Approvals.HandlingIsARun ties it to the interleavings.
- Stepper.Store.ClaimDue: the lease and the states of automation, version, subscriber, list and tenant enter as one parameter.
- Stepper.RunBatch: does not model the order of errors a tick returns, nor that a full batch makes the tick claim again.
- Sync.SyncConverges: a key still under a refusal is excluded; what its content is then depends on the edit that was refused, and Sync.RoundAgreesIff says when it agrees.
- Paging.CursorRoundTrip: that timestamps within the range of the layout, and uuids, read back as written is assumed of the libraries that write them.
- Configs.WakesFirst: zones have a fixed offset; daylight saving comes from a foreign database.
- JSON text: configurations are parsed documents; duplicate keys and trailing text are not modelled.
- Regular expressions, sealing and hashing: replaced by a predicate on ids, by storing tokens in the clear, and by one delivery per enrollment and node.
- Uuids: read as github.com/google/uuid v1.6.0, named in go.mod:18, reads them; that library is not part of this model.
- Unicode: trimming, case folding and lengths are those of ASCII text.
- Task contents in mf: what an edit or the server makes of a task is arbitrary, so patches and closing times are not modelled.
- Enrolling: duplicate checks and trigger matching are not modelled; an enrollment starts at the trigger.
- Delivery, tracking and the event store behind conditions: they answer as the world likes.
- HTTP handlers, authorization, connectors' own clients, provider catalogs, pricing and dashboards: plumbing without a deep invariant.
- File locking and atomic writes of mf: a state update is one atomic step.
