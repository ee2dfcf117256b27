# tmuxicate coordination protocol: a verified model

tmuxicate coordinates agents through files. A coordinator opens a *run* and routes *child tasks* to
agents; each task is a message in the owner's mailbox with a *receipt* that moves through the folders
`unread`, `active`, `done` and `dead`. Agents read, accept, wait, block and finish tasks; blocked tasks
are rerouted or escalated to an operator; finished implementation tasks are handed to a reviewer. This
project models that protocol in Dafny and proves what it keeps.

Two layers share the same records (`protocol.dfy`).

**Whole commands, one at a time.** `Coordinator` gives every command as a function from session state to
session state and result, with the state an error leaves behind. `Sessions.Session` is the same session
updated in place, step by step; each method is tied to its function and says what the caller may rely on.
`Invariant` says what every reachable state keeps; the `…Steps` modules prove it command by command, with no
assumption on arguments, configuration or target health. `Evolution`, `Histories`, `BlockerHistories`,
`RerouteOutcomes`, `Integrity`, `FanoutPolicy`, `SummaryFacts` and `Completion` draw the conclusions over whole
histories. `Scenarios` follows single commands of a small team (`Team`) from the empty session into the states
where the code surprises.

**File operations, interleaved.** `ReceiptProtocol` takes each lock, folder scan, read, rename-write and
remove as one step of a process that can be killed between any two; `ReceiptHistories`,
`ReceiptSchedules`, `ReceiptLookups` and `ReceiptRetries` say what the copies amount to; `MailboxStore.Store` is the store
as one process runs it. `Dispatch` interleaves routing and sending with receipt moves, `DispatchHistories`
and `DispatchCrash` say how many tasks of one exclusive key can be live, and `Sequence` interleaves
allocations. `Locks` shows that commands whose dispatched ones do not route cannot deadlock; `LockUses` gives the
lock programs of the commands, and `LockStandstills`, `LockSchedules`, `LockApproach`, `LockMoves`, `LockJams`,
`LockDeadlocks` and `LockExamples` say exactly when dispatched commands can.

Routing (`Routing`, `RouteChoice`, `RoutingFacts`, `RoutingSuccess`), domains and keys (`Domains`),
identifiers (`Ids`), the run graph and its summary (`RunGraph`, `GraphLoader`, `RunSummary`) and the
adaptive preferences (`Adaptive`, `AdaptiveRuns`) are loops and map computations, each proved against a
declarative statement.

Where the code does not do what one would expect, the exact condition is proved:

* A run graph that loads stops loading exactly when a successful command breaks one of two rules: an added
  task depends only on tasks of its run, and nobody waits or blocks on the current task of a replanned
  case (`Integrity.StepLoadsExactly`; reached in `Scenarios.MissingDependencyReached` and
  `Scenarios.WaitReached`).
* The reason of a wait or block is tested for `""` before a reroute and for blankness after it, so a blank
  reason lets the reroute happen and then loses its record (`RerouteOutcomes.ActSucceedsExactly`; reached in
  `Scenarios.BlankReasonReached`).
* A killed move may leave a copy behind, and a later removal that passes over that copy brings it back;
  nothing else can (`ReceiptHistories.HistoryFaithfulExactly`, `ReceiptRetries.SuspensionUndone`).
* Such a copy can also let two tasks with one exclusive key be live. It happens exactly when a receipt is
  delivered beside one of its key that has copies on both sides (`DispatchHistories.OneInForceExactly`,
  `DispatchCrash.TwoInForce`).
* A lookup without the lock always finds a receipt that only moves forward, and can miss one that moves
  back, exactly when it is written behind the lookup and removed ahead of it (`ReceiptLookups.LookupFinds`,
  `ReceiptLookups.LookupMissesExactly`, `ReceiptRetries.BackwardMoveHides`).
* Routing needs a reason to report for every blocked target it lists, even when another owner is free, and
  a bar in an agent's name can hide one from the list (`RoutingSuccess.RoutingSucceedsExactly`,
  `RoutingSuccess.BarHidesTarget`).
* A live task can be missing from the summary exactly when the case that holds it belongs to a review task
  (`SummaryFacts.LiveShownExactly`; reached in `Scenarios.HiddenReached`).
* Dispatched commands can stop for ever exactly when some commands that can be alive together block each
  other, of which a command that routes in the run that dispatched it is the smallest example; commands
  dispatched one after the other are not in each other's way (`LockDeadlocks.DeadlocksExactly`,
  `LockExamples.RoutingDispatchDeadlocks`, `LockExamples.OneByOneProgresses`).

Identifiers are the sequence numbers they are formatted from; `Ids` proves that this loses nothing. Time is
an opaque non-zero value that each command takes as a parameter. Target health, stored preferences and the
body digest are arbitrary parameters.

## Model

| member | source | states |
|---|---|---|
| Integrity.StepLoadsExactly | internal/session/run_rebuild.go:44-294 | from any good state in which every run graph loads, one command with any arguments leaves a good state, and all graphs load afterwards if and only if the command failed or kept the dependency rule and the replan rule, both checkable beforehand |
| Histories.HistoryLoadsExactly | internal/session/run_rebuild.go:44-294 | over every list of commands from the empty session: all graphs load after every prefix if and only if each command failed or kept the two rules |
| RunGraph.LoadsExactly | internal/session/run_rebuild.go:44-294 | in a good state all of the loader's checks pass except possibly two: a dependency on a missing task, and a replan whose case lost the resolution that made it |
| Integrity.AddMissingDependencyBreaks | internal/session/run.go:100-150 | the dependency rule is needed: an add that names a task its run does not have, and is not the one being added, stops the run from loading whenever it succeeds |
| Integrity.WaitOnReplacementBreaks | internal/session/task_cmd.go:366-406 | the replan rule is needed: the owner of an active replacement task can wait on it, the command succeeds, and the run no longer loads |
| Scenarios.MissingDependencyReached | internal/session/run_rebuild.go:102-109 | from the empty session a run is started, which loads, and an add with a missing dependency succeeds and leaves it unable to load |
| Scenarios.WaitReached | internal/session/task_cmd.go:366-406 | from the empty session a task is replanned, its replacement is read and its owner waits on it: every run loads before the wait, the wait succeeds, and then the run does not load |
| GraphLoader.LoadRunGraph | internal/session/run_rebuild.go:44-294 | the loading loops succeed exactly when every check passes and then return a node for each task, in ascending order, with its folder, handoff, case, replan and replan origin |
| GraphLoader.AttachReplans | internal/session/run_rebuild.go:223-288 | the replan loop accepts exactly the replans that pass their checks and links source and replacement both ways |
| GraphLoader.FindReplan | internal/mailbox/coordinator_store.go:316-354 | the scan by replacement finds the only replan with it, reports none when there is none, and fails when there are two |
| GraphLoader.CheckDependencies | internal/session/run_rebuild.go:102-109 | the loop accepts a run exactly when every dependency is one of its tasks |
| Histories.ReachableIsGood | internal/session/task_cmd.go:328-364 | every state any list of commands reaches satisfies the invariant and the fanout policy, whatever the arguments |
| Commands.StepKeeps | internal/session/task_cmd.go:32-830 | every command from a good state leaves a good state, undoes nothing (tasks, answered handoffs, replans, attempts, finished receipts), and writes at most one blocker case |
| Histories.HistoryEvolves | internal/session/task_cmd.go:32-830 | later states of a history only add to earlier ones |
| Histories.OneLiveTaskPerKey | internal/session/run.go:896-946 | in every reachable state, of two tasks of one run with one duplicate key and a class outside fanout, one is done or dead |
| Histories.SameKeySameClass | internal/session/run.go:913-915 | the duplicate key of a stored task determines its run and class |
| FanoutPolicy.StepKeepsPolicy | internal/session/run.go:896-911 | no command ever records a duplicate match for a class that does not allow fanout |
| TaskSteps.RecordedMeansNoneLive | internal/session/run.go:152-173 | the duplicate lookup that precedes a task records either a match in a fanout class or that no live task has the key |
| TaskSteps.AddResolvedAdds | internal/session/run.go:152-254 | adding a task either creates its file, message and unread receipt, all new and linked to each other, or leaves everything but the counter alone; a rejection leaves the counter alone too |
| TaskSteps.RouteAdds | internal/session/run.go:304-362 | routing creates one task of the requested class without dependencies, or changes nothing but the counter |
| TaskSteps.AddChildKeepsInv | internal/session/run.go:100-150 | adding with an explicit owner keeps the invariant and creates exactly the requested dependencies |
| TaskSteps.StartKeepsInv | internal/session/run.go:16-98 | starting a run adds one empty run under a fresh identifier, or nothing |
| RerouteSteps.RoutedOrRestored | internal/session/task_cmd.go:480-569 | routing in place of a task either adds one task to the state with the old receipt suspended, or restores everything except the counter and a revision that is two higher |
| RerouteOutcomes.RejectedBlockRestores | internal/session/task_cmd.go:463-569 | a wait or block command whose routing is rejected leaves the whole state as it was, except that the task's receipt has two revisions more |
| RerouteOutcomes.RejectedResolveRestores | internal/session/blocker_resolve.go:248-289 | the same for an operator's manual reroute and partial replan |
| RerouteOutcomes.ActSucceedsExactly | internal/session/task_cmd.go:328-406 | a wait or block on a held task succeeds exactly when its reason is not blank and a reroute, if one is due, is routed |
| RerouteOutcomes.BlankReasonLosesReroute | internal/session/task_cmd.go:122-132 | with a blank but non-empty reason the reroute takes place, the command fails, and every case is as before although the task has moved on |
| Scenarios.BlankReasonReached | internal/session/task_cmd.go:122-132 | from the empty session a task is routed and read and its owner blocks with a space as the reason: the command fails, the receipt is dead, a second task is on disk and no case knows of either |
| RerouteOutcomes.NoBudgetEscalates | internal/session/task_cmd.go:408-461 | at the ceiling a reroute request escalates: no task, receipt or message changes and an action is recommended |
| RerouteOutcomes.BudgetIsSpent | internal/session/task_cmd.go:333-354 | below the ceiling a successful reroute request finishes the old receipt, moves the case to a new task and lowers ceiling minus count by exactly one |
| BlockerHistories.AttemptsAccounted | internal/session/task_cmd.go:328-440 | over every history each case keeps its count between zero and the ceiling of its source's class, and its attempts number the counted reroutes plus the successful manual ones |
| BlockerHistories.SupersededForGood | internal/session/task_cmd.go:272-318 | once a case's current task differs from its source, the source's receipt is done or dead in every later state |
| BlockerHistories.CurrentTasksUnambiguous | internal/mailbox/coordinator_store.go:276-314 | in every reachable state at most one case has a given current task, the lookup never fails, and a live task that no case holds has no case file |
| CaseWrites.NewCaseNeverCollides | internal/mailbox/coordinator_store.go:168-184 | opening a case for a live task that is no case's current task finds no file in the way and no replan that names it |
| CaseWrites.FindCaseFinds | internal/mailbox/coordinator_store.go:276-314 | in a good state the lookup by current task succeeds and returns the one case there is |
| BlockerSteps.RecordBlockerKeepsInv | internal/session/task_cmd.go:272-406 | waiting and blocking keep the invariant; a success writes the case that holds the task and clears its resolution, a failure writes no case |
| ResolveSteps.ResolveKeepsInv | internal/session/blocker_resolve.go:90-246 | every resolution keeps the invariant; a success writes exactly the escalated case, with the replan if that was the action, a failure writes neither |
| ResolveSteps.ReplanKeepsInv | internal/session/blocker_resolve.go:178-246 | once a replan is on disk, the case update that goes with it cannot fail, and the two agree |
| BlockerHistories.AnsweredForGood | internal/session/review_response.go:97-104 | along every history a handoff changes at most once, from pending to responded, and keeps its review task |
| BlockerHistories.HandoffsAreForImplementations | internal/session/task_cmd.go:708-716 | only implementation tasks are handed to review, a review task has no handoff of its own, and no review task answers two |
| HandoffSteps.HandoffAfterDoneKeepsInv | internal/session/task_cmd.go:683-830 | after a task is done one handoff is made, pending with a fresh review task or failed with none; when one exists already nothing at all changes |
| HandoffSteps.FindHandoffFinds | internal/mailbox/coordinator_store.go:373-407 | in a good state the lookup by review task finds the one handoff or reports that there is none |
| HandoffSteps.RespondKeepsInv | internal/session/review_response.go:12-108 | responding keeps the invariant, writes no case and undoes nothing |
| ReceiptSteps.ReadMsgKeepsInv | internal/session/read_msg.go:27-84 | reading keeps the invariant, finishes no receipt and leaves active receipts untouched |
| ReceiptSteps.AcceptKeepsInv | internal/session/task_cmd.go:32-85 | accepting keeps the invariant and touches only receipts |
| Sessions.Session.UpdateReceipt | internal/mailbox/store.go:173-204 | an update moves no receipt and touches no other one, and keeps the invariant unless it gives an active receipt a completion time |
| Sessions.Session.MoveReceipt | internal/mailbox/store.go:206-248 | a success changes the folder of one receipt and nothing else, so that putting the folder back restores all receipts; a failure changes none; moves out of unread or active keep the invariant |
| Sessions.Session.ReadMsg | internal/session/read_msg.go:27-84 | reading returns the stored message, leaves its receipt out of unread, keeps the invariant, finishes no receipt and leaves active ones as they are |
| Sessions.Session.TaskAccept | internal/session/task_cmd.go:32-85 | a success leaves a message that asks for a claim claimed by its reader, nobody loses a claim to another, and the invariant is kept with nothing undone |
| Sessions.Session.StartRun | internal/session/run.go:16-98 | a success adds one empty run under a fresh identifier, a failure changes the counter alone, and the invariant is kept with nothing undone |
| Sessions.Session.AddResolved | internal/session/run.go:152-254 | the in-place creation with its lookup loop adds exactly one task for the owner, with the dependencies, review flag and class asked for, whole with its message and unread receipt, and keeps the invariant; a failure changes the counter alone and a rejection nothing |
| Sessions.Session.AddChildTask | internal/session/run.go:100-150 | a success adds one task with its message and unread receipt, a failure changes the counter alone, and the invariant is kept |
| Sessions.Session.RouteChildTask | internal/session/run.go:304-362 | the in-place loops carry out the declared routing: a success adds one task of the requested class without dependencies, a failure changes the counter alone, and the invariant is kept |
| Sessions.Session.TaskDone | internal/session/task_cmd.go:160-206 | a success leaves the receipt in done and, for a task that needs review, a handoff on disk; the invariant is kept, nothing is undone and no case is written |
| Sessions.Session.CreateReviewHandoffAfterTaskDone | internal/session/task_cmd.go:683-775 | the step never fails in a good state: it makes one handoff for a task that needs review and has none, and otherwise changes nothing at all |
| Sessions.Session.UpsertFailedHandoff | internal/session/task_cmd.go:793-830 | a failure changes nothing; a success changes one handoff only, keeping what an existing record knows |
| Sessions.Session.ReviewRespond | internal/session/review_response.go:12-108 | the in-place response keeps the invariant, undoes nothing and writes no case |
| Sessions.Session.RecordBlocker | internal/session/task_cmd.go:87-158 | the in-place wait or block keeps the invariant and undoes nothing; a success writes the case that holds the task and clears its resolution, a failure writes no case |
| Sessions.Session.Act | internal/session/task_cmd.go:328-364 | the switch over the selected action: a success writes the one case, reopened; a failure writes none; a rejected reroute leaves everything as it was except two revisions |
| Sessions.Session.RouteInPlaceOf | internal/session/task_cmd.go:480-511 | either one task is added to the state with the old receipt suspended, or everything is restored except the counter and a revision two higher |
| Sessions.Session.BlockerResolve | internal/session/blocker_resolve.go:90-246 | a success writes the escalated case, with the replan if that was the action; a failure writes neither, and a rejected one leaves everything as it was except two revisions |
| Sessions.Session.Down | internal/session/down.go:34-64 | the shutdown loops send exactly the active receipts of the configured agents back to unread, unclaimed and with one revision more, and in a good state they succeed and leave a good state |
| Lookups.FindActiveDuplicateTask | internal/session/run.go:917-946 | the scan returns the first live task with the key in directory order and fails when that task has no receipt |
| Lookups.FindBlockerCase | internal/mailbox/coordinator_store.go:276-314 | the scan with its matched variable returns the only case of a current task, none, or an error for a second or an unreadable one |
| Lookups.FindReviewHandoff | internal/mailbox/coordinator_store.go:373-407 | the scan returns the only handoff of a review task, or an error |
| RunSummary.BuildRunSummary | internal/session/run_summary.go:51-86 | the two loops return a row for each task that is not excluded, in task order |
| RunSummary.RowsMean | internal/session/run_summary.go:51-86 | rows are strictly ascending by source task and are those of exactly the tasks that are not excluded |
| Completion.RowCompletedExactly | internal/session/run_summary.go:185-218 | in a loaded run a row is completed exactly when the receipt of its source's current task is in done, the case is not open, and the review that counts, if any, responded without asking for changes |
| Completion.CompletedForGood | internal/session/run_summary.go:51-218 | over every history, a row that was once completed is completed in every later summary of the run that shows its source task |
| SummaryFacts.EffectiveIsCurrent | internal/session/run_summary.go:130-141 | in a loaded good state a row's current task is the current task of the source's case, or the source when it has none |
| SummaryFacts.NoSharedCurrent | internal/session/run_summary.go:51-183 | no two rows of a loaded run show the same current task |
| SummaryFacts.LiveShownExactly | internal/session/run_summary.go:51-183 | a live task that is not a review is the current task of exactly one row, unless the case that holds it belongs to a review task, and then of none |
| Scenarios.HiddenReached | internal/session/run_summary.go:51-86 | from the empty session a review task is replanned by an implementation task: it is live, the run loads, and no row of the summary shows it |
| SummaryFacts.EachLiveTaskInOneRow | internal/session/run_summary.go:51-183 | over every history in which no review task is replanned, each live task that is not a review is the current task of exactly one row, however long the reroute chain |
| ReceiptSchedules.OneCopyAtRest | internal/mailbox/store.go:173-248 | any number of updaters and movers under any schedule without crashes: whenever the lock is free there is one copy, in the folder it names, holding the completed operations replayed in order |
| ReceiptSchedules.RevisionCounts | internal/mailbox/store.go:173-204 | its revision is the starting one plus the number of completed incrementing updates |
| ReceiptLookups.LookupFinds | internal/mailbox/store.go:287-310 | a lookup without the lock, interleaved with forward moves and crashes in any way, never comes back empty-handed |
| ReceiptLookups.LookupMissesExactly | internal/mailbox/store.go:287-310 | over every schedule with any crashes and moves: a lookup that has ended came back empty-handed exactly when a move with its destination behind the scan took the last copy from in front of it and nothing was written in front of it afterwards |
| ReceiptLookups.HidesFromBehind | internal/mailbox/store.go:206-248 | whoever hides the receipt so wrote its destination during the scan, when the scan had already passed it |
| ReceiptProtocol.AlwaysSane | internal/mailbox/store.go:206-248 | under every schedule and any crashes at least one valid copy exists, each copy names its own folder, and one process holds the lock |
| ReceiptHistories.RemoveFaithfulExactly | internal/mailbox/store.go:230-239 | removing a source leaves the receipt as the operations made it exactly when no stale copy stands between source and destination |
| ReceiptHistories.HistoryFaithfulExactly | internal/mailbox/store.go:173-248 | under every schedule with crashes the copy in force is at every moment the replay of what took effect, if and only if no removal passes over a stale copy |
| ReceiptRetries.RetriedMoveArrives | internal/mailbox/store.go:206-248 | a forward move killed and tried again any number of times at any step, with updates in between, loses nothing, and once it goes through exactly one copy is left, in the destination, with the latest contents |
| ReceiptRetries.SuspensionUndone | internal/mailbox/store.go:206-248 | a read killed between its two writes and then a suspension: the receipt that was suspended is in force again as active |
| ReceiptRetries.BackwardMoveHides | internal/mailbox/store.go:287-310 | beside one move from active to unread a lookup can find nothing although the receipt is there throughout |
| MailboxStore.AloneRuns | internal/mailbox/store.go:173-248 | a process of the step protocol that runs by itself does exactly what the sequential update or move does |
| MailboxStore.OneCopyMoves | internal/mailbox/store.go:206-248 | moving the only copy leaves it in the destination alone; moving it to its own folder deletes it |
| MailboxStore.Store.FindReceiptPath | internal/mailbox/store.go:287-310 | the scan returns the first folder in the fixed order that holds a copy |
| MailboxStore.Store.UpdateReceipt | internal/mailbox/store.go:173-204 | updates the first copy only, or nothing, and touches no other receipt |
| MailboxStore.Store.MoveReceipt | internal/mailbox/store.go:206-248 | writes the destination and removes the source, or does nothing, and touches no other receipt |
| MailboxStore.Store.CreateReceipt | internal/mailbox/store.go:120-149 | creates a valid receipt once and refuses to overwrite one |
| MailboxStore.Store.AllocateSeq | internal/mailbox/store.go:250-285 | stores and returns one more than the counter, zero when the file is missing |
| MailboxStore.Store.CreateMessage | internal/mailbox/store.go:25-90 | puts a message in place exactly when its envelope validates, length and digest match and the identifier is free, never changes one in place, and leaves nothing staged |
| MailboxStore.Store.ReadMessage | internal/mailbox/store.go:92-118 | returns a message exactly when it is complete, its envelope validates and its length and digest match |
| DispatchHistories.OneLiveTaskPerKey | internal/session/run.go:304-362 | for every interleaving of routes, keyed and plain adds, sends, reads, completions, requeues and serial reroutes at file-operation granularity, with crashes anywhere but between a mover's two writes: of two tasks with one exclusive key, neither in the middle of a move, one has copies in done or dead only |
| DispatchHistories.OneInForceExactly | internal/session/run.go:896-946 | over every interleaving with any crashes: at every moment at most one task of each exclusive key has its copy in force in unread or active, if and only if no receipt is delivered beside one of its key that has copies on both sides |
| DispatchCrash.TwoInForce | internal/mailbox/store.go:230-239 | a route, a read, a completion killed between its two writes and a second route leave two tasks with one exclusive key, both with their copy in force live |
| DispatchCrash.PassedInTime | internal/session/run_rebuild.go:572-593 | a lookup that passes over a receipt with copies on both sides does no harm when the mover finishes before the new receipt is delivered |
| DispatchHistories.SplitIsMoving | internal/mailbox/store.go:206-248 | with no mover killed between its writes, a receipt has copies on both sides only while its mover stands between them |
| Dispatch.ReceiptsAreBacked | internal/session/run.go:209-238 | after any prefix of any interleaving every visible receipt has a complete message with matching length and digest, and a message that names a task has its file, which names it back |
| Dispatch.CommittedForGood | internal/mailbox/store.go:25-90 | a message in place and a task file are never changed, and a receipt with none but finished copies stays so |
| DispatchHistories.LookConcludes | internal/session/run_rebuild.go:572-593 | the folder scan behind the duplicate lookup decides by the last folder that held the receipt: one with a finished copy when the scan began is taken for finished, and one taken for finished has such a copy when it ends |
| DispatchHistories.AcceptedForGood | internal/session/run.go:917-946 | a receipt that the lookup took for finished is live later only if it had copies on both sides when it was accepted |
| Sequence.NeverTwice | internal/mailbox/store.go:250-285 | no schedule and no crash makes two allocations return one number |
| Sequence.ReturnsAreNew | internal/mailbox/store.go:250-285 | a returned number is above every number the counter had before |
| Sequence.IdentifiersDiffer | internal/protocol/coordinator.go:307-313 | identifiers made from two allocations differ, and validate exactly below ten to the twelfth |
| Locks.NoDeadlock | internal/mailbox/store.go:435-453 | in every state that disciplined commands reach, with any crashes, a started command can step as long as a started one is unfinished |
| LockUses.CommandsOrdered | internal/session/run.go:139-145 | the lock programs of reading, accepting, sending, starting, responding, heartbeats and disabling a target, routing, completing with review, rerouting and replanning, adding without routing data and enabling a target keep the discipline |
| LockDeadlocks.DeadlocksExactly | internal/session/target.go:302-389 | any commands, each dispatched one running only while its dispatcher waits for it, any of them failing or killed at any time: in every state they reach a started command can step as long as one is unfinished, if and only if no set of commands can be alive together and block itself: each waits for a command it dispatched or for one that holds the lock of its run, the holders have different runs, and nobody of the set is below a child dispatched after one of the set, or below the child of a routing command of the set unless that child is of the set too |
| LockDeadlocks.AttendedDeadlocksExactly | internal/session/target.go:251-389 | the same over the schedules in which no command is killed while the one it dispatched is running: there the sets are exactly those that contain whoever dispatched one of them and one child at most of each |
| LockStandstills.StuckStands | internal/session/target.go:302-389 | in every state that is reached in which somebody is unfinished and nobody can step, the commands alive are such a set |
| LockDeadlocks.StandstillLasts | internal/session/target.go:302-389 | every such set, or part of what leads to it, can be brought to a standstill that no continuation without a kill ends |
| LockExamples.RoutingDispatchDeadlocks | internal/session/target.go:302-389 | in any system, a command that nobody dispatches and that dispatches one that routes in its own run can be scheduled so that both stop, and no continuation without a kill frees them |
| LockExamples.CrossingDispatchesDeadlock | internal/session/target.go:302-389 | keeping clear of the runs of waiting ancestors is not enough: in any system, two dispatched commands that route in each other's run stop for ever |
| LockExamples.OneByOneProgresses | internal/session/target.go:251-300 | pending commands are dispatched one after the other: two that would be in each other's way if they ran together never stop, whatever is killed |
| LockExamples.OnlyOrphansDeadlock | internal/session/target.go:302-389 | six commands that always progress as long as nobody is killed over the command it runs, and a schedule with such kills after which nobody can step |
| LockDeadlocks.QuickDispatchProgresses | internal/session/target.go:302-389 | where dispatched commands do not route, the commands progress in every state they reach with any crashes |
| Routing.RouteCandidates | internal/session/run.go:648-672 | the loop lists the allowed owners of the class, and those of them whose role covers the domains, in configuration order |
| Routing.FilterByAvailability | internal/session/run.go:848-877 | the loop keeps the candidates whose target does not block and lists each blocked owner and target once, or fails on an unknown target |
| Routing.AdaptiveExplanation | internal/session/run.go:750-807 | the loop with its best and tie variables explains the scan's unique best when it is not the baseline |
| RoutingFacts.ScanMeaning | internal/session/run.go:750-807 | the running best is a maximum of the total score among candidates with a row, and the tie flag tells whether another one has the same |
| RouteChoice.ChooseOwner | internal/session/run.go:364-437 | the whole selection in the source's order computes the routing decision of the specification |
| RoutingFacts.RoutingPicks | internal/session/run.go:364-437 | without an override the owner is the one candidate whose total score is strictly greatest among those with an exact row, even a negative one, if there is such a candidate, and otherwise the greatest route priority with the least position |
| RoutingFacts.BaselineUnique | internal/session/run.go:738-748 | priority and position leave no tie |
| RoutingSuccess.RoutingSucceedsExactly | internal/session/run.go:364-437 | without an override routing succeeds exactly when some allowed owner has the class, covers all domains and has a target that does not block, the stored preferences in use are valid, and every blocked target that is reported has a summary |
| RoutingSuccess.ExcludedMembers | internal/session/run.go:848-877 | the filter lists, in order, exactly the first blocked candidate of every joined name and target |
| RoutingSuccess.ShownMembers | internal/session/run.go:879-893 | both lists together name exactly the blocked candidates whose joined name, target, status and reason no earlier one has |
| RoutingSuccess.AllReported | internal/session/run.go:848-893 | where no agent's name contains a bar, the reported targets are exactly the blocked targets of the allowed owners of the class |
| RoutingSuccess.BarHidesTarget | internal/session/run.go:862-874 | three agents, one of them with a bar in its name, for which routing succeeds although a blocked target has no summary |
| Adaptive.BuildPreferences | internal/session/run_adaptive.go:42-137 | whatever order the maps are gone through in, loaded runs give the declared list, cut to the lookback, or nothing when a source task is missing or validation fails |
| Adaptive.RowsAddUp | internal/session/run_adaptive.go:42-137 | keys are strictly ascending, and each row's score is the sum of the signals of exactly its items, its evidence theirs in order, its manual weight the last one configured |
| Adaptive.BuiltSetIsValid | internal/protocol/validation.go:849-915 | the built set always passes the protocol's validator, with ordered evidence and evidence wherever the score is not zero |
| Adaptive.AggregateRows | internal/session/run_adaptive.go:55-99 | the nested loops over runs and items build exactly the rows of the items' keys |
| Adaptive.CollectManual | internal/session/run_adaptive.go:49-53 | of several manual preferences with one key the last one counts |
| Adaptive.SortEvidenceSorted | internal/session/run_adaptive.go:297-331 | evidence is put in order without adding or losing any |
| AdaptiveRuns.LoadCompletedRuns | internal/session/run_adaptive.go:145-192 | lists exactly the coordinator's runs whose root message is done, newest first, and fails exactly when a run file does not validate |
| AdaptiveRuns.BuildForCoordinator | internal/session/run_adaptive.go:17-137 | lists, loads, summarises and aggregates the runs of a coordinator; in a good state with an accepted configuration it succeeds exactly when every completed run inside the lookback loads, and the result is valid |
| AdaptiveRuns.WindowIsNewest | internal/session/run_adaptive.go:42-47 | every run inside the lookback is newer than every run outside |
| AdaptiveRuns.PreferencesAlwaysBuild | internal/session/run_adaptive.go:17-137 | for every loaded runs of a good state, any lookback and any accepted configuration, building succeeds with a valid set |
| Domains.NormalizeRouteDomains | internal/protocol/validation.go:998-1030 | the loops return the sorted set of cleaned values or the position of the first illegal one |
| Domains.NormalizeFixpoints | internal/protocol/validation.go:998-1030 | exactly the strictly sorted lists of legal domains are left unchanged |
| Domains.NormalizeIdempotent | internal/protocol/validation.go:998-1030 | normalising twice is normalising once |
| Domains.NormalizeCanonical | internal/protocol/validation.go:998-1030 | two accepted lists normalise alike exactly when their trimmed lower-cased values form the same set |
| Domains.DuplicateKeyInjective | internal/session/run.go:913-915 | the duplicate key determines run, class and domains |
| Domains.PreferenceKeyInjective | internal/session/run_adaptive.go:261-263 | the preference key determines class, domains and owner |
| Protocol.CanonicalValid | internal/protocol/validation.go:217-302 | a stored task passes validation unchanged when it is read back, with the same key and class |
| Ids.GeneratedExactly | internal/protocol/validation.go:1158-1172 | exactly the numbers below ten to the twelfth give an identifier that validates |
| Ids.NewIdInjective | internal/protocol/coordinator.go:307-313 | different numbers give different identifiers |
| Ids.NewIdOrder | internal/protocol/ids.go:11-13 | below the limit identifiers sort as strings in the order of their numbers |
| Ids.ReceiptFileNameRoundTrip | internal/mailbox/paths.go:99-101 | a message identifier is recovered from its receipt's file name exactly when it is not empty |

## Left out

- YAML and JSON encoding, fsync durability and the SHA-256 computation: encoding is the identity, rename is atomic, the digest is an arbitrary function.
- Clocks: every command takes its time as a parameter, so two time stamps of one command are equal here.
- tmux, adapters, panes, the daemon loop, notification retries, health files, status, log, timeline and all text formatting.
- Task placement, team snapshots, message subjects, bodies and priorities, and the state event log; an envelope's own validation is an arbitrary predicate of the store.
- Text of errors and generated goals: a review task's goal and output are fixed strings without the task identifier, and errors carry a kind only.
- Documents edited by hand: an empty `current_task_id`, a task or handoff stored under another identifier, and a message that names a run directory that is not there.
- Lower-casing: exact where the lower case of a character is ASCII; all other characters map to themselves, which normalisation rejects in both cases.
- GraphLoader.LoadRunGraph: tasks and handoffs are taken to carry the identifier of their file, which the loader does not check and the program always makes so.
- Coordinator commands of `Sessions.Session`: a receipt is one value there; its copies on disk are the subject of `ReceiptProtocol` and `MailboxStore`.
- Dispatch: reroutes and replans are single steps, taken while the route lock and the receipt's lock are free, because their suspension is outside the route lock (internal/session/task_cmd.go:480).
- Dispatching to a target that is not local can fail after the task is on disk (internal/session/run.go:243-251); the creation is modelled up to the task, its message and its receipt, so that error is not.
- Dispatch: sequence numbers are taken two at a time in one step; `Sequence` treats the allocation itself.
- Sessions.Session.AddChildTask: an owner with an unknown execution target is refused before the duplicate lookup rather than after it, which changes the error but not the state.
- RoutingFacts.RoutingPicks: assumes distinct agent names, which the configuration loader checks.
- RoutingSuccess.RoutingSucceedsExactly: assumes distinct agent names and known targets with names, which the configuration loader checks.
- Send with an unset sender, previewing a route, target dispatch records and adaptive preference files as files.
