# hap, verified

hap is a daemon that hands work to coding agents and answers their prompts. This project models its
protocols and state machines in Dafny and proves what they promise. Each module follows one component:

- `EventLog`, `EventStream`, `EventStreamRuns`: the resumable event stream, a reader with a cursor over a
  log that others append to and prune. A poll fixes what happened between the reader's own statements, so
  a sequence of polls is one interleaving.
- `Checklist`, `ChecklistMoves`: reordering siblings, with their subtrees, in a markdown checklist.
- `ActionQueue`, `ActionQueueRuns`: the queue of operator requests, with claims, crashes, failed writes and
  restarts of any node's daemon.
- `TaskFile`, `IdleClock`, `Pairing`, `HandOut`, `AutoSend`, with `HandOutRuns`, `HandOutSweeps`,
  `HandOutEffects`, `HandOutBounds` and `HandOutLimits`: the unattended hand-out of tasks. A step is a sweep, a reservation, the
  end of a delivery, an agent resuming, a daemon start, or, also while a delivery is under way, an edit of a
  list by anybody or a ledger row filed or withdrawn by a front end.
- `CrashGuard`: the crash-loop breaker and the four other places that read or rewrite its record.
- `ShellWords`, `Debounce`, `Flatten`, `ConfigMigration`, `Classifier`: shell quoting, the control socket's
  dispatcher, flattening and diffing of configuration, loading and saving it, and the screen classifier.

Code that updates state is a class or a method with loops (`StreamReader`, `Daemon`, `AutoSender`, `Guard`,
`Dispatcher`, `Flattener`, `Loader`, the checklist scans), proved to do what a pure function says; the
theorems are about those functions over all runs. What the outside world does (which read or write fails,
what a file held when it was read, how an executor ended) is an arbitrary value in each step. Times are whole
numbers.

## Assumptions

- Pruning removes a prefix of the event log; head is read before floor, as the code does.
- The canonical key of a list belongs to its spelling.
- A listing names an agent once, and the clock of the crash guard's boots does not run back.
- One daemon runs per node (the lock file sees to it), so a row's attempt count read before the claim is current.
- Identifiers of rows, corrections and ledger entries are issued once.
- Where a theorem needs a store write to succeed, its `requires` says which one.
- An executor that typed keystrokes never reports a transient failure; `deliverreply.go`, `sendtask.go` and
  `generatedtask.go` read that way.
- The config digest is never empty (it prints the whole section).

## Promises the code does not keep in full

Each has the exact condition beside it, and an input or a run where the condition does not show one itself.

- A head or floor read that fails on a non-empty batch lets the cursor pass pruned events without a gap
  (`FailedCheckHidesAnEvent`; exact condition in `RunKeeps`).
- A checklist move re-parents items when siblings are indented differently, or when it passes down a sibling
  whose subtree a line of prose splits, and then also lands elsewhere than it reports (`UnlevelWitness`,
  `SplitWitness`; exact conditions in `MoveKeepsTreeIff` and `LandingIsReportedIff`).
- `down` does not always undo `up`: a heading, blank or detail line between the siblings is left on the other
  side (`HeadingIsCrossed`), an unlevel sibling cannot be stepped back over, and a split one leaves a child
  below (exact conditions, for the items and for the file, in `DownUndoesUpIff`).
- A refusal whose audit write failed silences the same refusal when it comes again, because its words are
  remembered first (`FailedWriteSilencesRefusal`; exact condition in `RefusalIsToldIff`).
- The comment at `internal/daemon/daemon.go:457-473` promises one row for an identical refusal repeated. What was
  said is kept under the target as the request spelled it, and every sweep's listing forgets the targets that
  are not agent ids, so a live agent addressed by name has each repeat told again (`NamedTargetIsToldTwice`;
  exact condition in `SaidAgainIff`).
- A list edited between the mark and the send can have one line sent twice (`ReopenedInFlightIsSentTwice`).
  It happens in some continuation exactly when the line is open again as the keystrokes land, which the code
  does not look at (`SentAgainIff`).
- Repeated task texts can be promised to two agents (`RepeatedTextIsPromisedTwice`; exact conditions in
  `GroupOneEachIff`, `SweepOneEachIff` and, over runs, `OneTaskOneAgentIff`).
- The bound of three hand-outs fails for a text that two open lines of a list carry, because they share one
  counter: with it exhausted by one line and cleared, a sweep returns the other with its count forgotten
  (`TwinsBreakTheBound`). It fails for an open text with a ledger row left from before an edit, which retires
  with the counter of the new hand-out (`LeftoverBreaksTheBound`, and `OldRowsBreakTheBound` for a sweep that
  tells the operator the item is left and then reopens it). `BoundedIff` proves that these, and a delivery
  still under way, are the only ways while the list is left alone and the store's writes land.
- The comment at `internal/daemon/autosendidle.go:653-655` says a row whose delete failed re-escalates, the
  counter staying at the ceiling. The counter is cleared, so the next sweep reopens the item the operator was
  told is left (`UndeletedRowReopens`; exact condition in `UndeletedRowIff`).
- A fallback template emptied under its current name gets the retired name's value back, as the comment at
  `internal/config/config.go:2393-2397` admits, and a negative threshold gets the default
  (`EmptiedTemplateLoses`; exact conditions in `TemplateWinsIff` and `ThresholdWinsIff`).
- A mitigation boot whose record could not be written keeps the embedder off for its first build only
  (exact condition in `UnwrittenMitigationHoldsIff`).
- The comment at `cmd/hap/main.go:937` says a spawn is declined under EmbeddingOff as well; the code declines it
  under GaveUp only, and `SpawnBlockedIff` follows the code.

## Model

| member | source | states |
|---|---|---|
| EventLog.SinceIsARun | internal/streamlog/streamlog.go:298-320 | a batch is one contiguous run of the log: everything between the cursor and its first event has been pruned, and nothing inside it is missing |
| EventLog.AppendAndPruneEvolve | internal/streamlog/streamlog.go:157-336 | appending and pruning from the bottom are the only changes other processes make, so every later log continues an earlier one |
| EventStream.StreamReader.CheckGap | internal/cli/stream.go:133-172 | the gap check after a read leaves cursor, settled flag, output and pipe as the pure check does, its failed reads included |
| EventStream.StreamReader.PrintBatch | internal/cli/stream.go:173-196 | a batch is printed event by event until the pipe closes, the cursor stepping over suppressed events too |
| EventStream.StreamReader.Follow | internal/cli/stream.go:124-196 | the endless loop over any number of turns is the run of the pure step function the theorems are about |
| EventStreamRuns.OpenKeeps | internal/cli/stream.go:70-98 | a stream opens exactly when the flag and both reads are good: without a number at the head, with one never issued at the head after a reset line, else at that number, with a gap line exactly when the next number lies below the oldest retained; and its header accounts for everything up to its first cursor |
| EventStreamRuns.StepKeeps | internal/cli/stream.go:130-196 | one turn, with appends and prunes between all three of its reads, keeps the output sound, and keeps it complete exactly when its check did not lose an event |
| EventStreamRuns.TurnDelivers | internal/cli/stream.go:130-196 | a turn whose read lands, with room, adds at most one gap line and then the visible events of the batch in order, and moves the cursor to the last number of the batch |
| EventStreamRuns.StreamReachesTheHead | internal/cli/stream.go:124-196 | once nothing is appended and the reads land, after as many turns as there are batches left no event is ahead of the cursor, which stands at the head |
| EventStreamRuns.RunKeeps | internal/cli/stream.go:130-196 | over every interleaving: printed numbers rise, no gap covers a line, and every event passed was printed, suppressed or inside a gap if and only if no failed check stepped over a pruned event |
| EventStreamRuns.CheckedRunIsComplete | internal/cli/stream.go:130-196 | with every head and floor read succeeding nothing is ever missed |
| EventStreamRuns.FailedCheckHidesAnEvent | internal/cli/stream.go:139-172 | a concrete turn whose floor read fails on a batch and silently skips a pruned event |
| EventStreamRuns.ExactlyOnce | internal/cli/stream.go:130-196 | each event between the start and the cursor is exactly one of printed, suppressed, or inside a gap |
| EventStreamRuns.GapNeverArrives | internal/cli/stream.go:198-227 | a number inside a reported gap belongs to an event no later read can return |
| EventStreamRuns.FloorFirstIsUnsound | internal/cli/stream.go:198-227 | asking for the floor before the head would report a live event as lost |
| EventStreamRuns.SettledIsCaughtUp | internal/cli/stream.go:130-172 | whenever the settled shortcut stands, some read of the run found nothing on the log above the cursor, so what it skips is only what came later |
| EventStreamRuns.UnprunedOutput | internal/cli/stream.go:70-196 | a stream opened at N over a log that is only appended to prints exactly the visible events after N up to its cursor, in order, whatever reads fail and wherever the pipe closes |
| EventStreamRuns.ResumeIsSeamless | internal/cli/stream.go:70-196 | a stream run for a while and a second one opened at its last printed number, or anywhere from there to its cursor, print together what one uninterrupted stream prints, over every interleaving of the three |
| Checklist.ChecklistParent | internal/domain/tasklist.go:458-466 | the upward scan finds the nearest item indented strictly less |
| Checklist.ParentIsUnique | internal/domain/tasklist.go:451-466 | the parent is characterised: less indented, with nothing as shallow in between |
| Checklist.SiblingPosition | internal/domain/tasklist.go:472-502 | the scan for the next sibling stops where the parent list ends |
| Checklist.CountSubtree | internal/domain/tasklist.go:508-523 | the count of an item and everything nested under it |
| Checklist.FindSubtreeEnd | internal/domain/tasklist.go:527-556 | the lines that travel with an item: deeper ones and the blanks between them |
| Checklist.MoveChecklistItem | internal/domain/tasklist.go:1098-1201 | the move as it cuts and reinserts lines, with its three refusals, is the exchange of two adjacent runs of lines |
| Checklist.TargetIsOutside | internal/domain/tasklist.go:1135-1201 | a sibling never stands inside the lines that travel with the moved item, so the cut never removes its target |
| Checklist.TaskMove | internal/cli/cli.go:3547-3642 | destination and reported landing come from the list as seen, the lines move in the file as re-read under the lock, and only if the item still carries its words |
| ChecklistMoves.MoveExchangesItems | internal/domain/tasklist.go:1135-1201 | an accepted move is a permutation of the lines, and its items are the exchange of two runs |
| ChecklistMoves.ExchangeKeepsTree | internal/domain/tasklist.go:1098-1201 | exchanging two level runs keeps every parent and every subtree, contiguous and whole |
| ChecklistMoves.MoveKeepsTreeIff | internal/domain/tasklist.go:1135-1201 | an accepted move keeps the tree if and only if the siblings are indented alike and, going down, the one passed travels whole |
| ChecklistMoves.UnlevelWitness | internal/domain/tasklist.go:1135-1201 | two siblings of different indentation: moving one up makes the other its sub-task |
| ChecklistMoves.LandingIsReportedIff | internal/cli/cli.go:3592-3602 | the moved item lands where the program reports, exactly when, going down, the sibling passed travels whole |
| ChecklistMoves.SplitWitness | internal/domain/tasklist.go:1135-1201 | a sibling split by prose: moving down past it adopts its left-over child, and the item lands above the place reported |
| ChecklistMoves.DownUndoesUpIff | internal/cli/cli.go:3604-3642 | down after an accepted up restores the items if and only if the siblings are indented alike and the one above travels whole, and the file if and only if, indented alike, nothing stands between them |
| ChecklistMoves.HeadingIsCrossed | internal/cli/cli.go:3604-3642 | a heading between two siblings: up and then down leaves the task in the other section |
| ActionQueue.Daemon.ClaimAction | internal/store/agentactions.go:88-112 | a claim wins only a pending row of the own node, and counts the attempt |
| ActionQueue.Daemon.WithdrawAction | internal/store/agentactions.go:227-263 | a withdrawn outcome and the removal of its unprocessed correction happen together or not at all |
| ActionQueue.Daemon.EscalateRefused | internal/daemon/agentactions.go:342-405 | a refusal is put before the operator unless it is the last thing said about its target |
| ActionQueue.Daemon.RunAgentAction | internal/daemon/agentactions.go:162-248 | claim, screening, execution and settlement, step by step, give the row the verdict of one pure function |
| ActionQueue.Daemon.ProcessAgentActions | internal/daemon/agentactions.go:143-158 | a pass drains the listed rows one after another |
| ActionQueueRuns.OutcomeIff | internal/daemon/agentactions.go:162-248 | over every run, from what the executors reported: a row is done if and only if an execution landed and that was written, and failed if and only if a screening or a final failure was written, or a start found its keystrokes in doubt |
| ActionQueueRuns.StartLeavesNothingRunning | internal/store/agentactions.go:169-209 | a start leaves no request of its node running: queued again only if nothing was typed, failed otherwise, and the others untouched |
| ActionQueueRuns.EndedCorrectionIsApplied | internal/store/store.go:2426-2443 | an answer whose action ended without being withdrawn keeps its correction, and the next pass resolves its escalation |
| ActionQueueRuns.TerminalIsForever | internal/daemon/agentactions.go:162-248 | no step of any run rewrites a terminal row or removes it |
| ActionQueueRuns.EffortIsBounded | internal/daemon/agentactions.go:162-248 | over every run: at most two releases, one delivery of keystrokes, and no more executions than three plus the restarts of the node |
| ActionQueueRuns.RunKeepsLives | internal/store/agentactions.go:88-225 | every claim is the first one or follows a counted release or requeue, whatever crashes and write failures intervene |
| ActionQueueRuns.OnlyOwnFreshRowsRun | internal/daemon/agentactions.go:162-209 | no executor ever runs for another node, for an unknown kind, or past the age its kind allows |
| ActionQueueRuns.WithdrawnIsNeverResolved | internal/daemon/agentactions.go:283-314 | a refused or closed reply is failed, its correction is gone, and no correction pass can resolve its escalation |
| ActionQueueRuns.QueuedCorrectionWaits | internal/store/store.go:2426-2443 | while a reply is queued or running its correction is stored, unresolved and passed over |
| ActionQueue.Daemon.ForgetUnlisted | internal/daemon/autosendidle.go:883-887 | the pruning after a listing keeps what was said only of targets spelled as a listed id |
| ActionQueueRuns.RefusalsAreSaidOnce | internal/daemon/agentactions.go:342-405 | a refusal is escalated only for a recorded withdrawal, and never with the words last said about its target since a start or a listing forgot them |
| ActionQueueRuns.SaidAgainIff | internal/daemon/agentactions.go:394-405 | in every run, a refusal with the words last said about its target is said again if and only if its node started since or a listing showed no agent with that spelling for an id |
| ActionQueueRuns.SaidTwiceWasForgotten | internal/daemon/daemon.go:457-473 | two escalations of the same words about one target, none other between, have such a start or listing between them |
| ActionQueueRuns.NamedTargetIsToldTwice | internal/daemon/autosendidle.go:883-887 | a run in which a live, listed agent addressed by name is refused twice and told about twice |
| ActionQueueRuns.EveryRefusalIsTold | internal/daemon/agentactions.go:316-391 | with the audit writes landing, every recorded refusal has a row carrying its words |
| ActionQueueRuns.RefusalIsToldIff | internal/daemon/agentactions.go:352-405 | in general a refusal is told exactly when its words were told before, or the write lands and they were not the last ones tried |
| ActionQueueRuns.FailedWriteSilencesRefusal | internal/daemon/agentactions.go:352-405 | a run in which a failed audit write silences the same refusal the next time |
| ActionQueueRuns.ThreeDrainsEnd | internal/daemon/agentactions.go:14-24 | three drains whose writes land always bring a queued request to an outcome |
| TaskFile.ReserveTask | internal/taskfile/taskfile.go:174-202 | reserving marks the first open task of the text and reports its place |
| TaskFile.ReclaimTask | internal/taskfile/taskfile.go:338-395 | reclaiming reopens the recorded place, else the sole place of the text, else nothing |
| TaskFile.ReclaimFindsIff | internal/taskfile/taskfile.go:338-395 | a reclaim succeeds exactly when the recorded place still holds or the text is unrepeated and in progress |
| TaskFile.ReserveThenRelease | internal/taskfile/taskfile.go:154-172 | a rollback gives back the list the reservation changed |
| TaskFile.FirstOpenIsFirst | internal/taskfile/taskfile.go:185-202 | no earlier task of that text is open |
| IdleClock.PollRedriveDelay | internal/daemon/autosendidle.go:102-111 | the doubling loop is min(2^(n-1), 15) minutes for every n |
| IdleClock.NotedByItsOwnLine | internal/daemon/autosendidle.go:808-858 | a listing treats each agent by its own line, whatever else it lists |
| IdleClock.ListingMarksParked | internal/daemon/autosendidle.go:808-858 | after a listing exactly the agents it shows parked carry a mark, on the pane and terminal it shows, dated now unless that mark stood |
| IdleClock.IdleLongEnoughIff | internal/daemon/autosendidle.go:806-903 | in every run an agent is idle long enough if and only if a spell that still lasts, parked in every listing and not ended by work or a start, began at a listing over a minute ago |
| IdleClock.MarkHistory | internal/daemon/autosendidle.go:806-903 | a standing mark was made by one listing, and every listing since showed the agent parked behind it |
| IdleClock.ListingKeepsClaim | internal/daemon/autosendidle.go:824-902 | a claim survives a listing exactly while its agent stays in the spell it was made for, and not past its age |
| IdleClock.DrivenWasParked | internal/daemon/autosendidle.go:988-996 | whoever is driven was listed parked on one pane and terminal by every listing since one over a minute ago |
| IdleClock.BudgetCountsDrives | internal/daemon/autosendidle.go:113-141 | the backoff counts the drives since it was last restored and was armed by the last of them |
| IdleClock.BackoffWidens | internal/daemon/autosendidle.go:94-141 | the k-th and the next drive of a parked spell are at least min(2^(k-1), 15) minutes apart |
| Pairing.EligibleInOrder | internal/daemon/autosendidle.go:905-986 | exactly the agents no gate holds back, once each, longest idle first |
| Pairing.GroupsAreLists | internal/daemon/autosendidle.go:306-354 | there is one group to a list, in the order the lists are first met, of exactly the agents that resolve to it, in the order given |
| Pairing.InGroupIff | internal/daemon/autosendidle.go:306-354 | an agent stands in a group if and only if it was given and resolves to the list of the group |
| Pairing.GroupsAreApart | internal/daemon/autosendidle.go:306-354 | grouping by list neither invents nor repeats an agent |
| Pairing.UnpromisedIsFree | internal/daemon/autosendidle.go:1005-1025 | the tasks offered are the open ones no claim promises, without repeats if the list has none |
| Pairing.SweepIsSafe | internal/daemon/autosendidle.go:239-297 | a sweep drives only ready, listed, settled agents, and promises no task twice when the texts it reads are distinct, however many sources share a list |
| Pairing.SweepDrivesOwnLists | internal/daemon/autosendidle.go:239-297 | every agent a sweep drives is allowed by a source and promised a task that was open in its own list under that source as it was read |
| Pairing.SweepLeavesNobodyWaiting | internal/daemon/autosendidle.go:239-297 | an agent every gate lets through at the turn of a source, whose list was read, is driven, or every open task of that list is promised by the end of the sweep |
| Pairing.GroupOneEachIff | internal/daemon/autosendidle.go:251-296 | a group keeps one task to one agent if and only if the texts it hands out, as many as it has agents, are distinct |
| Pairing.SweepOneEachIff | internal/daemon/autosendidle.go:239-297 | and a whole sweep if and only if each of its groups does, source by source |
| Pairing.RepeatedTextIsPromisedTwice | internal/daemon/autosendidle.go:258-279 | with a repeated text one sweep promises it to two agents |
| HandOutRuns.RunIsSane | internal/daemon/autosendidle.go:1086-1125 | in every run an open line is not taken, and the history of wins, sends and returns is orderly |
| HandOutRuns.WinsAlternate | internal/daemon/autosendidle.go:1086-1125 | between two wins of one line something returned it to open |
| HandOutRuns.SendsWereWon | internal/daemon/daemon.go:3689-3823 | a delivery that did not win the mark never sends, and a win pays for one send |
| HandOutRuns.NeverSentTwice | internal/daemon/daemon.go:3689-3823 | no line is sent twice without a return in between, unless it was reopened while the first delivery was under way |
| HandOutRuns.SentAgainIff | internal/daemon/daemon.go:3689-3823 | for every reachable delivery: once the keystrokes land, the line returns to open before any second send, over every continuation, if and only if its mark was not open when they landed |
| HandOutRuns.ReopenedInFlightIsSentTwice | internal/daemon/daemon.go:3689-3823 | the run in which an edit between mark and send makes a line go out twice |
| HandOutRuns.RunIsTimed | internal/daemon/autosendidle.go:154-298 | the clock of the whole daemon is that of a legal run of ticks, so the idle and backoff theorems hold of it |
| HandOutRuns.DrivenInRunWasParked | internal/daemon/autosendidle.go:105-141 | in every run of the daemon a driven agent was parked throughout the last minute |
| HandOutRuns.TaskIsHandedOut | internal/daemon/autosendidle.go:154-298 | a run from nothing: an agent is listed idle, driven at the first sweep over a minute later, and sent the task of its list |
| HandOutRuns.OneTaskOneAgentIff | internal/daemon/autosendidle.go:239-297 | over every run, no two agents ever hold one task if and only if every acting sweep offers its groups distinct texts |
| HandOutRuns.OneTaskOneAgent | internal/daemon/autosendidle.go:1008-1044 | claims stay injective on list and text over every run whose reads had distinct texts |
| HandOutSweeps.ReclaimOnlyReopens | internal/daemon/autosendidle.go:397-621 | a reclaim changes only marks, only from in progress to open, and only for the item of a row that is unconfirmed, past its grace, within its age limit, whose own tenant shows no work or wait, and whose counter was below the ceiling at its turn |
| HandOutSweeps.RowStaysIff | internal/daemon/autosendidle.go:451-620 | the exact condition, branch by branch, under which a row stays open and its agent waits; in every other case it is gone when its delete lands |
| HandOutSweeps.AwaitingIff | internal/daemon/autosendidle.go:397-621 | after a whole pass an agent is among the awaiting if and only if some row of its own stayed open at its turn |
| HandOutSweeps.RowKeptIff | internal/daemon/autosendidle.go:397-621 | after a whole pass with deletes landing a row is in the ledger if and only if it stayed open at its turn |
| HandOutSweeps.OpenRowsAwait | internal/daemon/autosendidle.go:397-621 | with deletes succeeding every row left open puts its agent among the awaiting |
| HandOutSweeps.NoSecondHandOut | internal/daemon/autosendidle.go:170-187 | a sweep drives nobody who still holds an unsettled hand-out, and nobody at all when the ledger is unreadable |
| HandOutSweeps.SweepEndsOldRows | internal/daemon/autosendidle.go:456-501 | a row past the age limit and the longest wait is gone after the next sweep, whatever files and agents do |
| HandOutSweeps.UndeletedRowIff | internal/daemon/autosendidle.go:637-666 | after an escalation whose delete failed the row, when next in doubt, is escalated again if and only if the counter was not cleared either, and returned to open if it was |
| HandOutLimits.UndeletedRowReopens | internal/daemon/autosendidle.go:637-666 | a run from nothing in which the operator is told the item is left and the next sweep opens it again |
| HandOutBounds.StepKeepsPhase | internal/daemon/autosendidle.go:564-689 | every step keeps an item open with its counter exact, or in delivery, or marked with the one row that may return it, or marked for good |
| HandOutBounds.HandOutsAreBounded | internal/daemon/autosendidle.go:626-744 | from any phase, one row outstanding included, an item counted n times is handed out at most cap - n times more until its list is edited, and then stays marked |
| HandOutLimits.BoundedIff | internal/daemon/autosendidle.go:626-744 | of a text with an open line, in any world: no line of it is handed out more than three times over any run if and only if no other line of it is open, no row of it is left and it is not being delivered |
| HandOutLimits.FewAreLeft | internal/daemon/autosendidle.go:626-744 | of such a text, counted n times: at most 3 - n hand-outs are left, one if the counter stands at its ceiling, none if no line is open |
| HandOutLimits.TwinsBreakTheBound | internal/daemon/autosendidle.go:626-744 | from every list with two open lines of one text, whatever its counter, a run that hands the first out four times: the second line exhausts the counter they share |
| HandOutLimits.LeftoverBreaksTheBound | internal/daemon/autosendidle.go:451-620 | from every world with an open line and a left-over row of its text, a run that hands the line out four times: the old row retires with the counter, and the new one returns |
| HandOutBounds.OldRowsBreakTheBound | internal/daemon/autosendidle.go:564-605 | a run in which rows older than an edit let one sweep tell the operator the item is left and reopen it |
| HandOutBounds.RunIsFiled | internal/store/store.go:2541-2570 | every ledger row is filed under its own, already issued id |
| HandOutBounds.RowsChangeOnlySo | internal/store/store.go:2541-2681 | ledger rows come only from accepted deliveries and the hand-outs of front ends, are confirmed only by their own tenant at work, and are renewed only by a start, at most three times |
| HandOutEffects.WorkConfirmsIff | internal/daemon/daemon.go:2056-2100 | with the write landing, an agent seen at work confirms exactly its own rows, of its terminal or with one unknown; its spell and claim end |
| HandOutEffects.TakenUpIsNeverReturned | internal/daemon/autosendidle.go:451-455 | once its own tenant was seen at work, no later sweep of any run takes a hand-out back or keeps the agent waiting for it |
| HandOutEffects.StartRenewsIff | internal/store/store.go:2662-2681 | a start forgets the memory and renews exactly the unconfirmed rows with a renewal left |
| HandOutEffects.RenewedStaysOpen | internal/store/store.go:2662-2681 | a renewed row, its task still marked, stays with its agent for a whole new grace |
| HandOutEffects.ReservationWonIff | internal/daemon/autosendidle.go:1086-1125 | a reservation is won if and only if the file can be written and shows the text open; a refused one changes nothing but the claim, which it frees |
| HandOutEffects.EndingFreesClaim | internal/daemon/daemon.go:3712-3823 | a delivery that sends nothing frees the claim of its agent and of nobody else; one that lands keeps it and restores the backoff |
| HandOutEffects.SettlingFreesClaimIff | internal/daemon/autosendidle.go:600-666 | settling a row drops the claim made for its own hand-out exactly when it is returned or escalated, and no other claim |
| AutoSend.AutoSender.NoteIdleAgents | internal/daemon/autosendidle.go:806-903 | the loop over a listing and the pruning that follows are one listing tick of the clock |
| AutoSend.AutoSender.SettleStranded | internal/daemon/autosendidle.go:451-620 | the branches for one row, in their order, are the verdict and effect the theorems use |
| AutoSend.AutoSender.ReclaimStrandedTasks | internal/daemon/autosendidle.go:397-621 | the loop over the ledger yields the reclaimed world and the awaiting agents |
| AutoSend.AutoSender.EligibleIdleAgents | internal/daemon/autosendidle.go:905-986 | the gates and the ordering, applied agent by agent |
| AutoSend.AutoSender.UnclaimedPendingTasks | internal/daemon/autosendidle.go:1005-1025 | the open tasks minus the promised ones |
| AutoSend.AutoSender.PairGroup | internal/daemon/autosendidle.go:251-296 | agents and tasks of a group are paired by position until either runs out |
| AutoSend.AutoSender.AutoSendIdleTasks | internal/daemon/autosendidle.go:154-298 | the whole sweep is the sweep step of the runs |
| AutoSend.AutoSender.ReserveDeclaredTask | internal/daemon/autosendidle.go:1086-1125 | a reservation is the reserve step: the mark is won, or the claim is dropped and nothing is sent |
| AutoSend.AutoSender.RefuseSend | internal/daemon/daemon.go:3756-3792 | a refused send is counted, rolled back below the ceiling, and left marked once the operator is told |
| AutoSend.AutoSender.Conclude | internal/daemon/daemon.go:3712-3823 | the three endings of a delivery are the conclude step of the runs |
| AutoSend.AutoSender.AgentWorking | internal/daemon/daemon.go:2056-2100 | a working agent loses clock and claim and confirms its own tenant rows |
| AutoSend.AutoSender.Start | internal/store/store.go:2662-2681 | a start renews the window of unconfirmed rows at most three times each |
| CrashGuard.PruneStarts | internal/crashguard/crashguard.go:165-174 | the loop keeps exactly the boots strictly inside the window |
| CrashGuard.Guard.EvaluateBoot | internal/crashguard/crashguard.go:77-122 | the boot decision with its resets and latches |
| CrashGuard.Guard.BootDaemon | cmd/hap/main.go:409-431 | a boot reads, evaluates, tries to persist, and runs unless told to give up |
| CrashGuard.Guard.BuildEmbedder | cmd/hap/main.go:576-605 | the first build follows the boot decision, later ones the record |
| CrashGuard.Guard.SpawnIsBlocked | cmd/hap/main.go:791-806 | a spawn is declined under a latched give-up, and a changed config lifts it |
| CrashGuard.Guard.SurviveWindow | cmd/hap/main.go:439-446 | outliving the window clears the boots and keeps the latch |
| CrashGuard.Guard.ForgetRestartBoots | cmd/hap/main.go:940-950 | a requested restart clears the boots and keeps the latch |
| CrashGuard.WindowIsExact | internal/crashguard/crashguard.go:80-122 | in every run the pruned boots are the filter of the whole history since the last reset, stay under the threshold unless given up, and giving up implies the embedder is off |
| CrashGuard.RecentOfRecent | internal/crashguard/crashguard.go:165-174 | pruning twice with a clock that does not run back is pruning once |
| CrashGuard.FiveBootsGiveUp | internal/crashguard/crashguard.go:80-122 | from any record, the fifth boot of one config inside a window gives up |
| CrashGuard.GivingUpTakesFive | internal/crashguard/crashguard.go:80-122 | from nothing, over any steps, no boot before the fifth gives up |
| CrashGuard.ForgivenBootsRun | cmd/hap/main.go:432-446 | a window outlived or a restart asked for wipes the count: the next two boots run as the latch already said, whenever they come |
| CrashGuard.LatchesClearOnChange | internal/crashguard/crashguard.go:80-163 | no step but one with another config digest clears a latch |
| CrashGuard.SpawnBlockedIff | internal/crashguard/crashguard.go:151-163 | a spawn is blocked if and only if a boot would give up at every time |
| CrashGuard.SuppressedIff | internal/crashguard/crashguard.go:135-149 | a reload suppresses the embedder if and only if a boot would at every time |
| CrashGuard.ClearingEarlyChangesNothing | internal/crashguard/crashguard.go:135-163 | a latch cleared at a reload or spawn leaves the next boot as it would have been |
| CrashGuard.MitigationHolds | cmd/hap/main.go:576-605 | a mitigated daemon whose record was written builds no embedder until the config changes |
| CrashGuard.UnwrittenMitigationHoldsIff | cmd/hap/main.go:409-421 | with the record unwritten, the second build stays off exactly when an older record already held the latch |
| ShellWords.ShellJoin | internal/cli/cli.go:433-443 | the loop builds the joined tail word by word |
| ShellWords.RoundTrip | internal/cli/cli.go:420-443 | a shell reads back exactly the words, for every list of words |
| ShellWords.TailsDiffer | internal/cli/cli.go:420-443 | different word lists give different tails |
| ShellWords.BareIff | internal/cli/cli.go:436-439 | a word is left unquoted if and only if a shell would read it bare as that one word |
| Debounce.EveryNudgeIsAnswered | internal/control/control.go:127-159 | in every run the calls are the windows taken, each with adjacent repeats removed, and every nudge offered is dropped, queued or taken |
| Debounce.OnlyCrowdedAreDropped | internal/control/control.go:108-122 | in every run exactly the nudges that met a full queue are dropped, and all others wait or are taken |
| Debounce.TakenIsCalledAfter | internal/control/control.go:129-159 | every nudge taken is followed by a call of its kind made after it was taken, shutdown included |
| Debounce.CollapsedKeepsKinds | internal/control/control.go:127-147 | collapsing a window loses no kind and leaves no adjacent repeat |
| Debounce.Dispatcher.Dispatch | internal/control/control.go:129-159 | the two nested loops take exactly the nudges before the close and answer them so |
| Flatten.Flattener.FlattenTable | internal/config/flatten.go:38-52 | the in-place recursion fills the map as the pure flattening does |
| Flatten.FlattenIsInvertible | internal/config/flatten.go:11-52 | an unflattening reads back what the tree holds at every path, for dot-free non-empty keys and no empty subtable |
| Flatten.FlattenEqualIff | internal/config/flatten.go:11-52 | two flattenings are equal exactly when the trees are, whatever order their tables were met in |
| Flatten.DottedAndEmptyAreLost | internal/config/flatten.go:38-52 | outside those trees a dotted key spells a table and an empty table leaves no trace |
| Flatten.ChangedKeys | internal/config/flatten.go:54-77 | the keys listed are sorted, unrepeated and exactly those that differ when an absent key counts as zero |
| Flatten.ChangesAreSymmetric | internal/config/flatten.go:54-86 | the change back lists the same keys, and no change lists none |
| ConfigMigration.MergeSeen | internal/config/config.go:2197-2232 | the merge with a seen set is the pure merge |
| ConfigMigration.MergeIsUnion | internal/config/config.go:2197-2249 | a merge is the union, canonical entries first and in place, nothing added twice |
| ConfigMigration.NoPatternIsLost | internal/config/config.go:2194-2233 | the never-auto patterns after a load are the union of all three keys |
| ConfigMigration.NoRuleIsLost | internal/config/config.go:2234-2250 | the scoped rules after a load are the union of both tables |
| ConfigMigration.CanonicalWins | internal/config/config.go:2251-2348 | a switch under its current name beats its retired one, even when it is off |
| ConfigMigration.ThresholdWinsIff | internal/config/config.go:2251-2408 | a written threshold is kept exactly when it is not negative, and the retired switch counts only where none is written |
| ConfigMigration.TemplateWinsIff | internal/config/config.go:2349-2408 | a written template is kept exactly when it is non-empty or no retired one is set |
| ConfigMigration.OldTableIsRenamed | internal/config/config.go:2180-2196 | the retired thresholds table counts as the current one exactly when that is absent and every value can be read, and otherwise not at all |
| ConfigMigration.EmptiedTemplateLoses | internal/config/config.go:2349-2408 | a template emptied under its current name comes back from its retired one |
| ConfigMigration.ReviewWins | internal/config/config.go:2419-2433 | the review switch a task source wrote under its current name beats the retired one |
| ConfigMigration.SettledIsFixed | internal/config/config.go:2448-2545 | migrating and filling a settled configuration again changes nothing but the bars of a retired table, if the file holds one |
| ConfigMigration.LoadSettles | internal/config/config.go:2138-2446 | every load, failing ones included, ends settled: no retired key held, every unset value filled |
| ConfigMigration.LoadSaveLoad | internal/config/config.go:2751-2752 | saving what was loaded and loading it gives it back |
| ConfigMigration.ProviderIsPinned | internal/config/config.go:2139-2171 | which provider each kind of file ends with: none pins local files, an explicit empty key gets the database |
| ConfigMigration.SaveKeepsBackends | internal/config/config.go:1138-1159 | saving and loading any configuration keeps every source on its backend up to the retired spelling, inheritance included |
| ConfigMigration.Loader.LoadFile | internal/config/config.go:2138-2446 | the load as it edits one struct in place is the composition of the steps above |
| Classifier.NewClassifier | internal/classify/classify.go:100-132 | compiling keeps the usable rules in order, operator rules first |
| Classifier.MatchRule | internal/classify/classify.go:292-305 | the two scans look for any pattern or keyword |
| Classifier.ClassifyScreen | internal/classify/classify.go:134-290 | the loop with its mutable match flag gives the verdict of the first rule to pass |
| Classifier.FirstPassingIsFirst | internal/classify/classify.go:171-266 | that verdict is of a rule that passes with none before it passing |
| Classifier.OperatorRulesWin | internal/classify/classify.go:100-132 | built-in rules speak only where no operator rule passes |
| Classifier.BadRuleIsAbsent | internal/classify/classify.go:111-129 | a rule that does not compile changes no verdict |
| Classifier.PromptsAreReal | internal/classify/classify.go:165-262 | approval or choice only off a blocked agent or a standing form on a parked one |
| Classifier.AgyIdleIff | internal/classify/classify.go:268-288 | agy reads as idle by an idle rule, or with no rule passing exactly when its composer shows |
| Classifier.IdleRuleBypassesComposer | internal/classify/classify.go:268-288 | an idle content rule does bypass the composer |
| Classifier.RateLimitIsNoApproval | internal/classify/classify.go:176-182 | the rate-limit modal is never an approval, whatever matches its text |
| Classifier.BuiltInVerdict | internal/classify/classify.go:165-288 | where no operator rule passes, a screen not held gets exactly the verdict a table of its forms, texts and status gives |
| Classifier.OperatorRuleIsHeard | internal/classify/classify.go:171-266 | a leading operator rule is heard whenever one of its patterns or keywords occurs and its gate is open |
| Classifier.StandingApprovalIsSeen | internal/classify/classify.go:183-262 | a standing approval on a parked agent is an approval unless an operator rule passes first |
| Classifier.WorkingIsNoPrompt | internal/classify/classify.go:235-262 | a working agent is never read as prompting |

## Left out

- HandOutLimits.BoundedIff: with no line open nothing is handed out until a line opens, and it applies from there; what a sweep may open before then is bounded by `HandOutsAreBounded` for an item with one row.
- HandOutBounds.RowsChangeOnlySo: the send of a front end's own hand-out is not in the history of sends; its mark is an edit like any other.
- HandOutRuns.NeverSentTwice: sufficient, in terms of the history; the exact form, in terms of the state at the send, is `SentAgainIff`.
- HandOutRuns.OneTaskOneAgent: sufficient, in terms of the reads alone; the exact form is `OneTaskOneAgentIff`.
- HandOutRuns.SendsWereWon: deliveries that reserve nothing (a source that does not reserve, an empty text, the notice of an exhausted list; `internal/daemon/autosendidle.go:1102-1105`) are sent without a mark and are not modelled.
- Flatten.FlattenIsInvertible: keys without dots and tables with entries only, as configuration keys are; `DottedAndEmptyAreLost` shows both needs.
- ShellWords.BareIff: the reader refuses every unquoted special character of the program's own list, some of which a shell would read as itself in some positions.
- CrashGuard.SuppressedIff: asks that a record never gave up with the embedder on, which `WindowIsExact` proves of every record written.
- The remote release of stranded tasks in the background, and remote task stores: one reclaim is one step here, and the once-a-sweep cache of file contents is replaced by arbitrary contents as read.
- The pre-delivery review that edits a list before sending, and agy's read-back of a queued hand-out.
- CrashGuard.Guard.SurviveWindow: the timer's read and rewrite of the record are one step here; a reload between them can bring back a latch it cleared, until the next reload's digest check.
- Sends that carry no task restore an agent's backoff budget too (`internal/daemon/daemon.go:3795-3799`); only the deliveries of the hand-out do here.
- Pane reads, herdr, LLM subprocesses, notifications and sockets: arbitrary verdicts. SQL and the network: maps with writes that may fail.
- Event-log time, retention and the poll's pacing; argument parsing; the text a move's destination is written in.
- Regex, keyword and screen-form detectors, and the extraction of options and verbs from a classified screen.
- TOML text: a file is the keys an operator wrote. Configuration keys that are only copied or defaulted like the ones modelled.
- Episode notices and cooldowns kept beside the idle clock, agent renaming, and the removal of old queue rows by retention.
- The operator-facing wording of warnings, audit rows and hints, beyond what refusal deduplication compares.
