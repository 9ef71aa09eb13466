# RiskKernel: a verified model of the disposer and its crash-resume machinery

RiskKernel is a daemon that governs AI-agent runs: it meters every step and model call of a run,
halts the run when a token, dollar, loop or time budget is exhausted or the kill switch is pulled,
writes everything through to a store, and after a crash resumes from there. This project models
that logic in Dafny 4.11 and proves what it guarantees over all runs. `dafny verify dfyconfig.toml`
checks the whole project.

## How the model is built

Each mutable object of the daemon is a class with the fields it updates in place: the governor, a
run, the run manager, the store, the approval gate and its channels, the MCP gateway, a provider
stream, the metrics builder. Each of their methods is proved against a function from one state to
the next, and, where it writes durably, against a *plan*: the writes it makes, in order. The
theorems about whole runs are proved on state machines whose steps are these same functions. What
each function means is then stated a second time in plain terms, by the clock, the counters and the
columns, in lemmas named `...Exactly`, `...Leaves` and `...Tells` or in the methods' contracts.

- `Governor.dfy`: budgets, guards, halts and the kill switch. `GovernorSafety` has what any
  sequence of guard calls keeps.
- `Storage.dfy`: the tables, each write as one atomic step, and the row semantics.
- `Runs.dfy`: the run and the manager, with `Reload`, `GetOrCreate` and the persist order.
- `Machine.dfy`: the daemon as a machine over *single durable writes*. An operation updates the
  live run and queues its plan; each `Flush` performs one queued write; a `Crash`, possible between
  any two writes and any number of times, loses everything but the tables. Operations on one run
  are serial, different runs interleave freely. `MachineInvariant` has the inductive invariant:
  latest checkpoint <= run row <= governor, apart from a row that a rollback is about to replace.
  `Carrying` has what a run's identity keeps: name, bundle, metadata, creation time.
- `Operations.dfy`: what each operation leaves in memory and in each table once its writes are
  done, column by column and without the functions that specify it.
- `CrashSafety.dfy`, `Accounting.dfy`, `ReloadSafety.dfy`, `Agent.dfy`: the theorems over every
  run of that machine, and the checkpointing agent that resumes on top of it.
- `Registry.dfy`: `GetOrCreate` and `Reload` racing for one id, step by step.
- `Admission.dfy`: many calls of one run in flight at once.
- `Gateway.dfy`: the governed provider call and the streamed one, over the real run objects.
- `Approval.dfy`: the approval policy, the gate as a protocol of requesters and resolvers, and the
  gate object.
- `Mcp.dfy`, `DryRun.dfy`, `Audit.dfy`, `Pricing.dfy`, `Metrics.dfy`: tool-call governance, the
  policy dry run, the hash-chained log, longest-prefix pricing, label escaping.

What the daemon cannot see is a parameter: clock readings, minted ids, what a human answers, what
a provider delivers, SHA-256, the JSON encoding, `path.Match`. Every map iteration is in arbitrary
order. Nothing is assumed of a clock: readings may even go backwards.

## What turned out not to hold as promised

Each of these is a lemma, next to the exact condition under which the promise is met.

- A crash can widen the ledger/meter gap by more than the one call being recorded: a call cut off
  before its checkpoint can be paid for by a later crash that interrupts nothing (`ALaterCrashPays`).
  A crash keeps the promise exactly when it rolls nothing back, or what was recorded since the
  latest checkpoint, the current call aside, is within the ledger row still owed
  (`CrashWidensWithinIff`; between operations, `IdleCrashIff`), and a run keeps it crash by crash
  exactly when each of its crashes does (`PromiseKeptIff`). The sum of the interrupted calls always
  bounds the gap (`LedgerBracketsMeter`).
- Rollback needs a checkpoint, so a crash between the first durable step and the first checkpoint
  leaves a step in the counter that is redone (`TheCounterCanEndHigher`). The agent's counter ends
  at the number of steps if and only if no crash fell there (`CounterEndsAtTotal`). The comment at
  internal/runs/manager.go:379-381 promises "no double-count" without that exception.
- A governed call's own checkpoint has no payload (`RecordedCallResetsCursor`). An agent whose model
  calls go through the proxy on the same run resumes right after its own last checkpoint if and only
  if it has none yet or no recorded call's became durable after it (`ResumedCursorIff`); where every
  resume meets that, each step is checkpointed once and in order (`IntactResumesCountSteps`).
- Two concurrent restores of one run can each roll it back, and the slower one's write can undo a
  durable kill (`AKillCanBeUndone`). Among the steps of `Registry` that pending rollback is the only
  one that takes a durable halt back (`OnlyAStaleRollbackRevives`); the run in memory stays halted.
- `Create` with an id already in use puts the stored row back to running, and so takes back a halt
  exactly when the row had one (`CreateOnAUsedIdRevives`). The machine therefore creates under fresh
  ids only, which is what the API does by minting UUIDs.
- A decision whose waiter lookup runs before the request registers (`AnEarlyLookupMisses`) is never
  delivered; the request then ends only through its context, so it fails closed
  (`MissedFailsClosed`). One whose lookup finds the waiter is (`FoundIsDelivered`).
- Without a store a second decision can block (`WithoutStoreSendCanBlock`): a send blocks exactly
  while another resolver's decision lies unreceived in the slot, which with a store never happens
  (`SendBlocksIff`).
- The dry run halts exactly when a replay does, but can name another dimension (`ReasonsCanDiffer`).
  They name the same one exactly when the reported dimension already trips at the replay's first
  breach and, if it is dollars, tokens do not trip there too (`SameDimensionIff`).
- The dry run's allowlist check takes exact names where the gateway takes patterns; they disagree
  on exactly the calls `DryRunBlocksLikeTheGateway` names.
- The price table depends on map order exactly when two override keys differ only in case and
  carry different rates (`OrderIndependentIffNoConflict`).
- Without a bundle a side-effecting MCP call is forwarded unasked exactly when the daemon's policy
  neither is default-safe nor has a matching rule (`WithoutBundleThePolicyDecides`).
- The MCP gateway never asks the governor, although internal/governor/governor.go:2-3 speaks of a
  kill switch around every tool call: a halted run's call goes upstream exactly when the running
  run's would, when the allowlist and any approval let it (`HaltedRunIsServedAlike`).

## Model

| member | source | states |
|---|---|---|
| Governor.Run.New | internal/governor/governor.go:101-145 | a governor starts with the restored usage and halt, and a restored halt leaves its context dead |
| Governor.Run.PreStep | internal/governor/governor.go:163-177 | the step is granted and counted, or refused with the recorded reason, time before loops; `PreStepExactly` says when |
| Governor.Run.CanProceed | internal/governor/governor.go:182-186 | the pre-call ceiling: an error exactly when the run is now halted |
| Governor.Run.RecordUsage | internal/governor/governor.go:191-198 | usage is added even to a halted run, then the budgets are checked |
| Governor.Run.Cancel | internal/governor/governor.go:203-207 | the kill switch halts a running run and leaves another reason alone |
| Governor.Run.Close | internal/governor/governor.go:153-157 | releases the context, and the accounting is untouched |
| Governor.Run.CheckLocked | internal/governor/governor.go:241-255 | time, then tokens, then dollars; the first breach found is the reason |
| Governor.Run.ExpiredLocked | internal/governor/governor.go:257-262 | the time budget is up once its seconds have passed, and never without one |
| Governor.Run.HaltLocked | internal/governor/governor.go:266-274 | first reason wins, and only it fires the cancel |
| GovernorSafety.CheckSound | internal/governor/governor.go:241-255 | a check halts only for a reason the usage or the clock witnesses, else the run is strictly under budget |
| GovernorSafety.StepSound | internal/governor/governor.go:163-207 | each guard keeps halts justified, never lowers usage, never changes a recorded reason, grants no loop to a halted run |
| GovernorSafety.PreStepExactly | internal/governor/governor.go:163-177 | by the clock: a running run halts for time exactly when the budget is set and its seconds have passed, else for loops exactly when none is left, else it counts exactly one loop |
| GovernorSafety.OtherGuardsExactly | internal/governor/governor.go:182-207 | by the clock: the pre-call check and the metering halt for time, then tokens, then dollars, never for loops, and usage is added even to a halted run; a kill keeps an earlier reason |
| GovernorSafety.VerdictExactly | internal/governor/governor.go:276-278 | the answer carries the reason and the usage, and comes exactly from a halted run |
| GovernorSafety.NewGovernorExactly | internal/governor/governor.go:101-145 | usage and halt are as restored, the clock starts now, and the context is dead exactly when halted or out of time |
| GovernorSafety.HaltsJustifiedAndComplete | internal/governor/governor.go:163-274 | after any guard calls: the reason is witnessed, a halted run's context is dead, a running run is under its token and dollar budgets, loops count exactly the granted steps and stay within budget |
| GovernorSafety.FirstReasonWins | internal/governor/governor.go:264-274 | after a halt no later guard call changes the reason, counts a loop or grants a step |
| Storage.LatestIsLastAppended | internal/storage/checkpoints.go:54-65 | the latest checkpoint of a run is the last one appended for it |
| Storage.WriteIsLocal | internal/storage/sqlite.go:122-238 | a write is invisible to every other run's row, latest checkpoint and ledger totals |
| Storage.WriteIsSeen | internal/storage/sqlite.go:122-238 | what each write shows of its own run: the upserted row, the checkpoint just saved as the latest, the totals raised by the appended row and by nothing else |
| Storage.TotalsByColumn | internal/storage/sqlite.go:265-275 | an appended row moves the count, prompt, completion and dollar totals of its own run each by its own column, and those of no other run |
| Storage.Store.UpsertRun | internal/storage/sqlite.go:122-149 | inserts or updates the row, keeping the stored created_at and policy_ref |
| Storage.Store.UpsertStep | internal/storage/sqlite.go:181-195 | inserts or updates the step, keeping the stored started_at |
| Storage.Store.AppendLedger | internal/storage/sqlite.go:226-238 | appends one ledger row |
| Storage.Store.SaveCheckpoint | internal/storage/checkpoints.go:35-52 | appends one checkpoint |
| Storage.Store.GetRun | internal/storage/sqlite.go:151-159 | the row, or not found |
| Storage.Store.ListRunsByStatus | internal/storage/checkpoints.go:16-32 | every row with the status, once each, and no other |
| Storage.Store.Totals | internal/storage/sqlite.go:265-275 | the number of the run's ledger rows and the sums over them, in each measure |
| Runs.Run.Fresh | internal/runs/manager.go:335-348 | a new run has used nothing |
| Runs.Run.FromRow | internal/runs/manager.go:174-188 | a run rebuilt from a row has the row's identity, bundle and budget |
| Runs.Run.BeginStep | internal/runs/manager.go:73-91 | a granted step writes step then row, a refused one writes the halted row; the index is the new loop count |
| Runs.Run.CanProceed | internal/runs/manager.go:94-100 | writes the row exactly when the ceiling refuses |
| Runs.Run.PersistHalt | internal/runs/manager.go:104-107 | touches the run and writes its row |
| Runs.Run.RecordCall | internal/runs/manager.go:112-117 | meters the call and writes ledger, step, row, checkpoint in that order |
| Runs.Run.Cancel | internal/runs/manager.go:120-124 | kills the run and writes its row |
| Runs.Run.ToRecord | internal/runs/manager.go:163-201 | the row is the run's current state, its status a function of the reason |
| Runs.Manager.Create | internal/runs/manager.go:246-262 | files a fresh run under its id with the given or default budget and writes its row |
| Runs.Manager.Get | internal/runs/manager.go:265-270 | the entry, if there is one |
| Runs.Manager.GetOrCreate | internal/runs/manager.go:281-305 | the entry; else the stored run restored, whatever its status; else a fresh run under the default budget |
| Runs.Manager.RestoreFromStore | internal/runs/manager.go:310-322 | nothing for an unknown id or without a store, else the stored run restored |
| Runs.Manager.ReloadRun | internal/runs/manager.go:382-434 | restores usage from the checkpoint when it has fewer loops than a live row, and then writes the row; a terminal run keeps its reason and is not rolled back; `RestoreLeaves` says it field by field |
| Runs.Manager.Reload | internal/runs/manager.go:353-372 | enters exactly the running rows not in memory, each restored, settles exactly those rows, touches no existing entry, counts them, and makes only rollback writes |
| Runs.Manager.ReloadAll | internal/runs/manager.go:361-371 | the loop: rows already in memory are skipped |
| Runs.Manager.Checkpoint | internal/runs/manager.go:439-454 | snapshots the governor's usage with the payload; fails exactly for a run not in memory |
| Runs.Manager.PersistRun | internal/runs/manager.go:458-465 | writes the row, or nothing without a store |
| Runs.Manager.PersistStepStart | internal/runs/manager.go:467-477 | writes the running step, then the row |
| Runs.Manager.PersistCall | internal/runs/manager.go:479-521 | writes ledger, step, row, checkpoint in that order |
| Runs.RestoreSettles | internal/runs/manager.go:400-433 | a restore changes the tables in its own row only, and there leaves the rolled-back usage |
| Runs.ReloadLoopEffect | internal/runs/manager.go:361-371 | what the loop has done after any part of the listing, row by row |
| Runs.ReloadCompletes | internal/runs/manager.go:353-372 | a completed reload's tables and entries do not depend on the listing order |
| Machine.CrashLeavesPrefix | internal/runs/manager.go:456-521 | a crash after k writes leaves exactly the first k writes of the operation's plan |
| Machine.SegmentRuns | internal/runs/manager.go:73-124 | an operation cut off after k writes leaves its whole effect in memory and the first k writes of its plan in the tables |
| Operations.CreateLeaves | internal/runs/manager.go:246-262 | a new run is in memory and in its row, unused, with the given identity, bundle and budget |
| Operations.RestoreLeaves | internal/runs/manager.go:382-434 | the run comes back with the row's name, bundle, metadata, creation time and budget; a halted one with its reason and usage, a live one with the checkpoint's usage if that has fewer loops; the clock starts anew, and the row then agrees |
| Operations.StepLeaves | internal/runs/manager.go:73-91 | a step with time and a loop left counts one loop and leaves a running step row, which keeps its first start time, and the run's row |
| Operations.RefusalLeaves | internal/runs/manager.go:73-107 | a refused step or check leaves memory and row halted with the earlier reason or the first breached dimension, and counts and spends nothing |
| Operations.RecordLeaves | internal/runs/manager.go:112-117 | one ledger row with the call's own step, provider, model, amounts, priced flag and response id; the step row closed, the run's row and a payload-less checkpoint with the new usage |
| Operations.CheckpointLeaves | internal/runs/manager.go:439-454 | one checkpoint with the governor's usage, the caller's name and payload; nothing else changes |
| Operations.KillLeaves | internal/runs/manager.go:120-124 | memory and row are cancelled at once, or keep an earlier reason |
| Carrying.LiveRunIsItsRow | internal/runs/manager.go:413-427 | in every reachable state a run in memory has the name, bundle, metadata, creation time and budget of its row |
| Carrying.IdleRowIsTheRun | internal/runs/manager.go:163-201 | between operations the row is the run, field by field |
| Carrying.IdentityIsForGood | internal/runs/manager.go:281-322 | a stored run keeps name, bundle, metadata and creation time through any later actions, crashes and restarts included |
| MachineInvariant.FlushKeeps | internal/runs/manager.go:458-521 | one durable write keeps latest checkpoint <= row <= governor |
| MachineInvariant.EnterKeeps | internal/runs/manager.go:246-322 | creating and restoring keep it |
| MachineInvariant.BeginStepKeeps | internal/runs/manager.go:73-91 | beginning a step keeps it |
| MachineInvariant.RecordCallKeeps | internal/runs/manager.go:112-117 | recording a call keeps it |
| MachineInvariant.StepKeeps | internal/runs/manager.go:73-124 | every action on any run, a crash included, keeps it for every run |
| MachineInvariant.Reachable | internal/runs/manager.go:73-521 | it holds in every reachable state |
| CrashSafety.CrashBracket | internal/runs/manager.go:382-434 | at every crash point, after any earlier crashes, the recovered usage is componentwise between the latest durable checkpoint and the live usage, under a sound governor |
| CrashSafety.CheckpointsNeverLost | internal/runs/manager.go:382-434 | nothing a checkpoint covered is lost by any later crash or restore |
| CrashSafety.BudgetIsForGood | internal/runs/manager.go:281-322 | a stored run keeps its budget and bundle through restarts, in its row and in the run in memory |
| CrashSafety.HaltsJustifiedAcrossRestarts | internal/governor/governor.go:163-274 | in every reachable state, restarts included, halts are justified, their contexts dead, running runs under budget, loops within budget |
| CrashSafety.StepKeepsTerminal | internal/runs/manager.go:393-416 | no action changes a durable halt |
| CrashSafety.TerminalForGood | internal/runs/manager.go:281-322 | once a halt is durable, its status and reason survive everything, and every guard of the run in memory or restored refuses with that reason |
| CrashSafety.CreateOnAUsedIdRevives | internal/runs/manager.go:246-262 | creating under any id in use, in any reachable state, puts its row back to running and unused under the new budget, and so takes a halt back exactly when the row had one |
| Accounting.FlushMoves | internal/runs/manager.go:479-521 | one write moves the ledger by the row it appends, and row and checkpoint to the meter's value |
| Accounting.StepAccounts | internal/runs/manager.go:112-117 | every action but a crash keeps the books within the calls lost so far |
| Accounting.CrashAccounts | internal/runs/manager.go:479-521 | a crash adds at most the one call being recorded to the calls lost |
| Accounting.LedgerBracketsMeter | internal/runs/manager.go:479-521 | at every operation boundary the ledger is at least the meter, and above it by at most the calls crashes interrupted, in each measure |
| Accounting.LedgerEqualsMeter | internal/runs/manager.go:112-117 | without crashes ledger totals equal governor usage at every operation boundary |
| Accounting.BooksBalance | internal/runs/manager.go:112-117 | the same, said of prompt tokens, completion tokens and dollars one by one |
| CrashGap.OnlyCrashesMoveTheGap | internal/runs/manager.go:479-521 | no action but a crash moves the gap between ledger and meter |
| CrashGap.CrashWidensWithinIff | internal/runs/manager.go:400-411 | a crash, at any point of any operation, widens the gap by at most the call it interrupts exactly when it rolls nothing back or the latest checkpoint covers the calls finished before |
| CrashGap.IdleCrashIff | internal/runs/manager.go:400-411 | between operations a crash and restart leave the gap as it was exactly when nothing is rolled back or the checkpoint has the row's amount |
| CrashGap.PromiseKeptIff | internal/runs/manager.go:400-411 | every crash of a run keeps the per-crash promise exactly when every crash finds the run so covered |
| AccountingExample.ALaterCrashPays | internal/runs/manager.go:400-411 | a crash that interrupts no call can still widen the gap |
| ReloadSafety.SettledRestoresAlike | internal/runs/manager.go:400-433 | a settled row restores to the same governor as the row it replaced, and needs no further rollback |
| ReloadSafety.WritesPartlySettle | internal/runs/manager.go:353-372 | any part of a reload's writes leaves each row either untouched or settled |
| ReloadSafety.ReloadIsIdempotent | internal/runs/manager.go:353-434 | crashing anywhere inside Reload any number of times, the reload that completes gives the tables and governors of one never interrupted |
| ReloadSafety.CrashedReloadRecovers | internal/runs/manager.go:353-372 | a Reload cut off after any k of its writes recovers to where it would have ended |
| Agent.CheckpointsAreConsecutive | examples/kill-9-resume/agent.py:40-52 | the n-th checkpoint ever saved carries cursor n, and loops minus cursor is the same in all of them |
| Agent.CounterEndsAtTotal | examples/kill-9-resume/agent.py:64-97 | at the end the loop counter is the number of steps if and only if no crash fell between the first durable step and the first checkpoint |
| Agent.ResumeIsExact | examples/kill-9-resume/agent.py:67-79 | a resumed attempt starts at the first step not checkpointed, with no finished step ahead of it in the meter |
| Agent.RecordedCallResetsCursor | internal/runs/manager.go:511-518 | a recorded call's payload-less checkpoint sets the cursor to 0 |
| AgentSharing.ResumedCursorIff | examples/kill-9-resume/agent.py:67-79 | with model calls on the agent's run, a resumed attempt starts right after the agent's own last checkpoint exactly when there is none yet or no recorded call's became durable after it |
| AgentSharing.IntactResumesCountSteps | examples/kill-9-resume/agent.py:40-79 | if every resume meets that, the agent's checkpoints are the steps in order, each once |
| AgentExample.WindowIsReached | internal/runs/manager.go:400-411 | the first step can be durable with no checkpoint yet |
| AgentExample.TheCounterCanEndHigher | examples/kill-9-resume/agent.py:55-61 | a crash there ends a job of one step with a count of two |
| Agent.RunLoop | examples/kill-9-resume/agent.py:40-52 | the meter advances with the cursor; with a store, the checkpoints added are start + 1 to i, in order, each with its step counted, and a resume would start at i; the loop ends at the end, the stopping point or the first refused step |
| Agent.Turns | examples/kill-9-resume/agent.py:40-52 | the loop's whole state and its writes, turn by turn |
| Agent.TurnsSave | examples/kill-9-resume/agent.py:47-49 | n granted turns save n checkpoints with the next n cursors in order, and no other |
| Agent.LoopCounts | examples/kill-9-resume/agent.py:43-51 | meter and cursor advance together |
| Registry.StepKeeps | internal/runs/manager.go:281-434 | every step of every racing call, reload and client keeps the registry's invariant |
| Registry.EntryIsWrittenOnce | internal/runs/manager.go:288-300 | the map entry is written at most once |
| Registry.OneRunPerId | internal/runs/manager.go:281-305 | from the moment the entry exists every call, whenever it returns, returns that entry |
| Registry.LosersAreClosed | internal/runs/manager.go:288-294 | a call that restored a run and lost has closed it on returning, and the entry is never closed |
| Registry.StoredRunIsNeverReset | internal/runs/manager.go:281-322 | if a row existed beforehand the entry has its budget, and its halt if it had one, and then refuses |
| Registry.OnlyAStaleRollbackRevives | internal/runs/manager.go:428-432 | a step takes a durable halt back exactly when it is the pending rollback write of a call; every other step keeps the reason, and none can if the halt was stored beforehand |
| Registry.AKillCanBeUndone | internal/runs/manager.go:281-322 | two racing restores and a kill between their rollback writes |
| Admission.OvershootIsTheLastFleet | internal/governor/governor.go:182-198 | in any interleaving tokens and dollars end below the budget plus what calls in flight at the last admission recorded, each once |
| Admission.OvershootBounded | internal/gateway/gateway.go:96-160 | with at most k calls in flight of at most c tokens and d dollars: below B + k*c and B + k*d |
| Admission.OvershootIsReached | internal/governor/governor.go:182-198 | the bound is tight: k calls of c tokens reach B - 1 + k*c |
| Admission.NoneAdmittedAfterHalt | internal/governor/governor.go:182-186 | after a halt nothing is admitted and the calls in flight only drain |
| Admission.AdmissionsWithinLoops | internal/gateway/gateway.go:97-103 | each admission uses up a granted step, so a loop budget bounds the calls ever admitted |
| Streaming.AntStream.Recv | internal/provider/anthropic.go:259-265 | returns the next line verbatim, newline included, and the error only with the last of the bytes |
| Streaming.AntStream.Sniff | internal/provider/anthropic.go:270-314 | only a trimmed data line with a payload counts, and which events move which figures; `DataLineIsMetered` and `OtherLineIsIgnored` say it byte by byte |
| Streaming.LineEndingsDoNotMatter | internal/provider/anthropic.go:271-278 | a line means the same with either line ending or none |
| Streaming.DataLineIsMetered | internal/provider/anthropic.go:270-314 | a line of the five bytes of `data:` and a payload, with any blanks around either and any line ending, moves the meter as the payload's JSON says |
| Streaming.OtherLineIsIgnored | internal/provider/anthropic.go:270-278 | a line whose first bytes after its blanks are not those five, or with nothing after them, leaves the meter alone |
| Streaming.LastReportWins | internal/provider/anthropic.go:290-313 | each token count is the last one reported by a line read, and 0 if none was |
| Streaming.Pump | internal/gateway/gateway.go:268-279 | the client gets the upstream's bytes verbatim, all of them unless it left, and the meter is the fold over the lines read |
| GovernedCalls.Admit | internal/gateway/gateway.go:97-103 | begin a step, then the ceiling; refusal keeps what was written; `AdmitExactly` says when |
| GovernedCalls.AdmitExactly | internal/gateway/gateway.go:97-103 | refused exactly when halted before, out of time at either reading, out of loops, or at the token or dollar budget, with the first of these as the reason; else one loop is counted |
| GovernedCalls.AdmitIsTwoSteps | internal/gateway/gateway.go:97-103 | admission of one call is one begin and one admit of the concurrent model, so the overshoot bounds are about it |
| GovernedCalls.Serve | internal/gateway/gateway.go:96-160 | the outcome, state and writes of every path: refused, unknown provider, failed, cut off, completed |
| GovernedCalls.GovernedCall | internal/gateway/gateway.go:96-160 | refused exactly when the clock and the counters say so, and then the halt is in the row; any other outcome counts one loop; exactly a completed call spends, its own amounts, in the meter and in one ledger row |
| GovernedCalls.OpenStream | internal/gateway/gateway.go:211-254 | a stream is committed exactly when admitted, routed to a streaming provider, flushable and opened |
| GovernedCalls.ServeStream | internal/gateway/gateway.go:211-296 | the state and writes of every path of a streamed call |
| GovernedCalls.StreamCall | internal/gateway/gateway.go:211-296 | refused exactly when the clock and the counters say so, and then the halt is in the row; a committed stream is relayed verbatim and recorded by exactly one ledger row with the usage its lines report, however it ended |
| GovernedCalls.BilledExactlyOnce | internal/gateway/gateway.go:136-155 | an answered call is one loop, its tokens and price once on the meter and one ledger row; before an answer there is neither spend nor row |
| ApprovalPolicy.AnyMatchesIff | internal/approval/policy.go:39-46 | the rule loop finds a match exactly when there is one |
| ApprovalPolicy.RequiresExactly | internal/approval/policy.go:16-46 | a human is needed exactly when some rule names the tool, or the side effect by a pattern, or there is a side effect and the policy is default-safe |
| ApprovalPolicy.MoreRulesMoreApprovals | internal/approval/policy.go:28-46 | adding rules never frees a call that needed approval |
| ApprovalProtocol.StepKeeps | internal/approval/gate.go:79-173 | every atomic step of every requester and resolver keeps the protocol's invariant |
| ApprovalProtocol.OneResolveWins | internal/storage/approvals.go:43-56 | at most one resolve of an approval succeeds |
| ApprovalProtocol.SendNeverBlocks | internal/approval/gate.go:166-171 | a resolver that found the waiter can always send |
| ApprovalProtocol.ApprovedMeansAllowed | internal/approval/gate.go:79-121 | a request that came back with a decision did not require one, or its row carries that decision, reason and decider for good |
| ApprovalProtocol.FoundIsDelivered | internal/approval/gate.go:115-120 | a decision whose lookup found the waiter is received, or ready in its slot, unless the request's context ended |
| ApprovalProtocol.MissedFailsClosed | internal/approval/gate.go:94-121 | a decision whose lookup came too early is never delivered, and the request ends only through its context |
| ApprovalProtocol.AnEarlyLookupMisses | internal/approval/gate.go:94-102 | such a lookup happens, on a request that requires approval |
| ApprovalProtocol.SendBlocksIff | internal/approval/gate.go:166-171 | a send blocks exactly while another resolver's decision lies unreceived in the slot, and never with a store |
| ApprovalProtocol.WithoutStoreSendCanBlock | internal/approval/gate.go:156-173 | without a store one request and two decisions reach a send that blocks |
| ApprovalGate.Approvals.CreateApproval | internal/storage/approvals.go:12-26 | inserts the row |
| ApprovalGate.Approvals.ResolveApproval | internal/storage/approvals.go:43-56 | updates a pending row only; otherwise not found, and nothing changes |
| ApprovalGate.Gate.Open | internal/approval/gate.go:79-108 | an unrequired call is approved at once; any other has its pending row, with the call and the time of asking, then its registered channel |
| ApprovalGate.Gate.Take | internal/approval/gate.go:115-117 | receiving empties the slot |
| ApprovalGate.Gate.Leave | internal/approval/gate.go:104-108 | the waiter is removed |
| ApprovalGate.Gate.Create | internal/approval/gate.go:128-152 | a pending row, with the call and the time of asking, exactly when policy requires one |
| ApprovalGate.Gate.Resolve | internal/approval/gate.go:156-173 | with a store the first decision wins: its status, reason, decider and time go into the pending row and it reaches a waiter; it never blocks, and any other is refused and changes nothing; without a store it blocks exactly on a full slot |
| Mcp.BundlePolicy | internal/mcp/gateway.go:219-225 | the bundle's rules with default-safe on |
| Mcp.Gateway.Handle | internal/mcp/gateway.go:94-172 | the status, the one audit record and the forward of each request |
| Mcp.OneRecordPerCall | internal/mcp/gateway.go:121-170 | over any requests, one record per tools/call in order, approved exactly when the call was permitted |
| Mcp.AllowlistExactly | internal/mcp/gateway.go:193-214 | a run without a bundle, or whose bundle lists no tools, is held to the daemon's allowlist, any other to its bundle's alone; an empty list lets everything in |
| Mcp.QueueExactly | internal/mcp/gateway.go:130-156 | which calls wait for a human, with a bundle and without |
| Mcp.RecordExactly | internal/mcp/gateway.go:94-172 | blocked, denied, timed out or approved, each exactly when; and the run, step, tool, side effect, arguments and time recorded |
| Mcp.TrailTellsForwards | internal/mcp/gateway.go:169-171 | the governed messages that went upstream are exactly the calls recorded as approved |
| Mcp.BundleFailsClosed | internal/mcp/gateway.go:132-168 | under a bundle no side-effecting call goes upstream without a human's approval and the allowlist's, whatever the rules |
| Mcp.WithoutBundleThePolicyDecides | internal/mcp/gateway.go:135-156 | without a bundle it goes unasked exactly when the daemon's policy does not require approval |
| Mcp.HaltedRunIsServedAlike | internal/mcp/gateway.go:94-172 | a halted run's call is recorded and goes upstream exactly as the running run's: when the allowlist and any approval let it |
| Mcp.AnyPatternIff | internal/mcp/gateway.go:201-214 | the loop allows a tool exactly when a name or a pattern matches |
| Mcp.DryRunBlocksLikeTheGateway | internal/policy/policy.go:78-88 | exactly when dry run and gateway disagree on a bundle's allowlist |
| Mcp.GatewayGatesMoreThanTheDryRun | internal/policy/dryrun.go:48-55 | the gateway gates what the dry run counts as gated, and every other side effect |
| DryRun.DryRun | internal/policy/dryrun.go:30-57 | a halt exactly when some dimension trips, naming dollars before tokens before loops; the blocked and gated calls in order |
| DryRun.KeptExactly | internal/policy/dryrun.go:48-55 | the listed calls are those that pass the test, as often as recorded |
| DryRun.KeptInOrder | internal/policy/dryrun.go:48-55 | and in the order they were recorded |
| DryRun.ReplayIsFaithful | internal/governor/governor.go:163-198 | a replay spends what was recorded and halts only for a dimension that trips |
| DryRun.DryRunAgreesWithReplay | internal/policy/dryrun.go:30-46 | time aside, some dimension trips if and only if replaying the steps and calls in any interleaving halts |
| DryRun.OneDimensionOneReason | internal/policy/dryrun.go:33-46 | when one dimension trips the governor halts for that one |
| DryRun.SomeOperationBreaches | internal/governor/governor.go:163-198 | a replay that halts has a first breaching operation |
| DryRun.ReasonAtFirstBreach | internal/governor/governor.go:241-255 | the governor's reason is the totals' at the first breach: tokens, else dollars, else loops |
| DryRun.SameDimensionIff | internal/policy/dryrun.go:33-46 | report and governor name the same dimension exactly when the reported one trips at the first breach and, if it is dollars, tokens do not trip there |
| DryRun.ReasonsCanDiffer | internal/policy/dryrun.go:36-46 | a call that exhausts both is dollars to the report and tokens to the governor |
| Audit.Flatten | internal/audit/compliance.go:186-206 | all ledger, tool and approval records, a decided approval timed by its decision |
| Audit.SortStable | internal/audit/compliance.go:207-213 | the stable order by time, then type: each record once |
| Audit.StableOrderIsUnique | internal/audit/compliance.go:207-213 | there is one stable order of the records |
| Audit.OneStableSort | internal/audit/compliance.go:207-213 | any stable sort gives this result |
| Audit.Chain | internal/audit/compliance.go:215-223 | events numbered by position, each hash that of the previous hash and the event's content |
| Audit.BuildEvents | internal/audit/compliance.go:180-224 | all the run's records, each once, in the stable order, numbered by position and chained; times never decrease, and every record is there with its own details, a decided approval at its decision |
| Audit.LogTells | internal/audit/compliance.go:180-224 | the times, the order of ties, and each record's event, said without the flattening and the sort |
| Audit.VerifyChain | internal/audit/compliance.go:242-255 | accepts exactly the linked logs with that head, else names the first bad event or the head |
| Audit.SplitsOneWay | internal/audit/compliance.go:227-238 | previous hash and canonical text can be told apart in what is hashed |
| Audit.SomeEncodingExists | internal/audit/compliance.go:228-233 | any two logs have an encoding that tells their contents apart |
| Audit.TamperEvident | internal/audit/compliance.go:227-255 | two logs of any lengths that verify against one head, under an encoding that tells their contents apart, are equal or exhibit a hash collision |
| Audit.LogIsDetermined | internal/audit/compliance.go:180-224 | the data determines the log and its head |
| Pricing.Fill | internal/pricing/pricing.go:62-71 | a map loop stores every entry under its lowercased key, in some order |
| Pricing.NewTable | internal/pricing/pricing.go:62-71 | built-in rates, then overrides on top |
| Pricing.FilledEntries | internal/pricing/pricing.go:62-71 | which keys the table has and whose rate each carries |
| Pricing.OrderIndependentIffNoConflict | internal/pricing/pricing.go:62-71 | the table is the same for every iteration order if and only if no two keys that differ only in case disagree |
| Pricing.BuiltInRatesAgree | internal/pricing/pricing.go:33-52 | the built-in rates have no such conflict |
| Pricing.TableIsDetermined | internal/pricing/pricing.go:62-71 | without conflicting overrides both layers give one table |
| Pricing.BestIsUnique | internal/pricing/pricing.go:105-118 | there is at most one longest prefix |
| Pricing.RateOf | internal/pricing/pricing.go:107-123 | for any iteration order, the rate of the longest non-empty key that prefixes the lowercased model; none exactly when there is no such key |
| Pricing.OverridesAreLocal | internal/pricing/pricing.go:60-71 | an override changes only models it prefixes |
| Pricing.Cost | internal/pricing/pricing.go:128-135 | the charge at the best rate, zero and unpriced exactly for an unknown model |
| Pricing.RatesArePerMillion | internal/pricing/pricing.go:128-135 | a million prompt tokens cost the input rate and a million completion tokens the output rate, and any numbers in proportion |
| Pricing.ChargeIsAdditive | internal/pricing/pricing.go:133 | splitting a call never changes its price |
| Metrics.ThreePassesAreOne | internal/httpapi/metrics.go:194-205 | the successive replacements equal one pass over the characters |
| Metrics.LabelValueReadsBack | internal/httpapi/metrics.go:201-205 | any value reads back as itself and ends exactly at its closing quote |
| Metrics.HelpReadsBack | internal/httpapi/metrics.go:192-197 | any HELP text reads back as itself from its line |
| Metrics.EscapedHasNoNewline | internal/httpapi/metrics.go:192-205 | no raw newline comes out |
| Metrics.SortedKeys | internal/httpapi/metrics.go:161-165 | every label key once, in increasing order, whatever the map's iteration order |
| Metrics.OneSortedListing | internal/httpapi/metrics.go:156-165 | that listing is unique, so the output is too |
| Metrics.StringLessIff | internal/httpapi/metrics.go:161-165 | the order of the keys is lexicographic |
| Metrics.MetricsWriter.WriteBlock | internal/httpapi/metrics.go:160-177 | the label block, commas between pairs |
| Metrics.MetricsWriter.Sample | internal/httpapi/metrics.go:158-181 | one sample line with the labels in key order is appended |
| Metrics.BlockReadsBack | internal/httpapi/metrics.go:166-176 | a scraper reads back exactly the labels written, so no value can forge or hide one |
| Metrics.SampleReadsBack | internal/httpapi/metrics.go:158-181 | a whole sample line reads back as its name, its value, and every label of the map with the map's value, once each, sorted by key |
| Metrics.SampleIsOneLine | internal/httpapi/metrics.go:158-181 | the only newline of a sample is its last character |

## Left out

- Integer widths: tokens and loops are unbounded, so int64 and int32 wrap-around is not modelled.
- Dollars are exact reals; floating-point rounding is not modelled.
- Negative usage reported by a provider is not modelled.
- Store failures: persistence is best-effort in the code, and the theorems assume every write succeeds.
- Snapshots of one run taken concurrently and written out of order, except the rollback race in `Registry`: the machine is for serial use of each run.
- One operation takes one clock reading, where the code may take several a moment apart.
- Text that is only stored or passed on (names, metadata, provider names, arguments) is a number compared for equality; a checkpoint payload is the cursor it carries.
- The time budget restarts on resume in the code and in the model; no bound on total wall-clock time across restarts is claimed.
- Usage metered by OTLP ingress is recorded without admission, so the overshoot bound does not cover it.
- The agent's attempt ends only by finishing, stopping cleanly, being refused, or a daemon crash; its own death in mid-step is not modelled.
- Storage.Store.ListRunsByStatus: newest-first order is not stated, because Reload's result is proved independent of the order.
- Runs.Manager.Create: the machine uses it with fresh ids only, as the API does.
- ApprovalGate.Gate.Open: a failing CreateApproval, which returns an error before anything blocks, is not modelled.
- Streaming.AntStream.Sniff: JSON parsing is an abstract function from a payload to an event, and only ASCII white space is trimmed.
- Audit.SortStable: an insertion sort stands for the library's stable sort; the order it computes is proved unique.
- Audit.BuildEvents: a detail that fails to encode, which the code ignores, is not modelled.
- Pricing.Lower: only ASCII letters are folded.
- Metrics.MetricsWriter.Sample: the number arrives formatted.
- Mcp.Gateway.Handle: how a request's run is found is `GetOrCreate` or `Create` above; a crash between the audit record and the forward is not modelled.
- Control evidence, report rendering, spans, HTTP handlers, header stamping, SDK and framework adapters, notifiers, config, the SQL engine, the Postgres twin, SigV4 and SHA-256 internals: plumbing or foreign code.
- The OpenAI, Ollama and Bedrock providers: only the Anthropic stream is modelled.
