# Verification of the agent runtime and the sandbox history

A Dafny model of the hard parts of Inroad's in-app agent and of its simulated history, with proofs
about every run rather than about examples. `dafny verify dfyconfig.toml` checks the whole project.

The concurrent parts are state machines. A schedule is any sequence of steps; a step that is not
enabled does nothing; `Exec` is the state a schedule reaches and `Reachable` says that some schedule
reaches a state, so a theorem about either is one about every interleaving. Each SQL transaction and
each evaluation of the publishing script is one step. The code that updates things in place appears
again as classes and loops, each proved against the function its protocol step uses.

| files | component |
|---|---|
| `ToolGate` | the tool registry's two doors and the run loop's test for parking |
| `ApprovalStore`, `StoreInvariants`, `ApprovalTables` | the approval transactions as functions on tables, what each keeps, and the same transactions row by row |
| `ApprovalProtocol`, `ApprovalSafety`, `ApprovalTheorems` | pauses, decisions, expiry, cancels, resumes, crashes and restarts, and what is promised of them |
| `ApprovalRows`, `ApprovalMoves` | what each step makes of rows, runs and goroutines, by a reference written from the requests alone |
| `ApprovalLedger`, `ApprovalAccounts`, `ApprovalEndings`, `ApprovalProgress` | the book of a schedule, and what it proves of arguments, outcomes, cancellations and completeness |
| `ApprovalTiming`, `ApprovalSweep`, `ApprovalOrphans` | deadlines, the expiry sweep taken at once, and runs left without a goroutine |
| `ApprovalRuns`, `InterruptedSweep`, `SweepLoop` | what the steps of others leave alone, and the expiry sweep with such steps between its transactions, as a protocol run and over the real tables |
| `ResumeLoop` | the resume loop over the real tables, interrupted likewise, proved to be a run of the protocol |
| `StreamLog`, `StreamProtocol`, `StreamSafety`, `StreamProgress`, `StreamFanout` | numbering, replay, live fan-out, reconnection, and that an attached reader is never stuck (section 9.2 of the WHATWG HTML Standard) |
| `RunQueue`, `RunQueueTheorems`, `ThreadStore` | the thread's message queue and its wake-ups |
| `Publisher`, `Transcript`, `OpenAIStream` | coalescing of fragments, the assembly of message parts, and one adapter that feeds it |
| `Prune`, `Draft` | the two budgeted reductions |
| `EditDistance` | "did you mean" |
| `Timeline`, `Persona` | the simulated history |

## Findings

Where the code does not keep a promise, a lemma gives an input that breaks it and another says exactly
when it is kept.

- `internal/app/agentrun/runtime.go:404-415`: an approval's deadline is checked before the tool is run
  and not while it runs, so a tool can be dispatched after its approval expired. Input:
  `ApprovalTheorems.DispatchCanBeLate`; exactly when not: `ApprovalTiming.OnTimeExactly`.
- `internal/app/agentchat/approval_store.go:325-331`: the expiry sweep returns no resumes when a later
  candidate meets a store failure, although earlier candidates already committed; their runs read as
  running with nobody to resume them. Input: `InterruptedSweep.ReachedSweepCanStrand`; exactly which
  runs, whatever others do meanwhile: `InterruptedSweep.InterruptedSweepStrandsExactly`. With nobody in
  between, the runs are known when the query returns: `ApprovalSweep.SweepStrandsExactly`.
- `internal/app/agentrun/manager.go:202-205` and `internal/app/agentchat/service.go:304-308`: the
  clean-up after a promotion that found the queue empty finishes its run without looking at the queue
  again, so a message that was refused because of that run can wait for ever. Input:
  `RunQueueTheorems.WakeUpCanBeLost`; exactly when not: `RunQueueTheorems.NoLostWakeUp`.
- `internal/sandbox/timeline.go:171`: the within-day part of a simulated start is a 64-bit product that
  wraps for windows beyond about 2.9 years, and a start can then precede its window. Input:
  `Timeline.LongWindowIsNotSafe`; exactly when not: `Timeline.StartsInWindowExactly`.
- `internal/app/agentrun/runtime.go:307-315`: a call that ends without having started is persisted but
  never announced on the wire. `internal/platform/ai/openai.go:293-296` can emit such a stream: it
  announces a call when its name arrives, under the id it has so far, and ends it under the id it has
  at the end. Input: `OpenAIStream.LateIdIsUnannounced`; exactly when preview and parts agree:
  `Transcript.PreviewEqualsTranscript`; this adapter: `OpenAIStream.OneCallExactly`
  for one call, `OpenAIStream.KeptIdsAreAnnounced` for any number.

## Assumptions

Tool-call ids are distinct within one message, and an action's creator owns the thread. The stream's
counter does not expire while a reader is attached. Messages are created at strictly increasing times,
in the order of their commits. The clock does not run backwards. `percentile` is any function into
0..99, tool outcomes and clock readings are inputs, and the token budget is passed in as an integer.

## Model

| member | source | states |
|---|---|---|
| `ApprovalTheorems.GateIsComplete` | internal/app/agentrun/runtime.go:254-275 | Over a whole message: what is parked is exactly what the actor can see and needs approval, and the ordinary path would refuse it; a call not parked reaches the registry there iff its tool is visible, needs no approval and its arguments are an object or absent |
| `ToolGate.GateAgrees` | cmd/inroad/agent_adapters.go:38-97 | For one call, the run loop's test on a tier's name and the adapter's test on the tier agree; a gated tool hidden from the actor is refused on the ordinary path and a fault on the approved one |
| `ToolGate.RolesAreRanked` | internal/app/agenttool/registry.go:16-16 | A tool that asks for a role is shown to that role and every higher one, and to nobody else; one that asks for none is shown to everybody |
| `ApprovalTheorems.AtMostOnce` | internal/app/agentrun/runtime.go:379-465 | Over every interleaving with failures, crashes and restarts, no call of any message, gated or not, is dispatched twice, however often its run pauses |
| `ApprovalTheorems.Consent` | internal/app/agentrun/runtime.go:399-416 | Every dispatch of a tool that needs approval has an earlier approval by the run's own user, of that tool and exactly those arguments, whose deadline check came after the decision and found it unexpired |
| `ApprovalAccounts.ArgumentsAreApproved` | internal/app/agentchat/approval.go:56-61 | For every schedule and every call run under an approval: an earlier step is the owner's own approval of it, in time, and the call runs with the edits made in that step or, where there were none, with the arguments of the model's request, which is an earlier step too |
| `ApprovalAccounts.DispatchWasAsked` | internal/app/agentrun/runtime.go:229-250 | Whatever is run was asked for by the model in that message, by its id and tool, and its user had come in a role that is shown the tool; without an approval it runs with the arguments of the request |
| `ApprovalAccounts.OutcomeIsTold` | internal/app/agentrun/runtime.go:412-431 | An action recorded as executed ran and its tool reported no error; one recorded as failed ran and its tool reported one |
| `ApprovalAccounts.OneAnswer` | internal/app/agentrun/runtime.go:412-431 | The tool of an action answers at most once in any schedule |
| `ApprovalAccounts.RowTellsAnswer` | internal/app/agentrun/runtime.go:412-431 | So once an action is settled as executed or failed, its row says what its tool answered, whenever that was |
| `ApprovalTiming.OnTimeExactly` | internal/app/agentrun/runtime.go:404-415 | For every schedule: all gated dispatches precede their actions' deadlines iff, for each of them, the ticks scheduled between its deadline check and the dispatch add up to less than the check found left |
| `ApprovalTiming.RowStaysPut` | internal/app/agentchat/approval_store.go:59-541 | No step drops an action row or moves its deadline |
| `ApprovalTiming.LateIsNotInTime` | internal/app/agentrun/runtime.go:404-415 | The schedule below is one that fails that condition |
| `ApprovalTheorems.DispatchCanBeLate` | internal/app/agentrun/runtime.go:404-415 | A concrete run in which the clock passes the deadline between the check and the dispatch, so the tool runs after its approval expired |
| `ApprovalTheorems.PausedExactlyWhilePending` | internal/app/agentchat/approval_store.go:84-92 | In every reachable state a run is paused iff one of its actions is pending |
| `ApprovalTheorems.OneClaimPerPause` | internal/app/agentchat/approval_store.go:244-273 | No transaction claims a resume that was claimed before, and each claim names the message of an earlier pause of that run |
| `ApprovalTheorems.NoPauseIsForgotten` | internal/app/agentchat/approval_store.go:194-274 | The resume of a pause none of whose actions is pending was claimed, unless its run was cancelled; while one is pending it was not. Whether the claim reaches anybody is the subject of the next rows |
| `ApprovalOrphans.OrphansExactly` | internal/app/agentrun/manager.go:88-171 | A running run that has its goroutine is left without one by a step iff that step loses that very goroutine: a crash, or a claim nobody acts on |
| `InterruptedSweep.InterruptedSweepStrandsExactly` | internal/app/agentchat/approval_store.go:297-336 | With any steps of others between the query and each candidate's transaction: a sweep that fails at candidate n leaves a run without its goroutine iff some candidate before n was, in the state just before its own transaction, the last pending action of that run |
| `InterruptedSweep.CandidateClaims` | internal/app/agentchat/approval_store.go:317-331 | A candidate's transaction claims one resume, of its action's run, if the action is then the last pending one of that run, and otherwise, decided meanwhile or not the last, claims none |
| `InterruptedSweep.DiscardedIsReachable` | internal/app/agentchat/approval_store.go:325-331 | The state such a failure leaves is one the protocol reaches, so everything promised of reachable states holds of it |
| `InterruptedSweep.ReachedSweepCanStrand` | internal/app/agentchat/approval_store.go:325-331 | A state some schedule reaches, in which two runs are paused and their deadlines have passed: the sweep reads both actions, fails at the second and strands the first run |
| `SweepLoop.ExpirePendingActions` | internal/app/agentchat/approval_store.go:297-336 | The loop over the real tables, with any steps of others before each candidate: it reads the oldest overdue actions and either fails at a candidate the store fails at, telling nobody, or reaches the end and tells exactly the runs it emptied; a failed read changes nothing |
| `ApprovalOrphans.FailingSweepOrphans` | internal/app/agentchat/approval_store.go:317-335 | With no other transaction between its candidates, a sweep that fails is a run of the protocol that leaves the sweep's tables and no new goroutine; it leaves without one exactly the runs it strands |
| `ApprovalTheorems.NothingRunsWhileParked` | internal/app/agentrun/runtime.go:205-227 | While any action of a message is pending, no call of that message has been dispatched |
| `ApprovalTheorems.OneGoroutinePerRun` | internal/app/agentrun/manager.go:88-145 | Two goroutines never work for one run, and the run a goroutine works for is running and belongs to its user |
| `ApprovalTheorems.ResumeFindsDecisions` | internal/app/agentchat/approval_store.go:347-378 | A claimed resume always loads its batch, and every action in it is decided and unsettled |
| `ApprovalTheorems.ResumeNeverStuck` | internal/app/agentrun/runtime.go:406-420 | So the loop never meets a pending action nor one already executed or failed |
| `ApprovalTheorems.OutcomeHitsItsRow` | internal/app/agentchat/approval_store.go:411-435 | Whenever an outcome is recorded, its row is there and approved, so the unchecked guarded update always takes effect |
| `ApprovalProgress.DoneMeansSettled` | internal/app/agentrun/runtime.go:379-465 | A run that is done has left no action of its pauses pending or approved: each was executed, failed, was rejected or expired |
| `ApprovalProgress.NextTurnIsEarned` | internal/app/agentrun/runtime.go:229-250 | A goroutine asks the model again only when every call of its message that can run without approval was run, and none of its run's actions can still run |
| `ApprovalEndings.StatusIsDecided` | internal/app/agentchat/approval_store.go:175-279 | Over whole schedules an action is pending iff nothing was decided about it, rejected or expired if and only if that was decided or found, and approved or beyond iff it was granted and neither found late nor withdrawn |
| `ApprovalRows.RowFollows` | internal/app/agentchat/approval_store.go:59-541 | Every step leaves every row and its trail as a reference says that looks only at the request and the rows before it: overtaken by its deadline, decided, revoked, settled, or untouched |
| `ApprovalRows.ParkingTurn` | internal/app/agentchat/approval_store.go:59-126 | A turn that parks pauses its run, writes its message and leaves exactly one pending row, due in 24 hours, for each call that needs approval |
| `ApprovalRows.PauseIsParking` | internal/app/agentrun/runtime.go:205-227 | A turn within its limits pauses iff some call needs approval and each such call has an object for arguments and an id its run has not used |
| `ApprovalMoves.FateFollows` | internal/app/agentrun/runtime.go:117-252 | Every step of every goroutine takes it where a reference says that looks only at the request, the world's answer and the rows: through the turns, the ordinary calls, the batch, and to each way a run can fail |
| `ApprovalMoves.LogFollows` | internal/app/agentrun/runtime.go:379-465 | The calls a step runs are exactly those of that reference, with their arguments |
| `ApprovalMoves.RunFollows` | internal/app/agentchat/approval_store.go:244-273 | Every step leaves every run as a reference says: paused when its turn parks, running when its last pending action is settled, ended as its goroutine or its owner ends it, failed by a restart |
| `ApprovalMoves.DecideReleases` | internal/app/agentchat/approval_store.go:244-273 | A decision starts a goroutine iff it settles the last pending action of the run; that goroutine acts as the action's creator in the role the decision left in the row, on the message of the pause |
| `ApprovalMoves.OverIsOver` | internal/platform/db/queries/agentchat.sql:187-193 | No step changes a run that is done, failed or cancelled |
| `ApprovalLedger.BookBacks` | internal/app/agentchat/approval_store.go:59-541 | Every row, run, goroutine and dispatch of every schedule is accounted for by a book of what was asked, decided, answered and withdrawn |
| `ApprovalTheorems.AuditTrailReplays` | internal/app/agentchat/approval_store.go:115-118 | In every reachable state, folding an action's audit rows by lawful moves gives its current status |
| `ApprovalTheorems.LawfulHistories` | internal/app/agentchat/approval_store.go:237-242 | Such a trail is created, then decided, then at most settled or revoked, and only an approval is settled or revoked |
| `ApprovalSafety.Invariant` | internal/app/agentchat/approval_store.go:59-541 | The protocol invariant behind these results holds after every schedule |
| `StoreInvariants.PauseKeeps` | internal/app/agentchat/approval_store.go:59-126 | A pause keeps the table invariant: pending iff paused, distinct call ids per run, audit trails that replay |
| `StoreInvariants.TransitionKeeps` | internal/app/agentchat/approval_store.go:175-279 | So does every decision and expiry; it claims a resume iff no action of the run is pending any more, for the run's owner and the action's own message |
| `StoreInvariants.CancelKeeps` | internal/app/agentchat/approval_store.go:474-541 | So does a cancellation by the run's owner |
| `ApprovalEndings.CancelIsWhole` | internal/app/agentchat/approval_store.go:474-541 | A cancellation goes through iff the run is paused and the user owns it; then the run is cancelled, every action of it that was pending or approved is rejected by that user with one more line in its trail, and nothing else changes |
| `ApprovalEndings.CancelledRunsExactly` | internal/app/agentchat/approval_store.go:474-541 | A cancelled run has no pending action; it has an approved one iff not its owner but its goroutine ended it, and there was one then |
| `ApprovalEndings.StopKeepsApproval` | internal/app/agentrun/manager.go:88-171 | Such a run is reached: a resume that is stopped before it comes to its approved call |
| `StoreInvariants.FirstEndWins` | internal/platform/db/queries/agentchat.sql:187-193 | Finishing a finished run changes nothing, whatever the second status |
| `StoreInvariants.OutcomeIsGuarded` | internal/app/agentchat/approval_store.go:411-435 | An outcome is written to the row only while it is approved, and to the trail in any case |
| `ApprovalTables.PgStore.PauseForApproval` | internal/app/agentchat/approval_store.go:59-126 | The row-by-row transaction commits exactly the specified pause, or nothing |
| `ApprovalTables.PgStore.TransitionPendingAction` | internal/app/agentchat/approval_store.go:175-279 | Exactly the specified transition, with its resume when the last pending action was settled |
| `ApprovalTables.PgStore.ExpirePendingActions` | internal/app/agentchat/approval_store.go:297-336 | The sweep with no other transaction in between: tables and resumes are those of a sweep over exactly the oldest overdue actions, read beforehand; a failed read changes nothing, and a store failure at a candidate returns no resume |
| `ApprovalTables.PgStore.SettleOverdue` | internal/app/agentchat/approval_store.go:317-335 | The loop over the candidates, with no other transaction in between |
| `ApprovalTables.PgStore.OverdueActions` | internal/app/agentchat/approval_store.go:298-301 | The candidates: distinct, pending and overdue, earliest deadline first, at most `limit`, and any overdue action left out is no earlier than all of them |
| `ApprovalTables.PgStore.LoadApprovalBatch` | internal/app/agentchat/approval_store.go:347-378 | Each call of the message in order, paired with its action by call id |
| `ApprovalTables.PgStore.RecordApprovalOutcome` | internal/app/agentchat/approval_store.go:411-435 | The guarded update and the audit row |
| `ApprovalTables.PgStore.CancelApprovalRun` | internal/app/agentchat/approval_store.go:474-541 | Every pending or approved action of the run is revoked with an audit row, and the run finished |
| `ApprovalTables.PgStore.FinishRun` | internal/platform/db/queries/agentchat.sql:187-193 | Only a live run is finished: the first terminal status wins |
| `ApprovalTables.PgStore.RecoverStuckRuns` | internal/app/agentchat/store.go:438-450 | Running runs fail at startup, paused ones stay; the number failed is reported |
| `ApprovalSweep.CleanSweep` | internal/app/agentchat/approval_store.go:317-335 | With no other transaction in between, a sweep without store failure expires exactly its candidates, lets go exactly the paused runs whose pending actions are all among them, and returns a resume for exactly those runs |
| `ApprovalSweep.SweepStrandsExactly` | internal/app/agentchat/approval_store.go:325-335 | With no other transaction in between, the condition is known when the query returns: a run is let go while nobody is told iff a store failure comes, it is paused, and all its pending actions are among the candidates before the first failure |
| `ApprovalSweep.SweepCanStrandARun` | internal/app/agentchat/approval_store.go:325-331 | Two paused runs with one overdue action each, both read by the query, and a failure at the second: the first run is stranded. The tables are those of the state above |
| `ResumeLoop.Resume` | internal/app/agentrun/runtime.go:379-465 | With any steps of others before each of its transactions, the loop over the real tables is a run of the protocol, and the calls of its run dispatched meanwhile are exactly those it logged. It fails only if a tool was hidden or broke down or a write failed. Otherwise every action that was approved ends executed if its tool ran without error, failed if it reported one, and expired only if its deadline came, every other row is untouched, and the calls logged are, in order, those that need no approval and those whose tool answered |
| `ApprovalRuns.StaysReachable` | internal/app/agentrun/runtime.go:379-465 | Schedules lead from reachable states to reachable states, so every promise above holds of the loops as well |
| `StreamSafety.FramesAreHistory` | internal/app/agentchat/stream.go:252-288 | A reader's frames are strictly increasing, above its effective offset, and each is the published event of its number |
| `StreamSafety.AttachIsExact` | internal/app/agentchat/stream.go:220-288 | They are the consecutive events after the offset iff the log read, or the live feed when the log was empty, left nothing out after it |
| `StreamSafety.FullLogCovers` | internal/app/agentchat/stream.go:220-249 | That is so whenever no clear or trim had removed an event after the offset before the log was read |
| `StreamSafety.NothingIsMissing` | internal/app/agentchat/stream.go:252-288 | A covered reader that has caught up has delivered everything published after its offset |
| `StreamProgress.AttachedExactly` | internal/app/agentchat/stream.go:376-427 | A reader is attached from its join until it leaves, the node shuts down, or a message finds its 256 places taken, and nothing else attaches or detaches it |
| `StreamProgress.EndsExactly` | internal/app/agentchat/stream.go:270-288 | A reader ends iff it leaves, or it is detached and has forwarded all it was sent |
| `StreamProgress.EndedIsDetached` | internal/app/agentchat/stream.go:270-288 | In every reachable state a reader that has ended is not attached |
| `StreamProgress.AttachGoesThrough` | internal/app/agentchat/stream.go:220-249 | An attached reader that has yet to read counter and log can do so by its own steps |
| `StreamProgress.AttachedCatchesUp` | internal/app/agentchat/stream.go:252-288 | An attached reader that has read its log can always go on: its own steps alone lead to where it waits, still attached, with nothing left to forward, and if it was covered it has then sent everything dispatched after its offset |
| `StreamProgress.ClientsComeExactly` | internal/app/agentchat/stream.go:204-218 | A client starts wherever the numbering has got to, and connects through an attached reader that asks for what follows its last id |
| `StreamProgress.ClientCatchesUp` | internal/app/agentchat/stream.go:204-288 | A client whose connections were covered can then receive everything dispatched after its start, each event once and in order |
| `StreamProgress.MarksAreTrue` | internal/app/agentchat/stream.go:220-249 | What coverage is judged by is what happened: the reader joined, then read the counter, which made its offset the one asked for or, if the counter was behind it, zero, and then the log, which held what its marks say |
| `StreamProgress.LogHolds` | internal/app/agentchat/stream.go:84-93 | The log holds the last events since it was cleared, as many as there are and fit |
| `StreamProgress.RecentIsExact` | internal/app/agentchat/stream.go:220-288 | So a reader is exact whenever, when it read the log, no more events lay after its offset than fit and were published since the last clear |
| `StreamSafety.DroppedReadersLoseATail` | internal/app/agentchat/stream.go:402-427 | A reader's frames are always a prefix of what it would have sent had it kept up, and all of it once an attached reader is drained |
| `StreamSafety.ReconnectionComposes` | internal/app/agentchat/stream.go:204-288 | Over any number of reconnects at the last id, what a client received is one contiguous stretch of the history iff every connection it received from was covered |
| `StreamSafety.LastIsLast` | internal/app/agentchat/stream.go:220-249 | A client's cursor is the id of the last frame it received |
| `StreamSafety.Invariant` | internal/app/agentchat/stream.go:84-93 | Counter, log, wire and readers agree with the published history after every schedule |
| `StreamFanout.ThreadKeys.PublishChunk` | internal/app/agentchat/stream.go:84-93 | The script numbers, appends, trims and fans out at once, and what it leaves on the server is what the protocol's publishing step leaves |
| `StreamFanout.Fanout.AddReader` | internal/app/agentchat/stream.go:376-385 | A new open reader is registered and no other registration changes |
| `StreamFanout.Fanout.RemoveReader` | internal/app/agentchat/stream.go:387-399 | A registered reader is removed and closed; one already dropped is left alone, so no channel is closed twice |
| `StreamFanout.Fanout.Deliver` | internal/app/agentchat/stream.go:413-427 | A reader with room gets the message and stays; one without is closed and dropped; other threads are untouched; nothing is sent on a closed channel; each reader of the thread ends as the protocol's offer leaves it |
| `StreamFanout.Fanout.Close` | internal/app/agentchat/stream.go:142-162 | Every attached reader is closed exactly once and none stays registered |
| `StreamFanout.Pump` | internal/app/agentchat/stream.go:252-288 | The two loops with one cursor emit what the filter makes of backlog and live feed in a row |
| `StreamFanout.PumpDrains` | internal/app/agentchat/stream.go:252-288 | The protocol's reader, drained step by step, sends the same frames and ends at the same cursor |
| `RunQueueTheorems.AnsweredInOrder` | internal/app/agentchat/store.go:352-360 | In every reachable state the messages answered are the first ones sent, in order, and the rest are queued: none lost, none answered twice |
| `RunQueueTheorems.OneRunAtATime` | internal/app/agentchat/store.go:384-397 | At most one goroutine holds the thread, it holds the live run, and a live run that is not paused has its goroutine |
| `RunQueueTheorems.StepStrands` | internal/app/agentrun/manager.go:180-223 | A thread gets a waiting message, no live run and nobody to try exactly by a clean-up after an empty promotion while a message waits |
| `RunQueueTheorems.NoLostWakeUp` | internal/app/agentchat/service.go:286-321 | Over a whole run, no wake-up is lost at any point iff no such clean-up is taken |
| `RunQueueTheorems.NoEmptyPromotionNoLoss` | internal/app/agentchat/service.go:286-321 | In particular when no promotion finds the queue empty |
| `RunQueueTheorems.QuiescentMeansAnswered` | internal/app/agentrun/manager.go:126-144 | Then a quiescent thread has an empty queue and has answered everything sent, in order |
| `RunQueueTheorems.CanComeToRest` | internal/app/agentrun/manager.go:126-223 | From every state the goroutines' own steps lead to where all have ended; if no promotion found the queue empty and no run is paused, everything sent has then been answered |
| `RunQueueTheorems.PausedUntilTaken` | internal/app/agentchat/approval_store.go:244-273 | A pause keeps the thread busy until its run is resumed or cancelled |
| `RunQueueTheorems.WakeUpCanBeLost` | internal/app/agentrun/manager.go:202-205 | A concrete run of two senders, a finisher and a third send that loses a wake-up |
| `RunQueue.Invariant` | internal/app/agentchat/store.go:384-431 | The queue protocol's invariant holds after every schedule |
| `RunQueue.WithdrawalIsIdle` | internal/app/agentchat/service.go:304-308 | The withdrawal after an empty promotion finds nothing: the message was promoted by another |
| `ThreadStore.PgStore.PromoteOldestQueued` | internal/platform/db/queries/agentchat.sql:103-115 | The earliest created queued message moves, which is the first one persisted, or the queue was empty |
| `ThreadStore.Send` | internal/app/agentchat/service.go:277-321 | With any steps of other goroutines between its store calls, a send is a run of the protocol, through every branch. It replies "running" iff it took the thread and its own promotion moved its own message, the error iff that promotion found the queue empty, and "queued" otherwise |
| `ThreadStore.UninterruptedReply` | internal/app/agentchat/service.go:277-321 | With nobody in between, a message runs at once iff the thread was free and nothing was queued, and the error does not occur |
| `ThreadStore.StartNext` | internal/app/agentrun/manager.go:180-223 | Likewise a finisher: it starts a run iff it is left holding one that promoted a message |
| `ThreadStore.AfterInsert` | internal/app/agentrun/manager.go:202-211 | The promotion after a run was inserted, and the clean-up when it finds the queue empty |
| `ThreadStore.SendIsARun` | internal/app/agentchat/service.go:277-321 | With nobody in between, a send starts a run for the oldest message iff the thread was free |
| `ThreadStore.NextIsARun` | internal/app/agentrun/manager.go:180-223 | And a finisher starts one for the oldest message if there is one and no run is live |
| `Publisher.RunPublisher.Publish` | internal/app/agentrun/publisher.go:54-104 | Whatever the clock reads, what was sent followed by what is buffered keeps its meaning; a fragment is fused with the one that waits iff a client would concatenate them, and waits itself iff it is under 512 bytes and the window is open; a structural event is sent at once after what was buffered |
| `Publisher.PublishAll` | internal/app/agentrun/publisher.go:67-104 | A whole run on the wire means what its events mean, with no more events |
| `Publisher.NormConcat` | internal/app/agentrun/publisher.go:16-24 | The merged form is a normal form: merging any front first changes nothing |
| `Publisher.StructuralIsABarrier` | internal/app/agentrun/publisher.go:63-72 | Nothing is merged across a structural event and it keeps its place between what came before and after |
| `Publisher.SameMeaningSameView` | internal/app/agentrun/publisher.go:26-35 | Sequences of one meaning show the same text for every kind and call, and the same structural events in order |
| `Transcript.Consume` | internal/app/agentrun/runtime.go:277-332 | For every provider stream, ended or broken off: the parts say and think what was published, in order; no part is empty or mergeable; every call matches its own part and what the stream said last about it; the stop reason is the last reported |
| `Transcript.PreviewEqualsTranscript` | internal/app/agentrun/runtime.go:277-362 | Whether the stream ended or broke off: text and reasoning on the wire equal those of the parts, in order; the accounts agree in their calls too iff every call that ends was started; and the wire has told of every start and all arguments |
| `Transcript.WireShowsCalls` | internal/app/agentrun/runtime.go:290-315 | The wire shows every call's arguments in full and announces exactly the calls that start, by id and name |
| `Transcript.NormPreview` | internal/app/agentrun/publisher.go:67-104 | Coalescing does not change what a client can tell |
| `OpenAIStream.Adapter.ConsumeToolCall` | internal/platform/ai/openai.go:275-300 | One fragment: the call takes its id and name, is announced once it has a name, and its arguments are passed on |
| `OpenAIStream.Adapter.CloseOpenToolCalls` | internal/platform/ai/openai.go:303-322 | Every open call ends under the id it has by then, announced first if it never was |
| `OpenAIStream.EveryCallEnds` | internal/platform/ai/openai.go:275-322 | When the calls are closed, every call that got a piece since the last closing ends: under the last id given, with all pieces of its name and, cleaned up, all pieces of its arguments |
| `OpenAIStream.KeptIdsAreAnnounced` | internal/platform/ai/openai.go:275-322 | If no fragment gives an announced call another id, every call that ends was announced |
| `OpenAIStream.OneCallExactly` | internal/platform/ai/openai.go:275-322 | A stream of one call announces it iff no name ever arrives, so that it is announced when it ends, or the id it has when its name arrives is the one it ends under |
| `OpenAIStream.LateIdIsUnannounced` | internal/platform/ai/openai.go:285-296 | A call whose id arrives after its name is persisted as two calls, the first without id or input, and previewed as one |
| `Transcript.OrderedCalls` | internal/app/agentrun/runtime.go:334-340 | The calls in the order their parts were opened |
| `Prune.Prune` | internal/app/agentchat/prompt.go:131-165 | In place, positive window: success stops at the first stage that fits; exhaustion iff even the fully stripped request does not fit; the flag is true iff something changed; without a window nothing happens |
| `Prune.StageFrame` | internal/app/agentchat/prompt.go:140-161 | Part by part, for every stage: reasoning is emptied in the first so many messages but the last two, long tool output is replaced by the notice in as many as the stage is past all of those, and nothing else differs |
| `Prune.StageNext` | internal/app/agentchat/prompt.go:143-160 | Stages go oldest first, reasoning before tool output, one message at a time |
| `Prune.StagesShrink` | internal/app/agentchat/prompt.go:131-165 | A later stage is never larger, so the last is the smallest on offer |
| `Prune.EstimateTokens` | internal/app/agentchat/prompt.go:110-121 | The estimate of the request, rounded down |
| `Prune.EstimateMeasuresAll` | internal/app/agentchat/prompt.go:110-121 | It is a quarter of the length of everything the request says laid end to end |
| `Prune.ExecuteLoop` | internal/app/agentrun/runtime.go:117-252 | Every request sent fits its budget and is compacted from the one before plus its replies; the notice is recorded once iff some request was compacted; at most fifty requests |
| `Draft.KeptTurns` | internal/app/agentrun/draft.go:218-243 | The longest suffix of the non-blank turns within 20 turns and 12000 runes, or the last turn clipped; truncated iff that differs; the buffer that is clipped in place is new, and the caller's turns are as they were |
| `Draft.CutInPlace` | internal/app/agentrun/draft.go:228-243 | The slice of that buffer, shortened from the front and clipped in place, is what must be kept of it |
| `Draft.ShorterFits` | internal/app/agentrun/draft.go:229-239 | Dropping older turns never makes a transcript too large, so that suffix is the only longest one |
| `Draft.KeptIsBounded` | internal/app/agentrun/draft.go:233-243 | What is kept fits both limits and is never nothing of something |
| `Draft.SmallIsKept` | internal/app/agentrun/draft.go:233-243 | A conversation within both limits is kept whole |
| `Draft.ClipIsCut` | internal/app/agentrun/draft.go:287-293 | A text that is too long is cut at the limit and loses the white space at either end of what is left, and nothing else |
| `Draft.NonBlankFilters` | internal/app/agentrun/draft.go:219-224 | The turns considered are all those that are not white space only, as often as they stand |
| `Draft.BlankIsAllSpace` | internal/app/agentrun/draft.go:219-224 | A turn is skipped exactly when it is nothing but white space |
| `EditDistance.Distance` | internal/app/agenttool/registry.go:170-188 | The two swapped rows compute the recurrence |
| `EditDistance.LevIsOptimal` | internal/app/agenttool/registry.go:169-188 | The recurrence is the length of some script of single-byte edits turning one string into the other, and of no shorter one |
| `EditDistance.Reached` | internal/app/agenttool/registry.go:169-188 | The script itself: as many edits as the distance, each legal where it is made |
| `EditDistance.NothingShorter` | internal/app/agenttool/registry.go:169-188 | Whatever a script makes of a string is no further from it than the script is long |
| `EditDistance.Triangle` | internal/app/agenttool/registry.go:169-188 | The triangle inequality, by cases on the last edits of both distances |
| `EditDistance.DistanceIsAMetric` | internal/app/agenttool/registry.go:169-188 | Zero iff equal, symmetric, triangle inequality, between the length difference and the larger length |
| `EditDistance.Suggestion` | internal/app/agenttool/registry.go:150-167 | The first non-empty name at least distance, iff that distance is within a third of the name plus one |
| `Timeline.BuildTimeline` | internal/sandbox/timeline.go:74-138 | The sends are those of the steps up to the first halt, each with its engagement, and the reply and stop reason are those of the last |
| `Timeline.TimelineIsCoherent` | internal/sandbox/timeline.go:74-138 | Forward delays: sends spaced exactly, open after send, click after open, reply after the last send's open, a bounce alone, nothing after now |
| `Timeline.HistoryLiesInWindow` | internal/sandbox/timeline.go:66-73 | In a safe window the whole history lies between now less the window and now, and something was sent |
| `Timeline.StartsInWindowExactly` | internal/sandbox/timeline.go:161-175 | Every start lies in the window, whatever is drawn, iff each of its multiples up to the 99-fold, cut to 64 bits, is below half the range or short of the full range by hundredths of whole days |
| `Timeline.StartSplits` | internal/sandbox/timeline.go:161-175 | In an ordinary window a start lies as many whole days into it as the day drawn is per cent of its days, and its time of day is the drawn per cent of the window past whole days |
| `Timeline.EveryDayIsDrawn` | internal/sandbox/timeline.go:166-170 | Every day of a window of up to a hundred days is drawn by some percentile |
| `Timeline.OrdinaryWindowIsSafe` | internal/sandbox/timeline.go:171-171 | Windows whose 99-fold fits 64 bits (about 2.9 years) are safe |
| `Timeline.LongWindowIsNotSafe` | internal/sandbox/timeline.go:171-171 | A window of 200 years is not |
| `Timeline.SpreadBounds` | internal/sandbox/timeline.go:179-181 | A percentile maps into the closed range of delays |
| `Timeline.SpreadIsLinear` | internal/sandbox/timeline.go:179-181 | It lies that many per cent of the way |
| `Timeline.TimelineShows` | internal/sandbox/timeline.go:74-138 | Opens, clicks, replies and bounces show iff the prospect does them, as soon as their ranges of delay have passed and never outside them; and only a bounce, an opened send of somebody who replies, or a step not yet due keeps the next step back |
| `Persona.AddressesAreUnique` | internal/sandbox/persona.go:152-182 | No two indices of this program's rosters share an address |
| `Persona.EmailsNeverCollide` | internal/sandbox/persona.go:171-182 | Nor of any roster whose two tables have one length, distinct first names and letters only |
| `Persona.DealtFairly` | internal/sandbox/persona.go:236-273 | Any stretch of prospects with exactly ten repliers is dealt every flavour, each exactly as often as it stands in the deal |
| `Persona.DealtIsServed` | internal/sandbox/persona.go:256-273 | The k-th replier is served the k-th slot: a stretch is dealt the slots of its ranks |
| `Persona.ReplierRank` | internal/sandbox/persona.go:265-273 | The counting loop is the rank |
| `Persona.BehaviorAt` | internal/sandbox/persona.go:193-219 | Clicks and replies only after opens, a bounce excludes all, and its replies are those the ranks count |
| `Persona.SharesAreMet` | internal/sandbox/persona.go:193-234 | 2 of a hundred bounce and 40 of a hundred of the others open; of those 30 of a hundred click and 20 reply, which is 12 and 8 of the whole |
| `Persona.BuildPersonas` | internal/sandbox/persona.go:139-148 | One prospect per index, none for a non-positive count |

## Left out

- HTTP handlers, SSE framing, composition roots, CLIs, the web app and the individual tools: no hard property of their own.
- The step-send and warm-up claim protocol of `internal/coreapi`: only its interface and comments say what it does.
- Role, credential and mode matrices: finite tables.
- Workspaces and thread ownership on reads, thread deletion, titles, usage counters and the error texts of rows.
- A commit whose outcome the caller cannot know: every transaction here either commits or fails visibly.
- Message parts in the database, and with them the states of tool parts and the lookup of actions without a message id.
- The registry of local cancel functions: it is keyed by run id alone, and nothing is claimed about a stop reaching a resumed run.
- Restarts with several API processes: a restart here loses every goroutine at once.
- ApprovalTables.PgStore.CancelApprovalRun: requires every action to have an audit trail, which every reachable state has; the source's single statement needs no such thing.
- Messages the pub/sub server drops and the expiry of the stream's keys; only a full reader buffer loses events here.
- The wire envelope `<seq>:<json>`: entries carry their number as a field.
- The limits on concurrent runs and on streams per user: counters with no property beyond their bound.
- Store failures, restarts and deletions in the queue protocol; the clean-ups they share with the empty promotion are modelled there.
- ThreadStore.Send: has no store failures, and validation of the text, the active-run column and queue notifications are not modelled.
- ThreadStore.StartNext: likewise.
- EditDistance.Suggestion: takes the names in the registry's order, sorted without duplicates, as its only caller passes them; the words around the name are not built.
- Prune.Prune: the window's share is an integer argument, so floating-point rounding is not modelled.
- Draft.KeptTurns: the rendering of the kept turns into the prompt is not built, and text is runes, so invalid UTF-8 is not modelled.
- Publisher.RunPublisher.Publish: a send that fails is logged and dropped by the source; here every send succeeds.
- Persona.BuildPersonas: company names and job titles are left out, and indices are unbounded, so products that would wrap at astronomic indices do not.
- OpenAIStream.Adapter.CloseOpenToolCalls: the clean-up of a buffered argument text is a function argument; text, reasoning and usage deltas and the other two adapters are not modelled.
- OpenAIStream.KeptIdsAreAnnounced: goes one way, because with several calls one may end under an id another was announced under (two calls that swap ids are both announced); for one call OpenAIStream.OneCallExactly is exact.
- ApprovalSweep.CleanSweep: no other transaction commits between the query and the candidates; SweepLoop.ExpirePendingActions has them.
- ApprovalSweep.SweepStrandsExactly: likewise; InterruptedSweep.InterruptedSweepStrandsExactly is the condition with others in between.
- ApprovalOrphans.FailingSweepOrphans: likewise.
- ApprovalTables.PgStore.ExpirePendingActions: likewise; SweepLoop.ExpirePendingActions has others before every candidate.
- ApprovalTables.PgStore.SettleOverdue: likewise.
- SweepLoop.ExpirePendingActions: others do not restart the process the sweep runs in, and act on none of the claims it still holds.
- ResumeLoop.Resume: others do not restart the process the loop runs in, which would end it.
- The hash behind `percentile`, reply wording, and the database writes of the simulated history.
- Tool-call/result pairing across runs: failed and cancelled turns keep calls without results.
