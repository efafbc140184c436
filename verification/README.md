# Nexus AI: execution safety in Dafny

A model of the parts of Nexus AI in which an interleaving, a race with the clock or a graph decides
whether work happens once, twice or not at all, with proofs over every input, every run and every
reachable state. `dafny verify dfyconfig.toml` verifies all of it.

## What is modelled

* **The agent turn loop** (`TurnLoop`, `TurnLoopProofs`, `TurnWorld`, `TurnEnd`, `TurnRun`). The bounded
  loop of model calls and memoised tool calls, once as a machine that stops at every interaction with
  the outside, once as the nested loops over mutable locals, and once as a reference without a cache.
  The loops are proved to follow the machine and the machine to compute the reference; `TurnEnd` says
  of the world alone when a turn returns and what it raises otherwise.
* **Agent sessions and turns** (`AgentDb`, `AgentStore`, `AgentProtocol`, `AgentInvariant`,
  `AgentTables`, `AgentSteps`, `AgentSafety`, `AgentDecisions`). Each database transaction of the service is a function
  on the tables (`AgentDb`), and a method on tables updated in place that is proved equal to it
  (`AgentStore`). `AgentProtocol` puts any number of workers, timers and callers over them: every
  transaction, model call and tool execution is one step, and workers may crash between any two. A
  journal records permits, dispatches, session ends, responses and raised errors in order. `AgentSafety`
  states what holds of every run, and `AgentDecisions` what each transaction decides and writes, said of
  the rows it finds.
* **Turn deadlines** (`Deadlines`). Lease, timeout and lifetime over real-valued clock readings.
* **SIP routing authority** (`Trails`, `SipRoutes`, `SipEgress`, `SipLocator`, their `Proofs`,
  `Decisions` and `Store` modules). The trigger-fenced tables of targets, inbound routes, dialog bindings, call
  admissions, egress permits and the number locator. A statement that a trigger or constraint refuses
  is rolled back; theorems are about every sequence of statements.
* **The SIP edge** (`EdgeDialogs`, `EdgeSequence`). The shared capacity counter and dialog table as
  worker processes use them, one step per locked section, and the in-dialog sequence checks with the
  RSeq variable that replies read and write outside the lock.
* **The phase graph** (`PhaseGraph`, `PhaseControl`, `PhaseClose`, `PhaseClosing`, `PhaseDecisions`). The
  depth-first closure, validation of the control documents, eligibility and the closure of a phase.
* **Lease takeover** (`SentinelLease`, `ComplianceLease`, `ComplianceService`). The execution fences as
  tables of row versions, and the compliance service's claim and execute calls over its fence.

## How the model reads the source

* A transaction, a trigger-fenced statement and a locked section are each one indivisible step; an access
  outside the lock is a step of its own, and so is what a locked section does to a variable others
  write without the lock. Row identifiers are positions or natural numbers; timestamps of the
  databases are integers in microseconds, those of deadlines are reals.
* Clocks, model replies, tool outcomes, refused grants, crashes and the order of steps are arbitrary
  inputs. A trigger that reads the clock twice has two readings; where a theorem needs them in order
  it says so (`SipEgress.Ordered`, and `elapsed` in the lease modules).
* Hashes and fingerprints are injective: the model compares what was hashed.
* `Prelude.Peek` and `Prelude.Glance` are always true. They mark where the verifier may look inside a
  long definition and change no meaning.
* Six promises are false of the code as it stands. Each has an input that shows it and its exact condition:
  * a turn can run past the session lifetime (`Deadlines.LifetimeCanBeOverrun`); exactly when:
    `Deadlines.LifetimeBoundsLoopExactly`;
  * an RSeq can be consumed twice (`EdgeSequence.RSeqCanBeConsumedTwice`); exactly when:
    `EdgeSequence.ReplyKeptExactly`, `EdgeSequence.ConsumedAgainExactly`;
  * a smaller RSeq can be written over a greater one (`EdgeSequence.RSeqCanFall`); exactly when:
    `EdgeSequence.LoweredExactly`;
  * a PRACK can erase an RSeq it does not name (`EdgeSequence.KeptRSeqCanBeErased`); exactly when:
    `EdgeSequence.ClearsNamedExactly`;
  * a PRACK can name no INVITE (`EdgeSequence.PrackCanNameNoInvite`); exactly when:
    `EdgeSequence.PrackWithoutInviteExactly`;
  * a number can have no locator (`SipLocator.DirectDeletionLosesLocator`); exactly when:
    `SipLocator.MissingExactly`, `SipLocator.LookupIsExact`.
* The fence of compliance executions by itself permits a takeover to write the result
  (`ComplianceLease.TakeoverMayWriteResult`), exactly when the row is claimed and its lease is over
  (`ComplianceLease.OverwriteAcceptedExactly`). The service never does: its takeovers set owner,
  generation and lease only (`ComplianceService.ResultWrittenOnce`).
* In two places code and comment disagree, and the model follows the code: the comment that the session
  lifetime is an absolute ceiling (`src/nexus_ai/agents/service.py`, line 547), and the docstring that
  lets a duplicate tool authorization proceed (lines 1022-1026), which lines 1145-1150 reject.

## Model

| member | source | states |
|---|---|---|
| `TurnWorld.MemoisedLoopRefinesReference` | src/nexus_ai/agents/runtime.py:145-225 | For every sequence of grants, replies, executions and failures: at each model call the transcript is the prompt plus every assistant block with each of its calls answered in order, under its own id, by the outcome of the first equal call; the executions are the first occurrences of the requested keys; executions stay within the per-turn budget and replies within max iterations + 1; the raise after the loop is not reached. |
| `TurnWorld.NegativeCeilingRaises` | src/nexus_ai/agents/runtime.py:148-225 | With a negative iteration ceiling the loop raises at once and no input moves it: the exact case in which the last raise is reachable. |
| `TurnRun.RunTurn` | src/nexus_ai/agents/runtime.py:119-225 | The nested loops over mutable locals return if and only if there is an iteration within the ceiling whose reply is permitted, answered, acceptable and asks for no tools, while every reply before it was acceptable and asked for tools within the per-response limit, and every call so far was within the turn budget and a repetition or an execution whose permit, run and recording succeeded. Otherwise they raise exactly the fault of the first of these to fail. What is returned is explained by the memo-free reference: content, finish reason, token sums over all replies, iteration count, tool outcomes as the world gave them, and the final transcript. |
| `TurnEnd.EndsExactly` | src/nexus_ai/agents/runtime.py:145-225 | The same of the machine: wherever it ends on a world, it returned if and only if the world lets the turn return, and raised exactly the fault the world makes it raise. |
| `TurnEnd.OneVerdict` | src/nexus_ai/agents/runtime.py:145-225 | The descriptions of an end exclude each other: a world that makes a turn raise a fault makes it raise no other and never return. |
| `TurnRun.RunCalls` | src/nexus_ai/agents/runtime.py:192-223 | The inner loop over one block follows the machine from its first call to the next model permit or to the raise or failure that ends the turn. |
| `TurnRun.RunTool` | src/nexus_ai/agents/runtime.py:197-216 | One call that is not in the cache: permit, execution, remembering and recording follow the machine, each failure ending the turn. |
| `TurnRun.CheckResponse` | src/nexus_ai/agents/runtime.py:271-278 | Each answer with its own guard: over the limit if and only if the content is longer than the limit; duplicate ids if and only if it is not and two calls share an id; bad structure if and only if neither and some call has an empty name or one over 96 characters, or arguments too deep or too large; nothing otherwise. |
| `TurnEnd.ValidateExactly` | src/nexus_ai/agents/runtime.py:271-278 | The same of the function the machine uses. |
| `TurnWorld.EndIsUnique` | src/nexus_ai/agents/runtime.py:119-225 | On one world the loop has a single end state. |
| `TurnWorld.ReachedEnd` | src/nexus_ai/agents/runtime.py:145-225 | Every state the machine reaches on a world: the last raise exactly under a negative ceiling, a returned outcome always explained by the reference. |
| `TurnLoopProofs.DrainInv` | src/nexus_ai/agents/runtime.py:192-223 | Answering cached calls until a new key, the end of the block or the budget keeps the loop invariant. |
| `TurnLoopProofs.ReceiveModelInv` | src/nexus_ai/agents/runtime.py:156-191 | Receiving a reply, whatever it is, keeps the loop invariant: totals, budgets, transcript, memo. |
| `TurnLoopProofs.RecordedInv` | src/nexus_ai/agents/runtime.py:214-223 | Recording an execution and answering its call keeps the loop invariant. |
| `AgentSafety.CompletedTurnPermits` | src/nexus_ai/agents/service.py:988-1150 | In every state of every multi-worker run a COMPLETED turn has exactly the model permits 0..tool_iterations, exactly one tool permit per recorded (tool, argument-hash) pair, no two alike, and their number is tool_call_count and the number of its tool rows. |
| `AgentSafety.ToolRowsAreNumbered` | src/nexus_ai/agents/service.py:1391-1481 | A tool-call row names its turn's own session, is numbered by its place among the turn's rows, and names an iteration whose model call was permitted. |
| `AgentSafety.OnlyRevocationRefuses` | src/nexus_ai/agents/service.py:937-1150 | Whenever a worker asks for a permit it is granted or the session has ended: the ownership refusals and both ALREADY_EXISTS refusals are unreachable. |
| `AgentSafety.PermitsFence` | src/nexus_ai/agents/service.py:937-1150 | Every model call and tool dispatch is preceded by its own permit; no permit is granted twice and none backs two dispatches; no permit of a session commits after that session's terminal commit. |
| `AgentSafety.PermitsAreOwn` | src/nexus_ai/agents/service.py:937-986 | Every permit ever granted names the turn's own session and owner and is a row of the permit tables. |
| `AgentSafety.TerminalRowsAbsorb` | src/nexus_ai/agents/service.py:479-522 | Between any two states of a run, a session row that was terminal and a turn row that was terminal are unchanged, whatever finished, failed, expired or crashed in between. |
| `AgentSafety.OneAnswerPerKey` | src/nexus_ai/agents/service.py:630-660 | All responses handed out for one session and idempotency key are equal field by field, on any worker and after the session has ended, and all were asked for with the same content. |
| `AgentSafety.OneExecutionPerKey` | src/nexus_ai/agents/service.py:662-767 | Two turns of one session never carry the same idempotency key, and every response handed out under a key is of that one turn and for its content. |
| `AgentSafety.SequencesAreExact` | src/nexus_ai/agents/service.py:712-755 | A session's turns are numbered exactly 1..turn_count in commit order and at most one of them is not terminal. |
| `AgentSafety.CountersAreSums` | src/nexus_ai/agents/service.py:1220-1266 | A session's token and tool counters are the sums over its COMPLETED turns, and once it is terminal its usage row holds those sums, their total and its number of turns. |
| `AgentSafety.EventsMatchTurns` | src/nexus_ai/agents/service.py:1232-1285 | A turn has one start event, one terminal event exactly when it is terminal, one response-ready event exactly when it is COMPLETED, and a failure event carries the code on the row. |
| `AgentSafety.ErrorsAreTruthful` | src/nexus_ai/agents/service.py:534-614 | Every error raised to the caller of a turn that was opened, whether preparing or running it broke, it timed out, was interrupted or was beaten by the end of its session, or the error escaped: a recorded one left the turn FAILED or CANCELLED, and CANCELLED if it was beaten, with exactly the code of that error; one that was not recorded, an exception without a code included, left it RUNNING without a code. |
| `AgentSafety.OrphanedTurnsStay` | src/nexus_ai/agents/service.py:1330-1389 | A turn no worker is at, because its worker crashed or its error was not recorded, keeps its row unchanged in every later state of the run, and no worker is ever at it again. |
| `AgentSafety.StaleCodeIsTruthful` | src/nexus_ai/agents/service.py:1662-1689 | In every reachable terminal session state the stored code equals the code of the error raised for that state. |
| `AgentSteps.StepInv` | src/nexus_ai/agents/service.py:382-1519 | Every enabled step of every worker, model, tool and timer keeps the invariant of tables, workers and journal. |
| `AgentSteps.SubmitInv` | src/nexus_ai/agents/service.py:526-767 | Opening a turn, replaying one and refusing one keep the invariant. |
| `AgentSteps.CompletedInv` | src/nexus_ai/agents/service.py:1170-1285 | Finishing a turn of a live session keeps the invariant. |
| `AgentSteps.DiscardedInv` | src/nexus_ai/agents/service.py:1287-1328 | Finishing a turn of an ended session, which discards it, keeps the invariant. |
| `AgentSteps.FailInv` | src/nexus_ai/agents/service.py:1330-1389 | Failing or cancelling a turn keeps the invariant. |
| `AgentStore.Store.StartSession` | src/nexus_ai/agents/service.py:382-451 | The new ACTIVE session row and its two events, and nothing else. |
| `AgentStore.Store.Terminalize` | src/nexus_ai/agents/service.py:479-522 | The whole new state of ending a session; an already terminal one is left alone. |
| `AgentDecisions.StopEndsExactly` | src/nexus_ai/agents/service.py:479-522 | In every run a stop or a cancellation ends the session if and only if it has not ended: COMPLETED without a code or CANCELLED with one, with time, usage, two events and the journal entry, and no other row touched; otherwise nothing happens. |
| `AgentDecisions.ExpiryEndsExactly` | src/nexus_ai/agents/service.py:796-834 | The same of an expiry, as EXPIRED with its code, and the turn is then to be cancelled with that code. |
| `AgentDecisions.TimeOutExactly` | src/nexus_ai/agents/service.py:560-588 | A turn cut off by its deadline expires its session if and only if the lifetime is over by then, and otherwise fails by its timeout. |
| `AgentDecisions.StartWrites` | src/nexus_ai/agents/service.py:382-451 | A new session is live, empty, starts now, and its two events are written. |
| `AgentDecisions.FoldExactly` | src/nexus_ai/agents/state_machine.py:138-166 | A proposed state is taken if and only if the session has not ended and the move is an end or one of the seven live edges; an end carries its disposition. |
| `AgentStore.Store.ExpireNow` | src/nexus_ai/agents/service.py:796-834 | The whole new state of expiring a session now; an already terminal one is left alone. |
| `AgentStore.Store.OpenTurn` | src/nexus_ai/agents/service.py:662-767 | The decision and the whole new state, which the next rows state of the rows found. |
| `AgentDecisions.AdmittedExactly` | src/nexus_ai/agents/service.py:662-767 | A request whose key names no turn is opened if and only if the session exists, has not ended, is within its lifetime and has no turn in flight; and each refusal, unknown session, ended session, lifetime over (at or after start plus maximum) and busy, has its own if and only if. |
| `AgentDecisions.ReplayedExactly` | src/nexus_ai/agents/service.py:630-660 | In every run a key that was used decides alone, whatever became of the session: replay if and only if its one turn is COMPLETED and was asked for with the same content, conflict if and only if with other content, busy if and only if it has not ended, and otherwise its final state and code. |
| `AgentDecisions.HistoryOnlyByKey` | src/nexus_ai/agents/service.py:692-698 | An answer about a historical turn is given if and only if the session has a turn with that key, and a replay names such a turn. |
| `AgentDecisions.SubmitWrites` | src/nexus_ai/agents/service.py:706-767 | What a submission writes: a RUNNING turn numbered after the session's turns, with the request's content and key, this owner and time, its event and its worker; or the EXPIRED session; or nothing. |
| `AgentStore.Store.AuthorizeModelDispatch` | src/nexus_ai/agents/service.py:988-1060 | The verdict on a model permit and the whole new state. |
| `AgentStore.Store.AuthorizeToolDispatch` | src/nexus_ai/agents/service.py:1062-1150 | The verdict on a tool permit and the whole new state. |
| `AgentDecisions.ModelPermitExactly` | src/nexus_ai/agents/service.py:988-1060 | In every run a worker that asks for a model permit gets it, with the row and the journal entry, if and only if its session has not ended; otherwise nothing is written and its turn is to be cancelled with the code of that end. |
| `AgentDecisions.ToolPermitExactly` | src/nexus_ai/agents/service.py:1062-1150 | The same of a tool permit. |
| `AgentDecisions.ModelAuthorityExactly` | src/nexus_ai/agents/service.py:937-1060 | On any tables each verdict has its own guard: revoked if and only if the session has ended; not authoritative if and only if it has not and the turn is not this owner's active turn of the session; already existing, and granted, by whether the permit row is there. |
| `AgentDecisions.ToolAuthorityExactly` | src/nexus_ai/agents/service.py:937-1150 | The same of a tool permit. |
| `AgentStore.Store.RecordToolCall` | src/nexus_ai/agents/service.py:1391-1481 | The whole new state of recording a tool call. |
| `AgentDecisions.NoteWrites` | src/nexus_ai/agents/service.py:1391-1481 | A recorded call carries its turn, number, iteration and key, is DENIED if and only if it was not allowed and COMPLETED if and only if it was allowed and went well, and two events are written. |
| `AgentStore.Store.FinishTurn` | src/nexus_ai/agents/service.py:1170-1328 | The result handed out and the whole new state, for live and for ended sessions. |
| `AgentDecisions.FinishDelivers` | src/nexus_ai/agents/service.py:1170-1276 | In every run a turn finished while its session is live hands out the outcome of its loop: content cut to the limit, finish reason, tool count, tokens and their total, latency and correlation. The turn keeps the same, the session is credited with it, and usage and three events are written. |
| `AgentDecisions.LateFinishCancels` | src/nexus_ai/agents/service.py:1287-1328 | A turn finished after its session ended is CANCELLED with the code of that end, which the caller is told, and the session is left alone. |
| `AgentDecisions.CompletedTurnsKeepOutcomes` | src/nexus_ai/agents/service.py:1192-1220 | In every run a COMPLETED turn carries, cut to the limit, the outcome one worker's loop had returned at it, and the session, key and content that worker was asked with. |
| `AgentDecisions.AnswersAreOutcomes` | src/nexus_ai/agents/service.py:1170-1276 | Every response ever handed out, first or replayed, delivers the outcome one worker's loop had returned for that turn, which was asked for with the request's session, key and content. |
| `AgentStore.Store.FailTurn` | src/nexus_ai/agents/service.py:1330-1389 | The whole new state of failing or cancelling a turn. |
| `AgentDecisions.FailWrites` | src/nexus_ai/agents/service.py:1330-1389 | In every run a failing turn becomes CANCELLED or FAILED with its code and latency, its live session only notes the activity, an ended one is left alone, and the caller gets that code. |
| `AgentDecisions.BrokenLoopFails` | src/nexus_ai/agents/runtime.py:145-278 | The code a broken loop fails with: invalid output for content, ids or too many calls, invalid tool for a bad call, loop limit for a bound. |
| `Deadlines.LeaseOutlivesLoop` | src/nexus_ai/agents/service.py:715-743 | If the delay from claiming a turn to starting its timeout is at most the grace period, the loop is cut off no later than the stored lease expires. |
| `Deadlines.GraceIsTight` | src/nexus_ai/agents/service.py:769-794 | Where neither the agent timeout nor the lifetime shortens the turn, the cut-off is within the lease if and only if the delay is at most the grace period. |
| `Deadlines.LifetimeBoundsLoopExactly` | src/nexus_ai/agents/service.py:546-558 | The cut-off is within the session lifetime if and only if the timeout starts within it and either starts at the instant the lifetime was read or is no longer than what is left then. |
| `Deadlines.OverrunIsTheDelay` | src/nexus_ai/agents/service.py:546-558 | The overrun past the lifetime is at most the delay between reading the lifetime and starting the timeout. |
| `Deadlines.LifetimeCanBeOverrun` | src/nexus_ai/agents/service.py:546-558 | A concrete one-second delay that lets a turn run past the lifetime. |
| `Deadlines.CutoffExactly` | src/nexus_ai/agents/service.py:546-558 | The loop is given a time if and only if the global ceiling, the agent's own timeout and what was left of the lifetime all allow it. |
| `Deadlines.LeaseExactly` | src/nexus_ai/agents/service.py:715-743 | The lease covers, besides the grace period, a time if and only if the global ceiling and the lifetime allow it. |
| `SipRoutesProofs.ReferencesAreLiveRoutes` | migrations/versions/20260919_2320-d19d0b1c2d3e_sip_inbound_routes.py:149-240 | After every sequence of statements the reference table is exactly the routes in AUTHORIZED, ISSUED, ESTABLISHED or AMBIGUOUS, each with its target. |
| `SipRoutesProofs.RetiredTargetsAreDrained` | migrations/versions/20260919_2320-d19d0b1c2d3e_sip_inbound_routes.py:227-244 | A target with an outstanding route is ACTIVE or DRAINING, so a RETIRED target has none. |
| `SipRoutesProofs.RetirementExactly` | migrations/versions/20260919_2320-d19d0b1c2d3e_sip_inbound_routes.py:227-244 | A retirement is accepted if and only if the target is REGISTERED or DRAINING and no outstanding route names it. |
| `SipRoutesProofs.AmbiguousRoutePinsTarget` | migrations/versions/20260919_2320-d19d0b1c2d3e_sip_inbound_routes.py:183-240 | After a route has become AMBIGUOUS its target is never RETIRED, whatever statements follow. |
| `SipRoutesProofs.FinalRoutesAbsorb` | migrations/versions/20260919_2320-d19d0b1c2d3e_sip_inbound_routes.py:178-199 | A route that ended, failed, expired or became ambiguous never changes again. |
| `SipRoutesProofs.HistoryReplays` | migrations/versions/20260919_2320-d19d0b1c2d3e_sip_inbound_routes.py:215-221 | A route's history is a path of the transition graph from AUTHORIZED to its current state, every entry under the route's own edge and boot. |
| `SipRoutesProofs.EstablishedRoutesAreBound` | migrations/versions/20260920_0740-d19f0b1c2d3e_sip_dialog_binding.py:93-127 | ESTABLISHED and ENDED routes have a dialog binding, and a bound route was issued. |
| `SipRoutesProofs.BindingsAreForever` | migrations/versions/20260920_0740-d19f0b1c2d3e_sip_dialog_binding.py:92-110 | A dialog binding is never replaced or removed. |
| `SipRoutesProofs.RoutesAreStamped` | migrations/versions/20260919_2320-d19d0b1c2d3e_sip_inbound_routes.py:165-197 | A route's issue deadline is five seconds after its authorization, and it carries an issue time exactly when it was issued. |
| `SipRoutesProofs.OneActiveTarget` | migrations/versions/20260919_1955-d19b0b1c2d3e_sip_target_authority.py:40-55 | At most one target of a cell is ACTIVE and no two share a revision. |
| `SipRoutesProofs.PoliciesAreInert` | migrations/versions/20260919_2320-d19d0b1c2d3e_sip_inbound_routes.py:149-160 | While the reference table is exact, the row policies let the runtime role neither add nor remove a reference. |
| `SipRoutesProofs.StepInv` | migrations/versions/20260919_2320-d19d0b1c2d3e_sip_inbound_routes.py:161-244 | Every statement on targets, routes, bindings and references keeps the invariant. |
| `SipRouteDecisions.RouteMovesExactly` | migrations/versions/20260919_2320-d19d0b1c2d3e_sip_inbound_routes.py:178-198 | In every run an AUTHORIZED route is issued if and only if at most five seconds have passed since its authorization and expires if and only if more have; an ISSUED one is established if and only if a dialog is bound to it and may fail or become ambiguous; an ESTABLISHED one may end or become ambiguous; and no other move is accepted. |
| `SipRouteDecisions.RouteMoveWrites` | migrations/versions/20260919_2320-d19d0b1c2d3e_sip_inbound_routes.py:178-222 | An accepted move changes the state and, on issue, stamps the time; the reference goes if and only if the route ended, failed or expired; and the history gains this one step. |
| `SipRouteDecisions.RouteInsertExactly` | migrations/versions/20260919_2320-d19d0b1c2d3e_sip_inbound_routes.py:165-177 | In every run a route is accepted if and only if it is new, AUTHORIZED and not issued, names an ACTIVE target by cell and revision, and repeats no transaction of its peer; it may then be issued for five seconds. |
| `SipRouteDecisions.BindExactly` | migrations/versions/20260920_0740-d19f0b1c2d3e_sip_dialog_binding.py:94-130 | In every run a dialog is bound if and only if its route is ISSUED, of the organization, and cannot be established yet; and then it can. |
| `SipRouteDecisions.TargetMovesExactly` | migrations/versions/20260919_1955-d19b0b1c2d3e_sip_target_authority.py:126-156 | In every run a target becomes ACTIVE if and only if it is REGISTERED and its cell has no ACTIVE one, drains if and only if it is ACTIVE, and retires if and only if it is REGISTERED or DRAINING and no route uses it. |
| `SipRouteDecisions.TargetInsertExactly` | migrations/versions/20260919_1955-d19b0b1c2d3e_sip_target_authority.py:126-156 | A target is registered if and only if it is new, on a private address and an unprivileged port, with a positive revision not used in its cell. |
| `SipRouteDecisions.TargetColumnsStay` | migrations/versions/20260919_1955-d19b0b1c2d3e_sip_target_authority.py:126-156 | No other column of a target ever changes. |
| `SipRouteDecisions.PrivateHostExactly` | migrations/versions/20260919_1955-d19b0b1c2d3e_sip_target_authority.py:144-148 | The address lies in 10.0.0.0/8, 172.16.0.0/12, 192.168.0.0/16 or fc00::/7, by its leading bits. |
| `SipRouteStore.Store.InsertTarget` | migrations/versions/20260919_1955-d19b0b1c2d3e_sip_target_authority.py:125-157 | Whether the insert is accepted, and the whole new state. |
| `SipRouteStore.Store.UpdateTarget` | migrations/versions/20260919_1955-d19b0b1c2d3e_sip_target_authority.py:133-152 | Whether the update is accepted, retirement fence first, and the whole new state. |
| `SipRouteStore.Store.InsertRoute` | migrations/versions/20260919_2320-d19d0b1c2d3e_sip_inbound_routes.py:165-177 | Whether the insert is accepted, and the whole new state with its reference and history entry. |
| `SipRouteStore.Store.UpdateRoute` | migrations/versions/20260919_2320-d19d0b1c2d3e_sip_inbound_routes.py:178-222 | Whether the update is accepted, established fence first, and the whole new state with reference and history. |
| `SipRouteStore.Store.RouteReference` | migrations/versions/20260919_2320-d19d0b1c2d3e_sip_inbound_routes.py:205-222 | The reference table and history after the trigger. |
| `SipRouteStore.Store.BindDialog` | migrations/versions/20260920_0740-d19f0b1c2d3e_sip_dialog_binding.py:93-110 | Whether the binding is accepted, and the whole new state. |
| `SipEgressProofs.AdmissionGovernsExactly` | migrations/versions/20260921_0600-d19d1b1c2d3e_sip_call_admission.py:45-101 | For whatever follows an admission, a permit of the call that was ever consumed implies the admission was DISPATCHED, if and only if no permit of the call had been consumed before the admission was recorded. |
| `SipEgressProofs.WithdrawalIsFinal` | migrations/versions/20260921_0600-d19d1b1c2d3e_sip_call_admission.py:55-71 | Once the admission of a call with no consumed permit is REVOKED, no permit of the call is ever consumed. |
| `SipEgressProofs.SettledAdmissionsAbsorb` | migrations/versions/20260921_0600-d19d1b1c2d3e_sip_call_admission.py:55-61 | A DISPATCHED or REVOKED admission never changes again. |
| `SipEgressProofs.ConsumedWithinSixtySeconds` | migrations/versions/20260921_0600-d19d1b1c2d3e_sip_call_admission.py:79-97 | With clock readings in order, a consumption under an admission happens less than 60 seconds after the admission was created. |
| `SipEgressProofs.SixtySecondsIsTight` | migrations/versions/20260920_0645-d19e0b1c2d3e_sip_egress_permits.py:187-198 | A consumption one microsecond before the sixty seconds are over is accepted. |
| `SipEgressProofs.LateAdmissionGovernsNothing` | migrations/versions/20260921_0600-d19d1b1c2d3e_sip_call_admission.py:84-94 | A run in which the permit is consumed first and the later admission is REVOKED. |
| `SipEgressProofs.RoutesAreConsumedPermits` | migrations/versions/20260920_0645-d19e0b1c2d3e_sip_egress_permits.py:222-239 | Egress routes are one-to-one with the permits ever consumed and carry their organization, peer, edge, boot and digest. |
| `SipEgressProofs.ConsumedAtMostOnce` | migrations/versions/20260920_0645-d19e0b1c2d3e_sip_egress_permits.py:195-206 | Over a whole run a permit is consumed at most once, and only as its first transition. |
| `SipEgressProofs.HistoryReplays` | migrations/versions/20260920_0645-d19e0b1c2d3e_sip_egress_permits.py:222-229 | A permit's history is a path of the transition graph from AUTHORIZED to its current state. |
| `SipEgressProofs.StepInv` | migrations/versions/20260920_0645-d19e0b1c2d3e_sip_egress_permits.py:178-243 | Every statement on admissions and permits keeps the invariant. |
| `SipEgressDecisions.AdmitExactly` | migrations/versions/20260921_0600-d19d1b1c2d3e_sip_call_admission.py:46-78 | An admission is recorded if and only if it is PENDING and the call has none; it then waits thirty seconds. |
| `SipEgressDecisions.AdmissionMovesExactly` | migrations/versions/20260921_0600-d19d1b1c2d3e_sip_call_admission.py:46-78 | In every run a PENDING admission may be withdrawn at any time, and is dispatched if and only if it is under thirty seconds old and an unused permit of its call is under thirty; nothing else of it changes, and nothing once it has settled. |
| `SipEgressDecisions.PermitInsertExactly` | migrations/versions/20260920_0645-d19e0b1c2d3e_sip_egress_permits.py:179-215 | In every run a permit is issued if and only if it is unused, the only one of its call and of its token, bound to the call row, and the admission of the call, if any, still waits; it may then be consumed for thirty seconds. |
| `SipEgressDecisions.PermitMovesExactly` | migrations/versions/20260920_0645-d19e0b1c2d3e_sip_egress_permits.py:190-215 | In every run a permit is consumed if and only if it is unused, at most thirty seconds old, its call's admission, if any, is DISPATCHED, and the transaction digest is well formed and new at the peer; it expires if and only if it is unused and older, is revoked if and only if it is unused, and ends or becomes ambiguous if and only if it was consumed. |
| `SipEgressDecisions.PermitMoveWrites` | migrations/versions/20260920_0645-d19e0b1c2d3e_sip_egress_permits.py:222-236 | An accepted move writes that row, one history entry and, on consumption, the egress route of the permit. |
| `SipEgressStore.Store.InsertAdmission` | migrations/versions/20260921_0600-d19d1b1c2d3e_sip_call_admission.py:49-54 | Whether the insert is accepted, and the whole new state. |
| `SipEgressStore.Store.UpdateAdmission` | migrations/versions/20260921_0600-d19d1b1c2d3e_sip_call_admission.py:55-71 | Whether the update is accepted, and the whole new state. |
| `SipEgressStore.Store.AdmissionFence` | migrations/versions/20260921_0600-d19d1b1c2d3e_sip_call_admission.py:79-97 | Exactly when the admission of the call lets a permit be written. |
| `SipEgressStore.Store.InsertPermit` | migrations/versions/20260920_0645-d19e0b1c2d3e_sip_egress_permits.py:182-188 | Whether the insert is accepted, admission fence first, and the whole new state. |
| `SipEgressStore.Store.UpdatePermit` | migrations/versions/20260920_0645-d19e0b1c2d3e_sip_egress_permits.py:189-239 | Whether the update is accepted, and the whole new state; a refused route insert leaves everything as it was. |
| `SipLocator.LocatorsAreTruthful` | migrations/versions/20260919_1940-d19a0b1c2d3e_sip_did_locator.py:71-95 | After every sequence of statements, direct writes included, a locator names its number's organization, account and address and is active exactly when the number is verified, inbound-enabled and its account ACTIVE. |
| `SipLocator.MissingMoves` | migrations/versions/20260919_1940-d19a0b1c2d3e_sip_did_locator.py:59-147 | How one statement moves the set of numbers without a locator: a direct deletion of a locator adds its number, an accepted insertion or removal of the number, an update that sets its flags or a direct insertion of the locator removes it, and nothing else changes it. |
| `SipLocator.MissingExactly` | migrations/versions/20260919_1940-d19a0b1c2d3e_sip_did_locator.py:59-147 | After every sequence of statements a number has no locator if and only if its locator was deleted directly and no later statement restored it. |
| `SipLocator.OneLocatorPerNumber` | migrations/versions/20260919_1940-d19a0b1c2d3e_sip_did_locator.py:100-147 | After every sequence of statements every locator has a number, and every number has a locator if and only if none was lost to a direct deletion. |
| `SipLocator.DirectDeletionLosesLocator` | migrations/versions/20260919_1940-d19a0b1c2d3e_sip_did_locator.py:59 | A directly deleted locator leaves its number without one. |
| `SipLocator.LookupIsExact` | migrations/versions/20260919_1940-d19a0b1c2d3e_sip_did_locator.py:61-66 | After every sequence of statements a lookup of an address finds exactly the numbers that accept calls on it and have a locator, at most one; it finds all that accept calls if and only if none of those lost its locator. |
| `SipLocator.KeyChangesAreRefusedExactly` | migrations/versions/20260919_1940-d19a0b1c2d3e_sip_did_locator.py:43-53 | For a number with a locator, an update is refused if and only if it changes the organization, account or address. |
| `SipLocator.StatusChangeAlwaysProjects` | migrations/versions/20260919_1940-d19a0b1c2d3e_sip_did_locator.py:123-147 | A change of account status is never refused: every locator it advances passes the fence. |
| `SipLocator.StatusWrites` | migrations/versions/20260919_1940-d19a0b1c2d3e_sip_did_locator.py:123-147 | In every run a changed status gives every locator of the account the next revision and the acceptance of its number under the new status, and touches no other. |
| `SipLocator.NumberInsertExactly` | migrations/versions/20260919_1940-d19a0b1c2d3e_sip_did_locator.py:100-121 | In every run a number is accepted if and only if it is new, on an address of its own and of an account of its organization; it then has a locator of revision one with its key and acceptance. |
| `SipLocator.NumberUpdateExactly` | migrations/versions/20260919_1940-d19a0b1c2d3e_sip_did_locator.py:43-53 | In every run an update is accepted if and only if its address stays its own, its account is of its organization, and no key column changes while it has a locator. |
| `SipLocator.NumberUpdateWrites` | migrations/versions/20260919_1940-d19a0b1c2d3e_sip_did_locator.py:100-121 | An accepted update writes the number and, if it sets a flag column, changed or not, a locator with its key and acceptance: a new one, or the old one with the next revision. |
| `SipLocator.AccountDropExactly` | migrations/versions/20260910_0100-e3f4a5b6c7d8_telephony_foundation.py:134-140 | An account is removed if and only if no number refers to it. |
| `SipLocator.RevisionsCount` | migrations/versions/20260919_1940-d19a0b1c2d3e_sip_did_locator.py:75-80 | A locator row that changes keeps its organization and advances its revision by exactly one. |
| `SipLocator.StepInv` | migrations/versions/20260919_1940-d19a0b1c2d3e_sip_did_locator.py:71-147 | Every statement, direct writes and refused ones included, keeps the invariant: owned numbers on distinct addresses and truthful locators. |
| `SipLocatorStore.Store.InsertNumber` | migrations/versions/20260919_1940-d19a0b1c2d3e_sip_did_locator.py:100-122 | Whether the insert is accepted, and the whole new state with its locator. |
| `SipLocatorStore.Store.UpdateNumber` | migrations/versions/20260919_1940-d19a0b1c2d3e_sip_did_locator.py:43-53 | Whether the update is accepted, key cascade before projection, and the whole new state. |
| `SipLocatorStore.Store.AccountProjection` | migrations/versions/20260919_1940-d19a0b1c2d3e_sip_did_locator.py:123-142 | Advancing the locators of an account row by row, in any order, accepts exactly when each passes the fence and then leaves exactly those advanced. |
| `SipLocatorStore.Store.UpdateStatus` | migrations/versions/20260919_1940-d19a0b1c2d3e_sip_did_locator.py:123-147 | Whether the status change is accepted, and the whole new state; a refused one leaves everything as it was. |
| `EdgeDialogs.CounterIsExact` | infrastructure/kamailio/edge.py:157-175 | In every interleaving the dialogs counter is the number of places reserved and not relayed, plus relayed and unfinished dialogs, plus places about to be given back, and never passes the limit. |
| `EdgeDialogs.ClampNeverActs` | infrastructure/kamailio/edge.py:169-175 | Whoever gives a place back finds the counter positive and lowers it by exactly one. |
| `EdgeDialogs.RefusedExactlyWhenFull` | infrastructure/kamailio/edge.py:609-611 | A dialog is refused for capacity if and only if every place is held. |
| `EdgeDialogs.ReturnedAtMostOnce` | infrastructure/kamailio/edge.py:327-343 | A relayed dialog gives its place back at most once, under duplicate and late replies and reuse of its identity, and is live exactly until it is on its way out. |
| `EdgeDialogs.FinishFreesExactly` | infrastructure/kamailio/edge.py:327-343 | In every run a final reply frees its dialog's identity and starts giving its place back if and only if the dialog is still live; a duplicate, and a reply after the identity passed to another owner, do nothing. |
| `EdgeDialogs.AbandonedClaimKeepsIdentity` | infrastructure/kamailio/edge.py:685-740 | A claim abandoned before its relay gives the place back but leaves its row for good, so its identity is never claimed again. |
| `EdgeDialogs.StepInv` | infrastructure/kamailio/edge.py:327-356 | Every locked section of every worker keeps the invariant. |
| `EdgeDialogs.SharedMemory.Reserve` | infrastructure/kamailio/edge.py:157-167 | Whether a place was taken and the new counter; no other counter changes. |
| `EdgeDialogs.SharedMemory.Release` | infrastructure/kamailio/edge.py:169-175 | The new counter, clamped at zero; no other counter changes. |
| `EdgeDialogs.SharedMemory.ClaimDialog` | infrastructure/kamailio/edge.py:685-709 | The row is written exactly when the identity is free. |
| `EdgeDialogs.SharedMemory.FinishDialog` | infrastructure/kamailio/edge.py:327-343 | The row is unset and the place given back exactly when the row is still the owner's. |
| `EdgeSequence.SequencesIncrease` | infrastructure/kamailio/edge.py:386-401 | Accepted requests other than ACK carry strictly increasing CSeq numbers in each direction (section 12.2.2 of RFC 3261). |
| `EdgeSequence.ForwardRequestsPassInitial` | infrastructure/kamailio/edge.py:693-702 | Accepted forward requests also pass the CSeq of the initial INVITE. |
| `EdgeSequence.AckNamesLastInvite` | infrastructure/kamailio/edge.py:388-389 | An ACK is accepted if and only if the lock is free and it names the last INVITE accepted in its direction (section 13.2.2.4 of RFC 3261). |
| `EdgeSequence.PrackConsumesOutstanding` | infrastructure/kamailio/edge.py:390-397 | Over every interleaving, a new PRACK is accepted if and only if no other holds the lock, its CSeq advances and its RAck names the RSeq kept and not cleared since and the last INVITE of its direction (section 7.2 of RFC 3262). |
| `EdgeSequence.OtherRequestsExactly` | infrastructure/kamailio/edge.py:386-401 | Over every interleaving, any other request is accepted if and only if it is no retransmission, the row is the dialog's own, its lock is free and its CSeq passes the last one of its direction, or zero where there is none. |
| `EdgeSequence.AcceptedWrites` | infrastructure/kamailio/edge.py:398-402 | An accepted request becomes the last of its direction, an INVITE also what an ACK must name, and an ACK changes neither; a request that is not accepted changes nothing. |
| `EdgeSequence.PrackNamesLastInvite` | infrastructure/kamailio/edge.py:392-396 | An accepted RAck of two numbers and a method can only mean the outstanding RSeq and that INVITE: the rendering is injective. |
| `EdgeSequence.PrackWithoutInviteExactly` | infrastructure/kamailio/edge.py:394-396 | A PRACK naming no INVITE, otherwise due, is accepted if and only if the lock is free and its direction has had none. |
| `EdgeSequence.PracksPairWithKeeps` | infrastructure/kamailio/edge.py:392-397 | Over every interleaving, every accepted PRACK consumes the RSeq of one kept reply before it, with no kept reply, no accepted PRACK and no reset in between, so no kept reply is consumed by two PRACKs. |
| `EdgeSequence.NoMorePracksThanKeeps` | infrastructure/kamailio/edge.py:392-397 | There are never more accepted PRACKs than replies whose RSeq was kept. |
| `EdgeSequence.ConsumedAgainOnlyIfKeptAgain` | infrastructure/kamailio/edge.py:284-292 | Of two accepted PRACKs, the later consumes an RSeq that a reply between them carried. |
| `EdgeSequence.ReplyKeptExactly` | infrastructure/kamailio/edge.py:289-292 | A reply writes its RSeq if and only if nothing, or nothing greater, was outstanding when it read the variable, and otherwise changes nothing; what was kept, consumed or cleared between its read and its write plays no part. |
| `EdgeSequence.UninterruptedReply` | infrastructure/kamailio/edge.py:289-292 | A reply whose read and write nothing comes between keeps its RSeq if and only if nothing greater is outstanding, as the in-place method does. |
| `EdgeSequence.UninterruptedRequest` | infrastructure/kamailio/edge.py:374-404 | A request whose checks and reset nothing comes between leaves the row and the variable the in-place method leaves. |
| `EdgeSequence.LoweredExactly` | infrastructure/kamailio/edge.py:289-292 | A reply lowers the outstanding RSeq if and only if it carries a smaller one that was not below what it read; and then the greater one was kept between its read and its write. |
| `EdgeSequence.RSeqCanFall` | infrastructure/kamailio/edge.py:289-292 | An input: two replies read before either writes, and RSeq 1 is written over RSeq 2. |
| `EdgeSequence.ResetOverwrittenExactly` | infrastructure/kamailio/edge.py:289-397 | Over a reset by a PRACK, a reply in progress writes its RSeq back if and only if it was not below what it had read; one that reads after the reset always does. |
| `EdgeSequence.ClearsNamedExactly` | infrastructure/kamailio/edge.py:392-397 | A PRACK about to reset clears the RSeq it named if and only if no reply was kept since its check, or the last one kept carries that RSeq; only replies can have come in between. |
| `EdgeSequence.KeptRSeqCanBeErased` | infrastructure/kamailio/edge.py:289-397 | An input: a reply kept between the check and the reset of a PRACK is erased, and the PRACK that names it is refused. |
| `EdgeSequence.PrackAfterReplyExactly` | infrastructure/kamailio/edge.py:284-397 | The PRACK that follows the write of a reply, is new in its direction and names that reply is accepted if and only if the reply was kept, on the value it read, or its RSeq was outstanding already. |
| `EdgeSequence.ConsumedAgainExactly` | infrastructure/kamailio/edge.py:284-397 | An RSeq that was consumed is consumed again by the next write of a reply carrying it and the next PRACK naming it if and only if nothing greater was outstanding when the reply read the variable, or it is outstanding again already. |
| `EdgeSequence.RSeqCanBeConsumedTwice` | infrastructure/kamailio/edge.py:284-397 | An input: a retransmitted reply lets RSeq 1 be consumed by two PRACKs. |
| `EdgeSequence.PrackCanNameNoInvite` | infrastructure/kamailio/edge.py:394-396 | An input: a PRACK in a direction without an INVITE is accepted with a RAck that names none. |
| `EdgeSequence.NothingAfterFinish` | infrastructure/kamailio/edge.py:380-385 | Once the row is unset or another dialog's, no further request is accepted. |
| `EdgeSequence.RAckNamesOne` | infrastructure/kamailio/edge.py:394 | Different RSeq numbers, INVITEs, or the lack of one never render to the same RAck. |
| `EdgeSequence.RSeqIsANumber` | infrastructure/kamailio/edge.py:286 | An RSeq is well formed if and only if it is the plain decimal rendering of a number from 1 to 2147483647. |
| `EdgeSequence.Dialog.ValidateSequence` | infrastructure/kamailio/edge.py:374-404 | The verdict, the new row and the new dialog variable, when no reply comes in between. |
| `EdgeSequence.Dialog.NoteReliable` | infrastructure/kamailio/edge.py:284-292 | The dialog variable after a reliable provisional reply that nothing comes between. |
| `PhaseGraph.DependencyClosure` | scripts/nxs_control/obligations.py:16-30 | The search ends; it raises if and only if a cycle or an unknown phase can be reached; otherwise it returns exactly the phases reachable in one or more steps. |
| `PhaseGraph.Search.Visit` | scripts/nxs_control/obligations.py:19-27 | A visit that raises has found a cycle or unknown phase below it; one that returns leaves the shared visited set closed, acyclic, disjoint from the ancestors, grown only by phases reachable from it. |
| `PhaseControl.Indexed` | scripts/nxs_control/core.py:124-131 | Indexing raises if and only if two items share an identifier, and otherwise maps each identifier to its item. |
| `PhaseClose.ValidateInvariants` | scripts/nxs_control/core.py:134-211 | The validating procedure, with its depth-first searches and loops, accepts exactly the documents that satisfy the declarative invariants. |
| `PhaseDecisions.ValidExactly` | scripts/nxs_control/core.py:134-211 | Validation, which goes by rows and depth-first searches, accepts exactly the documents that hold by identifier: unique identifiers, READY phases GO on READY/GO dependencies with all gates passed, FAILED and BLOCKED ones not GO, no cycle, certifications with their ancestors, obligations with legal histories, bound resolutions and effective blocks, manifests that repeat their phase and list exactly its mandatory requirements, and a project that lists exactly the READY phases. |
| `PhaseClose.ComputeClosures` | scripts/nxs_control/obligations.py:37 | One exact closure per phase, refused if and only if some phase reaches a cycle or an unknown phase. |
| `PhaseClose.CheckObligations` | scripts/nxs_control/obligations.py:44-90 | The loop over obligations accepts exactly when every obligation meets its reference, history, production, resolution and blocking rules. |
| `PhaseControl.ReadyClosureIsReady` | scripts/nxs_control/core.py:149-168 | In a valid state every phase a READY phase depends on, however far, is READY/GO. |
| `PhaseControl.CertifiedMeansResolved` | scripts/nxs_control/obligations.py:55-90 | In a valid state with a READY certification phase every production-blocking obligation is RESOLVED at a known commit by a READY/GO owner upstream of that phase. |
| `PhaseControl.EligiblePhases` | scripts/nxs_control/core.py:293-323 | The loop returns, in registry order, exactly the phases that may start next. |
| `PhaseDecisions.EligibleExactly` | scripts/nxs_control/core.py:293-323 | A phase is offered if and only if it is not READY, not blocked by status or project, rests on READY/GO phases only, and no other phase is active. |
| `PhaseDecisions.NextPhaseExactly` | scripts/nxs_control/core.py:326-333 | The next phase is the first of the registry that may start. |
| `PhaseControl.Progress` | scripts/nxs_control/core.py:286-333 | In a valid state with nothing active, a phase that is not READY and has nothing blocked at or below it is eligible or depends, however far, on one that is. |
| `PhaseControl.StalledExactly` | scripts/nxs_control/core.py:293-333 | In a valid state with nothing active, no phase is eligible if and only if every phase that is not READY is blocked or depends, however far, on a blocked one. |
| `PhaseControl.EligibleUnlessDone` | scripts/nxs_control/core.py:326-333 | In a valid state with nothing active or blocked there is no eligible phase if and only if every phase is READY. |
| `PhaseClosing.ClosePreservesValidity` | scripts/nxs_close/__main__.py:38-143 | Closing a phase whose checks pass leaves documents that satisfy every modelled invariant. |
| `PhaseClosing.Repository.Close` | scripts/nxs_close/__main__.py:31-148 | A phase is closed if and only if every check passes; then the documents are the closed ones, valid, and the lock is free, so the last validation cannot fail; otherwise nothing is written. |
| `PhaseDecisions.ClosableExactly` | scripts/nxs_close/__main__.py:38-74 | A phase may be closed if and only if the documents hold by identifier, the phase is VALIDATING on its branch with READY/GO dependencies, is the active one or the next, the lock is free or its own and fresh, nothing unresolved blocks it, and its evidence is there: a full known commit, gates, matrix and tests passed, and every listed requirement in progress, implemented or validated. |
| `PhaseDecisions.ClosureWrites` | scripts/nxs_close/__main__.py:76-143 | Closing a phase makes it READY/GO in the registry and its manifest, with commit and evidence, completes and releases it in the project, replaces its readiness entry, marks exactly its requirements VALIDATED with the reference once among their evidence, and changes nothing else. |
| `PhaseClosing.Repository.ValidateRequirements` | scripts/nxs_close/__main__.py:68-74 | The loop over the listed requirements succeeds if and only if every one exists and is satisfied, and then exactly those are marked VALIDATED with the evidence reference and the others are as they were. |
| `PhaseClose.ValidatedExactly` | scripts/nxs_close/__main__.py:68-74 | The same of the function the loop is proved equal to, for every table without repeated identifiers, a requirement listed twice included. |
| `PhaseClosing.ClosureLeadsOn` | scripts/nxs_close/__main__.py:106-111 | After a closure that leaves nothing blocked, no next phase is offered if and only if every phase is READY. |
| `SentinelLease.DispatchedAtMostOnce` | migrations/versions/20260926_0200-d20b0b1c2d3e_sentinel_execution.py:57-80 | Over any run a proposal has at most one dispatched version, and owner and generation never change after it. |
| `SentinelLease.OwnerChangesWithGeneration` | migrations/versions/20260926_0200-d20b0b1c2d3e_sentinel_execution.py:63-78 | From one version to the next the owner changes if and only if the generation rises; then it rises by one, the row is claimed and undispatched, and the lease is later. |
| `SentinelLease.GenerationHasOneOwner` | migrations/versions/20260926_0200-d20b0b1c2d3e_sentinel_execution.py:71-72 | All versions of one generation have one owner and one lease. |
| `SentinelLease.ResultIsFinal` | migrations/versions/20260926_0200-d20b0b1c2d3e_sentinel_execution.py:57-62 | A COMPLETED or AMBIGUOUS version is the last, whatever statements follow. |
| `SentinelLease.DispatchExcludesTakeover` | migrations/versions/20260926_0200-d20b0b1c2d3e_sentinel_execution.py:64-81 | At one clock reading a dispatch and a takeover of a row are never both possible. |
| `SentinelLease.LateCompletionExactly` | migrations/versions/20260926_0200-d20b0b1c2d3e_sentinel_execution.py:71-78 | At one clock reading a completion without a dispatch and a takeover are both possible if and only if the row is claimed and its lease is over. |
| `SentinelLease.ClaimExactly` | migrations/versions/20260926_0200-d20b0b1c2d3e_sentinel_execution.py:50-56 | In every run a proposal is claimed if and only if it has no row, as generation one under a lease after its start, with an identity and a key of its own. |
| `SentinelLease.TakeoverExactly` | migrations/versions/20260926_0200-d20b0b1c2d3e_sentinel_execution.py:63-70 | In every run a row is taken over if and only if it is claimed, its lease is over, the owner is another one and the new lease is not over. |
| `SentinelLease.DispatchExactly` | migrations/versions/20260926_0200-d20b0b1c2d3e_sentinel_execution.py:71-81 | In every run a row is dispatched if and only if it is claimed and its lease is not over. |
| `SentinelLease.FinishExactly` | migrations/versions/20260926_0200-d20b0b1c2d3e_sentinel_execution.py:71-86 | In every run a row is completed from either state and found ambiguous only after a dispatch, at a time not before its start, whatever its lease. |
| `SentinelLease.Store.Insert` | migrations/versions/20260926_0200-d20b0b1c2d3e_sentinel_execution.py:50-56 | Whether the claim is accepted, and the row's versions afterwards. |
| `SentinelLease.Store.Update` | migrations/versions/20260926_0200-d20b0b1c2d3e_sentinel_execution.py:57-86 | Whether the update is accepted, and the row's versions afterwards. |
| `ComplianceLease.FinishedAtMostOnce` | migrations/versions/20260927_2200-d21a0b1c2d3e_compliance_controls.py:301-330 | Every version but the last is the claim of the next generation, and a finished version is the last one, written by the owner of the generation it ends. |
| `ComplianceLease.FinishedIsFinal` | migrations/versions/20260927_2200-d21a0b1c2d3e_compliance_controls.py:308-311 | A finished row never changes again. |
| `ComplianceLease.FinishExcludesTakeover` | migrations/versions/20260927_2200-d21a0b1c2d3e_compliance_controls.py:312-323 | At one clock reading finishing and taking over are never both possible, and one of them is if and only if the row is claimed. |
| `ComplianceLease.ClaimExactly` | migrations/versions/20260927_2200-d21a0b1c2d3e_compliance_controls.py:303-306 | A plan is claimed if and only if it has no row, as generation one and not completed. |
| `ComplianceLease.TakeoverExactly` | migrations/versions/20260927_2200-d21a0b1c2d3e_compliance_controls.py:312-318 | In every run a row is taken over, whatever result it writes, if and only if it is claimed, its lease is over, the owner is another one and the new lease is not over. |
| `ComplianceLease.FinishExactly` | migrations/versions/20260927_2200-d21a0b1c2d3e_compliance_controls.py:319-323 | In every run a row is finished, in any of the three ways, if and only if it is claimed and its lease is not over. |
| `ComplianceLease.FenceAllowsOverwriteExactly` | migrations/versions/20260927_2200-d21a0b1c2d3e_compliance_controls.py:307-327 | The fence lets some update write another result into a row that stays claimed if and only if the row is claimed and its lease is over. |
| `ComplianceLease.OverwriteAcceptedExactly` | migrations/versions/20260927_2200-d21a0b1c2d3e_compliance_controls.py:307-327 | In every run such an update is accepted at a time if and only if the latest version of the row is claimed under a lease that is over by then. |
| `ComplianceLease.ResultStaysInserted` | migrations/versions/20260927_2200-d21a0b1c2d3e_compliance_controls.py:307-327 | In every run whose takeovers set owner, generation and lease only, the result is the inserted one in every version but the single one that finishes the row. |
| `ComplianceLease.TakeoverMayWriteResult` | migrations/versions/20260927_2200-d21a0b1c2d3e_compliance_controls.py:312-318 | An input: a takeover that writes another result passes the fence. |
| `ComplianceLease.Store.Insert` | migrations/versions/20260927_2200-d21a0b1c2d3e_compliance_controls.py:303-306 | Whether the claim is accepted, and the row's versions afterwards. |
| `ComplianceLease.Store.Update` | migrations/versions/20260927_2200-d21a0b1c2d3e_compliance_controls.py:307-327 | Whether the update is accepted, and the row's versions afterwards. |
| `ComplianceService.ServiceIsARun` | src/nexus_ai/compliance/service.py:540-634 | The table after any claim and execute calls is the table after the statements they sent, so what holds of every run of the fenced table holds of the service. |
| `ComplianceService.ExecutionSentExactly` | src/nexus_ai/compliance/service.py:591-634 | An execution is sent if and only if the latest version of the plan is claimed by this owner in this generation, plan and approval hold, and the lease was not over at either look at the clock; it completes that row with the call's result and changes nothing else of it. |
| `ComplianceService.ClaimSentExactly` | src/nexus_ai/compliance/service.py:540-579 | A claim is sent if and only if plan and approval hold and there is no row, or a claimed one of another owner whose lease is over; it is the first generation with an empty result, or the next one. |
| `ComplianceService.CompletedByItsOwner` | src/nexus_ai/compliance/service.py:591-634 | Over every sequence of calls a finished version was written by a call of the owner of the claim before it, for its generation, while its lease ran, with that call's result. |
| `ComplianceService.ResultWrittenOnce` | src/nexus_ai/compliance/service.py:540-634 | Over every sequence of calls a plan's result is empty in every version but the one that completes it, which is the last and carries the result of a call by the owner of the claim it ends, for that generation. |
| `ComplianceService.FinishRefusedExactly` | src/nexus_ai/compliance/service.py:591-634 | The fence refuses a finishing update the service sends if and only if the lease has run out by the fence's own clock. |
| `ComplianceService.TakeoverRefusedExactly` | src/nexus_ai/compliance/service.py:553-561 | With clock readings in order, the fence refuses a takeover the service sends if and only if the new lease has already run out. |

## Left out

- Account, profile and agent administration, vault access and reference validation: no property over runs.
- Model HTTP calls, adapters, prompt assembly and the tool engine: arbitrary inputs of the loop.
- Session start idempotency and the event payloads beyond turn, code and usage: they would add easy members only.
- The several clock readings of one agent transaction: one reading stands for them.
- The per-process lock and task map of `submit_turn`: the protocol allows every interleaving they would exclude.
- The cancellation of a task by the runtime carries no code: the journal gives it the cancelled code that is recorded.
- That a turn ever ends: a crash, or an error that nothing records, leaves a RUNNING turn by design.
- The `lease_expires_at` column of a turn row: nothing reads it in the modelled transactions; `Deadlines` states what it promises.
- Row-level security, grants, downgrades, indexes, and foreign keys to tables outside the model.
- Direct inserts into the route and permit history tables and into the egress routes: only the triggers write them in the model.
- Cell target heads and target mutation records: a revision counter and an audit log.
- Egress dialog bindings: the same fence as inbound ones with a consumed permit in place of an issued route.
- The telephony call row that a permit must match: whether it was found is an input of the statement.
- Digest, placement and upstream columns of routes and permits: one immutable column stands for them.
- TLS, certificates, peers, rate windows, header parsing and the resolver in `edge.py`: foreign calls and input checks before the modelled sections.
- JSON schemas, Git and file access of the control scripts: documents are values, and known commits and files are inputs.
- Which of several violations validation reports first: the model says whether it raises.
- Sentinel proposal states and compliance requests, plans and approvals: plain transition tables; whether plan and approval still hold is an input of the compliance calls.
- Overlapping compliance calls: each call locks its organization's control row, so the model takes them one after the other.
