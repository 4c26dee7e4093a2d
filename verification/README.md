# Verification of the execution, persistence and logging cores

This project models the hardest parts of the repository in Dafny and proves properties of the
model over all inputs and all runs. It covers:

- **Execution mode changes** (`exec/src`). A validated model has units with dependencies, and
  domains with modes and requires/excludes constraints. The planner turns a request into ordered
  stop and start lists and a set of guarded domains, the scheduler grants all-or-nothing leases,
  the engine replans under the lease, drives a backend that may answer anything, commits or
  recovers, and writes every phase to a journal that it replays when it is created again.
- **The journal file**: a binary payload codec, a checksum per frame, and the repair of a torn tail.
- **The transactional store** (`per`): snapshot transactions, one writer, streamed blobs, prefix
  cursors, resumable migration and rollback.
- **The coordinator's queue**, **streaming SHA-256**, and **the log ring buffer**.

Three forms are used, as the program's own code suggests. Code that computes becomes functions.
Objects that change their fields become classes (`ExecutionEngine`, `TransitionScheduler`,
`CycleInspector`, `CoordinatorService`, `Encoder`, `Decoder`, `FileTransitionJournal`,
`MemoryStore`, `Digest`, `RuntimeState`), whose methods and loops are proved against
specification functions. Concurrency becomes a step machine: `Protocol` has one action for each
region under the engine's mutex, each journal append, each scheduler call, each backend effect,
a crash, and the parts of a restart; `Store` has one function for each provider call; the log
runtime and the coordinator have one method for each region under their lock. Results about
these machines hold for every interleaving of their steps.

The engine class carries along, as ghost state, the run of `Protocol` that it performs, so the
theorems about all runs apply to what the class does.

Arguments that stand for the environment: the scheduler's and the backend's answers, the looks at
the cancellation flag and the tests of the clock are those of an arbitrary `Environment.World`,
which fixes the answer to the n-th question whatever it is; the engine's methods return, as ghost
results, the notes of what they asked and were told, and every note is proved to be what the world
says. Times in records are arbitrary numbers; the bytes a device accepts
before it fails, the entry at which a migration transform gives up, and what other clients of a
store do meanwhile are parameters.

## Main results

1. `ProtocolTheorems.ConstraintsAlwaysHold`: over every interleaving of concurrent transitions,
   failures, recoveries, crashes that lose any number of the last records, and restarts, the
   committed modes satisfy every constraint, in memory and in what a restart would rebuild, if and
   only if the initial modes do; `EveryConstraintIsMet` says it of each requires and each excludes
   constraint. `ConcurrentPlansAreApart`: transitions that hold leases never share a unit, an
   exclusive resource or a guarded domain.
2. `Engine.ExecutionEngine.RunRequests` and `Execute`: with transitions executed one at a time and any
   backend, every start finds its dependencies running, every stop finds no dependent running,
   and the running set stays dependency-closed and contains every bootstrap unit at each call.
   A transition succeeds if and only if the lease is granted, planning again gives the same lists,
   nobody cancels, no deadline expires, every stop is reported stopped and some attempt of every
   start reaches its state; otherwise its error is that of the last note, all notes before were
   fine, and the domain's policy decides what follows, each policy with its exact outcome.
3. `ProtocolTheorems.ReplayAcceptsIffNamed`, `RebuiltModesAgree`, `RestartLeavesAllTerminal`,
   `CrashRecovery.EveryCutRestarts` and `CutIsACrash`, for every model: the journal of any run, cut
   at any byte, reads back as the records whose frames are whole; the engine accepts them if and
   only if each of them names a defined mode; the rebuilt modes are those in memory whenever nothing
   is between commit and record; the run goes on from the repaired file, and finalizing what was
   interrupted leaves every transition terminal.
4. `Engine.ExecutionEngine.RunRequests`, `RebuiltUnits.RecordRebuilds`, `RebuiltTheorems.FallbackSettlesIff`,
   `StoppingSettlesIff` and `ForgottenStop`: over any sequential history the units that run and
   those that a restart would rebuild differ by exactly what failed transitions did and did not
   report; without such failures they are equal, and after a success they are what the modes require.
5. `JournalLayout.EventLayout`, `Offsets` and `FileJournal.FrameLayout` give the file format field by
   field, apart from the code that writes and reads it; `FileJournal.CrashCut`, `OneWrongByteIsRefused`, `JournalCodec.DecodeOfEncode` and `EncodeOfDecode`.
6. `StoreTheorems.SerialHistory`, `CommitInstallsItsEdits`, `OneWriterAtMost`, `RollbackRestores`,
   `CursorReadsItsGeneration`, `StoreQuota.QuotaHolds` and `StoreAccess.SizeLimitsHold`: the store is a serial history of its
   commits. `CommitConflictsIff`, `WedgedIff` and `FrozenIffWedged` say exactly what a rollback breaks.
7. `Migrations.MigrateInSessions`: however often a migration is interrupted, by its transform, by a
   quota or by a stop of the provider in the middle of a session, resuming it gives what one
   uninterrupted pass gives, and each source entry is applied exactly once. `Migrate` succeeds if and
   only if the plan is valid, the store lets it begin and read, the transform lasts for what is left,
   every step is within the limits, nobody stops the provider meanwhile and the generation is still
   the migration's; the sessions succeed exactly with the first attempt that meets this, and
   undisturbed ones exactly when their patience adds up (`MigrateAlone`).
8. `Scheduler.ExactIffNeverGrantedTwice`, `Coordinator.EveryRequestSucceeds`, `StreamingSha256.DigestOf` with `Sha256Example.HashOfAbc`, `LogRing.NothingIsLost`,
   `ModelInspection.InspectModel`, `CycleInspection.InspectDependencyCycles`, `KeyOrder.Scan`.

## Where the code does less than it seems to

- A request for a mode that is not defined is journalled like any other refusal
  (`exec/src/engine.cpp:288-291`), but replay refuses undefined modes (`exec/src/engine.cpp:74-81`):
  after such a request the engine cannot be created from its journal. `UndefinedModeBlocksReplay`
  gives the run for every undefined mode, `ReplayAcceptsIffNamed` the exact condition.
- Initial modes are not checked against the constraints (`exec/src/planner.cpp:13-25`), so the
  global constraint theorem is an if-and-only-if on the initial modes.
- The observed application state in the evidence of a failure is not written to the journal, so
  decoding returns the event if and only if it has no failure or its evidence has the default
  state (`DecodeOfEncode`).
- A rollback looks neither at an open writer nor at a migration in progress
  (`per/backends/memory.cpp:909-939`). A store can never change again if and only if some rollback
  succeeded while a migration was in progress (`WedgedIff`, `FrozenIffWedged`; `WedgeIsReachable`
  gives four calls), and a commit conflicts if and only if a rollback succeeded while it was open
  (`CommitConflictsIff`, `MigrationConflictsIff`).
- `Acquire` looks only before it waits whether an owner has a lease. The owner maps stay exact if and
  only if no request is ever granted to an owner that holds a lease (`ExactIffNeverGrantedTwice`);
  one call at a time for each owner, as the engine's identifiers ensure, is enough
  (`OneCallPerOwnerIsSafe`). Two waiting calls of one owner can both be granted, and the first
  release then frees what both took (`TwoCallsOfOneOwner`).
- A failed transition journals what recovery stopped and started, not what the transition itself
  had done before (`exec/src/engine.cpp:612-625`), and a restart brings the machine to what the
  journal gives (`exec/src/engine.cpp:192-216`). So a completed recovery is rebuilt as it was left if
  and only if it reports every unit that the transition touched: for a fallback, if and only if the
  fallback mode needs all that was stopped and nothing that was started (`FallbackSettlesIff`;
  falling back to the mode the domain was in is always such, `ReturnSettles`), and for a stopped
  domain, if and only if nothing had been stopped and the others need nothing that was started
  (`StoppingSettlesIff`). `ForgottenStop` gives a history after which nothing runs and a restart
  would start a unit that no mode requires.
- A start during recovery insists on readiness only for a lifecycle channel
  (`exec/src/engine.cpp:566-569`), an ordinary start for every policy but process-started
  (`exec/src/engine.cpp:402-405`); both are modelled as they are.
- After a stop of the provider an open cursor looks finished (`per/src/runtime.cpp:268-269`), so a
  migration session takes the rest of its source for empty; only the loss of its own handle keeps it
  from committing a part (`Migrations.ApplyAll`, `Migrations.Finish`).
- A session reads the checkpoint into a buffer of 4096 bytes (`per/src/runtime.cpp:495-497`): a
  migration that was interrupted behind a longer key can never be resumed (`LongKeyIsFinal`), and
  without such keys interrupted sessions get through exactly when their patience adds up
  (`MigrateAlone`, `EnoughPatience`).
- A cursor's size question, asked with empty buffers, takes an entry whose key and value are both
  empty (`Cursors.Next`); no store holds one, because keys are never empty
  (`StoreHistory.KeysKept`).

## Model

| member | source | states |
|---|---|---|
| CycleInspection.InspectDependencyCycles | exec/src/model.cpp:54-95 | For every model, duplicate identifiers and unknown dependencies included: an issue is reported if and only if the dependency graph has a cycle, and every reported stack segment is a real cycle. |
| CycleInspection.CycleInspector.VisitUnit | exec/src/model.cpp:63-88 | The recursive visit completes the unit, gives the stack back as it was, keeps every verdict reached before, finishes a unit after its dependencies as long as nothing was reported, and only adds genuine cycles. |
| CycleInspection.FinishedGraphIsAcyclic | exec/src/model.cpp:54-95 | A graph whose units can all be finished with their dependencies finished earlier has no cycle. |
| CycleInspection.PathDescends | exec/src/model.cpp:54-95 | Along a path the finishing order strictly descends. |
| CycleInspection.FirstDefinitionWins | exec/src/model.cpp:211-260 | An index filled with emplace finds the first definition of an identifier. |
| ModelInspection.InspectModel | exec/src/model.cpp:211-357 | Inspection reports no issue if and only if the model is well formed: generation, identifiers, names, timeouts, retry limits, readiness by kind, dependencies, acyclicity, domains, initial and fallback modes, membership, constraints. |
| ModelInspection.InspectIdentity | exec/src/model.cpp:23-40 | A zero or repeated identifier and an invalid or repeated name are reported, and only such; what is reserved or invalid is not remembered. |
| ModelInspection.InspectUnits | exec/src/model.cpp:221-260 | No issue if and only if every unit has a fresh nonzero identifier, a fresh valid name, positive timeouts, 1 to 100 attempts without a negative delay, a readiness policy that fits its kind, and no repeated dependency. |
| ModelInspection.InspectUnit | exec/src/model.cpp:226-259 | No issue of one unit beside its identity if and only if its timeouts, retry policy, readiness and dependencies are as required. |
| ModelInspection.InspectDomain | exec/src/model.cpp:277-312 | No issue beside the identity if and only if the domain's modes, names, selections, initial mode, recovery deadline and fallback mode are as required. |
| ModelInspection.InspectSelection | exec/src/model.cpp:286-296 | No issue if and only if a mode's units are known and distinct. |
| ModelInspection.InspectMembership | exec/src/model.cpp:314-332 | No issue if and only if a unit is in no mode exactly when it is a bootstrap unit, and bootstrap units depend on bootstrap units. |
| ModelInspection.InspectConstraints | exec/src/model.cpp:334-354 | No issue if and only if no constraint names its own mode or an unknown one and no mode is both required and excluded, although only the first kind per mode is remembered. |
| ModelInspection.SoundIsWellFormed | exec/src/model.cpp:211-357 | The checks taken together are equivalent to the well-formedness that the other proofs use; a listed mode is the one a lookup finds. |
| ExecutionModel.UnitLookup | exec/src/model.cpp:373-392 | In a validated model the unit index finds exactly the listed definitions. |
| ExecutionModel.DomainLookup | exec/src/model.cpp:373-401 | In a validated model the domain index finds exactly the listed definitions. |
| UnitOrder.VisitKeeps | exec/src/planner.cpp:230-241 | A visit puts the unit, if it is in the set, behind everything it depends on inside the set, keeps what was ordered before, and leaves nothing half visited. |
| UnitOrder.VisitOnlyReaches | exec/src/planner.cpp:230-241 | A visit adds only units that a chain of dependencies inside the set leads to. |
| UnitOrder.VisitAllKeeps | exec/src/planner.cpp:237-247 | Visiting a list keeps that order and covers the list. |
| UnitOrder.OrderIsTopological | exec/src/planner.cpp:226-252 | The forward order lists the set once, dependencies first; the reverse order lists it once, dependents first. |
| UnitOrder.ReversalSwapsDirection | exec/src/planner.cpp:248-250 | Reversing a dependencies-first order gives a dependents-first order. |
| UnitOrder.Order | exec/src/planner.cpp:226-252 | The recursive loop computes that order, a function of the set alone, in whatever order the hash set is walked. |
| Sorting.SortedWalk | exec/src/planner.cpp:243-244 | Sorting an arbitrary walk of a set gives its one ascending enumeration. |
| Planner.ValidateConstraints | exec/src/planner.cpp:202-224 | Succeeds if and only if every selected mode is defined, every mode that one of them requires is selected, and none that one of them excludes is; the error names a cause that is present. |
| Planner.ConstraintsMean | exec/src/planner.cpp:202-224 | Constraints hold if and only if, for every selected domain and every constraint of its mode, a required mode is selected and an excluded one is not. |
| Planner.RequiredUnits | exec/src/planner.cpp:164-200 | Gives exactly the bootstrap units and the units listed by the selected mode of each listed domain, exactly when every domain selects a mode it lists and the set is dependency-closed; the error tells which fails. |
| Planner.RequiredMeans | exec/src/planner.cpp:164-187 | A unit is required if and only if it is listed as a bootstrap unit or listed by the selected mode of a listed domain. |
| Planner.SelectsMeans | exec/src/planner.cpp:172-183 | A selection is complete if and only if each listed domain has one of its own listed modes. |
| Planner.InitialConfiguration | exec/src/planner.cpp:13-25 | Selects each listed domain's initial mode and the units required for it, without checking constraints. |
| Planner.BuildPlan | exec/src/planner.cpp:37-121 | Succeeds if and only if the generation fits, the target is another defined mode, every requires and excludes constraint of the proposed selection is met, every domain has a listed mode, and the required units are dependency-closed; the plan's lists are the ordered differences of the required and the running set, with the guarded domains and resources; a refusal gets the error of its cause, or of one of its causes where the modes are walked in arbitrary order. |
| Planner.PlannableMeans | exec/src/planner.cpp:37-69 | The conditions under which a request is planned, over the lists of the model. |
| Planner.CollectGuarded | exec/src/planner.cpp:107-118 | Collects the domain itself and both ends of every constraint of any listed mode that touches it. |
| Planner.GuardedMeans | exec/src/planner.cpp:107-118 | A domain is guarded if and only if it is the planned one or an end of a constraint whose other end is. |
| Planner.CollectResources | exec/src/planner.cpp:87-97 | Collects exactly the exclusive resources of the given units. |
| Planner.StopDomainUnits | exec/src/planner.cpp:123-162 | Lists, dependents first, exactly the running units that the other domains and the bootstrap set do not need, when those are dependency-closed. |
| PlanSafety.StopsStaySafe | exec/src/engine.cpp:342-364 | Along the stop list every stop finds no running dependent, and every state in between is dependency-closed with all bootstrap units. |
| PlanSafety.StartsStaySafe | exec/src/engine.cpp:382-439 | Along the start list every start finds all dependencies running, and every state in between is safe. |
| PlanSafety.PlanPartitions | exec/src/planner.cpp:71-106 | A plan divides the units: retained and stopped are what runs, retained and started are what is required, and nothing is listed twice. |
| PlanSafety.PlanLocks | exec/src/planner.cpp:87-118 | A plan locks exactly the domains that a constraint joins to its own, and exactly the exclusive resources of the units that it stops or starts. |
| PlanSafety.PlanReachesRequired | exec/src/planner.cpp:60-106 | Carrying out a whole plan leaves exactly the required units running. |
| PlanSafety.PlanIsAcquirable | exec/src/scheduler.cpp:53-61 | Every plan passes the scheduler's checks: it locks its own domain and names nothing twice. |
| PlanSafety.EqualListsLockTheSame | exec/src/engine.cpp:327-340 | Two plans for one request with equal stop and start lists lock the same domains and resources, so comparing the lists under the lease is enough. |
| Scheduler.Available | exec/src/scheduler.cpp:19-24 | True if and only if no requested identifier has an owner. |
| Scheduler.Claim | exec/src/scheduler.cpp:26-32 | Adds exactly the requested identifiers to the owner map. |
| Scheduler.ReleaseOwned | exec/src/scheduler.cpp:34-43 | Removes exactly the identifiers of the owner. |
| Scheduler.TransitionScheduler.Enter | exec/src/scheduler.cpp:49-69 | Waits if and only if the owner is not zero, holds no lease, and names at least one domain and nothing twice; each failing check has its error; any number of calls may wait, also for one owner. |
| Scheduler.TransitionScheduler.Wake | exec/src/scheduler.cpp:70-83 | Grants everything at once exactly when everything is free, and otherwise changes nothing. |
| Scheduler.TransitionScheduler.Expire | exec/src/scheduler.cpp:74-77 | A call whose deadline passes leaves without having held anything. |
| Scheduler.TransitionScheduler.Release | exec/src/scheduler.cpp:86-95 | Removes the lease and everything that the owner maps give to its owner. |
| Scheduler.TransitionScheduler.Serve | exec/src/scheduler.cpp:49-95 | Whatever calls enter, wake, expire and release, the object is in the state that the specification gives for that history. |
| Scheduler.GrantIsExactIff | exec/src/scheduler.cpp:67-83 | One grant keeps the owner map exact if and only if the owner has no lease at that moment. |
| Scheduler.ExactIffNeverGrantedTwice | exec/src/scheduler.cpp:67-95 | Over every run the owner maps are the disjoint union of the live leases in every state if and only if no request is ever granted to an owner that holds a lease. |
| Scheduler.OneCallPerOwnerIsSafe | exec/src/scheduler.cpp:49-95 | If no call enters for an owner that has another call waiting, the owner maps are exact and a waiting request holds nothing, in every state. |
| Scheduler.TwoCallsOfOneOwner | exec/src/scheduler.cpp:67-95 | Two calls of one owner wait together and are both granted; the first release frees what both took, and another owner gets what the second still counts on. |
| Scheduler.OwnedLeasesAreDisjoint | exec/src/scheduler.cpp:79-82 | No two live leases share a domain, unit or resource. |
| Scheduler.AvailableMeansDisjoint | exec/src/scheduler.cpp:70-73 | A request is available exactly when it shares nothing with a live lease. |
| ModeConstraints.ConstraintIsGuarded | exec/src/planner.cpp:107-118 | Both ends of every constraint that involves a domain are guarded by it. |
| ModeConstraints.HoldAroundIsLocal | exec/src/planner.cpp:202-224 | Whether the constraints around a domain hold depends on its guarded domains only. |
| ModeConstraints.OneDomainChanges | exec/src/engine.cpp:445-448 | Changing one domain's mode keeps all constraints if those around it hold afterwards. |
| Replay.ReplayJournal | exec/src/engine.cpp:68-159 | The replay loop accepts a journal exactly when it accepts it event by event, and rebuilds the folded state. |
| Replay.ReplayEvent | exec/src/engine.cpp:68-158 | One event is accepted under exactly the stated conditions, and changes modes, running units, transitions, plans and the next identifier as specified. |
| Replay.ReplayFailure | exec/src/engine.cpp:117-143 | A failure's recovered mode and recorded stops and starts are applied if and only if they name known objects. |
| Replay.PrefixIsAccepted | exec/src/engine.cpp:68-159 | Every prefix of an accepted journal is accepted. |
| Replay.RejectedPrefixRejects | exec/src/engine.cpp:74-81 | One record with an identity that the model does not define makes the whole journal unacceptable. |
| Replay.RecordsAgree | exec/src/engine.cpp:54-91 | In an accepted journal every record of a transition has the identity of the last one, and a phase that may come to it. |
| Replay.AcceptedIsConsistent | exec/src/engine.cpp:54-91 | Any two records of one transition in an accepted journal name the same domain, source and target; a terminal phase is final, a recovery ends as failed or as a failed recovery, and otherwise the phases go on in their order. |
| ProtocolSteps.StepKeeps | exec/src/engine.cpp:258-715 | Every step of the concurrent protocol keeps the invariant: plans fit their transitions, leases are disjoint and cover the guarded domains, constraints around a leased domain stay settled between replan and commit, and the replayed journal matches memory. |
| ProtocolSteps.CommitStepKeeps | exec/src/engine.cpp:445-448 | Committing a target keeps all constraints, because the lease has frozen every constraint neighbour since the replan. |
| ProtocolSteps.CommitFallbackKeeps | exec/src/engine.cpp:640-656 | Committing a fallback mode keeps all constraints under the same lease. |
| ProtocolSteps.ReplanKeeps | exec/src/engine.cpp:327-340 | Planning again under the lease keeps the invariant: a transition goes on only when the constraints around its domain hold with its target, and ends otherwise. |
| ProtocolSteps.AcceptKeeps | exec/src/engine.cpp:258-290 | Entering a request planned from any baseline, current or projected, keeps the invariant. |
| ProtocolSteps.SuccessKeeps | exec/src/engine.cpp:449-453 | The final success record keeps the invariant, by which the replayed modes agree with memory for every settled domain. |
| ProtocolSteps.RecoveredKeeps | exec/src/engine.cpp:682-686 | The record that ends a recovery keeps the invariant: after a fallback it carries the fallback mode, so the replayed modes agree with memory. |
| ProtocolSteps.RestartKeeps | exec/src/engine.cpp:54-239 | A restart from the replayed journal re-establishes the invariant, with nothing leased and unfinished transitions marked interrupted. |
| ProtocolSteps.PrefixesKept | exec/src/engine.cpp:506-526 | After every step, what a crash leaves that keeps any number of the records is a journal as good as the whole one. |
| ProtocolTheorems.RunKeepsInvariant | exec/src/engine.cpp:258-715 | Every state of every run, of every model, crashes that lose records and restarts included, satisfies the invariant, and so does what any crash at that point would leave. |
| ProtocolTheorems.ConstraintsAlwaysHold | exec/src/engine.cpp:317-340 | All reachable committed modes, in memory and rebuilt from any number of the records, satisfy all constraints if and only if the initial modes do. |
| ProtocolTheorems.EveryConstraintIsMet | exec/src/planner.cpp:202-224 | The modes in memory at any point of any run, and those rebuilt from any number of its records, are defined, with every required mode selected and no excluded one, if this is so of the initial modes. |
| ProtocolTheorems.ConcurrentPlansAreApart | exec/src/engine.cpp:317-325 | In every state of every run, two transitions between lease and final record stop or start different units, use different exclusive resources, and are guarded by different domains. |
| ProtocolTheorems.ReplayAcceptsIffNamed | exec/src/engine.cpp:68-159 | Of the journal of any run, replay accepts the first k records, for every k, if and only if each of them names a defined mode. |
| ProtocolTheorems.NamedRequestsStayClean | exec/src/engine.cpp:258-304 | If every request so far named a defined mode, so does every record and every transition. |
| ProtocolTheorems.NamedRequestsReplay | exec/src/engine.cpp:54-159 | If requests name defined modes, replay accepts any number of the first records at every point of the run. |
| ProtocolTheorems.RebuiltModesAgree | exec/src/engine.cpp:506-526 | The rebuilt modes equal those in memory whenever no transition is between its commit and its final record. |
| ProtocolTheorems.RestartSettles | exec/src/engine.cpp:172-239 | After a restart every transition is terminal or interrupted and can be finalized. |
| ProtocolTheorems.RestartLeavesAllTerminal | exec/src/engine.cpp:229-238 | Finalizing the interrupted transitions one by one is a run that ends with every transition terminal. |
| ProtocolTheorems.UndefinedModeBlocksReplay | exec/src/engine.cpp:288-291 | For every model and every undefined mode, of a defined domain or not, there is a two-step run whose refused request leaves a journal that replay rejects. |
| Engine.ExecutionEngine.constructor | exec/src/engine.cpp:40-44 | A fresh engine runs exactly the initially required units, which is a safe running set and what its empty journal rebuilds. |
| Engine.ExecutionEngine.Record | exec/src/engine.cpp:506-526 | Appends one record with the transition's plan and keeps the snapshot it carries; the running units that replay rebuilds change by exactly what the record reports: recovery stops and starts of a failure, the plan's lists at a success. |
| Engine.ExecutionEngine.AcceptModeFrom | exec/src/engine.cpp:258-304 | Accepts exactly plannable requests, with the plan for the baseline, and records a refusal as failed with an error of its cause otherwise; the rebuilt units stay. |
| Engine.ExecutionEngine.Acquire | exec/src/engine.cpp:317-325 | Takes the lease of the plan exactly when it is granted, or ends the transition as deadline exceeded without effect. |
| Engine.ExecutionEngine.Replan | exec/src/engine.cpp:327-340 | Goes on exactly when planning again gives the same lists; otherwise the transition ends without effect, as superseded if the request can still be planned and with the planner's error if not. |
| Engine.ExecutionEngine.StopUnits | exec/src/engine.cpp:348-364 | The loop is done if and only if nobody cancelled and every stop was reported stopped; it breaks off at the first bad note, with the error of that note, at the unit behind those stopped; the running set loses exactly the units stopped, a prefix of the list, and every call is safe. |
| Engine.ExecutionEngine.StartUnit | exec/src/engine.cpp:387-433 | Rounds of a clock test, a start and a clean-up stop: the unit is started if and only if an attempt reached its state with no bad note before; otherwise a deadline or a clean-up failed, or exactly as many attempts as allowed were made; the error is that of the last note, the evidence that of the last observation that stays; all calls are safe. |
| Engine.ExecutionEngine.RestartUnit | exec/src/engine.cpp:554-597 | The attempts during recovery, likewise, with the state that recovery asks for; exactly an expired deadline is not blamed on the unit. |
| Engine.ExecutionEngine.StartUnits | exec/src/engine.cpp:382-439 | The loop is done if and only if nobody cancelled, no deadline expired, every clean-up stop was reported stopped and some attempt of every unit reached its state; the running set gains exactly the units started, a prefix of the list, and every call is safe. |
| Engine.ExecutionEngine.ApplyRecoveryPlan | exec/src/engine.cpp:528-610 | Succeeds if and only if every stop and start was carried out; the report lists exactly the units stopped and started, prefixes of the plan, and names the unit that failed, unless the deadline expired; a plan that succeeds leaves exactly its required units; partial plans stay safe. |
| Engine.ExecutionEngine.RecoverToFallback | exec/src/engine.cpp:640-656 | Succeeds if and only if the fallback mode can be planned from what is left and the plan is carried out; then the mode is committed and exactly its required units run, and otherwise no mode changes and the cause is reported. |
| Engine.ExecutionEngine.RecoverByStopping | exec/src/engine.cpp:657-670 | Succeeds if and only if the units to stop can be told and all are stopped; then exactly the running units that the others need are left; the modes stay. |
| Engine.ExecutionEngine.Recover | exec/src/engine.cpp:612-686 | Each policy gets its own end, with its exact outcome: holding changes nothing and records the phase of the error; a fallback, a stopped domain and a request for system recovery succeed exactly as stated; any other policy fails as an internal error; what the record reports is what was done; calls and running set stay safe. |
| Engine.ExecutionEngine.Fail | exec/src/engine.cpp:688-715 | Records cancelled, deadline exceeded or superseded for exactly these error codes and failed for every other, and releases the lease. |
| Engine.ExecutionEngine.RecordDecision | exec/src/engine.cpp:703-714 | The terminal record carries the failure, with the phase for its code written out, and changes nothing that replay rebuilds. |
| Engine.ExecutionEngine.CleanUp | exec/src/engine.cpp:418-429 | A failed attempt goes on exactly when the clean-up stop is reported stopped; otherwise its error and evidence are taken over. |
| Engine.ExecutionEngine.AskForRecovery | exec/src/engine.cpp:671-672 | A request for system recovery touches no unit and no mode, and ends as it is answered. |
| Engine.ExecutionEngine.RecoverAs | exec/src/engine.cpp:640-686 | The recovery that the domain's policy asks for, with its exact outcome. |
| Engine.ExecutionEngine.BreakOff | exec/src/engine.cpp:349-361 | A cancelled loop ends as cancelled and leaves everything; any other broken loop goes to recovery. |
| Engine.ExecutionEngine.Perform | exec/src/engine.cpp:342-453 | Once planned again, the transition succeeds if and only if both loops were carried out; otherwise it ends where the first of them broke off. |
| Engine.ExecutionEngine.CommitMode | exec/src/engine.cpp:441-453 | Sets the target mode, records success, and makes replay apply the plan's stops and starts. |
| Engine.ExecutionEngine.Execute | exec/src/engine.cpp:306-454 | Succeeds if and only if the lease was granted, planning again gave the same lists, nobody cancelled, no deadline expired, every stop was reported stopped and some attempt of every start reached its state; success sets the mode, leaves exactly the required units running and journals the plan. Otherwise the phase and the error are those of the refused lease, of the outdated plan, or of the last note with the recovery that the policy asks for. Safety is kept at every call; the drift between running and rebuilt units is exact. |
| Engine.ExecutionEngine.RunRequests | exec/src/engine.cpp:456-463 | Over any history of requests executed one at a time: all backend calls are safe, the running set stays safe, and the units that run and those that a restart would rebuild drift apart by exactly what transitions touched and did not report; if each reported what it touched, they stay equal, and replay of a clean journal gives them. |
| Engine.ExecutionEngine.RunRequest | exec/src/engine.cpp:456-463 | If running and rebuilt units were equal, they still are after one request if and only if its record reports every unit that it touched; after a success both are exactly what the new modes require. |
| Environment.StopAdds | exec/src/engine.cpp:348-364 | One more stop: the notes stay favourable exactly when it is reported stopped, and otherwise break off with its error. |
| Environment.TryingOn | exec/src/engine.cpp:391-433 | One more note of the attempts: what is bad ends them, a start that reaches its state is seen, and the last attempt allowed exhausts them. |
| Environment.StartAdds | exec/src/engine.cpp:382-439 | One more unit of the start loop: started exactly when its attempts say so, and otherwise the plan is not carried out. |
| Environment.BothLoops | exec/src/engine.cpp:348-439 | Stops and starts together are carried out exactly when each loop is. |
| RebuiltUnits.RecordRebuilds | exec/src/engine.cpp:117-158 | In every reachable state, one more record changes the units that replay rebuilds by exactly what it reports. |
| RebuiltUnits.RebuiltIsReplayed | exec/src/engine.cpp:54-159 | A journal whose records name defined modes replays to exactly the rebuilt units. |
| RebuiltUnits.EndingDrifts | exec/src/engine.cpp:117-158 | A failed transition makes running and rebuilt units differ by what it touched and its record does not report, and agree on all that it reports. |
| RebuiltUnits.SettledIff | exec/src/engine.cpp:612-625 | From agreement, agreement is kept if and only if every touched unit is reported. |
| RebuiltUnits.ReportedIsSettled | exec/src/engine.cpp:456-463 | If every transition of a history reports what it touched, nothing drifts. |
| RebuiltTheorems.FallbackSettlesIff | exec/src/engine.cpp:640-656 | A completed fallback reports all that the failed transition touched if and only if the fallback mode needs everything stopped and nothing started; it leaves exactly its required units. |
| RebuiltTheorems.ReturnSettles | exec/src/engine.cpp:640-656 | Falling back to the mode that the domain was in always does. |
| RebuiltTheorems.StoppingSettlesIff | exec/src/engine.cpp:657-670 | A completed stop of the domain does if and only if nothing had been stopped before and the other domains need nothing that had been started. |
| RebuiltTheorems.ForgottenStop | exec/src/engine.cpp:192-216 | A concrete history of one request: afterwards nothing runs, nothing is required, and the rebuilt units contain the stopped unit. |
| JournalCodec.TakeOfPutEvent | exec/src/file_journal.cpp:145-329 | Reading a written event gives it back, up to the observed state, and leaves what follows. |
| JournalCodec.PutOfTakeEvent | exec/src/file_journal.cpp:145-329 | Whatever is read as an event is exactly what writing that event gives. |
| JournalCodec.DecodeOfEncode | exec/src/file_journal.cpp:145-329 | Decoding an encoded event gives the event if and only if it has no failure or its evidence has the default state, and otherwise the event with the default state. |
| JournalCodec.EncodeOfDecode | exec/src/file_journal.cpp:219-329 | Every payload that version 2 accepts re-encodes to the same bytes. |
| JournalLayout.EventLayout | exec/src/file_journal.cpp:148-209 | The payload of every encodable event is its fields in the order of the format: generation, transition, domain, source and target, phase, time, failure with its recovery report, plan; the numbers of phases, error codes and actions are written out. |
| JournalLayout.Offsets | exec/src/file_journal.cpp:148-158 | Generation at byte 0, transition at 8, domain at 16, source at 24, target at 32, phase at 40, time at 41, the failure flag at 49 of every payload. |
| JournalLayout.FailureLayout | exec/src/file_journal.cpp:158-196 | The fields of a failure: error, unit, evidence, action and flags, recovery error, recovered mode, stopped and started units. |
| JournalLayout.PlanLayout | exec/src/file_journal.cpp:197-209 | The fields of a plan: generation, domain, source, target, and the five lists. |
| JournalLayout.LittleIsPut | exec/src/file_journal.cpp:34-41 | Byte k of a written integer has the weight 256 to the k. |
| JournalLayout.DecodeOfVersionOne | exec/src/file_journal.cpp:219-329 | A version 1 payload decodes to its event; a failure in it reports that nothing was done: observed configuration held, not attempted, not succeeded, no error, no mode, no units. |
| JournalLayout.VersionOneOfDecode | exec/src/file_journal.cpp:219-329 | Every payload that version 1 accepts is the version 1 form of what it decodes to. |
| ByteCodec.GetOfPut | exec/src/file_journal.cpp:32-75 | Little-endian integers within their width survive. |
| ByteCodec.PutOfGet | exec/src/file_journal.cpp:32-75 | Every byte sequence is the encoding of the integer read from it. |
| ByteCodec.TakeOfPutIds | exec/src/file_journal.cpp:116-142 | Identifier lists survive, although the count is checked against the bytes that remain. |
| ByteCodec.PutOfTakeIds | exec/src/file_journal.cpp:128-142 | Whatever is read as a list is exactly its encoding. |
| JournalPayload.Encoder.Integer | exec/src/file_journal.cpp:34-41 | The loop appends exactly the low bytes, lowest first. |
| JournalPayload.Encoder.Ids | exec/src/file_journal.cpp:116-126 | Appends count and identifiers, or refuses a list that is too long and appends nothing. |
| JournalPayload.EncodeEvent | exec/src/file_journal.cpp:145-217 | The encoder object writes exactly the fields of the format in their order, or nothing when a length or the record size is exceeded. |
| JournalPayload.Decoder.Integer | exec/src/file_journal.cpp:64-76 | Reads exactly the specified integer and moves past it, or refuses. |
| JournalPayload.Decoder.Ids | exec/src/file_journal.cpp:128-142 | The loop reads exactly the specified list, or refuses. |
| JournalPayload.DecodeEvent | exec/src/file_journal.cpp:219-329 | The decoder object accepts exactly the specified payloads of either version, and what it accepts is, field by field, the format of that version for the event it gives. |
| Crc.Crc32 | exec/src/file_journal.cpp:104-114 | The bit loop computes the specified checksum. |
| Crc.ChecksumOfLetter | exec/src/file_journal.cpp:104-114 | The checksum of the letter a is 0xE8B7BE43. |
| Bytes.OctetCounts | exec/src/file_journal.cpp:106-107 | The machine word of a byte has the byte's value. |
| Crc.ChecksumIsRfc1952 | exec/src/file_journal.cpp:104-114 | The checksum is the one of the table-driven sample code in section 8 of RFC 1952. |
| Crc.OneByteChangesChecksum | exec/src/file_journal.cpp:104-114 | Equal-length payloads that differ in exactly one byte have different checksums. |
| Crc.ShiftIsInjective | exec/src/file_journal.cpp:108-111 | The shift step loses no information. |
| FileJournal.GetOfPutHead | exec/src/file_journal.cpp:331-354 | A frame header survives, checksum included. |
| FileJournal.FrameLayout | exec/src/file_journal.cpp:387-396 | A frame is the letters OVFJ, version 2, two zero bytes, the length and the checksum lowest byte first, and the payload. |
| FileJournal.HeaderBytes | exec/src/file_journal.cpp:434-442 | A header is accepted if and only if it has the letters, version 1 or 2, zero reserved bytes and a length within the limit. |
| FileJournal.ScanOfCut | exec/src/file_journal.cpp:406-468 | A file cut at any byte reads back as the events whose frames are whole. |
| FileJournal.WholeFramesAreMost | exec/src/file_journal.cpp:406-468 | Those frames fit before the cut and the next one does not. |
| FileJournal.CrashCut | exec/src/file_journal.cpp:382-468 | For any appended events and any cut: reading back gives exactly the whole events, the file is truncated to exactly their frames, and one more append reads back as those events and the new one. |
| FileJournal.AppendAfterRepair | exec/src/file_journal.cpp:382-468 | For any accepted file of either version, an append after the repair reads back behind exactly what was read. |
| FileJournal.OneWrongByteIsRefused | exec/src/file_journal.cpp:456-458 | A frame with exactly one changed payload byte is refused, whatever stands before and after it. |
| FileJournal.FileTransitionJournal.Append | exec/src/file_journal.cpp:382-404 | Appends exactly the event's frame, a prefix of it when the device stops, or nothing when the event cannot be encoded. |
| FileJournal.FileTransitionJournal.Replay | exec/src/file_journal.cpp:406-468 | The loop returns the specified events and truncates the file to the kept bytes, or refuses and leaves it alone. |
| FileJournal.FileTransitionJournal.NextFrame | exec/src/file_journal.cpp:412-463 | Reads the frame at a position as specified: torn, corrupt, or an event and its length. |
| CrashRecovery.EveryCutRestarts | exec/src/engine.cpp:46-159 | The journal file of any run, cut at any byte, reads back as the records whose frames are whole; the engine accepts them if and only if each names a defined mode; if the initial modes satisfy the constraints, so do the rebuilt ones. |
| CrashRecovery.ReplayOfJournaled | exec/src/engine.cpp:68-159 | Replay does not depend on the observed state that the journal format leaves out. |
| CrashRecovery.CutModesFit | exec/src/engine.cpp:68-159 | What is rebuilt from any number of a run's records satisfies the constraints, if the initial modes do. |
| CrashRecovery.CutIsACrash | exec/src/file_journal.cpp:406-468 | Cutting the file at any byte and repairing it is a crash step of the protocol: the run goes on, and the file holds exactly the frames of the records that it kept. |
| KeyOrder.EntriesAreOrdered | per/backends/memory.cpp:18-19 | Walking the ordered map lists every entry once, in strictly ascending lexicographic order. |
| KeyOrder.LessMeans | per/src/runtime.cpp:546-551 | One key is before another if and only if, at their first difference, it ends or has the smaller byte. |
| KeyOrder.PrefixIsContiguous | per/backends/memory.cpp:607-615 | Between a prefix and a key that has it, every key has it. |
| KeyOrder.Scan | per/backends/memory.cpp:595-624 | Scanning from the lower bound while the prefix matches yields exactly the entries with that prefix, in order. |
| MemoryStore.MemoryStore.BeginScan | per/backends/memory.cpp:595-624 | Refines the step: a cursor opens exactly on an unfinished read transaction and holds the matching entries of its snapshot. |
| MemoryStore.MemoryStore.Advance | per/backends/memory.cpp:626-657 | Refines the step: delivers the next entry and moves on if it fits the buffers, reports its sizes and stays if not; a handle that is not open answers like a cursor at its end. |
| MemoryStore.MemoryStore.EndScan | per/backends/memory.cpp:659-663 | Refines the step. |
| Cursors.Next | per/src/runtime.cpp:259-290 | Asking for sizes and then reading delivers the next entry once; exactly an entry with empty key and value is lost, and a dropped cursor looks finished. |
| Cursors.ReadAll | per/src/runtime.cpp:259-290 | Reading to the end delivers each matching entry of the snapshot exactly once, in key order, since keys are not empty. |
| MemoryStore.MeasureValues | per/backends/memory.cpp:119-125 | The loop adds up the sizes of all keys and values. |
| MemoryStore.MemoryStore.BeginTransaction | per/backends/memory.cpp:239-284 | Refines the step: snapshot and generation taken, one writer, refused during a migration or at another generation. |
| MemoryStore.MemoryStore.GetValue | per/backends/memory.cpp:303-325 | Finds the value exactly when the open transaction sees the key, with its size, and delivers it exactly when there is a buffer that is large enough; no buffer at all is too small even for an empty value. |
| MemoryStore.MemoryStore.PutValue | per/backends/memory.cpp:327-353 | Refines the step: the writer's own values change, within all quotas, or nothing does. |
| MemoryStore.MemoryStore.EraseValue | per/backends/memory.cpp:355-369 | Refines the step and tells whether the key was there. |
| MemoryStore.MemoryStore.CommitTransaction | per/backends/memory.cpp:371-396 | Refines the step: installs the values at the next generation, or conflicts; the writer ends either way. |
| MemoryStore.MemoryStore.AbortTransaction | per/backends/memory.cpp:398-410 | Refines the step: only an unfinished writer frees the writer flag. |
| MemoryStore.MemoryStore.Close | per/backends/memory.cpp:412-424 | Refines the step. |
| MemoryStore.MemoryStore.OpenBlob | per/backends/memory.cpp:426-452 | Refines the step: the blob is copied at the current generation. |
| MemoryStore.MemoryStore.ReplaceBlob | per/backends/memory.cpp:454-501 | Refines the step: one writer, quotas checked for the announced size. |
| MemoryStore.MemoryStore.Read | per/backends/memory.cpp:503-519 | Succeeds exactly for a range inside an open blob, with its bytes. |
| MemoryStore.MemoryStore.Write | per/backends/memory.cpp:521-538 | Refines the step: only the next bytes of the announced size are accepted. |
| MemoryStore.MemoryStore.FinishBlob | per/backends/memory.cpp:540-565 | Refines the step: a complete blob is installed at the next generation, or conflicts. |
| MemoryStore.MemoryStore.AbandonBlob | per/backends/memory.cpp:567-579 | Refines the step. |
| MemoryStore.MemoryStore.ReleaseBlob | per/backends/memory.cpp:581-593 | Refines the step. |
| MemoryStore.MemoryStore.ResetStore | per/backends/memory.cpp:665-717 | Refines the step: the loop builds the replacement, or refuses a bad or repeated entry and changes nothing. |
| MemoryStore.MemoryStore.OpenMigration | per/backends/memory.cpp:741-811 | Refines the step: a new migration starts empty at the current generation, a matching one is resumed, another is refused. |
| MemoryStore.MemoryStore.Apply | per/backends/memory.cpp:813-850 | Refines the step: source keys must ascend; the staged values, the checkpoint and the count change together. |
| MemoryStore.MemoryStore.FinishMigration | per/backends/memory.cpp:852-884 | Refines the step: installs the staged values and the target schema and keeps what was there for a rollback. |
| MemoryStore.MemoryStore.Interrupt | per/backends/memory.cpp:886-895 | Refines the step. |
| MemoryStore.MemoryStore.Leave | per/backends/memory.cpp:897-907 | Refines the step. |
| MemoryStore.MemoryStore.RollbackStore | per/backends/memory.cpp:909-939 | Refines the step: restores contents and schema at the next generation, whoever is writing or migrating. |
| MemoryStore.MemoryStore.StopProvider | per/backends/memory.cpp:134-159 | Refines the step: drops every handle, cursors included, and frees the writer and the migration. |
| MemoryStore.MemoryStore.Serve | per/backends/memory.cpp:134-939 | Whatever is called on a new store, the object is in the state that the specification gives for these calls, so the theorems about all runs hold of it. |
| StoreHistory.ReplacementMeans | per/backends/memory.cpp:691-701 | The replacement can be built if and only if every entry is allowed and all keys differ, and then it holds exactly the entries. |
| StoreHistory.CallKeepsInvariant | per/backends/memory.cpp:134-939 | Every provider call keeps the store invariant: history by generation, snapshots, streamed bytes, cursors, writer flag, fresh handles, nonempty keys, migration and rollback state. |
| StoreHistory.SnapshotKept | per/backends/memory.cpp:239-424 | After every call a reader's values are those of its generation and a writer's are those with its own edits. |
| StoreHistory.StreamKept | per/backends/memory.cpp:426-593 | After every call a blob being written holds the bytes given so far and a blob being read that of its generation. |
| StoreHistory.CursorKept | per/backends/memory.cpp:595-663 | After every call an open cursor holds the matching entries of its generation. |
| StoreHistory.WriterKept | per/backends/memory.cpp:239-593 | After every call the writer flag is set exactly when one unfinished writer exists. |
| StoreHistory.KeysKept | per/backends/memory.cpp:327-353 | No call ever stores an empty key. |
| StoreTheorems.RunKeepsInvariant | per/backends/memory.cpp:134-939 | The invariant holds after every sequence of calls. |
| StoreTheorems.SerialHistory | per/backends/memory.cpp:371-396 | Values, blobs and schema change only in a call that raises the generation by exactly one, and earlier generations stay on record. |
| StoreTheorems.HistoryIsPermanent | per/backends/memory.cpp:371-396 | Over any later run the contents at an earlier generation stay on record. |
| StoreTheorems.ReaderSeesItsGeneration | per/backends/memory.cpp:239-284 | A read transaction always sees the values of the generation it began at. |
| StoreTheorems.CursorReadsItsGeneration | per/backends/memory.cpp:595-657 | An open cursor always delivers the matching entries, in key order, of the generation at which its read transaction began. |
| StoreTheorems.OneWriterAtMost | per/backends/memory.cpp:263-276 | There are never two unfinished writers, the flag says whether there is one, and none exists during a migration. |
| StoreTheorems.CommitInstallsItsEdits | per/backends/memory.cpp:371-396 | A commit succeeds exactly when the generation is still the writer's, and installs exactly its own puts and erases over the contents it began with; otherwise it conflicts and changes no contents. |
| StoreTheorems.BlobCommitInstallsItsBytes | per/backends/memory.cpp:540-565 | A committed blob is exactly the bytes streamed into it, over the contents at its generation. |
| StoreTheorems.RollbackRestores | per/backends/memory.cpp:909-939 | A rollback is possible exactly once after a migration commit, and restores the contents and schema that the migration replaced, whatever was committed since. |
| StoreTheorems.ResetInstalls | per/backends/memory.cpp:690-716 | A reset that succeeds leaves exactly the given entries, all allowed and with different keys, no blobs, and the same schema. |
| StoreTheorems.OnlyRollbackConflicts | per/backends/memory.cpp:371-396 | In a run without rollbacks no commit of a transaction, blob or migration in progress conflicts. |
| StoreTheorems.CommitConflictsIff | per/backends/memory.cpp:371-396 | In any run, the commit of an open transaction or of a complete blob conflicts if and only if a rollback succeeded while it was open. |
| StoreTheorems.OutOfDateIff | per/backends/memory.cpp:909-939 | An open writer is behind the generation if and only if a rollback succeeded while it was open. |
| StoreTheorems.MigrationConflictsIff | per/backends/memory.cpp:852-864 | The commit of a migration in progress conflicts if and only if some rollback succeeded while a migration was in progress. |
| StoreTheorems.WedgedIff | per/backends/memory.cpp:909-939 | A store is wedged if and only if some rollback of the run succeeded while a migration was in progress. |
| StoreTheorems.WedgedForever | per/backends/memory.cpp:852-864 | From then on no sequence of calls changes contents or generation. |
| StoreTheorems.FrozenIffWedged | per/backends/memory.cpp:852-939 | No sequence of calls ever changes a store again if and only if it is wedged. |
| StoreTheorems.RescueChanges | per/backends/memory.cpp:665-884 | A store that is not wedged is changed by two or three calls, whatever handles are open. |
| StoreTheorems.WedgedRefusesWriters | per/backends/memory.cpp:263-268 | A wedged store refuses new writers, resets, rollbacks and migration commits. |
| StoreTheorems.WedgeIsReachable | per/backends/memory.cpp:909-939 | Four concrete calls reach such a store. |
| StoreQuota.SizeWithout | per/backends/memory.cpp:119-125 | The size of a map is the size of any one entry and of the others, although it is added up in key order. |
| StoreQuota.QuotaHolds | per/backends/memory.cpp:343-349 | Until a migration is committed, values and blobs together stay within the entry limit and the capacity, over every run: puts, erases, streamed blobs and resets included. |
| StoreAccess.BeginOkIff | per/backends/memory.cpp:239-284 | Exactly when a transaction may begin: an open handle, room for one more, and for a writer write access, no other writer, no migration and the expected generation; a conflict only for the last. |
| StoreAccess.ExpectedGeneration | per/backends/memory.cpp:269-281 | Over every run, a writer that begins with an expected generation begins with exactly the values of that generation. |
| StoreAccess.ReadersNeverChange | per/backends/memory.cpp:256-258 | From any point of any run at which nothing is open for writing, no number of calls without write access changes contents or generation. |
| StoreAccess.SizeLimitsHold | per/backends/memory.cpp:335-349 | Over every run, everything stored, staged or kept for a rollback has nonempty keys and keys, values and blobs within their limits. |
| Migrations.ForeignLeavesMigration | per/backends/memory.cpp:263-268 | While a migration is in progress, no call of another client other than a rollback changes its source or its state; exactly a stop takes its handles away. |
| Migrations.ForeignLeavesCursor | per/backends/memory.cpp:134-159 | Other clients leave the cursor of a session where it was, or a stop has taken it away and the handle of the migration with it. |
| Migrations.SkipsWhatIsDone | per/src/runtime.cpp:546-551 | Comparing with the checkpoint skips exactly the entries already applied. |
| Migrations.ApplyReaches | per/backends/memory.cpp:813-850 | Applying the next entry extends the staged fold by exactly that entry. |
| Migrations.ApplyOkIff | per/backends/memory.cpp:813-850 | The next entry is applied if and only if the handle is there, its target is within the limits and so is everything migrated up to there; it always lies behind the checkpoint. |
| Migrations.BeginOkIff | per/backends/memory.cpp:741-811 | Exactly when a valid plan may begin or resume a migration. |
| Migrations.ApplyNext | per/src/runtime.cpp:552-573 | Applies the next entry exactly under that condition. |
| Migrations.Pass | per/src/runtime.cpp:523-575 | One session reads its source and applies what is left; it gets to the end with its handle if and only if the read is granted, the transform lasts, every step fits and nobody stops the provider. |
| Migrations.ApplyAll | per/src/runtime.cpp:536-575 | The loop applies the remaining entries in key order, with other clients at work before each; it gets to the end with its handle if and only if the transform lasts, every remaining step fits and no call reached stops the provider. |
| Migrations.Migrate | per/src/runtime.cpp:483-595 | A session succeeds if and only if the plan is valid, the store grants the migration and a read transaction, the transform lasts for the entries left, every remaining step is within the limits, no call reached before the end stops the provider, and the generation is still the migration's. Then it installs the fold over all source entries and the target schema, keeps the blobs, keeps the old contents for a rollback and reports the number of entries; otherwise it leaves all contents and a resumable prefix. |
| Migrations.Finish | per/src/runtime.cpp:577-590 | Commits if and only if the session still has its handle and the generation is the migration's; a commit installs the whole fold. |
| Migrations.MigrateInSessions | per/src/runtime.cpp:483-595 | For any number of sessions of one plan and any calls of other clients but rollbacks, stops of the provider included, before and during the sessions: they succeed exactly with the first attempt that can finish, and all are made if none can; on success the values are one in-order fold over all source entries, every entry was applied exactly once, and the count is their number. |
| Migrations.MigrateAlone | per/src/runtime.cpp:483-595 | With nobody else at work and every step within the limits, sessions that last for given numbers of entries get through if and only if one of them lasts to the end and none has to resume behind a key that is longer than the checkpoint buffer; until then all contents stay. |
| Migrations.EnoughPatience | per/src/runtime.cpp:483-595 | With keys of at most 4096 bytes, that is so if and only if there is a session and their patience adds up to the number of entries. |
| Migrations.LongKeyIsFinal | per/src/runtime.cpp:495-497 | Interrupted behind a longer key, no number of sessions gets through. |
| Migrations.Session | per/src/runtime.cpp:520-595 | The session once begun: its exact success, what it leaves otherwise, and that the migration is never left held. |
| Migrations.OneEntry | per/src/runtime.cpp:536-575 | One turn of the loop: ended exactly at the end of the source or without the handle, skipped exactly for what is done, applied exactly when the transform lasts and the step fits. |
| Coordinator.ChainAdvances | exec/src/coordinator.cpp:223-242 | Plans made ahead stay valid for what remains once the first was carried out. |
| Coordinator.CoordinatorService.Request | exec/src/coordinator.cpp:189-257 | Accepted if and only if the domain is not rejecting while busy, the queue has room and the request can be planned from the projection when another is active, from the configuration otherwise; the error tells which fails; the new plan is queued last, and every queued plan is one for the configuration that the earlier ones lead to. |
| Coordinator.CoordinatorService.Replan | exec/src/engine.cpp:317-340 | Under its lease a queued transition always finds its plan unchanged. |
| Coordinator.CoordinatorService.Complete | exec/src/coordinator.cpp:317-350 | Completion clears the active entry exactly for the last request and keeps the projection. |
| Coordinator.CoordinatorService.Run | exec/src/coordinator.cpp:189-350 | Any interleaving of requests with the worker's steps keeps the invariant. |
| Coordinator.EveryRequestSucceeds | exec/src/coordinator.cpp:189-350 | With requests for one domain that queues or rejects, one worker and a backend that succeeds, every completed transition succeeded, in request order, and none was superseded. |
| Sha256.ZeroBytesIsSmallest | exec/src/artifact_integrity.cpp:53-62 | The number of zero bytes is the smallest that section 5.1.1 of FIPS 180-4 allows. |
| Sha256Meaning.InitialIsSquareRoots | exec/src/artifact_integrity.cpp:127-130 | The initial hash value is the first 32 bits of the fractions of the square roots of the first eight primes. |
| Sha256Meaning.ConstantsAreCubeRoots | exec/src/artifact_integrity.cpp:27-38 | The round constants are the first 32 bits of the fractions of the cube roots of the listed primes. |
| Sha256Meaning.PrimesAreAll | exec/src/artifact_integrity.cpp:27-38 | The list holds exactly the primes up to its last entry. |
| Sha256Meaning.ChChooses | exec/src/artifact_integrity.cpp:103-103 | Bit by bit the choice is the second argument where the first has a one, and the third elsewhere. |
| Sha256Meaning.MajIsMajority | exec/src/artifact_integrity.cpp:106-106 | Bit by bit the majority is what two arguments agree on. |
| Sha256Meaning.RotrRotates | exec/src/artifact_integrity.cpp:87-105 | Every rotation used loses nothing: shifted back it has the high bits of the word, and shifted on the low ones. |
| Sha256Meaning.SumsOfOneBit | exec/src/artifact_integrity.cpp:87-105 | What the four sums do with single bits: which rotations and shifts they add up. |
| Sha256Example.HashOfAbc | exec/src/artifact_integrity.cpp:40-134 | The hash of "abc" is the one that FIPS 180-4 gives as its example, through all 64 rounds. |
| StreamingSha256.Schedule | exec/src/artifact_integrity.cpp:78-92 | The loops compute the message schedule of section 6.2.2 of FIPS 180-4. |
| StreamingSha256.Compress | exec/src/artifact_integrity.cpp:77-125 | The rounds and the final additions compute the block step of section 6.2.2 of FIPS 180-4. |
| StreamingSha256.Digest.Transform | exec/src/artifact_integrity.cpp:77-125 | Hashes the buffer as the next block. |
| StreamingSha256.Digest.Update | exec/src/artifact_integrity.cpp:42-51 | Extends the message by the input; hashed blocks and buffer together are the message. |
| StreamingSha256.Digest.Finish | exec/src/artifact_integrity.cpp:53-74 | For messages below 2^61 bytes the blocks hashed are the padded message of section 5.1.1 of FIPS 180-4 and the result is its hash. |
| StreamingSha256.DigestOf | exec/src/artifact_integrity.cpp:40-134 | However a message is split into updates, the digest is the standard's hash of it. |
| LogRing.PushAtTail | log/src/log.cpp:156-158 | Writing at the tail of the ring appends to the queue it stands for. |
| LogRing.PopAtHead | log/src/log.cpp:263-265 | Reading at the head takes the first of the queue. |
| LogRing.LevelsMean | log/src/log.cpp:30-30 | Exactly fatal and error are critical, and a level lets through itself and everything graver. |
| LogRing.RuntimeState.Submit | log/src/log.cpp:128-162 | A submission that nothing comes between is accepted exactly when running, valid, let through by the level, and within the whole ring for fatal and error records, within the ring less the reserve for others. |
| LogRing.RuntimeState.Screen | log/src/log.cpp:130-141 | Before the lock: refuses exactly when stopped, filtered or invalid, in that order, and counts it. |
| LogRing.RuntimeState.Place | log/src/log.cpp:142-161 | Under the lock, whatever changed since: a full share drops the record or makes a critical one wait, also after a stop; else it is accepted exactly when running; a critical record is accepted at once when fewer than the reserve of critical ones are queued. |
| LogRing.RuntimeState.WakeUp | log/src/log.cpp:146-152 | A waiting critical producer is accepted exactly when there is room and the runtime runs, and dropped exactly when its time is up and there is none. |
| LogRing.RuntimeState.Look | log/src/log.cpp:254-268 | The worker takes the oldest record, and ends exactly with an empty queue of a stopped runtime. |
| LogRing.RuntimeState.WriteRecord | log/src/log.cpp:269-270 | The record in hand is given to the sink once, whatever the sink answers. |
| LogRing.RuntimeState.Run | log/src/log.cpp:128-278 | Any interleaving of producers, worker and owner keeps the queue, counts and reserve. |
| LogRing.NothingIsLost | log/src/log.cpp:171-178 | Accepted records reach the sink once each in acceptance order; accepted equals written plus in hand plus queued; with an empty queue and an idle worker everything accepted was written. |

## Left out

- Paths and texts of issues and errors.
- Clocks and scheduling: deadlines may expire at any time, and nothing is said about progress or wake-ups.
- Overflow of 64-bit identifiers, generations and counters, and exhaustion of memory.
- Engine.ExecutionEngine.Record: an append succeeds, or the run ends in a crash there; an engine that goes on after a failed append is not modelled.
- Engine.ExecutionEngine.Execute: transitions are executed one at a time; under concurrency the retained units are not leased, so only the mode results and the disjointness of the plans are stated for interleaved transitions.
- Inspection and restoration of units by the backend when the engine is created: the observed running set is arbitrary.
- JournalCodec.EncodeOfDecode: for payloads of format version 2; no encoder writes version 1, whose payloads `JournalLayout.VersionOneOfDecode` covers.
- Opening and locking the journal file, short reads and writes that are retried, and synchronization.
- Several stores behind one provider, opening and closing of store handles, durability levels, and the statistics other than the number of commits.
- StoreQuota.QuotaHolds: stops at the first migration commit, whose staging check counts the migrated values without the blobs.
- Migrations.Migrate: the staged values are those of the source the store now has, so a rollback has not changed it since the migration began; other clients do not roll back, and do not migrate, while the sessions of one plan follow each other; StoreTheorems says what a rollback does.
- Coordinator.CoordinatorService.Request: all requests are for one domain, which queues or rejects; domains that supersede, several workers, cancellation, permissions, events and shutdown of the coordinator are not modelled.
- StreamingSha256.Digest.Finish: gives the eight words; their hexadecimal text is not modelled.
- LogRing.RuntimeState.Screen: building a record from its fields is a parameter that says whether it is valid.
- The SQLite provider, cryptography, communication, deployment manifests, IPC, plugins, code generation and tools.
