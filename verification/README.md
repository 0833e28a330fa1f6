# TurboAgent core protocols, modelled and verified

This project models six parts of TurboAgent in Dafny and proves what they promise.

- **Audited report** (`Report*.dfy`, `RouterLoaders.dfy`). The writer passes eleven write-ahead gates, drains every
  task when something fails, and then leaves a gate failure, or cleanup observations with a
  stop record, or a cleanup failure. The inspection is a separate validator. The main theorem
  compares the two on every view of the store that any run can leave: every store create may
  be acknowledged, committed without acknowledgement or refused, every outside answer may be
  an error, and the process may be lost after any committed write.
- **Context compaction** (`Context*.dfy`). Choosing a cut under token budgets, a PREPARED
  record followed by a head that commits it, recovery, and bounded preparation of a request.
- **Execution handle** (`Execution.dfy`). Reference count, status and move-once result of an
  asynchronous execution, over every interleaving of submission, worker and callers.
- **Evidence diagram** (`TurnKey.dfy`, `Evidence*.dfy`). Canonical turn keys and a graph that
  is built journal by journal with shared nodes.
- **Document renderer** (`Document*.dfy`). An escaping printer, its parser and its size bound.
- **Response walker** (`ResponseWalker.dfy`). The bounded guard over raw Provider responses.

`dafny verify dfyconfig.toml` checks everything.

## Reading the report theorem

`ReportRun.RunReport` takes every answer of the outside world as one value (`World`) and returns
the log of committed creates. `Agrees` says, for every nonempty prefix of that log, that the
inspection accepts the view **if and only if**

1. there is no final observation, or the review approved, or the rejected segment ended
   interrupted with code zero (`FinalClean`); and
2. there is no stop record, or not `LateApproval`: the execute segment was still running when
   the Host cancelled it, no rejection was under way, and it then ended interrupted, asking for
   a review.

So the writer and the inspection do not agree unconditionally. The first case exists because
the writer stores the final observation of a rejected review whatever its outcome
(`agent/examples/single_agent_report.h:766-770`), while the inspection demands an interrupted
segment with code zero (`agent/examples/single_agent_report_inspect.h:393-394`). The second
exists because cancelling a task clears a waiting review only if it is already waiting
(`agent/src/turbo_agent_router.c:603-614`), so a segment that is still running can end with a
review pending, which the inspection of the stop refuses
(`agent/examples/single_agent_report_inspect.h:214-216`). `ReportWitness.LateRun` and
`ReportWitness.RejectedRun` are runs, for every report id, whose records are rejected;
`SmoothRun` is one that is delivered, and `StoppedRun`, `GateFailureRun` and `CleanupFailureRun`
end with an accepted stop record and an accepted failure record of either version.

`Ending` says what a run leaves, in terms of the answers alone. The run owns its id exactly if its
manifest was acknowledged, and delivers exactly if every answer is good. Every acknowledged gate
has its record, and a record without one is that of the failed gate (`WriteAhead`). After a failed
gate the version 1 record is the only further attempt. After an operational stop the run ends with
its stop record, or with a version 2 record. A failure record is attempted exactly if it can be
built, and exists exactly if the store did not refuse it (`Diagnosed`).

`Says` pins the contents. `RunCourse` walks the answers in protocol order and gives the first one
that is not good: its code, the phase, the gates acknowledged before it, and whether it is a gate's
own answer. That code and phase are what a stop or failure record carries and, unless the stop audit
has an error of its own, what the run returns; `ReportContents` derives from it which tasks the stop
lists and what its entries and the cleanup rows say. `RecordTells`, part of `Agreement`, says the
same of the ten normal records, field by field, on every surviving view.

Wherever a check or a table is used by the code that decides and by the predicate that specifies it,
the two are written independently: the methods of `RouterLoaders` and `ReportInspector` test in the
source's order and with its constants and tables, and are proved against predicates of their own.

Assumptions about the outside, all in `ReportWriter.WorldOk`: the monotonic clock does not go
backwards, the endpoints that the Router selects are among the Host's bindings, a successful
wait leaves a terminal segment, and a drain ends every segment. A record that the Router's own
validation would refuse is never committed (`ReportTasks.Commit`); that validation includes the
identifier alphabet and, for a group, that no two members share a task, execution, thread or
endpoint. Text constants of the closed vocabularies (phases, roles, decisions) are datatypes with
an extra case for any other text; a report's keys are the strings themselves.

## Other modelling decisions

- A store create or put has three outcomes: acknowledged, committed but reported as failed,
  refused. A crash is the loss of everything but what was committed.
- The token estimator, the summariser and the source hash are arbitrary functions. Compaction
  ids are assumed never to repeat, histories to be append-only.
- Recovery needs no assumption about the hash: the record that a head names was stored with
  the hash of the very source that is stored beside it.
- A recovered context without a committed head leaves the agent's projection as it was
  (`agent/src/turbo_agent_context.c:116`); the next preparation publishes the context's own.
- The execution's callers use the object only through a reference that they hold; a retain is
  also allowed without one as long as the memory exists, which is where the check for zero in
  the compare-and-swap loop matters.
- Diagram node ids are distinguished by their textual prefix, so they are one datatype.

## Model

| member | source | states |
|---|---|---|
| ReportKeys.CheckId | agent/examples/single_agent_report.h:109-118 | the validator loop accepts exactly the identifiers of 1 to 32 ASCII letters, digits, `_` and `-` |
| ReportKeys.KeyInjective | agent/examples/single_agent_report.h:120-124 | within one collection a key determines the report id and the suffix, although ids may contain dashes |
| ReportKeys.NamesOfAreOk | agent/examples/single_agent_report.h:87-92 | gates, suffixes and keys of any report are pairwise different, the gate table of the writer and the suffix table of the inspection give the same keys, and no key of a valid id exceeds its buffer |
| ReportInspector.CheckShape | agent/examples/single_agent_report_inspect.h:56-67 | the seen-mask loop accepts exactly objects whose members are the expected keys, each once, in any order |
| ReportInspector.CheckManifest | agent/examples/single_agent_report_inspect.h:73-94 | accepts exactly the manifests with this identity, a clock window of at most a day and the right 10, 15 or 16 reserved keys |
| ReportInspector.CountNormal | agent/examples/single_agent_report_inspect.h:182-182 | counts the leading normal records |
| RouterLoaders.CheckIntentRecord | agent/src/turbo_agent_router_admission.c:34-115 | accepts exactly the admission intents with valid identities and route |
| RouterLoaders.CheckReviewRecord | agent/src/turbo_agent_router_admission.c:192-256 | accepts exactly the review intents with valid identities, different segments and a first segment exactly at the task itself |
| RouterLoaders.CheckObservationRecord | agent/src/turbo_agent_router_observation.c:36-133 | accepts exactly the observations whose run, checkpoint and status fit the segment's status and code |
| RouterLoaders.CheckGroupRecord | agent/src/turbo_agent_router_group_observation.c:26-95 | accepts exactly the groups of 2 to 16 ended members that share no task, execution, thread or endpoint |
| ReportInspector.CheckGates | agent/examples/single_agent_report_inspect.h:184-189 | accepts exactly the list of the first gates' names in order |
| ReportInspector.CheckStop | agent/examples/single_agent_report_inspect.h:160-219 | decides the stop record: identity, phase against record count, gate list, and every task entry against its observation with no approval pending |
| ReportInspector.CheckEntry | agent/examples/single_agent_report_inspect.h:190-217 | decides one stop entry against the observation that it names |
| ReportInspector.CheckCleanupFailure | agent/examples/single_agent_report_inspect.h:221-280 | decides the version 2 failure: expected cleanup rows, acknowledged prefix, attempted gate, surviving rows and stop |
| ReportInspector.CheckGateFailure | agent/examples/single_agent_report_inspect.h:282-319 | decides the version 1 failure: the failed gate is the next one, it alone may have committed, and no cleanup exists |
| ReportInspector.LoadAll | agent/examples/single_agent_report_inspect.h:347-361 | the loading loop accepts exactly when every record loads, normal records form a prefix and later keys were reserved |
| ReportInspector.CheckLoad | agent/examples/single_agent_report_inspect.h:351-359 | each slot is loaded by the loader of the kind of record that belongs there |
| ReportInspector.CheckRoutes | agent/examples/single_agent_report_inspect.h:362-367 | decides the routes of intents and cleanup observations of all four roles |
| ReportInspector.CheckObservation | agent/examples/single_agent_report_inspect.h:141-157 | an observation names the task and every part of the route of its intent |
| ReportInspector.CheckChain | agent/examples/single_agent_report_inspect.h:368-411 | decides the identities along the normal records, in protocol order |
| ReportInspector.Inspect | agent/examples/single_agent_report_inspect.h:326-414 | the whole inspection accepts a view exactly when `Accepts` holds |
| ReportSoundness.ReadyIsComplete | agent/examples/single_agent_report_inspect.h:347-412 | for arbitrary store contents, acceptance with a ready record means all ten records; two finished workers on endpoints of their own and a finished aggregation, each under the task and route of its admission; an approval and a completed reviewed segment with one task, execution and run identity end to end; and a stop or failure beside it can only be of the delivery audit |
| ReportWriter.Gate | agent/examples/single_agent_report.h:98-107 | a gate records its own index, as acknowledged or as the failed one, and nothing else |
| ReportWriter.PhaseIdsAreComplete | agent/examples/single_agent_report.h:136-151 | the sixteen keys that the writer reserves are exactly those the inspection requires |
| ReportWriter.NormalGrows | agent/examples/single_agent_report.h:167-193 | a record that passes its own check extends n inspected records to n + 1 |
| ReportWriter.Pass | agent/examples/single_agent_report.h:167-193 | a gate goes on with its record stored exactly if the record is valid and the create is acknowledged; otherwise it stops with exactly that gate failed and its record present or not |
| ReportStages.Reserve | agent/examples/single_agent_report.h:645-649 | success exactly if the identity is valid, the deadline is in range and the store acknowledges the manifest; otherwise at most the manifest itself is stored, and only if its acknowledgement was lost |
| ReportStages.SubmitWorkers | agent/examples/single_agent_report.h:650-660 | both workers admitted exactly if both admissions are good, or a stop with exactly the admitted ones retained; a first admission that is attempted and fails is gate 1 |
| ReportStages.FanIn | agent/examples/single_agent_report.h:661-686 | the group observation is stored before the workers are released, exactly if every answer is good; errors keep both workers |
| ReportStages.AggregateStage | agent/examples/single_agent_report.h:687-719 | admission, completed result, observation before transfer, and release, exactly if every answer is good |
| ReportStages.ExecuteStage | agent/examples/single_agent_report.h:720-746 | admission and a result that is pending review, observed before transfer, exactly if every answer is good; a failed wait leaves the running task retained |
| ReportStages.ReviewStage | agent/examples/single_agent_report.h:747-776 | decision, review intent and resumed segment, exactly if every answer is good and the review approves; a rejection records its observation and stops |
| ReportStages.DeliverStage | agent/examples/single_agent_report.h:777-790 | final result, delivery and the ready record, exactly if every answer is good |
| ReportStages.Forward | agent/examples/single_agent_report.h:645-790 | goes exactly as far as the first answer that is not good: with its code, in its phase, at its gate or between gates, with the gates acknowledged before it and the tasks retained there; delivers exactly if every answer is good, and owns its id exactly if the manifest is acknowledged |
| ReportAudit.RowLands | agent/examples/single_agent_report.h:217-225 | a cleanup observation keeps every surviving view acceptable as before |
| ReportAudit.StopLands | agent/examples/single_agent_report.h:270-291 | so does the stop record, with an approval left pending exactly in the late case |
| ReportAudit.FailureLands | agent/examples/single_agent_report.h:321-330 | so does a failure record that fits the others |
| ReportCleanup.DrainSettles | agent/examples/single_agent_report.h:798-809 | after the drain every retained task has ended and is either observed already or observable now |
| ReportCleanup.TodoIsExpected | agent/examples/single_agent_report_inspect.h:249-253 | the tasks that the writer still has to observe are exactly the cleanup rows that the inspection expects for that phase and record count |
| ReportCleanup.DrainApproval | agent/examples/single_agent_report.h:798-809 | an approval is pending after the drain exactly in the late case |
| ReportCleanup.AuditTask | agent/examples/single_agent_report.h:195-243 | one task is observed or linked and described; its two internal errors cannot occur, and a failed write is the next expected row |
| ReportCleanup.CleanRetained | agent/examples/single_agent_report.h:254-261 | workers, then the task: all rows in order, or an acknowledged prefix of them and at most one attempt more |
| ReportRun.StopAudit | agent/examples/single_agent_report.h:245-295 | the stop record is stored after all rows, or the trace tells exactly which gate failed; with good answers it is stored unless the Router refuses a row, and a refused stop leaves none |
| ReportRun.CleanupFailureAudit | agent/examples/single_agent_report.h:373-419 | the version 2 record fits whatever survived and its guard never refuses: it is attempted exactly if it can be built, last, and it exists exactly if the store did not refuse it |
| ReportRun.GateFailureAudit | agent/examples/single_agent_report.h:335-368 | the version 1 record fits whether or not the failed gate committed and its guard never refuses: it is attempted exactly if it can be built, alone, and it exists exactly if the store did not refuse it |
| ReportRun.OperationalAudit | agent/examples/single_agent_report.h:819-834 | after an operational stop no slot is attempted twice and the normal records stay; the stop record and the version 2 record carry the operation's code and phase, the stop lists exactly the retained tasks, and the final code is the operation's unless the audit has an error of its own, which is then the record's too |
| ReportRun.VerdictIsAgreement | agent/examples/single_agent_report_inspect.h:326-414 | the verdict kept for each view: every normal record says what the answers say, and the view is accepted exactly under the two conditions |
| ReportRun.RunReport | agent/examples/single_agent_report.h:587-840 | agreement with the inspection on every view a crash can leave; delivery exactly if all answers are good; ownership exactly by an acknowledged manifest, and nothing after a lost one; a record for every acknowledged gate and for no other but perhaps the failed one; one attempt per slot, and a further cleanup create only once the one before it is stored; after a failed gate the version 1 record alone, otherwise a stop record or a version 2 record, each exactly as far as the store took it; the content of every record, from the answers alone; and how each family of runs is judged |
| ReportContents.StopAndRowsTell | agent/examples/single_agent_report.h:195-295 | after an operational stop the stop record carries the first bad answer's code and phase and lists exactly the tasks retained there, each as found after the drain, and every cleanup row observes one of them that was not moved out before |
| ReportContents.FamilyCodes | agent/examples/single_agent_report.h:720-776 | a timeout stops with the code of the wait, a rejection as cancelled, and a failed first admission at gate 1 |
| ReportContents.CoursePlaced | agent/examples/single_agent_report.h:587-790 | a run can only halt in a phase with the gates that belong to it |
| ReportWitness.LateRun | agent/examples/single_agent_report_inspect.h:212-216 | for every report id a run whose stop the inspection rejects |
| ReportWitness.StoppedRun | agent/examples/single_agent_report.h:245-295 | for every report id a run that ends with an accepted stop record |
| ReportWitness.RejectedRun | agent/examples/single_agent_report_inspect.h:393-394 | for every report id a run whose final observation the inspection rejects |
| ReportWitness.GateFailureRun | agent/examples/single_agent_report.h:335-368 | for every report id a run that loses the acknowledgement of its first gate and ends with an accepted version 1 record |
| ReportWitness.CleanupFailureRun | agent/examples/single_agent_report.h:373-419 | for every report id a run whose stop record is refused and that ends with an accepted version 2 record |
| ReportWitness.SmoothRun | agent/examples/single_agent_report.h:587-790 | for every report id a run that is delivered and accepted |
| ReportNamespace.KeyOfInjective | agent/examples/single_agent_report.h:120-124 | collection and key together determine the report and the record |
| ReportNamespace.CommitterIsAlone | agent/examples/single_agent_report.h:645-649 | among runs that keep the namespace rule, whoever commits under an id is the only one that ever has |
| ReportNamespace.Exclusive | agent/examples/single_agent_report.h:812-819 | over any interleaving of runs that keep the namespace rule, the store under an id holds exactly what one run committed |
| ReportNamespace.OneReservation | agent/examples/single_agent_report.h:645-649 | among runs that keep the namespace rule at most one is ever told that it owns an id |
| ReportNamespace.OwnKeyIsFree | agent/examples/single_agent_report.h:161-162 | an owner's create for an unused slot never meets an existing key |
| ReportSystem.RunIsSession | agent/examples/single_agent_report.h:587-840 | whatever log and trace a run of the writer ends with, they make a session: its own names, its ending, ownership only by an acknowledged manifest, and nothing after a lost one |
| ReportSystem.HoldSession | agent/examples/single_agent_report.h:587-840 | every report run is such a session, reserved exactly if the manifest is acknowledged and delivered exactly if every answer is good |
| ReportSystem.NextIsEnabled | agent/examples/single_agent_report.h:812-819 | the namespace rule holds of the writer: whatever a run creates next, the manifest with the answer it gets and then its records, it may create, and after the manifest its key is unused |
| ReportSystem.InspectionOverRuns | agent/examples/single_agent_report.h:587-840 | however many report runs share the store, in whatever order their creates fall and wherever they are interrupted, the inspection of an id finds nothing, or exactly one run's records, judged by that id's own query as the agreement says |
| ReportSystem.AloneCompletes | agent/examples/single_agent_report.h:587-840 | a run that is alone under its id and gets its turns has its whole log in the store, whatever the runs of other ids do between them |
| ResponseWalker.Walk | agent/examples/single_agent_report.h:424-443 | accepts exactly trees with NUL-free strings and keys, depth at most 64 and enough budget, and then lowers the budget by the node count |
| ResponseWalker.ResponseGuard | agent/examples/single_agent_report.h:445-454 | the guard accepts exactly within depth 64 and 65536 nodes |
| ContextCut.PreviousBoundary | agent/src/turbo_agent_context.c:261-270 | the greatest boundary strictly between, or the start |
| ContextCut.NextBoundary | agent/src/turbo_agent_context.c:272-280 | the least boundary after, or one past the limit |
| ContextCut.ChooseCut | agent/src/turbo_agent_context.c:332-366 | each outcome exactly: nothing to cut if the whole suffix may be retained; otherwise the furthest retainable suffix decides, and the segment before it has no estimate, overflows the sum, or exceeds the budget; the cut is then a boundary strictly inside and every longer suffix exceeds the budget |
| ContextCut.CutResultOnce | agent/src/turbo_agent_context.c:332-366 | the four outcomes exclude each other |
| ContextCut.ExchangesAreCut | agent/src/turbo_agent_context.c:332-366 | with good estimates a history over the budget that has an answered exchange before its last event is always cut, right behind tool results or a model's last word |
| ContextCut.LimitSource | agent/src/turbo_agent_context.c:368-410 | each outcome exactly, by the first boundary whose source the summariser cannot take: no estimate, nothing before it, or the boundary just before it; the desired cut if there is none |
| ContextCut.LimitResultOnce | agent/src/turbo_agent_context.c:368-410 | the three outcomes exclude each other |
| ContextCut.BoundaryKeepsExchanges | agent/src/turbo_agent_context.c:251-259 | a call before a boundary has its results before it |
| ContextCut.BoundaryMeans | agent/src/turbo_agent_context.c:251-259 | in a history of well-formed exchanges a cut may fall exactly behind a model event or tool results before which every call is answered |
| ContextLineage.SummarisedOnce | agent/src/turbo_agent_context.c:302-330 | every event before the projection start was summarised exactly once, no later event was |
| ContextLineage.NothingLost | agent/src/turbo_agent_context.c:302-330 | the summarised events in order and the live suffix make up the history |
| ContextLineage.LineageKeepsExchanges | agent/src/turbo_agent_context.c:251-259 | no committed start separates calls from their results |
| ContextLineage.FaithfulGrows | agent/src/turbo_agent_context.c:302-330 | appending to the history invalidates no compaction |
| ContextStore.Store.PutBoth | agent/src/turbo_agent_context.c:527-536 | exact outcome of the two puts: the head moves exactly if the PREPARED put was acknowledged and the head put was committed |
| ContextStore.PutsMean | agent/src/turbo_agent_context.c:527-536 | recovery then finds the new compaction exactly if the head moved; earlier compactions and other threads stay |
| ContextCompaction.Context.LoadHead | agent/src/turbo_agent_context.c:97-176 | recovery fails only if reading itself fails, and yields exactly the committed lineage |
| ContextCompaction.Context.FindHead | agent/src/turbo_agent_context.c:97-160 | whatever the store holds: success exactly for no head or a sole sound head with a sound record, an input error exactly for a sound head whose record is missing, and corruption otherwise |
| ContextCompaction.Context.Propose | agent/src/turbo_agent_context.c:437-479 | everything decided before the first put, cut, source, summary and all budgets, with the code that `PlanCode` derives from history, policy and projection |
| ContextCompaction.PlanCodeOnce | agent/src/turbo_agent_context.c:437-479 | no history has two plan codes, so each code is returned exactly for its reason |
| ContextCompaction.Context.CompactOnce | agent/src/turbo_agent_context.c:437-563 | success exactly if the plan exists, everything before the puts can be built and both puts are acknowledged, and every other code exactly; context and agent change together and only on success; the committed lineage becomes this compaction's link on the context's own exactly if the puts move the head |
| ContextCompaction.Context.Prepare | agent/src/turbo_agent_context.c:565-589 | the projection is published or its copy fails and nothing changes; a request below the trigger is sent as it is; otherwise at most the allowed number of compactions, each advancing the start, and success exactly if the request then fits the window, unless a compaction failed with the code returned |
| ContextCompaction.Context.HandleOverflow | agent/src/turbo_agent_context.c:591-603 | an overflow is handled exactly by one compaction, and exactly if that one succeeds |
| ContextStore.CheckPolicy | agent/src/turbo_agent_context.c:32-48 | accepts exactly the policies whose limits are positive and fit each other |
| ContextSession.Open | agent/src/turbo_agent_context.c:178-206 | creating a context succeeds exactly for a valid policy and a named thread, and then continues from the committed lineage |
| ContextSession.Reopen | agent/src/turbo_agent_context.c:178-206 | reopening any valid store succeeds with the committed lineage |
| ContextSession.Session | agent/src/turbo_agent_context.c:437-563 | over any script of compactions and crashes, codes, what the context was told and what the store has committed follow step by step: the committed lineage changes exactly when the puts move the head, every recovery succeeds and finds it; every event is summarised once or live, no tool exchange is split, and the agent's projection is the context's |
| ContextSession.RecoveryFinds | agent/src/turbo_agent_context.c:97-176 | so a recovery finds what the context was told, or the link of the last compaction that moved the head without acknowledgement, with none moving it since |
| ContextSession.LostHeadSession | agent/src/turbo_agent_context.c:437-563 | a session with a successful compaction, a compaction whose head is lost, and the recovery that finds it |
| Execution.StatusOf | agent/src/turbo_agent_execution.c:185-205 | every published outcome is terminal |
| Execution.StepKeeps | agent/src/turbo_agent_execution.c:223-404 | every atomic step keeps the invariant of count, owners, status, result and trees |
| Execution.Lifetime | agent/src/turbo_agent_execution.c:223-250 | in every reachable state the count is the number of live references, the object is destroyed at most once and never while one lives |
| Execution.CanFinish | agent/src/turbo_agent_execution.c:223-404 | from every reachable state, giving up all references lets the object be destroyed once: no reference is lost and no step is stuck |
| Execution.FailedSubmission | agent/src/turbo_agent_execution.c:378-401 | a failed admission or a full pool: no worker, no result, destroyed once |
| Execution.NeverResurrected | agent/src/turbo_agent_execution.c:223-239 | no retain brings a count back from zero |
| Execution.RetainSucceeds | agent/src/turbo_agent_execution.c:223-239 | a retain whose swap meets the live count that it has read adds one reference under a new handle; a dead or saturated count is refused; otherwise the count is read again |
| Execution.LoadReads | agent/src/turbo_agent_execution.c:223-231 | a retain first reads the count, and a reference that is handed on belongs to its new holder |
| Execution.ReleaseLowers | agent/src/turbo_agent_execution.c:241-250 | a release lowers the count by one, and the last one makes its caller the destroyer |
| Execution.MovedOnce | agent/src/turbo_agent_execution.c:582-619 | at most one take succeeds and it moves what was published and what every peek showed |
| Execution.TakeSucceeds | agent/src/turbo_agent_execution.c:598-619 | in every reachable state the first take after publication moves exactly what was published, and any other take changes nothing |
| Execution.PeekShows | agent/src/turbo_agent_execution.c:582-596 | a peek shows what was published until it is taken, and changes nothing else |
| Execution.TreesAccounted | agent/src/turbo_agent_execution.c:207-221 | after destruction each result tree went to the one taker or was freed, never both |
| Execution.StatusForward | agent/src/turbo_agent_execution.c:252-290 | the status only moves forward and a terminal one never changes |
| Execution.StatusTells | agent/src/turbo_agent_execution.c:185-205 | in every reachable state the status is queued, running, or exactly what the published code and summary text say |
| Execution.PublishTells | agent/src/turbo_agent_execution.c:280-288 | the worker publishes exactly the outcome of its run |
| TurnKey.OriginOffset | agent/src/turbo_agent_evidence_diagram.c:138-151 | accepts exactly canonical decimals within both integer ranges and returns their value |
| TurnKey.ValueOfDecimal | agent/src/turbo_agent_evidence_diagram.c:138-151 | reading a printed number gives the number |
| TurnKey.DecimalOfValue | agent/src/turbo_agent_evidence_diagram.c:138-151 | printing a read canonical decimal gives the text |
| TurnKey.ParseTurn | agent/src/turbo_agent_evidence_diagram.c:239-249 | the cursor-driven parser computes `Parse` |
| TurnKey.ParsePrint | agent/src/turbo_agent_evidence_diagram.c:239-249 | every key in range is read back from its own text |
| TurnKey.PrintParse | agent/src/turbo_agent_evidence_diagram.c:239-249 | only the canonical text of a key is accepted |
| TurnKey.OneToOne | agent/src/turbo_agent_evidence_diagram.c:239-249 | accepted texts and keys correspond one to one |
| EvidenceOrigin.FindCall | agent/src/turbo_agent_evidence_diagram.c:270-281 | the search loop computes `FindFrom` |
| EvidenceOrigin.FindMeans | agent/src/turbo_agent_evidence_diagram.c:270-281 | found: the only call with the id and its name agrees; missing: none has it; conflict: another name or two calls |
| EvidenceOrigin.ResolveOrigin | agent/src/turbo_agent_evidence_diagram.c:229-282 | the reading order computes the origin that `Resolve` defines |
| EvidenceOrigin.MatchedMeans | agent/src/turbo_agent_evidence_diagram.c:229-316 | a journal is matched exactly if its turn is the canonical text of a key, the event at that version and index has exactly one call with its id, under its tool, and the step is the published one |
| EvidenceOrigin.UnmatchedMeans | agent/src/turbo_agent_evidence_diagram.c:229-282 | the identity is unresolved exactly for a turn text of neither prefix, and not in the snapshot exactly for a canonical turn text whose version, event or call is missing there |
| EvidenceOrigin.ErrorsMean | agent/src/turbo_agent_evidence_diagram.c:250-281 | a corrupt snapshot is a protocol error, an unreadable event keeps its own error, and an event with too many calls has no room |
| EvidenceOrigin.SameTurnSameEvent | agent/src/turbo_agent_evidence_diagram.c:283-316 | event and step depend on the turn key alone |
| EvidenceOrigin.DifferentTurnsDiffer | agent/src/turbo_agent_evidence_diagram.c:283-292 | different matched turn keys name different events |
| EvidenceDiagram.Diagram.AddNode | runtime_data/src/turbo_diagram.c:76-88 | a node is added exactly if there is room and its id is new, each refusal with its own code |
| EvidenceDiagram.Diagram.AddEdge | runtime_data/src/turbo_diagram.c:90-106 | an edge is added exactly if there is room and both ends exist, each refusal with its own code |
| EvidenceExport.AddStep | agent/src/turbo_agent_evidence_diagram.c:161-227 | a step node is shared, its links are added once, and only a full diagram refuses |
| EvidenceExport.AddOrigin | agent/src/turbo_agent_evidence_diagram.c:283-329 | an event node is shared with its edge and step; the call edge is added for each journal |
| EvidenceExport.AddJournal | agent/src/turbo_agent_evidence_diagram.c:375-396 | one more journal adds exactly its contribution |
| EvidenceExport.Export | agent/src/turbo_agent_evidence_diagram.c:343-406 | succeeds exactly for the exportable requests, with exactly the nodes, edges and fields of the selected journals; invalid ids are an argument error, and any other error is a journal's own or a full diagram |
| EvidenceExport.ExportMeans | agent/src/turbo_agent_evidence_diagram.c:229-335 | on an exported diagram a journal's origin status is "matched", "not in snapshot" or "unresolved" exactly as the snapshot and the turn text say, absent exactly without the option, and "matched" exactly if its one call edge ends there, which starts at the event with the key and step of that call |
| EvidenceExport.ExportPermuted | agent/src/turbo_agent_evidence_diagram.c:375-396 | any permutation succeeds alike and gives the same nodes, edges and fields |
| EvidenceExport.SharedOnce | agent/src/turbo_agent_evidence_diagram.c:283-329 | one node and one run edge for each journal, one node and one snapshot edge for each matched event |
| DocumentRender.CheckId | agent/examples/document_render_tool.h:47-56 | accepts exactly ids of 1 to 64 allowed bytes |
| DocumentRender.CheckCatalog | agent/examples/document_render_tool.h:58-70 | accepts exactly 1 to 16 valid sources with different ids |
| DocumentRender.FindSource | agent/examples/document_render_tool.h:72-80 | the first source with the id |
| DocumentRender.CheckText | agent/examples/document_render_tool.h:82-94 | accepts exactly text within the limit and without control bytes |
| DocumentRender.Buffer.Append | agent/examples/document_render_tool.h:96-109 | appends exactly if the output limit allows it |
| DocumentRender.Buffer.AppendText | agent/examples/document_render_tool.h:113-123 | appends the escaped text if it fits |
| DocumentRender.RenderSize | agent/examples/document_render_tool.h:155-168 | no valid document renders to more than 35260 bytes |
| DocumentRender.BoundIsReached | agent/examples/document_render_tool.h:23-29 | a valid document renders to exactly 35260 bytes |
| DocumentRender.Handle | agent/examples/document_render_tool.h:125-183 | renders exactly the valid requests, to the rendering of the document with the request's title, texts and ids and the catalogue's revisions, and is never refused for size |
| DocumentParse.RoundTrip | agent/examples/document_render_tool.h:113-168 | the Markdown of every valid document parses back to its title, passages and catalogue identities |
| DocumentParse.RenderInjective | agent/examples/document_render_tool.h:155-168 | different valid documents never render alike |
| DocumentParse.OneAnnotationEach | agent/examples/document_render_tool.h:113-123 | exactly one bare colon, and so one source annotation, for each passage |
| DocumentParse.OnlyOwnPunctuation | agent/examples/document_render_tool.h:113-123 | of each of the 32 ASCII punctuation characters, the unescaped occurrences in a rendering are exactly those of the renderer's own marks |
| DocumentParse.OnlyPunctuationEscaped | agent/examples/document_render_tool.h:113-123 | every backslash in a rendering escapes such a character |
| DocumentParse.RenderPrintable | agent/examples/document_render_tool.h:82-94 | a rendering holds line feeds and no other control character |

## Supporting lemmas

Not in the table because each reads off one definition. `ReportKeys.KeysFit` (every key has at most
48 of 64 bytes) and `ReportKeys.GateSuffix` (the gate and suffix tables line up) make
`NamesOfAreOk`, by which the writer's gate names and the inspection's keys are the same texts;
`ReportTasks.DrainLeavesApproval` and `TurnKey.OverflowCheck` are steps of `DrainApproval` and
`OriginOffset`. `ReportKeys.KeyInjectiveNeedsCollection` is a remark on `KeyInjective`: two reports
share a key text in different collections.

## Left out

- ReportInspector.Inspect: does not read the Runtime anchors of observations and does not bound serialised sizes, because both need the Runtime store and the serialiser.
- ReportInspector.LoadAll: does not model the timestamps, clocks, token and cost fields of the Router's records, their JSON shape or their size.
- RouterLoaders.CheckIntentRecord: leaves out timestamps, capabilities, token estimates, prices and budgets, as ReportInspector.LoadAll does.
- RouterLoaders.CheckReviewRecord: leaves out the turns used and the clock fields.
- RouterLoaders.CheckObservationRecord: leaves out the clock and cost fields and the record's size.
- RouterLoaders.CheckGroupRecord: leaves out the clock, the failure code, the handoff flag and the record's size.
- ReportInspector.CheckObservation: does not read the Runtime anchors, as ReportInspector.Inspect does not.
- ReportInspector.CheckManifest: does not bound the serialised size, because the serialiser is not part of this model.
- ReportInspector.CheckStop: takes the record's JSON shape as given by its datatype and does not bound its size.
- ReportInspector.CheckCleanupFailure: takes the record's JSON shape as given by its datatype and does not bound its size.
- ReportInspector.CheckGateFailure: takes the record's JSON shape as given by its datatype and does not bound its size.
- ReportNamespace.Exclusive: is about runs that keep the namespace rule; ReportSystem.NextIsEnabled and ReportSystem.InspectionOverRuns prove it of the writer.
- EvidenceExport.Export: a journal's own field checks are one answer of the request, because each is a function of that record alone.
- DocumentRender.Handle: JSON schema validation beyond lengths and counts, and allocation failure, are not modelled.
- The field-by-field JSON shape of ready, stop and failure records; such records are datatypes here, and only the member check of `phase_ids` is modelled as a loop.
- The unaudited mode of the report, its budget arithmetic, its input and context assembly and its diagnostics structure: no protocol state depends on them beyond the error they return, which is an answer in `World`.
- Real time: deadlines appear as return codes of waits; no liveness is claimed.
- Allocation failure inside the report writer beyond the answers in `World`, and of the execution's mutex.
- Router selection, group supervision, inbox and tool journal implementations; their validation rules and the cancel, wait and take behaviour are used.
- Deep copies of execution options, the timed wait loop and the cancel token of the execution handle: waiting only reads the status, and options and cancellation only influence which outcome the worker publishes, where the model allows every outcome.
- Memory ordering of the reference count: each atomic operation and each critical section is one step.
- Labels and text limits of the evidence diagram.
- UTF-8 validity of rendered text.
- ABI fields of the compaction policy and the overflow detector.
- ContextSession.Session: two live writers on one thread are not modelled, because the design forbids them.
- Execution.Lifetime: does not bound how long a dropped object waits for its destroyer.
