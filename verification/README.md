# Verified model of contexty

contexty compiles a conversation into what is sent to a language model. It trims the history to a token budget without
dividing a tool round, selects context by priority, lets a host rewrite the output, carries opaque provider state,
records which input reached which output, exports a disclosed part of that record, and stores conversations under
version tokens. This project models those algorithms in Dafny and proves what they keep.

The vocabulary is small. A *round* is an assistant message with tool calls and the tool messages that answer it; it is
complete, interrupted or pending. A *unit* is a round or a single plain message. A history is *valid* if it is a
sequence of units. `Keep(s, marks)` is the part of a sequence the marks select.

How the files fit together:

- **Rounds**: `Rounds`, `Layouts`, `RoundIndex`, `ToolTurns` (inspection, histories as lists of units), `Removal`,
  `Repair`.
- **Budget**: `Budgets`, `Retention`, `Plans`, `Candidates`, `Strategies`, `Matching`, `Landing`, `Merging`, `Closing`,
  `Overflow`, `Pipeline` (a whole run), `TornRuns` (a run that fails on its own rounds).
- **Selection**: `Selection`, `SelectionInputs`, `SelectionUnits`, `SelectionOutput`, `SelectionRuns`,
  `SelectionHistories`, `SelectionSnapshots` (a whole run), `SelectionCopies` (a run whose record is refused).
- **Output**: `OutputPolicy`, `OpaqueStates`, `OpaqueDrops`, `OutputBoundary` (the gate that joins them).
- **Evidence**: `Graphs`, `Lineage`, `Coverage`, `Exclusions`, `Ledger`, `Export`, `ExportNames`.
- **Estimates**: `Weights`, `Estimates`, `EstimateBuild`, `EstimateSegments`, `EstimateReports`, `EstimateChecks`,
  `EstimateRuns`.
- **State**: `Store`, `Persistence`.
- **Shared**: `Foundation` (modules `Results` and `Sequences`), `Messages`.

What comes from outside is a parameter: the token estimator, the codec that gives a message its content reference, the
summarizer, a host's own eviction strategy, the host's output rewrite, and the empty content, transition and sealing of
the store. Every theorem holds for all of them. Where a codec is assumed to be lawful, that means only that a reference
it returns is well formed and carries the identity of the message, as `MessageContentRef` (lineage.go:54-67) builds it.
The references of artifacts are assumed to differ from those of messages and to name the message that shows them.

## Findings

Four properties one would expect do not hold for every input. The code is modelled as it is; each has an input on which
it fails and the exact condition under which it holds.

- **A kept round can be torn by the merge.** With an additive estimator, atomic drop-head and two rounds answered by
  equal anonymous results, dropping the first round makes the run fail with an invalid-round error although every
  precondition holds (`TornRuns.EqualResultsFailTheRun`): the merge takes the first of the two equal results.
  `Closing.MergeYieldsChoiceIff` says exactly when the merge restores the choice. With an atomic strategy
  `Overflow.AtomicTearsIff` reduces the failure to the history and the marks: the earliest copies of the chosen
  messages, with the required ones, are not a valid history, which needs copies that land out of order and cut through
  a round. It never happens if every message that may go is named (`Pipeline.ApplyWithLimit`).
- **A selection decision can be refused by its own validator.** Identities are checked in the snapshot and in the
  request, but a deferred block may resolve to a copy of the pending message. The copy becomes a second unit with the
  reference of the first, the plan check accepts it, and the decision that is recorded is invalid
  (`SelectionCopies.CopyOfTurnIsRefused`). A decision is valid if and only if no two units share a reference
  (`SelectionRuns.SelectionDecisionValidIff`), and none do if no identity repeats among the messages selected from
  (`SelectionSnapshots.SelectFromSnapshot`).
- **An estimate report can be refused by its own validator.** Reporting does not check that message identities differ
  within a segment, validation does: on two messages of one identity a report is put together and refused
  (`EstimateRuns.ReportTwice`). A report that was put together is returned if and only if they differ
  (`EstimateRuns.ReportEstimate`).
- **A rewrite can break rounds it does not touch.** An accepted rewrite may give the tool role to a message without tool
  parts, and that breaks every valid history (`OutputPolicy.RoleChangeBreaksRounds`; `OutputPolicy.OneUserMessage` is
  the smallest). A rewrite keeps the rounds if and only if it does not (`OutputPolicy.RewriteKeepsRounds`).

Enforcement of opaque state taken alone does not look at repeated message identities
(`OpaqueDrops.EnforcementLeavesIdsToCaller`). The program is not affected: its only caller checks them first, and
`OutputBoundary.AcceptSemanticOutput` proves that what it delivers always passes validation.

## Model

| member | source | states |
|---|---|---|
| `Rounds.InspectToolRoundStates` | round_state.go:34-117 | the loop computes the left-to-right judgement of rounds that the layout theorems below characterize |
| `Layouts.InspectionIsLayout` | round_state.go:34-117 | inspection accepts a history if and only if it is a flattened list of well-formed units with distinct assistant identities that agrees with the declarations; the report lists its rounds where they stand |
| `Layouts.DroppingUnitsKeepsRounds` | round_state.go:34-117 | whatever whole units are dropped from a valid history, the rest is valid, its rounds are untouched, and it has no pending round if the kept units have none |
| `Layouts.PrefixIsValid` | round_state.go:34-117 | every prefix of a valid history is valid, even one that ends inside a round |
| `RoundIndex.RoundsPartition` | round_state.go:34-117 | the reported rounds are disjoint, in order, one for every call message, cover every tool message, and describe exactly what stands there |
| `ToolTurns.ToolRoundFromMessages` | tool_turn.go:179-191 | yields the results following an assistant exactly when they answer every call once |
| `ToolTurns.CompleteIsNothingMissing` | tool_turn.go:101-121 | the canonical completeness test agrees with inspection finding no missing call |
| `Removal.RemoveMessages` | conversation_delta.go:83-101 | keeps exactly the messages not named, in order; refuses exactly when the history would lose part of a complete round |
| `Removal.AcceptedIffWholeUnits` | conversation_delta.go:253-275 | over complete rounds, exactly the removals of whole units are accepted |
| `Removal.RemovalKeepsRoundsComplete` | conversation_delta.go:253-275 | an accepted removal leaves a valid history with every round complete |
| `Repair.RepairInterruptedToolRounds` | round_repair.go:48-108 | the cursor loop that appends untouched messages and rebuilt rounds computes the projection the theorems below describe, or its failure |
| `Repair.RepairCompletesInterrupted` | round_repair.go:48-182 | inspected again, the projection reports every interrupted round as complete and every other round as before |
| `Repair.RepairSucceedsIff` | round_repair.go:48-182 | succeeds exactly for a sound policy that decides the interrupted rounds of an accepted history and whose markers exist and are new |
| `Repair.ErasingRestoresInput` | round_repair.go:48-182 | erasing the synthetic messages gives the input back; their identities are new and distinct |
| `Budgets.Resolve` | budget_request.go:35-53 | the limit exists exactly for the well-formed requests and with the reservations adds up to the window |
| `Budgets.BudgetPercentIsFloor` | budget_policy.go:69-72 | the two-step percentage is the exact rounded-down share, and no step leaves the machine range |
| `Budgets.ThresholdsOrdered` | budget_policy.go:53-72 | target, trigger and limit are ordered for every valid policy |
| `Budgets.ValidateDecision` | budget_policy.go:138-170 | accepts exactly the decisions whose recorded numbers and summary are consistent |
| `Retention.SelectRequired` | budget_retention.go:18-82 | succeeds exactly when every selector resolves; then exactly the wanted messages and those sharing a round with one are marked |
| `Retention.ProtectBudgetSuffix` | budget_retention.go:84-97 | adds exactly the protected suffix to the marks |
| `Retention.SuffixIsShortest` | rolling_summary.go:57-69 | the protected suffix keeps the recent tail and every pending round and cuts no round; no shorter one does |
| `Retention.RequirementsRespectRounds` | budget_retention.go:18-97 | no round is divided, pending rounds, the recent tail and everything selected are required, and what may go is a valid history of complete rounds |
| `Candidates.EvictCompleteCandidate` | budget_candidate.go:11-61 | returns the first candidate of the dropping order that fits, or the exact reason there is none |
| `Candidates.CandidatesAreSound` | budget_candidate.go:11-111 | every candidate keeps all required messages in order and either no optional message or at least the minimum; with atomicity it is made of whole units and valid |
| `Strategies.ApplyStrategy` | strategies.go:19-274 | fast path, selective loop with its deletion marks, and tail loop all compute the trimming the theorems below describe |
| `Strategies.ApplyFastPath` | strategies.go:212-232 | the binary search over suffix sums returns the longest suffix within the limit, under the minimum rule |
| `Strategies.FastEqualsSelective` | strategies.go:208-274 | without atomicity the selective loop leaves exactly what the binary search leaves |
| `Strategies.AtomicStrategyKeepsRounds` | strategies.go:19-284 | an atomic strategy leaves whole units of complete rounds: a suffix for drop-head, a prefix for drop-tail |
| `Strategies.StrategyFits` | strategies.go:19-284 | what a built-in strategy leaves of a block that is too large is within the limit |
| `Merging.MergeRequired` | budget_retention.go:126-183 | merges or refuses exactly as the consuming match over the original order demands |
| `Merging.MergeKeepsRequired` | budget_retention.go:126-161 | every merge keeps all required messages unchanged and in order, repeats no identity, and ends with the required tail |
| `Merging.MergeConserves` | budget_retention.go:126-161 | a merge without a summary holds the required messages and the outputs, each as often as given, and nothing else |
| `Closing.MergeYieldsChoiceIff` | budget_retention.go:126-183 | merging a choice of whole units yields exactly the required and chosen messages, which are valid, if and only if every copy lands in the original order |
| `Closing.NamedChoiceIsRestored` | budget_retention.go:126-183 | if the chosen messages are named, the merge is exactly the required and chosen messages, and valid |
| `Closing.ClosingCheckPasses` | budget_retention.go:185-218 | an output that still holds the required messages in order always passes the closing check |
| `Overflow.EvictOptional` | budget_execution.go:186-209 | what is left is within the limit; with an atomic strategy the round check never fires, and the result is whole units, a suffix or a prefix |
| `Overflow.UnitsMergeValid` | budget_execution.go:100-154 | whole units left of named optional messages merge into a valid history |
| `Overflow.AtomicTearsIff` | budget_execution.go:100-154 | an atomic strategy leaves a choice of whole units; the run fails on its rounds if and only if the earliest copies of the chosen messages, with the required ones, are not a valid history, and then copies land out of order and cut through a round |
| `Overflow.ExecuteOverflow` | budget_execution.go:100-250 | every branch hands on a valid output within the limit that keeps the required messages and the protected tail; without a summary its invalid-round failures are characterized exactly: where eviction goes by weight by what the strategy leaves, otherwise by the candidate that is found |
| `Pipeline.ValidateBudgetInvocation` | budget_execution.go:252-264 | passes exactly for a sound policy and a limit inside the configured budget |
| `Pipeline.ApplyWithLimit` | budget_execution.go:15-79 | a delivered run is valid, within the limit by the original estimator, keeps required messages and the protected tail in order, is untouched below the trigger, and its decision passes the validators; it never tears a round if all optional messages are named, and a run that evicts by weight does exactly when what the strategy leaves or its merge is torn |
| `Pipeline.ClosedDecisionValid` | manifest.go:835-853 | every closed decision passes its own validator and the recomputation in the manifest |
| `Pipeline.PendingRoundsSurvive` | budget_execution.go:15-79 | every pending round of the input is in the output of a delivered run, intact and still pending |
| `TornRuns.EqualAnonymousResultsTearRounds` | budget_retention.go:126-183 | for every history of that shape, keeping the second of two rounds with equal anonymous results merges into an invalid history |
| `TornRuns.EqualResultsFailTheRun` | budget_execution.go:15-154 | such a history makes a run fail with an invalid round although everything asked of the caller holds |
| `TornRuns.TwoRoundsExist` | budget_retention.go:175-183 | a concrete history of that shape |
| `Selection.AdmissionIsSound` | selection.go:385-506 | every required unit is admitted, only planned units are, the admitted set fits, and with a monotone cost no unit left out for lack of room could still be added |
| `SelectionInputs.PrepareSegment` | selection.go:168-201 | succeeds exactly if the rounds of the segment can be told; then exactly the turn, what the pipeline must keep and their rounds are required |
| `SelectionInputs.SegmentToolRounds` | selection.go:933-958 | the rounds of the history as inspection reports them; in another segment every call message opens a block of its own; nothing if a block is refused or a result stands outside one |
| `SelectionUnits.SegmentCandidates` | selection.go:126-166 | succeeds exactly if every unit of the segment can be referred to; the candidates cut the segment from start to end, whole rounds together |
| `SelectionUnits.BuildUnit` | selection.go:126-166 | one unit carries the references of exactly its messages; nothing if one of them has none |
| `SelectionOutput.ValidateSelectionDecision` | selection.go:593-664 | accepts exactly the decisions with distinct well-formed candidates, a plan over them, and every selected unit planned |
| `SelectionRuns.SelectOutput` | selection.go:312-383 | ends or is refused exactly as rounds, units, plan and admission decide, each with its reason; each segment holds the admitted units of that segment, whole and in candidate order, less pending messages; the decision records exactly the admitted set |
| `SelectionRuns.DecisionValidIff` | selection.go:312-383 | the recorded decision is valid if and only if the policy is identified, every unit is well formed, and no two units share a reference |
| `SelectionRuns.SelectionDecisionValidIff` | selection.go:593-664 | over known segments the decision is valid if and only if no two units share a reference |
| `SelectionHistories.HistoryKeepsUnits` | selection.go:99-166 | from a valid history that ends in the pending turn, selection leaves whole units in original order without the turn; with the turn back they are whole units of both, also where a round starts in the history and ends in the turn, and both are valid |
| `SelectionHistories.SegmentKeepsUnits` | selection.go:312-383 | every other segment is left as whole units of it in original order, still valid if it was |
| `SelectionSnapshots.UnitsAreDistinct` | selection.go:274-310 | if no identity repeats among the messages, no two units share a reference |
| `SelectionSnapshots.SelectFromSnapshot` | selection.go:312-383 | on a snapshot without repeated identities a selection that ends leaves whole units of every segment and a valid decision, whatever the policy; with repeated ones the decision is valid if and only if no two units share a reference |
| `SelectionCopies.CopyOfTurnIsRefused` | selection.go:274-310 | on a snapshot that holds a copy of the pending message every check passes and the decision recorded is refused by its validator |
| `OutputPolicy.ValidateSegment` | output_policy.go:141-184 | accepts exactly the rewrites that keep every identity and every tool part in place |
| `OutputPolicy.RewriteKeepsRounds` | output_policy.go:141-198 | an accepted rewrite of a valid history has the same rounds if and only if no message without tool parts was given the tool role |
| `OutputPolicy.RoleChangeBreaksRounds` | output_policy.go:141-184 | giving the tool role to a message without tool parts passes the check and breaks every valid history |
| `OutputPolicy.OneUserMessage` | output_policy.go:141-184 | the smallest such history: one user message |
| `OpaqueStates.ValidateOne` | opaque_state.go:188-260 | holds exactly when envelope, codec, profile, required references and prefix all hold in the given context |
| `OpaqueDrops.ValidateOpaqueState` | opaque_state.go:158-186 | accepts exactly if there is no state, or identities are distinct and every state holds |
| `OpaqueDrops.EnforceOpaqueState` | opaque_state_policy.go:117-156 | the drop loop computes the fixpoint the next theorem describes |
| `OpaqueDrops.EnforcementIsSound` | opaque_state_policy.go:117-278 | only states are dropped, each because it was invalid in its context; every state of the request survives unchanged or is reported, not both; fail-closed drops nothing; distinct identities make the result pass validation |
| `OpaqueDrops.EnforcementLeavesIdsToCaller` | opaque_state_policy.go:117-156 | enforcement called alone accepts a history with a repeated identity that validation refuses |
| `OutputBoundary.ApplyOutputPolicy` | output_policy.go:46-78 | fails exactly for an unpresentable input or output, a refusing host, or a rewrite that moves an identity or a tool part |
| `OutputBoundary.RewriteKeepsIds` | output_policy.go:141-155 | an accepted rewrite keeps every identity of the flattened output in its place |
| `OutputBoundary.RewriteFailsRoundsIff` | selection.go:960-971 | after an accepted rewrite the round check of the history fails if and only if a message without tool parts got the tool role |
| `OutputBoundary.AcceptSemanticOutput` | output_boundary.go:43-125 | whatever is delivered keeps every identity in place, passes opaque-state validation, and keeps or reports every state of the request; refusals for input are exact |
| `Lineage.Validate` | lineage.go:129-244 | accepts exactly the well-formed graphs in which nothing is derived from itself |
| `Lineage.PassThroughIsHarmless` | lineage.go:198-215 | a record that passes content through never creates a derivation cycle |
| `Coverage.WalkCoverage` | manifest_coverage.go:289-310 | a reference lists a final output exactly for the derivation trails that end there, apart for trails crossing a summary and trails that do not |
| `Exclusions.CoverageRemovalReason` | manifest_coverage.go:175-200 | the changed-flag loop reaches exactly the content that flows from an anchor, and reports the removal the next two lemmas name |
| `Exclusions.RemovalIsLast` | manifest_coverage.go:175-217 | the reason is that of the last record that takes content flowing from an anchor and puts nothing out |
| `Exclusions.NothingRemoved` | manifest_coverage.go:175-200 | without such a record there is no removal reason |
| `Ledger.CoverageExclusionReason` | manifest_coverage.go:143-171 | a recorded artifact decision, else the last removal downstream of an anchor, else the transformation chain |
| `Ledger.CoverageEntry` | manifest_coverage.go:107-141 | a row lists exactly the final outputs some derivation path joins to the input; its status and reason follow from those paths |
| `Ledger.ManifestCoverage` | manifest_coverage.go:84-105 | the ledger answers every input of every output once, in order |
| `Ledger.RowForInput` | manifest_coverage.go:84-105 | every input of every output has its row at a computed index |
| `Ledger.RowsAreOrdered` | manifest_coverage.go:84-105 | rows of different inputs are different rows, in the order of output, segment and message |
| `Ledger.LedgerLength` | manifest_coverage.go:84-105 | the ledger has no other rows |
| `Export.ExportAncestors` | export.go:398-435 | the needed content is exactly what the latest occurrences of the selected messages derive from, whatever the record order |
| `ExportNames.ExportLineage` | export.go:304-396 | fails exactly for an invalid lineage reference; otherwise every exported record is exactly the disclosed part of its source under one renaming |
| `ExportNames.OnlyApprovedNamed` | export.go:341-384 | exported records name only approved references, or the public form of a sanitized message |
| `Estimates.MergeEstimateCoverage` | estimate_report.go:493-505 | kind by kind the merged table is both tables together, and fallback tokens add up |
| `EstimateBuild.EstimateParts` | estimate_report.go:416-460 | succeeds exactly if every part can be told and those that cannot be counted have a price within the machine range; the table counts every part once, charges every part that cannot be counted once, and is as bad as the worst part of each kind |
| `EstimateBuild.EstimateExtensions` | estimate_extensions.go:17-61 | the same for extensions; metadata takes no part |
| `EstimateSegments.EstimateKnown` | estimate_report.go:375-414 | succeeds exactly if there is one weight per message, none negative, adding up to the estimator's own total |
| `EstimateSegments.PrepareMessage` | estimate_report.go:289-339 | succeeds exactly if the message has a reference, its parts and extensions can be told, and what cannot be counted can be priced; its row holds exactly what it is made of and what the estimator is shown |
| `EstimateRuns.EstimateAllSegments` | estimate_report.go:341-373 | succeeds exactly if every message can be estimated, the estimator agrees with itself and each segment stays in the machine range; together the segments cost what the estimator says about what it was shown plus the fallback for what it was not |
| `EstimateReports.BuiltSegmentValidIff` | estimate_codec.go:97-160 | every segment built is accepted by the validator if and only if no message identity repeats in it |
| `EstimateChecks.ValidateSegment` | estimate_codec.go:97-322 | accepts exactly the segments whose shapes, references, sums, counts, coverage and expected fallback agree |
| `EstimateRuns.ValidateReport` | estimate_codec.go:60-95 | accepts exactly the reports with distinct names, valid segments, and matching total, quality and overflow |
| `EstimateRuns.AssembledValidIff` | estimate_report.go:192-250 | an assembled report passes its validator if and only if no segment repeats a message identity |
| `EstimateRuns.Assemble` | estimate_report.go:192-250 | a report is put together exactly if segment names are distinct, every message can be estimated, the estimator agrees with itself, and the whole cost stays in the machine range |
| `EstimateRuns.ReportEstimate` | estimate_report.go:192-250 | a report is returned exactly if one can be put together and no segment repeats an identity; it is valid and its total is conserved |
| `EstimateRuns.ReportTwice` | estimate_report.go:192-250 | on two messages of one identity a report is put together and the run refuses it |
| `Store.MemoryStore.LoadState` | conversation.go:202-219 | an unknown conversation loads as empty with token zero |
| `Store.MemoryStore.CommitState` | conversation.go:222-277 | a commit stores the sealed result of the whole batch under the next token, or changes nothing and gives its reason |
| `Store.MemoryStore.ClearState` | conversation.go:282-314 | a clear leaves empty content under the next token, or changes nothing |
| `Store.ApplyDeltas` | conversation_delta.go:123-133 | the batch is applied in order and fails as a whole |
| `Store.SpentTokensStayDead` | conversation.go:222-323 | over any run: after a success no call with the same or an older token succeeds, so a token works at most once and none from before a clear works again |
| `Store.DeniedCallsAreInvisible` | conversation.go:222-323 | erasing the denied calls of any run leaves the same store, and every remaining call succeeds |
| `Store.TokenCountsSuccesses` | conversation.go:318-323 | in a fresh store the token is the number of successful calls on the conversation and stays in the 64-bit range |
| `Store.ExhaustedForever` | conversation.go:318-323 | once the last token is reached every later call on the conversation is denied |
| `Persistence.Final` | transform_record.go:44-61 | the loop computes the outcome the next two lemmas characterize |
| `Persistence.FinalKind` | transform_record.go:44-61 | a removal anywhere wins, then a replacement anywhere, then any harmless step |
| `Persistence.FinalDecides` | transform_record.go:44-61 | among steps of the deciding kind it is the last removal, the first replacement, or the last harmless step |
| `Persistence.PersistsIff` | persistence_projection.go:59-92 | a declared message is written back if and only if some step is harmless and none removed or replaced it |
| `Persistence.OrderPersistenceMessages` | persistence_projection.go:38-57 | payload order first, own order for the rest, one message per identity |
| `Persistence.OrderPermutesIff` | persistence_projection.go:38-57 | ordering permutes the selection if and only if no identity repeats in it |
| `Persistence.DerivePersistenceSegment` | persistence_projection.go:7-36 | the segment is the ordered selection followed by the stored current turn |
| `Persistence.WritesBackSelection` | persistence_projection.go:7-36 | with distinct identities exactly the staying sources and the additions are written back, each once |
| `Persistence.SourceWrittenIff` | persistence_projection.go:7-36 | a source message is written back as the source holds it if and only if it is named, not pending, and not removed or replaced |
| `Persistence.RemovedStaysRemoved` | persistence_projection.go:7-36 | nothing a step removed or replaced is written back, whatever the identities |

## Left out

- Cancellation, observers, events, recording and tracing side effects: every operation runs to its end.
- Go's copying of messages and its sharing of slices: values are immutable here, so mutation through an alias cannot be
  expressed. The arrays and objects the code does change in place are modelled as such.
- Serialization and digests: content references, canonical encodings and report digests are parameters or absent, so
  stale-digest errors are not modelled.
- Text is compared for equality only; identities are the type `Name`, and message equality is value equality without
  timestamps.
- Go iterates maps in no fixed order; loops over maps take an arbitrary element, and drop lists are sets.
- An estimator that answers differently when asked twice.
- Pipeline.ApplyWithLimit: the identities fixed by a compile (`fixedIDs`) are empty, and the several errors for required
  messages that do not fit are one.
- Overflow.ExecuteOverflow: the purpose of a summary ignores compaction capture (compaction_capture.go), which is not
  part of this model.
- Repair.RepairInterruptedToolRounds: lineage records of the repair are not built, so the closing lineage check is
  absent.
- SelectionRuns.SelectOutput: the artifacts of a message are represented by their references alone.
- OutputBoundary.AcceptSemanticOutput: the round check covers the history segment; the retention, selection and
  estimate checks that follow it do not change the output and are left out.
- OpaqueDrops.EnforcementIsSound: the records of drops (order, content references in the manifest) are left out.
- Estimates.MergeEstimateCoverage: token sums are unbounded integers where the code adds without a check; the checked
  sums of the same report are at least as large.
- EstimateRuns.ReportEstimate: descriptors of the profile and the budget request are validated elsewhere and not part
  of it.
- Store.MemoryStore.CommitState: the transitions are a parameter; only removal of messages is modelled, in `Removal`.
- Blobs, artifacts, resources, replay, views, prefix diagnostics, media, labels and the wire codecs: not part of this
  model.
