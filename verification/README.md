# Entropic core: a verified model

This project models the core library of Entropic, an agentic inference engine,
in Dafny 4.11 and proves what its parts keep over every input, every run and
every interleaving. `dafny verify dfyconfig.toml` checks all of it.

The engine runs a model in a loop, lets it call tools and delegate to child
loops, and rewrites the conversation as it grows. What the model answers, what
tools, hooks and consumers do, and what other threads do is arbitrary input
here, so the theorems hold for every behaviour of those.

| module | what it models |
|---|---|
| `Utf8`, `Utf8Codes`, `StreamFilter` | the byte-at-a-time reasoning filter and its UTF-8 aligner (section 3 of RFC 3629) |
| `Reasoning` | batch removal of reasoning blocks, compared with the stream |
| `JsonMessages`, `JsonRoles`, `JsonDocuments` | the hand-written JSON printer and cursor parser (escapes from section 7 of RFC 8259), exactly which lists survive both, and what any document of message objects is parsed to |
| `Compaction`, `CompactionWording`, `CompactionSummaries` | value-density compaction and its summaries |
| `ContextManager`, `ContextLimits`, `ContextRuns`, `AnchorRuns`, `EvidenceTexts` | pruning, warnings, anchors, and the evidence shown to the validator: when they are due, and what whole runs keep |
| `UserTurns` | what becomes of the messages that users type |
| `TurnRegistry`, `TurnOperations`, `Interrupts`, `TurnEngine` | turn claims and interrupt tokens as steps of many threads |
| `AgentLoop`, `LoopPasses`, `ToolBatches`, `LoopBudgets`, `LoopEngine` | the agent loop, what a pass leaves, what becomes of tool results, and the three budgets |
| `DrainLoop`, `Sessions`, `SessionTurns` | commit and rollback of turns, system prompts, and the message queue |
| `Delegation`, `DelegationTrees`, `DelegationRuns`, `DelegationEngine` | trees of delegations in sandboxes, and which children run |
| `Validator`, `ValidationRuns` | critique, revision, pause and resume |
| `HookRegistry`, `HookChains` | hook lists and the chains that fire them |

Code that changes state is a class or a method with a loop, and its `ensures`
ties the new state to a specification function; the theorems are lemmas about
those functions. A `char` stands for one byte of a `std::string`, and the
filter works on a `byte` type.

## What the code does that its comments do not say

- `interrupt()` is documented to reach every run on the handle. It fans out to
  the active runs and then sets the handle-wide flag; a run claimed in between
  sees only the flag, and any fresh turn clears that.
  `Interrupts.DurableExactlyWhenFlagged` gives the exact condition.
- A resumed child's ancestor list records the resumed tier twice and its
  parent's tier not at all, and its guards run on the name in the request, not
  on the tier that storage resolves it to: it can re-enter its parent's tier and
  a tier that the repeat guard blocks. Pipelines have neither a cycle nor a
  repeat guard. `DelegationRuns.RepeatsExactly` and
  `DelegationRuns.BlockedTargetRunsExactly` give the exact conditions. In the same
  way a resume is the only request that runs a tier whose tools the isolation
  guard would refuse (`DelegationRuns.UnsafeTargetRunsExactly`).
- Compaction is said to preserve user messages (`docs/requirements.yaml:1435`). It
  keeps those whose metadata has `source` = `user` (`src/core/compaction.cpp:194`),
  and nothing in the engine writes that key: the turns that the drain loop stores
  carry no metadata (`src/core/engine.cpp:4058-4063`), so compaction drops what
  users typed. `UserTurns.CompactionDropsTyped` is a conversation, and
  `UserTurns.TypedIsKeptExactly` the exact condition over all runs.
- A turn is stored by position: the messages of the result beyond the number
  that was sent. A result that is not longer than what was sent adds nothing
  (`DrainLoop.WholeResultIsStored`), so a turn that compacts its messages loses
  the beginning of what it adds after that, or all of it
  (`DrainLoop.RewrittenTurnIsStored`, `UserTurns.CompactedReplyIsLost`).
- In a content part, whitespace before the closing brace makes the parser refuse
  the list, while it is accepted there in a message
  (`JsonDocuments.SpaceBeforeBraceIsRefused`).
- Of an escape sequence other than `\n`, `\r` and `\t` only the backslash is
  dropped, so Unicode escapes are not decoded (`JsonDocuments.EscapeRead`).
- Roles are printed without escaping; a list with a quote or a backslash in a role
  is never read back (`JsonRoles.RoundTripExactlyWhen`).
- Pruning on request keeps no original, so unlike pruning by age it changes what
  the validator sees (`ContextRuns.PruneKeepsViews`).
- `attempt_n` is documented to equal `revision_count` for rejected verdicts;
  after a length revert it is one more (`Validator.AttemptNumber`), and the text
  kept is the last accepted revision, not the original.
- Resuming a paused validation is described as continuing its revisions. The
  pause does not keep the turn's tool manifest and tool evidence, so the resumed
  run's critiques see neither, and an empty conversation comes back as an absent
  one. `Validator.ResumeMatchesAutomaticRetry` gives the exact condition under
  which the result is that of automatic retries, and `Validator.EvidenceIsLost`
  a turn with evidence that automatic retries pass and a resumed run rejects.
- A completion's summary is folded into one empty reply; when the summary is
  empty, any number of completions vanish into it
  (`ToolBatches.EmptySummarySwallows`).
- The budget cut overrides the failure of the empty-turn ladder in the same pass
  with a completion (`LoopBudgets.LastEmptyTurnFails`).
- The auto-chain condition for finish reason `length` is never reached, because
  that reason is handled before it (`LoopBudgets.LengthNeverChains`).
- A buffer that a pre- or post-hook sets before it throws is never freed
  (`HookChains.ThrownBufferLeaks`); `HookChains.LeaksAreCounted` adds them up over
  a chain.

## Model

| member | source | states |
|---|---|---|
| `Utf8Codes.ValidExactly` | src/core/stream_think_filter.cpp:75-124 | the texts taken as valid are the encodings of sequences of scalar values, as section 3 of RFC 3629 gives them, and no others |
| `Utf8Codes.LeadingBits` | src/core/stream_think_filter.cpp:75-85 | the lead-byte table goes by the leading bits of a byte |
| `Utf8.RestSnoc` | src/core/stream_think_filter.cpp:75-124 | appending a byte of valid text: it leads a code point exactly when nothing was unfinished, and the new unfinished part depends only on the old one and the byte |
| `StreamFilter.StreamThinkFilter.EmitUtf8Safe` | src/core/stream_think_filter.cpp:97-124 | the aligner's new buffer and the callback it makes, as `Emit` of the old state |
| `StreamFilter.StreamThinkFilter.ProcessByte` | src/core/stream_think_filter.cpp:139-159 | one byte moves the filter to `Step` of the old state |
| `StreamFilter.StreamThinkFilter.OnToken` | src/core/stream_think_filter.cpp:168-175 | a chunk moves the filter to `Feed` of the old state |
| `StreamFilter.StreamThinkFilter.FlushAll` | src/core/stream_think_filter.cpp:182-192 | flushing empties both buffers and delivers what they held outside a block |
| `StreamFilter.ChunkingIrrelevant` | src/core/stream_think_filter.cpp:168-175 | however a text is cut into chunks, the filter ends in the same state with the same callbacks |
| `StreamFilter.BuffersBounded` | src/core/stream_think_filter.cpp:97-159 | on every input the tag buffer stays within the longer marker and the aligner within 3 bytes |
| `StreamFilter.SafeLenIsWhole` | src/core/stream_think_filter.cpp:97-124 | the backward walk over the aligner's buffer finds exactly the whole code points of valid text |
| `StreamFilter.StepAligned` | src/core/stream_think_filter.cpp:139-159 | every byte keeps the invariant that ties the aligner to the unfinished code point and opens tag buffers at code point boundaries |
| `StreamFilter.CallbacksAreWholeCodePoints` | src/core/stream_think_filter.cpp:75-192 | for valid text and valid non-empty markers, however chunked, every callback, the flush included, is a non-empty whole number of code points |
| `StreamFilter.StreamTurn` | src/core/stream_think_filter.cpp:168-192 | a turn's callbacks are those of the whole text followed by the flush |
| `StreamFilter.UnmarkedTextPassesThrough` | src/core/stream_think_filter.cpp:139-192 | a text that contains neither marker comes out unchanged |
| `Reasoning.Find` | src/core/constitutional_validator.cpp:1073-1079 | the first occurrence at or after a position, or none |
| `Reasoning.StripReasoning` | src/core/constitutional_validator.cpp:1067-1083 | the searching loop computes the byte-by-byte reference `Strip`, unclosed blocks included |
| `Reasoning.StreamVisible` | src/core/stream_think_filter.cpp:139-192 | on text made of plain bytes and markers the stream shows what lies outside blocks, stray closes swallowed |
| `Reasoning.BatchVisible` | src/core/constitutional_validator.cpp:1067-1083 | on the same texts batch stripping shows what lies outside blocks and the stray closes |
| `Reasoning.StreamMatchesBatch` | src/core/stream_think_filter.cpp:139-192 | for clean markers, stream and batch give the same text if and only if no close marker lies outside a block |
| `Reasoning.UnmarkedTextIsKept` | src/core/constitutional_validator.cpp:1067-1083 | batch stripping keeps a text without the opening marker, so both sides agree on unmarked text |
| `Reasoning.EarlyFirstByteDiverges` | src/core/stream_think_filter.cpp:139-159 | when an opening marker is preceded by its own first byte, stream and batch agree if and only if the marker is a single byte; otherwise the stream shows the marker and the batch removes it |
| `Reasoning.FirstByteInBlockDiverges` | src/core/stream_think_filter.cpp:139-159 | when a block ends in a byte that may begin a marker, the stream misses its close and loses what follows, which batch stripping keeps; they agree if and only if that is itself an opening marker |
| `JsonMessages.JsonEscape` | src/core/compactor_registry.cpp:46-54 | the escaping loop computes `Escape` |
| `JsonMessages.SerializeMessages` | src/core/compactor_registry.cpp:63-75 | the printing loop computes `Serialize`: the objects in order, separated by commas, in brackets |
| `JsonMessages.JsonCursor.TakeString` | src/core/compactor_registry.cpp:151-169 | the cursor reads a string as `ReadString` does and stays within the text |
| `JsonMessages.JsonCursor.PassComposite` | src/core/compactor_registry.cpp:177-193 | the cursor skips a nested array or object, strings inside it included |
| `JsonMessages.JsonCursor.PassValue` | src/core/compactor_registry.cpp:201-220 | the cursor skips any value and stays within the text |
| `JsonMessages.JsonCursor.TakeParts` | src/core/compactor_registry.cpp:342-358 | the texts of a content-part array, joined by spaces |
| `JsonMessages.JsonCursor.TakeField` | src/core/compactor_registry.cpp:372-400 | one field of a message: role, content or skipped |
| `JsonMessages.JsonCursor.TakeMessage` | src/core/compactor_registry.cpp:407-415 | one message object; the loop ends because every accepted field consumes text |
| `JsonMessages.JsonCursor.TakeArray` | src/core/compactor_registry.cpp:425-441 | the elements in order, within the bounds of the text |
| `JsonMessages.ParseMessages` | src/core/compactor_registry.cpp:451-458 | the parser ends on every text, null included, with the result of the specification, its cursor never past the end |
| `JsonMessages.UnescapedStringReadBack` | src/core/compactor_registry.cpp:63-75 | a string printed without escaping, as roles are, is read back exactly if and only if it has no quote and no backslash |
| `JsonMessages.ParseUndoesSerialize` | src/core/compactor_registry.cpp:46-458 | parsing undoes printing on role and content for every NUL-free list whose roles need no escaping |
| `JsonMessages.RoundTripExactly` | src/core/compactor_registry.cpp:46-458 | with roles that need no escaping, a printed list is read back or refused, and refused if and only if a role or content holds a NUL |
| `JsonRoles.RolesAreRead` | src/core/compactor_registry.cpp:372-441 | every role that the parser returns, on any text, is empty or was read from a quote in it that no content opens |
| `JsonRoles.RoundTripExactlyWhen` | src/core/compactor_registry.cpp:46-458 | for every list of messages, parsing gives back what was printed if and only if no message holds a NUL and no role a quote or a backslash |
| `JsonDocuments.ValueSkipped` | src/core/compactor_registry.cpp:177-220 | any JSON value, nested to any depth and with whitespace between its tokens, is skipped whole |
| `JsonDocuments.PartsRead` | src/core/compactor_registry.cpp:232-358 | an array of content parts, with any other fields and parts, gives the texts of its text parts in order, joined by single spaces, empty ones left out |
| `JsonDocuments.EntriesRead` | src/core/compactor_registry.cpp:372-415 | an object gives its last role and its last content, string or array, and the fields between them make no difference |
| `JsonDocuments.DocumentRead` | src/core/compactor_registry.cpp:425-458 | every NUL-free document of such objects is parsed to what it means, with whitespace between the tokens, but none before the end of a part |
| `JsonDocuments.EscapeRead` | src/core/compactor_registry.cpp:130-169 | the character after a backslash is read as it is, except for n, r and t |
| `JsonDocuments.SpaceBeforeBraceIsRefused` | src/core/compactor_registry.cpp:250-263 | whitespace before the closing brace of a part is refused |
| `JsonDocuments.UnknownFieldsAreIgnored` | src/core/compactor_registry.cpp:372-400 | an unknown field leaves the message as it is without that field, wherever it stands |
| `Compaction.CountAll` | src/core/compaction.cpp:67-74 | the loop adds up the token estimates of all messages |
| `ContextLimits.TokensFollowBytes` | src/core/compaction.cpp:37-74 | four times the count of a list lies between its bytes plus 16 and its bytes plus 20 per message |
| `Compaction.PartitionMessages` | src/core/compaction.cpp:186-203 | the user-tagged messages and the other assistant messages, each in order, and how many are neither |
| `Compaction.AssembleCompacted` | src/core/compaction.cpp:215-228 | system, summary, users, last assistant, in that order |
| `Compaction.ExtractToolLog` | src/core/compaction.cpp:377-396 | one log line per message that names a tool, pruned ones marked |
| `CompactionSummaries.TaskExactly` | src/core/compaction.cpp:290-370 | the task is the first tagged message, unless it is empty; then the first message of the user's role that is not empty and not a tool result; else the wording for none |
| `CompactionSummaries.BriefIsFirstLine` | src/core/compaction.cpp:377-396 | a log line holds the first line of a result, up to the limit and no less |
| `CompactionSummaries.LogExactly` | src/core/compaction.cpp:377-396 | wherever it stands, a message that names a tool has one line of its own, marked if it was pruned, and any other has none |
| `CompactionSummaries.SummaryReads` | src/core/compaction.cpp:275-288 | the summary gives the number of messages, the task and, where there is one, the log |
| `Compaction.CompactList` | src/core/compaction.cpp:238-266 | the compacted list is `Compact` of the messages |
| `Compaction.CompactKept` | src/core/compaction.cpp:238-266 | compacting a compacted list changes nothing but the summary |
| `Compaction.NestedSummary` | src/core/compaction.cpp:275-288 | without a usable user message, the new summary wraps its predecessor, cut to 500 bytes |
| `Compaction.SecondCompactionIsFixed` | src/core/compaction.cpp:186-416 | when the first user-tagged message has content, two compactions reach a list that a third leaves unchanged |
| `Compaction.SixthCompactionIsFixed` | src/core/compaction.cpp:186-416 | every list, without any condition, is unchanged after six compactions |
| `Compaction.EmptyListKeepsChanging` | src/core/compaction.cpp:238-416 | the empty list changes at every compaction as long as the nested difference lies within the 500 bytes that a summary keeps |
| `Compaction.ThirdCompactionCanChange` | src/core/compaction.cpp:238-416 | so two compactions are not enough for every list, whatever the wording |
| `CompactionWording.ShippedCompactionSettles` | src/core/compaction.cpp:275-416 | for the wording in the source, every list is settled after six compactions and the empty one not before: six is exact |
| `ContextManager.Manager.PruneToolResults` | src/core/context_manager.cpp:60-102 | a tool message is stubbed exactly when it is not a stub and at least `keep_recent` > 0 tool messages follow it |
| `ContextManager.Manager.PruneOldToolResults` | src/core/context_manager.cpp:123-179 | from the warning threshold on, results past their TTL are stubbed and their originals saved; unreadable iterations are left alone |
| `ContextManager.Manager.InjectContextWarning` | src/core/context_manager.cpp:187-214 | at most one warning per iteration, from the threshold on |
| `ContextManager.Manager.DirAnchor` | src/core/engine.cpp:1743-1767 | an anchor replaces the messages of its key, an empty one removes them |
| `ContextManager.Manager.ReinjectContextAnchors` | src/core/engine.cpp:1539-1550 | the anchors of a snapshot are set again, in the order in which the table is walked |
| `AnchorRuns.SetAnchorExactly` | src/core/engine.cpp:1743-1767 | setting an anchor leaves one message for it, or none if it is removed, and those of the others as they were |
| `AnchorRuns.RunKeepsAnchors` | src/core/engine.cpp:1539-1767 | in every run of context operations each anchor stands in the messages once, with the text that it was last given, compactions included |
| `ContextManager.CheckAndCompact` | src/core/compaction.cpp:126-173 | compaction happens exactly when enabled and forced or due |
| `ContextLimits.CompactsExactly` | src/core/compaction.cpp:126-173 | the list is replaced if and only if compaction is enabled, not cancelled, and forced or within one token of the configured share of the window; otherwise nothing changes |
| `ContextLimits.BytesDecide` | src/core/compaction.cpp:126-173 | so bytes and number of messages decide it from below and from above |
| `ContextLimits.WarnsExactly` | src/core/context_manager.cpp:187-214 | one warning is added if and only if the share of the window for warnings is reached and this iteration has none yet |
| `ContextLimits.AgedExactly` | src/core/context_manager.cpp:123-179 | in a crowded context a result is stubbed, and its original saved, if and only if it is as many iterations old as its time to live |
| `ContextLimits.OthersNeverAge` | src/core/context_manager.cpp:123-179 | messages of no tool, stubs, and results without a readable iteration are left alone |
| `ContextLimits.NumberReadBack` | src/core/context_manager.cpp:140-160 | an iteration that is written is read back if it fits an int |
| `ContextManager.Manager.CheckCompactionOf` | src/core/context_manager.cpp:224-244 | unless a hook cancels it, a due compaction is followed by the anchors |
| `ContextRuns.CompactKeepsSpoken` | src/core/compaction.cpp:238-266 | compaction keeps the messages tagged `source` = `user` (neither tool results nor anchors), in order |
| `ContextRuns.RunKeepsSpoken` | src/core/context_manager.cpp:60-244 | any sequence of compactions, both kinds of pruning, warnings, anchor updates and new messages leaves the messages tagged `source` = `user` (neither tool results nor anchors) exactly as they were, followed by the tagged ones that arrived |
| `ContextRuns.RunKeepsSaved` | src/core/context_manager.cpp:123-179 | in every such run a saved original implies a stubbed body |
| `ContextRuns.BuildToolManifest` | src/core/engine.cpp:2072-2094 | one line per named tool result with the size of its original |
| `ContextRuns.FormatToolEvidenceEntry` | src/core/engine.cpp:2104-2127 | one entry from the original, clipped |
| `ContextRuns.BuildToolEvidence` | src/core/engine.cpp:2156-2182 | the latest results, and how many were elided |
| `EvidenceTexts.ManifestExactly` | src/core/engine.cpp:2072-2094 | wherever it stands, a result has one line with its tool and the size of its original, and any other message none |
| `EvidenceTexts.EvidenceExactly` | src/core/engine.cpp:2104-2182 | when there are not too many, every result is shown in order; else the last ones, after a note of how many are left out |
| `ContextRuns.ExpireKeepsViews` | src/core/context_manager.cpp:123-179 | pruning by age shows the validator the same results if and only if no message it prunes carries a saved original other than its body |
| `ContextRuns.AgePruningIsInvisible` | src/core/engine.cpp:2072-2182 | however often results are pruned by age between new results, warnings and iterations, the validator sees every result as it arrived |
| `ContextRuns.AgePruningKeepsEvidence` | src/core/engine.cpp:2072-2182 | pruning by age any number of times changes neither the manifest nor the evidence block |
| `ContextRuns.PruneKeepsViews` | src/core/context_manager.cpp:60-102 | pruning on request keeps what the validator sees if and only if there is nothing to prune |
| `ContextRuns.PruneHidesEvidence` | src/core/context_manager.cpp:60-102 | a run in which it hides a result |
| `UserTurns.UsersKeepSaid` | src/core/compaction.cpp:186-203 | the partition keeps every message in the user's role (neither tool results nor anchors) if and only if all of them are tagged `source` = `user` |
| `UserTurns.CompactKeepsSaid` | src/core/compaction.cpp:238-266 | a compaction leaves its summary and all of those messages under the same condition, and no other |
| `UserTurns.TypedIsUntagged` | src/core/engine.cpp:4058-4063 | the message that a turn stores for its user is in the user's role and not tagged |
| `UserTurns.CompactionDropsTyped` | src/core/compaction.cpp:186-266 | a conversation whose two typed messages are gone after one compaction |
| `UserTurns.UntaggedIsDropped` | src/core/compaction.cpp:186-266 | of any conversation without tags a compaction leaves only its own summary in the user's role |
| `UserTurns.TypedIsKeptExactly` | src/core/context_manager.cpp:60-244 | every run of context operations keeps what users typed, in order, if and only if compaction is disabled or all of it is tagged |
| `UserTurns.CompactedReplyIsLost` | src/core/engine.cpp:634-654 | a turn that compacts its messages and then adds others stores none of them when together they are no longer than what was sent |
| `TurnEngine.AgentEngine.TryBeginTurn` | src/core/engine.cpp:3714-3738 | the claim is one step of the registry, granted exactly when it is not blocked |
| `TurnEngine.AgentEngine.EndTurn` | src/core/engine.cpp:3746-3759 | the release is one step of the registry |
| `TurnEngine.AgentEngine.ThisThreadRun` | src/core/engine.cpp:3814-3819 | the run that the thread's claim stands for |
| `TurnEngine.AgentEngine.FlagActiveRuns` | src/core/engine.cpp:1397-1403 | the fan-out sets the token of every active run and no other |
| `TurnEngine.AgentEngine.Interrupt` | src/core/engine.cpp:1392-1414 | `interrupt()` is the fan-out step followed by the flag step |
| `TurnEngine.AgentEngine.InterruptSession` | src/core/engine.cpp:3828-3843 | `interrupt_session` is the look-up step followed by the token step of the run found |
| `TurnEngine.AgentEngine.ResetInterrupt` | src/core/engine.cpp:1473-1489 | a reset is three steps: the flag, the look-up of the own run, its token |
| `TurnRegistry.StepKeepsInv` | src/core/engine.cpp:3714-3771 | every step of a disciplined thread keeps the invariant |
| `TurnRegistry.ReachableIsExclusive` | src/core/engine.cpp:3714-3771 | in every reachable state a run has at most one owner, a key is active exactly when some thread holds it, the running flag tells whether a run is active, and at most one is while concurrency has been off since idle |
| `TurnRegistry.BeginGrantsExactly` | src/core/engine.cpp:3714-3738 | a thread gets a new run of its own, not interrupted, if and only if its session has none and sessions may run side by side or none is running; otherwise nothing changes |
| `TurnRegistry.SessionsRunSideBySide` | src/core/engine.cpp:3714-3738 | with concurrency on, a state is reachable in which any number of sessions run, each with a thread and a run of its own |
| `TurnOperations.OneTurnAtATime` | src/core/engine.cpp:3714-3738 | with concurrency off at most one run is active, as long as nobody turns it on |
| `TurnOperations.InterruptTakes` | src/core/engine.cpp:1392-1414 | with nothing in between, an interrupt sets the handle's flag and every active run's token, and nothing else |
| `TurnOperations.SessionInterruptTakes` | src/core/engine.cpp:3828-3843 | a session's interrupt sets the token of its run, and nothing else |
| `TurnOperations.ResetTakes` | src/core/engine.cpp:1473-1489 | a reset clears the handle's flag and the token of the thread's own run, and nothing else |
| `TurnOperations.EndTakes` | src/core/engine.cpp:3746-3759 | a release removes the session's run, whoever calls it, and takes the claim of the calling thread alone |
| `TurnOperations.ScopesNest` | src/core/engine.cpp:408-416 | a cancel scope publishes the thread's own run, or the handle, and leaving it brings back the one before |
| `Interrupts.TokenAfter` | src/core/engine.cpp:1392-1489 | how any step changes any run's token |
| `Interrupts.InterruptSticks` | src/core/engine.cpp:1392-1489 | once a run's token is set it keeps observing the interrupt under every interleaving, until its own thread resets or releases |
| `Interrupts.InterruptReachesEveryRun` | src/core/engine.cpp:1392-1430 | so it does for every run that is active when `interrupt()` fans out |
| `Interrupts.SessionInterruptReachesRun` | src/core/engine.cpp:3828-3867 | and for the run that `interrupt_session` finds, whatever happens between its two accesses |
| `Interrupts.OtherSessionsDoNotInterrupt` | src/core/engine.cpp:3828-3867 | no sequence of steps without `interrupt()` and without an `interrupt_session` of its own key makes a run observe an interrupt |
| `Interrupts.DurableExactlyWhenFlagged` | src/core/engine.cpp:1428-1489 | a run is sure to go on observing an interrupt if and only if its own token is set |
| `Interrupts.LateClaimIsNotFlagged` | src/core/engine.cpp:1392-1414 | a reachable state in which a run observes `interrupt()` without its token being set, and can lose it |
| `Interrupts.UndisciplinedReleaseSharesAKey` | src/core/engine.cpp:3746-3759 | a release by a thread that holds nothing lets two threads own one key |
| `LoopEngine.LoopContext.ResolveMaxIterations` | src/core/engine.cpp:341-349 | the identity's or the configured limit, lowered by the requested turns |
| `LoopEngine.LoopContext.LastSubstantiveAssistant` | src/core/engine.cpp:709-720 | the backward search computes `LastSubstantive` |
| `LoopEngine.LoopContext.FinishWithCarriedOutput` | src/core/engine.cpp:747-792 | a forced stop appends the annotated last output, records its reason and completes |
| `LoopEngine.LoopContext.BudgetUnitsConsumed` | src/core/engine.cpp:969-985 | the tokens or the seconds used in the window, this turn included |
| `LoopEngine.LoopContext.NudgeBudgetCompletion` | src/core/engine.cpp:992-1007 | the nudge is pushed once and starts a new window |
| `LoopEngine.LoopContext.ChargeThinkingBudget` | src/core/engine.cpp:939-1036 | in tokens or wall-clock time: reset on progress, else accumulate, nudge once, then cut |
| `LoopEngine.LoopContext.FoldCompleteIntoAssistant` | src/core/engine.cpp:1276-1289 | a completion's summary goes into the empty reply that it came with, and nothing else is folded |
| `LoopEngine.LoopContext.PushToolResults` | src/core/engine.cpp:1951-1963 | each result is folded or pushed, the engine's own de-fanged, and there is progress exactly when some tool really ran |
| `ToolBatches.ResultsAreShown` | src/core/engine.cpp:1951-1963 | in a batch without a completion every result reaches the model, in order, after the messages there were: role and metadata kept, content replaced for the engine's own tools only |
| `ToolBatches.BatchGrows` | src/core/engine.cpp:1276-1963 | any batch adds its results less those folded, changes of the messages before it at most an empty last reply, and folds at most one result into a reply unless the summary is empty |
| `ToolBatches.BatchExactly` | src/core/engine.cpp:1276-1963 | when the first result completes the turn after an empty reply, the reply gets the summary and the others follow; in every other batch all follow |
| `ToolBatches.EmptySummarySwallows` | src/core/engine.cpp:1276-1289 | with an empty summary any number of completions vanish |
| `ToolBatches.PassShowsResults` | src/core/engine.cpp:1935-1971 | after a pass that dispatches nothing the messages begin with what the batch came to; the budget adds at most one |
| `LoopEngine.LoopContext.ProcessToolResults` | src/core/engine.cpp:1935-1971 | a batch's effect on the context; progress clears the retries and terminal states set by it are kept |
| `LoopEngine.LoopContext.RecordExplicitCompletionFailure` | src/core/engine.cpp:1162-1211 | an empty turn is corrected until the allowance is used up, then fails the run |
| `LoopEngine.LoopContext.EvaluateNoToolDecision` | src/core/engine.cpp:1092-1155 | finish reasons first, then auto-chain, the ladder, completeness |
| `LoopEngine.LoopContext.DispatchPendingOrHalt` | src/core/engine.cpp:1056-1082 | interrupts and terminal states stop a dispatch, and a dispatch gives its iteration back |
| `LoopEngine.LoopContext.ExecuteIteration` | src/core/engine.cpp:866-931 | one iteration: hook, answer, budget, dispatch |
| `LoopEngine.LoopContext.Loop` | src/core/engine.cpp:821-857 | the loop takes the passes that `Run` takes and settles once it stops |
| `LoopEngine.LoopContext.ExtractSummary` | src/core/delegation.cpp:827-844 | the explicit summary, else the last non-empty assistant message |
| `AgentLoop.PassCounts` | src/core/engine.cpp:821-1082 | a pass costs one iteration unless it dispatches, and never changes the limit |
| `AgentLoop.IterationsAreBounded` | src/core/engine.cpp:821-1082 | in every run, iterations are passes less dispatches and never exceed the limit, so passes are at most the limit plus the dispatches |
| `AgentLoop.MaxTurnsOnlyLowers` | src/core/engine.cpp:341-349 | a requested number of turns never raises the limit, binds when smaller, and changes nothing when larger |
| `AgentLoop.MaxTurnsBind` | src/core/engine.cpp:341-349 | a child takes at most the requested number of passes, plus one for each dispatch |
| `AgentLoop.LoopExits` | src/core/engine.cpp:821-857 | the loop goes on until it should stop, and is left only in a terminal state or with three consecutive duplicates |
| `LoopPasses.TakesPassesExactly` | src/core/engine.cpp:821-857 | the loop takes one pass after another exactly as long as the run is not over, its iterations are below the identity's limit or else the configured one, and below the requested turns, and it has fewer than three duplicates |
| `LoopPasses.ReplyIsRecorded` | src/core/engine.cpp:1092-1211 | a reply without tools is recorded after the history, and a correction after it exactly when a tool call is missing and the allowance is not used up |
| `LoopPasses.AnswerLeaves` | src/core/engine.cpp:1935-1971 | the duplicates, summary, pending requests and retries that an answer leaves |
| `LoopPasses.AnswerDecides` | src/core/engine.cpp:1092-1155 | when an answer interrupts, fails or completes a run |
| `LoopPasses.ChargeLeaves` | src/core/engine.cpp:939-1036 | what the budget does in either mode: a productive pass closes the window, an unproductive one is charged, the first window used up is followed by a nudge and a new window, the second by the end |
| `LoopPasses.WindowStaysOpen` | src/core/engine.cpp:969-985 | over any number of unproductive passes the wall-clock window stays where it was opened |
| `LoopPasses.DispatchLeaves` | src/core/engine.cpp:1056-1082 | what a dispatch leaves: a delegation goes before a pipeline, which waits for the next pass |
| `LoopPasses.SettleLeaves` | src/core/engine.cpp:821-857 | a run that used up its iterations gets one message more and is completed, any other is left as it is |
| `LoopPasses.CarriedIsLast` | src/core/engine.cpp:709-720 | a forced stop carries the last assistant message with a character that is not blank |
| `LoopPasses.ForcedStopExplains` | src/core/engine.cpp:747-760 | its message goes on with the reason and says whether anything was carried |
| `LoopPasses.SummaryIsLastReply` | src/core/delegation.cpp:827-844 | the parent is told the summary, unless it is empty, else the last reply that is not |
| `LoopBudgets.ThinkingIsBounded` | src/core/engine.cpp:901-1036 | in token mode with limit L and at most m units a turn, a running loop has spent fewer than 2L + m units since its last productive tool call and was nudged at most once |
| `LoopBudgets.SecondExhaustionEndsTurn` | src/core/engine.cpp:939-1036 | in either mode, the next exhaustion after a nudge completes the run, which then takes no further pass |
| `LoopBudgets.EmptyTurnsAreBounded` | src/core/engine.cpp:1162-1211 | the retry counter is the number of empty turns since the last productive call and never exceeds the allowance |
| `LoopBudgets.LastEmptyTurnFails` | src/core/engine.cpp:1162-1211 | one empty turn too many fails the run, unless the budget cut completes it in the same pass |
| `LoopBudgets.LengthNeverChains` | src/core/engine.cpp:1092-1155 | finish reason `length` decides nothing, whatever the tier chains to |
| `LoopBudgets.LastSubstantiveIsLast` | src/core/engine.cpp:709-720 | the carried output is the last assistant message that is not blank, and empty exactly when there is none |
| `LoopBudgets.ForcedStopIsReported` | src/core/delegation.cpp:994-1033 | a child stopped by the cap or the cut is never reported as successful, and without a summary of its own its parent gets a text that begins with its last substantive output |
| `LoopBudgets.PassSucceedsExactly` | src/core/engine.cpp:866-1155 | a pass makes a run succeed if and only if a hook cancels the generation, the answer completes it before the budget cuts it, or a dispatched delegation or pipeline does |
| `LoopBudgets.PassIsInterruptedExactly` | src/core/engine.cpp:821-1155 | a pass leaves a run interrupted if and only if an interrupt is seen at its head, in its answer, before its dispatch or by what it dispatched |
| `Sessions.AgentEngine.QueueUserMessage` | src/core/engine.cpp:4489-4501 | a message is accepted exactly while there is room |
| `Sessions.AgentEngine.PopQueuedUserMessage` | src/core/engine.cpp:4542-4551 | the head of the queue, if there is one |
| `Sessions.AgentEngine.SettleTurn` | src/core/engine.cpp:634-654 | a failed turn is cut off and set aside, a successful one gains the result beyond what was sent |
| `Sessions.AgentEngine.RunDrainLoop` | src/core/engine.cpp:4054-4077 | the drain loop computes `Drain` and returns the last turn's result |
| `Sessions.AgentEngine.RunTurn` | src/core/engine.cpp:4144-4168 | the list form: seed the session's system prompt, its workspace's or the handle's, where it is missing, then the same drain |
| `Sessions.AgentEngine.SeedSystemPromptForTier` | src/core/engine.cpp:4030-4045 | an empty conversation gets the workspace's prompt for the tier, else the tier's own, else the session's |
| `Sessions.AgentEngine.RunTurnAs` | src/core/engine.cpp:3926-3935 | a turn locked to a tier: that prompt, then the same drain |
| `SessionTurns.PromptPrecedence` | src/core/engine.cpp:4030-4045 | the workspace's prompt for the tier, the tier's own unless it is empty, the workspace's for no tier, the handle's: in that order |
| `SessionTurns.TurnStartsWithPrompt` | src/core/engine.cpp:4030-4168 | a successful turn on an empty conversation is stored after the system message, unless it brings its own or the prompt is empty; a conversation under way gets no other |
| `SessionTurns.ArrivalExactly` | src/core/engine.cpp:4489-4510 | a message is refused if and only if the queue is full, else put at its end |
| `SessionTurns.QueueIsBounded` | src/core/engine.cpp:4489-4551 | whatever happens to it, the queue gets no longer than it was or the largest capacity set |
| `DrainLoop.DrainCommits` | src/core/engine.cpp:4054-4077 | the stored conversation is the starting one followed by each successful turn's input and the suffix of its result |
| `DrainLoop.FailedTurnRestores` | src/core/engine.cpp:634-654 | wherever in the drain a turn fails, the drain ends there with the conversation exactly as before that turn, what it produced kept aside, and the queue left waiting |
| `DrainLoop.WholeResultIsStored` | src/core/engine.cpp:634-654 | the stored conversation is the result if and only if the result extends what was sent; one that is not longer adds nothing |
| `DrainLoop.RewrittenTurnIsStored` | src/core/engine.cpp:634-654 | what a turn stores when it rewrites its messages before adding others: the added ones, if and only if the sizes agree, else without their beginning or after the end of the rewritten ones |
| `DrainLoop.OtherSessionsUnchanged` | src/core/engine.cpp:4054-4077 | no other session's conversation or failed turn changes |
| `DrainLoop.QueueIsFifo` | src/core/engine.cpp:4489-4551 | the messages taken, here or by another session's drain, or dropped, followed by those still queued, are those queued at the start followed by those accepted since |
| `DrainLoop.TakenMessagesAreTurns` | src/core/engine.cpp:4125-4135 | every message taken becomes exactly one turn, in the order taken |
| `DelegationEngine.DelegationManager.DeliverSandboxResult` | src/core/delegation.cpp:241-317 | a patch is accepted, or else saved as pending, or lost when it cannot be written |
| `DelegationEngine.DelegationManager.FinalizeSandbox` | src/core/delegation.cpp:1070-1090 | a patch only for a successful child, and a discard in every case |
| `DelegationEngine.DelegationManager.DispatchRequest` | src/core/engine.cpp:2675-2779 | the guards, then the delegation, resumed delegation or pipeline |
| `DelegationEngine.DelegationManager.FindUnsafeStage` | src/core/engine.cpp:2980-3003 | whether a stage of a pipeline is unsafe |
| `DelegationEngine.DelegationManager.ExecuteDelegation` | src/core/delegation.cpp:348-442 | the checks, the child's run between the two directory swaps, the sandbox's end |
| `DelegationEngine.DelegationManager.ExecutePipeline` | src/core/delegation.cpp:614-729 | the stages in one shared sandbox, up to the first that fails |
| `DelegationTrees.RequestKeeps` | src/core/delegation.cpp:399-729 | whatever happens below it, a request keeps the tool root, the live sandboxes, the books and the depth bound |
| `DelegationTrees.DelegationReturns` | src/core/delegation.cpp:121-1090 | when any tree of cold, resumed and pipeline delegations returns, the tool root is what it was, each sandbox created was discarded exactly once, each patch is in exactly one place, and with isolation on no directory that existed before has changed |
| `DelegationTrees.PatchOnSuccess` | src/core/delegation.cpp:1070-1090 | a child's sandbox is created and discarded once and yields a patch exactly when the child succeeded and a difference could be made; the patch is with the consumer that accepts it, else pending, and lost only when it cannot be written |
| `DelegationTrees.RequestSucceedsExactly` | src/core/delegation.cpp:348-729 | a request succeeds if and only if nothing stops it and its child does, or every one of a pipeline's stages, of which there is at least one |
| `DelegationTrees.PipelinePatchOnSuccess` | src/core/delegation.cpp:614-1090 | a pipeline's shared sandbox is created and discarded once and yields a patch exactly when every stage is valid and succeeds and a difference could be made; the patch goes where a child's would |
| `DelegationTrees.OwnWritesInOrder` | src/core/delegation.cpp:399-729 | with isolation on, a loop's directory gets exactly what the loop writes itself, in order, whatever its delegations do |
| `DelegationTrees.SandboxHoldsWrites` | src/core/delegation.cpp:348-442 | a child's sandbox holds what the child wrote |
| `DelegationTrees.PipelineWritesInOrder` | src/core/delegation.cpp:614-729 | the stages of a pipeline write into one sandbox, one after the other, up to the first that fails |
| `DelegationTrees.ColdRunsExactly` | src/core/engine.cpp:2675-2756 | a cold delegation runs its child if and only if depth, cycle, safety and repeat guards, hook, tier table, consumer and sandbox all let it |
| `DelegationTrees.DepthIsBounded` | src/core/engine.cpp:2675-2710 | every context in any tree is at most two levels deep |
| `DelegationTrees.DepthIsLevel` | src/core/delegation.cpp:469-770 | of every context in any tree, the depth is the number of loops around it |
| `DelegationTrees.ChildKnows` | src/core/delegation.cpp:469-770 | which tiers a cold or a resumed child may not delegate to |
| `DelegationTrees.ColdChainsNeverRepeat` | src/core/engine.cpp:1245-1252 | in trees of cold delegations the tiers under way never repeat, so the depth is at most the number of tiers |
| `DelegationTrees.ResumeCanRepeat` | src/core/delegation.cpp:469-504 | a resumed child can delegate back to its parent's tier |
| `DelegationTrees.PipelineCanRepeat` | src/core/engine.cpp:2980-3003 | a pipeline can run the tier that asked for it |
| `DelegationRuns.RequestRuns` | src/core/engine.cpp:2675-3020 | a request adds exactly its direct runs to the count of its loop's children, tier by tier, and everything else it runs is deeper |
| `DelegationRuns.BlockedTargetRunsExactly` | src/core/engine.cpp:2675-3020 | while a target is blocked by the repeat guard, a request runs it if and only if it is a resume under another name that resolves to it, or a pipeline that reaches a stage on it, and the other guards let it |
| `DelegationRuns.UnsafeTargetRunsExactly` | src/core/engine.cpp:2675-2779 | a request runs a tier whose tools are not contained if and only if it is a resume whose requested name passes every guard and resolves to that tier |
| `DelegationRuns.PipelineEscapesRepeatGuard` | src/core/engine.cpp:2980-3003 | a pipeline runs a blocked target |
| `DelegationRuns.ResumeEscapesRepeatGuard` | src/core/engine.cpp:2725-2772 | a resume requested by its id runs a blocked target |
| `DelegationRuns.LoopRunsExactly` | src/core/engine.cpp:2725-2779 | over a whole loop, the children run on a tier are the sum of its requests' direct runs |
| `DelegationRuns.AttemptsAreRuns` | src/core/engine.cpp:2725-2779 | without pipelines, the delegations that passed the guards and started account for every child run |
| `DelegationRuns.FailuresAreBounded` | src/core/engine.cpp:1261-1267 | in a loop whose resumes name their targets, no target is delegated to again once its last delegations failed the configured number of times in a row |
| `DelegationRuns.LoopFailuresAreBounded` | src/core/engine.cpp:1261-1267 | the same from the start of a loop |
| `DelegationRuns.FailuresAreCounted` | src/core/engine.cpp:2763-2772 | of cold delegations in a row that fail on one target, exactly the configured number of children run |
| `DelegationRuns.RepeatsExactly` | src/core/engine.cpp:1245-1252 | a request repeats a tier under way if and only if it runs a child on one: for a cold delegation only when the context's chain misses that tier, for a resume by the tier it resolves to, for a pipeline by a stage that it reaches |
| `Validator.ConstitutionalValidator.ApplyRevisions` | src/core/constitutional_validator.cpp:695-755 | the revision loop computes `Revise` |
| `Validator.ConstitutionalValidator.RunValidationLoop` | src/core/constitutional_validator.cpp:642-675 | the critique, then revisions or a pause |
| `Validator.ConstitutionalValidator.ResumeRetry` | src/core/constitutional_validator.cpp:246-268 | the pending state is consumed and revised with neither manifest nor evidence, or the call refused |
| `Validator.ConstitutionalValidator.AcceptLastAttempt` | src/core/constitutional_validator.cpp:280-296 | the pending state is consumed and accepted, or the call refused |
| `Validator.RevisionsAreBounded` | src/core/constitutional_validator.cpp:695-755 | after k accepted revisions of a text of length n, k is at most the maximum, the text at least n / 2^k long, and the verdict is `revised` exactly when k is positive and the final critique compliant |
| `Validator.FinalCritiqueJudgesContent` | src/core/constitutional_validator.cpp:695-755 | the text handed back is the one that the final critique judged |
| `Validator.RejectedExactly` | src/core/constitutional_validator.cpp:722-755 | a text is rejected for the maximum exactly when that many revisions left it non-compliant, and for its length exactly when the next attempt is shorter than half of it |
| `ValidationRuns.ValidatesExactly` | src/core/constitutional_validator.cpp:642-755 | the texts in turn, what a critique proposes taken as it is and the model asked only where nothing is proposed, until the first that is compliant, the last one allowed, or one that the next would shrink below half; then its text, critique, attempt and verdict |
| `ValidationRuns.ValidationStops` | src/core/constitutional_validator.cpp:642-755 | there is always such a stop |
| `Validator.AttemptNumber` | src/core/constitutional_validator.cpp:717-739 | the attempt number is the number of accepted revisions, one more after a length revert |
| `Validator.ResumeRevisesRestored` | src/core/constitutional_validator.cpp:246-268 | resuming stores the revision of the paused text under the turn without its manifest and evidence, and the pending state is used once |
| `ValidationRuns.AcceptStoresPaused` | src/core/constitutional_validator.cpp:280-296 | accepting after a pause stores the text as it was first judged, with a verdict of its own |
| `Validator.ResumeMatchesAutomaticRetry` | src/core/constitutional_validator.cpp:246-268 | whatever the model answers, pausing and resuming stores what automatic retries would have stored, if and only if no revision is allowed, or the turn has neither manifest nor evidence and its conversation is not an empty text |
| `Validator.EvidenceIsLost` | src/core/constitutional_validator.cpp:259-259 | with a manifest or evidence, a model can accept a revision by itself and reject it after a pause |
| `Validator.EmptyConversationIsLost` | src/core/constitutional_validator.cpp:260-263 | an empty conversation can lead to another text after a pause |
| `HookRegistry.LowerBound` | src/core/hook_registry.cpp:56-60 | the binary search finds the first entry of at least the priority |
| `HookRegistry.Registry.RegisterHook` | src/core/hook_registry.cpp:41-66 | the entry goes before those of its priority, and the list stays in order |
| `HookRegistry.Registry.DeregisterHook` | src/core/hook_registry.cpp:78-101 | the first match is taken out, and the list stays in order |
| `HookRegistry.Erased` | src/core/hook_registry.cpp:90-98 | the list without its first match |
| `HookRegistry.StepKeepsValid` | src/core/hook_registry.cpp:41-101 | each operation changes the set of registrations in force as it should: one added, or the first match in firing order removed |
| `HookRegistry.ListsStaySorted` | src/core/hook_registry.cpp:41-101 | after any registrations and deregistrations a list is sorted by priority, later registrations first among equals |
| `HookRegistry.OrderIsUnique` | src/core/hook_registry.cpp:41-101 | the registrations in force determine the list |
| `HookRegistry.DeregisterUndoesRegister` | src/core/hook_registry.cpp:41-101 | a deregistration undoes a registration, unless an entry of lower priority matches, which goes first |
| `HookRegistry.RegisteredIsListed` | src/core/hook_registry.cpp:41-101 | after any run a callback is listed that was registered in it and not deregistered since |
| `HookChains.FirePre` | src/core/hook_registry.cpp:126-174 | the fold of the callbacks cut at the first refusal; every buffer handed over by a callback that returns is freed exactly once or handed to the caller |
| `HookChains.FirePost` | src/core/hook_registry.cpp:185-225 | the same fold without refusals, with the same account of buffers |
| `HookChains.FireInfo` | src/core/hook_registry.cpp:234-257 | every callback sees the context, and every buffer is freed exactly once |
| `HookChains.ThrownBufferLeaks` | src/core/hook_registry.cpp:146-156 | a buffer that a callback sets is freed or handed out if and only if the callback does not throw |
| `HookChains.LeaksAreCounted` | src/core/hook_registry.cpp:126-225 | over a whole chain, the buffers set are those freed, the one handed out and the leaked ones of callbacks that threw |

## Left out

- Inference, prompts, logging, storage callbacks, hooks' JSON, git differences and sandbox contents: arbitrary results or opaque handles here.
- Configuration loading, command line, bridges, HTTP serving, scripts: plumbing with shallow properties.
- `identity_manager.cpp`, `directives.cpp`, `utf8_safe.h`: would only add easy members; sanitising is the identity on valid text.
- Compactor resolution (`CompactorRegistry::compact`, `run_custom`): a table look-up with a fallback, easy beside the parser.
- Floating point: thresholds are compared over `real`, without rounding. Integers are unbounded, so overflow of counters is not modelled.
- Counts and log lines that operations return beside their effect (pruned results, freed bytes) are not modelled.
- Image and other non-text content parts of messages.
- A bound on the time a run spends under the wall-clock budget: the clock is an input, and the bound is stated for tokens.
- `cancel_pause`, `pause`, and a run that cancels itself (`cancel_current_run`).
- Turning session concurrency off while runs are active keeps them: the bound of one run is stated for concurrency that has been off since idle.
- Memory ordering of atomics: a step is one critical section or one atomic access, taken in some order.
- Replacing or clearing a session's conversation while a turn runs on it.
- Mid-run tier changes (auto-chain and tier directives) in delegation trees: the cold-chain theorem is for contexts that keep their locked tier.
- Termination of the loop: dispatches, refused ones included, give their iteration back, so the bound is relative to them.
- The hook registry's range check of hook points and its per-point locks: one list is modelled, and firing works on a snapshot of it.
- DelegationEngine.DelegationManager.DispatchRequest: which tiers are unsafe is a given set, and the messages pushed on a refusal are not modelled.
- LoopEngine.LoopContext.ProcessToolResults: what the executor's directives do to the messages and the state, and which of the engine's own results are call-shaped JSON, are inputs.
- DelegationTrees.ColdChainsNeverRepeat: stated for cold delegations only, because resumed delegations and pipelines do repeat tiers.
- JsonDocuments.DocumentRead: the same whitespace stands in every gap of a document, and none before its opening bracket, where the parser takes none.
