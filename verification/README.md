# Verified models of the agent's state machines

This project models ten cores of an AI coding agent (Rust) and its cloud relay (TypeScript) in
Dafny and proves what they promise over all inputs, runs and interleavings. `dafny verify
dfyconfig.toml` checks everything.

Loops and objects that the code updates in place are methods and classes here, each proved equal
to a function of its inputs or of its old state; what the code promises is proved about those
functions. Text is a sequence of Unicode scalar values, and byte lengths are those of its UTF-8
encoding. Things the code does not decide are parameters over which the results quantify: the
token estimator, the hash function, the calendar, the contents of files at each flush, the
chunking of a source, the order of a map's entries, the terminal's condition, the schedule.

| file | what it models |
|---|---|
| `Bytes`, `Text`, `Utf8` | bytes, Rust string searches, UTF-8 (section 3 of RFC 3629) |
| `Json`, `JsonReading` | serde's JSON text, and reading it back |
| `Conversation` | conversation items and the pairing rule between tool calls and results |
| `BudgetFit` | shrinking a history to a token budget |
| `FitShape` | what a fitted history keeps and how its last turn is cut, item by item |
| `ToolPairing`, `HistoryRepair` | the validation, sanitizing, stripping and repair passes |
| `RepairShape` | what a repaired turn is made of |
| `CompactionRounds` | capturing context, rebuilding the history, and any number of rounds of both |
| `CompactionLayout`, `QueryExtraction` | where everything stands in a rebuilt history, and what is read as the query of a turn |
| `SummaryCleaner` | the clean-up of the model's summary |
| `SummaryPieces` | what becomes of each piece of the model's output: summary, scratchpad, draft |
| `ImageMeasure`, `ImageBudget` | the fast body measure and oldest-first image eviction |
| `ImageLedger` | what each eviction takes off estimate and body, and when the target is met |
| `Relay` | the durable object between agents and browsers, as steps over sockets |
| `RelayHistory` | what agents were last told about subscriptions, read off the events of a run |
| `RelayRouting` | where each message goes and what it leaves in the catalog |
| `WaitProtocol` | feeder, resizers and waiters around one generation counter |
| `Coalesce` | coalesced file events against one-by-one replay, and the manager's runs |
| `Interner` | the arena interner against a duplicate-free list |
| `LineReader` | the line-buffered reader as task, queue and poller |
| `Lockout` | the login lockout against the history of password checks |
| `CrashBlob` | the crash blob's writer and parser |

## Where the code departs from its documentation

For each of these there is an input or run on which the promise fails, and the exact condition
under which it holds.

- `repair_history` is documented as idempotent; it is not when one assistant leaves two calls with
  the same id open (`HistoryRepair.RepairHistoryIdempotentIff`, `RepairIsNotAlwaysIdempotent`).
- The wait loop takes the grid as final once the feeder is gone, but a resize after that changes
  the grid without a bump, and the wait fails although its condition holds
  (`WaitProtocol.LateResizeDefeatsEndedWait`); the verdict holds exactly when every such resize came
  before the waiter's last check (`EndedCheckIsCurrentIff`, `EndedVerdictHoldsIff`).
- A create or modify followed by a removal cancels both, so a file that was indexed before keeps a
  stale entry (`Coalesce.FlushAgreesIff`, `CancelledEntryIsStale`); over whole runs it stays stale
  exactly until the path is touched again without being cancelled (`IndexesDifferIff`).
- A user image smaller than its placeholder makes the body grow while the running estimate stays,
  so eviction can stop above its target (`ImageBudget.SmallImageDefeatsGoal`). The sizes of the
  history tell exactly when (`ImageLedger.GoalMetIff`, `AlwaysMetIff`); with user images only, it is
  when a smaller image comes before a larger one, the last left aside (`UserImagesAlwaysMetIff`).
- A browser message typed `subscribe` or `unsubscribe` is forwarded as it is, and can contradict the
  relay's own frames (`Relay.ForwardingKeepsSubscriptionsIff`, `ForgedUnsubscribe`).
- Between the drop of a browser and the handling of its close, an agent can still be subscribed for
  it (`Relay.DroppedWatcherStaysSubscribed`, `RelayHistory.ToldUnwatchedIff`).
- A byte string of 2^16 bytes or more is interned anew every time, in every run
  (`Interner.LongIsAlwaysAdded`, `FoundAgainIffLengthFits`), and an interner that holds one can answer
  otherwise once it is rebuilt from its parts (`RebuildMovesPrefix`, `RebuiltDiffersIff`).
- A real user turn whose extracted text is empty (an image only) does not survive a compaction
  (`CompactionRounds.RoundKeepsViewIff`, `ImageOnlyTurnIsLost`).

The relay documents that connecting does not subscribe; what follows from that for an agent that
reconnects under a watching browser is `Relay.ReconnectIsNotSubscribed` and, exactly,
`RelayHistory.WatchedAgentIsSubscribedIff`.

## Model

| member | source | states |
|---|---|---|
| BudgetFit.FitPreservesPairing | grok-build/crates/codegen/xai-chat-state/src/compaction_utils.rs:144-211 | fitting a history to any token budget keeps every tool result in the run behind the assistant that called for it, whether the history is unchanged, cut to a suffix or reduced to its truncated last turn |
| BudgetFit.FitKeepsLongestSuffix | grok-build/crates/codegen/xai-chat-state/src/compaction_utils.rs:144-176 | an over-budget history keeps its System head and the longest suffix affordable within the rest of the budget, minus the tool results that suffix starts with; the whole stays within the budget (or the cost of the head alone) |
| FitShape.SystemItemStays | grok-build/crates/codegen/xai-chat-state/src/compaction_utils.rs:154-156 | a first item that is a System item is the first item of every fitted history, whatever the budget |
| FitShape.KeepsOrCuts | grok-build/crates/codegen/xai-chat-state/src/compaction_utils.rs:144-177 | there always is such a suffix, unless nothing but results fits; then the last turn is cut |
| FitShape.KeepsSuffix | grok-build/crates/codegen/xai-chat-state/src/compaction_utils.rs:157-176 | read off the items and their costs: an over-budget history becomes its System item, if it starts with one, and behind it the longest suffix of the rest that fits in what that item leaves of the budget, without the results the suffix starts with |
| FitShape.CutsLastItem | grok-build/crates/codegen/xai-chat-state/src/compaction_utils.rs:179-211 | when no suffix is kept and the last item is no result, it alone stays, cut to what the System item leaves of the budget |
| FitShape.CutsTrailingRun | grok-build/crates/codegen/xai-chat-state/src/compaction_utils.rs:179-211 | when no suffix is kept and the history ends in results, the whole run stays behind its assistant, each result cut to an equal share of what is left, at least one token |
| FitShape.TruncatedItemIs | grok-build/crates/codegen/xai-chat-state/src/compaction_utils.rs:213-257 | what a cut does to each kind of item, text by text: short texts and all other fields stay, a long text keeps its longest prefix with room for the marker that counts the bytes left out |
| BudgetFit.SuffixStartIsLeast | grok-build/crates/codegen/xai-chat-state/src/compaction_utils.rs:157-171 | a suffix fits in the budget exactly when it starts at or behind the chosen start |
| BudgetFit.FitKeepsLastItem | grok-build/crates/codegen/xai-chat-state/src/compaction_utils.rs:172-211 | the last item is never dropped: it is kept, or its text is cut |
| BudgetFit.FitConversationToBudget | grok-build/crates/codegen/xai-chat-state/src/compaction_utils.rs:144-177 | the scanning loops compute the longest affordable suffix, the skipped leading results and the fallback |
| BudgetFit.AffordableSuffix | grok-build/crates/codegen/xai-chat-state/src/compaction_utils.rs:157-167 | the backward scan with its running remainder stops at the least affordable start |
| BudgetFit.RecoverTruncatedTailUnit | grok-build/crates/codegen/xai-chat-state/src/compaction_utils.rs:179-211 | popping trailing results and their owner gives the last turn, each result cut to an equal share of at least one token |
| BudgetFit.TruncateItemToTokens | grok-build/crates/codegen/xai-chat-state/src/compaction_utils.rs:213-240 | cutting changes text only: ids, calls, images and the kind of the item stay |
| BudgetFit.TruncateTextToBytes | grok-build/crates/codegen/xai-chat-state/src/compaction_utils.rs:242-257 | stepping back to a character boundary yields the longest prefix of whole characters with room for the marker, and never fails |
| BudgetFit.LongestPrefixIsLongest | grok-build/crates/codegen/xai-chat-state/src/compaction_utils.rs:247-251 | every longer prefix of whole characters exceeds the bytes to keep |
| BudgetFit.TruncatedTextLength | grok-build/crates/codegen/xai-chat-state/src/compaction_utils.rs:252-256 | the exact byte length of a cut text |
| BudgetFit.TruncatedTextIsBounded | grok-build/crates/codegen/xai-chat-state/src/compaction_utils.rs:241-257 | a cut text has at most max(max_bytes, 64) bytes when the input is under 10^8 bytes |
| Utf8.DecodeInvertsEncode | grok-build/crates/codegen/xai-crash-handler/src/format.rs:58-62 | strict decoding and encoding undo each other, in both directions and for every byte string |
| Utf8.BoundaryIffSlice | grok-build/crates/codegen/xai-chat-state/src/compaction_utils.rs:248-255 | an offset is a character boundary exactly when the text can be sliced there |
| ToolPairing.SanitizedValidates | grok-build/crates/codegen/xai-chat-state/src/compaction_utils.rs:981-1029 | a sanitized history passes validation |
| ToolPairing.ValidIffDeclared | grok-build/crates/codegen/xai-chat-state/src/compaction_utils.rs:978-1001 | validation reports nothing exactly when every tool result is declared by an earlier assistant, and then sanitizing is the identity |
| ToolPairing.SanitizeCompactedHistory | grok-build/crates/codegen/xai-chat-state/src/compaction_utils.rs:1002-1029 | the ids stripped while sanitizing are exactly, and in order, those that validation reports |
| ToolPairing.ValidateCompactedHistory | grok-build/crates/codegen/xai-chat-state/src/compaction_utils.rs:981-1001 | the read-only scan reports the ids of the undeclared results in order |
| ToolPairing.StripDisplacedToolResults | grok-build/crates/codegen/xai-chat-state/src/compaction_utils.rs:1070-1096 | the retain pass with its run of ids keeps and reports what the run rule says |
| ToolPairing.PairedIffNothingDisplaced | grok-build/crates/codegen/xai-chat-state/src/compaction_utils.rs:1067-1096 | nothing is displaced exactly when each result lies in the contiguous run of its caller, and then stripping is the identity |
| ToolPairing.StripPairsAndIsIdempotent | grok-build/crates/codegen/xai-chat-state/src/compaction_utils.rs:1067-1096 | stripping leaves a contiguously paired history and is idempotent |
| ToolPairing.StripWithinSanitize | grok-build/crates/codegen/xai-chat-state/src/compaction_utils.rs:1002-1096 | what the strict pass keeps is a subsequence of what the lenient pass keeps |
| ToolPairing.SanitizeKeeps | grok-build/crates/codegen/xai-chat-state/src/compaction_utils.rs:1002-1029 | sanitizing keeps, in order, exactly the items that are no results or have an earlier assistant declaring their id |
| ToolPairing.StripKeeps | grok-build/crates/codegen/xai-chat-state/src/compaction_utils.rs:1067-1096 | stripping keeps, in order, exactly the items that are no results or lie in the run of an assistant that called for them |
| ToolPairing.ValidateReports | grok-build/crates/codegen/xai-chat-state/src/compaction_utils.rs:981-1001 | the report names, in order, exactly the results without an earlier assistant declaring their id |
| ToolPairing.DisplacedReports | grok-build/crates/codegen/xai-chat-state/src/compaction_utils.rs:1067-1096 | stripping reports, in order, exactly the results that it drops |
| HistoryRepair.RepairHistoryIdempotentIff | grok-build/crates/codegen/xai-chat-state/src/compaction_utils.rs:1049-1066 | the repair documented as idempotent is so exactly for histories in which no assistant leaves two calls with one id open; exactly then each turn ends with one result per call |
| HistoryRepair.RepairIsNotAlwaysIdempotent | grok-build/crates/codegen/xai-chat-state/src/compaction_utils.rs:1051-1066 | a history with two open calls under one id, on which a second repair changes the first one |
| HistoryRepair.RepairedHistoryIsAnsweredAndPaired | grok-build/crates/codegen/xai-chat-state/src/compaction_utils.rs:1049-1066 | every repaired history is contiguously paired and answers every call |
| HistoryRepair.RepairIsTurnwise | grok-build/crates/codegen/xai-chat-state/src/compaction_utils.rs:1052-1062 | the three passes over the whole history equal one repair of each turn by itself |
| RepairShape.RepairedTurnIs | grok-build/crates/codegen/xai-chat-state/src/compaction_utils.rs:1049-1066 | a repaired turn, read off the turn alone: its leading item, of the results that it called for the last with each id, in order, and a made result in call order for exactly the calls without any |
| RepairShape.LeadingResultsAreDropped | grok-build/crates/codegen/xai-chat-state/src/compaction_utils.rs:1049-1066 | results that follow nothing go and change nothing else; with the row above this determines every repaired history |
| HistoryRepair.RepairHistory | grok-build/crates/codegen/xai-chat-state/src/compaction_utils.rs:1052-1066 | the three loops in sequence compute the repair, with the counts and ids of the report |
| HistoryRepair.DedupDuplicateToolResults | grok-build/crates/codegen/xai-grok-sampling-types/src/conversation.rs:2056-2117 | the rescanning loop keeps the last result of each id in each run and counts the removed ones |
| HistoryRepair.SupersededPositions | grok-build/crates/codegen/xai-grok-sampling-types/src/conversation.rs:2085-2096 | the map of last positions marks exactly the results that are answered again later in the run |
| HistoryRepair.PlanRepairs | grok-build/crates/codegen/xai-grok-sampling-types/src/conversation.rs:1946-1998 | the forward scan plans, per assistant with open calls, the missing results in call order |
| HistoryRepair.RepairDanglingToolCalls | grok-build/crates/codegen/xai-grok-sampling-types/src/conversation.rs:1946-2005 | splicing the plan from the back answers every open call at the end of its run |
| CompactionRounds.RoundsKeepView | grok-build/crates/codegen/xai-chat-state/src/compaction_utils.rs:635-694 | over any number of compactions, with any turns, agent messages and other items arriving in between, the last real query, the latest agent message and their order are those of the same items never compacted |
| CompactionRounds.RoundsKeepAgents | grok-build/crates/codegen/xai-chat-state/src/compaction_utils.rs:635-694 | after any number of compactions, an agent message from before the last round is there exactly once, and so is each one that came since |
| CompactionRounds.RoundView | grok-build/crates/codegen/xai-chat-state/src/compaction_utils.rs:638-694 | one compaction, with or without its working tail, keeps the agent message verbatim and once, and keeps the query unless its text is empty or a continuation |
| CompactionRounds.RoundKeepsViewIff | grok-build/crates/codegen/xai-chat-state/src/compaction_utils.rs:341-356 | a tag-free last query survives a round exactly when its text is neither empty nor a continuation |
| CompactionRounds.ImageOnlyTurnIsLost | grok-build/crates/codegen/xai-chat-state/src/compaction_utils.rs:340-356 | every turn of a single image is the last real turn, with the empty query, and one compaction loses it |
| CompactionRounds.RewrapExtract | grok-build/crates/codegen/xai-chat-state/src/compaction_utils.rs:293-310 | wrapping a trimmed tag-free query in its tags and extracting it again gives the same query |
| CompactionRounds.ExtractedIsTrimmed | grok-build/crates/codegen/xai-chat-state/src/compaction_utils.rs:275-310 | every extracted query is trimmed |
| QueryExtraction.BlockIsStripped | grok-build/crates/codegen/xai-chat-state/src/compaction_utils.rs:274-290 | the first closed block of a metadata tag goes with all that is in it, and stripping goes on with the rest |
| QueryExtraction.UnclosedStays | grok-build/crates/codegen/xai-chat-state/src/compaction_utils.rs:273-290 | an unclosed block stays |
| QueryExtraction.EveryTagIsStripped | grok-build/crates/codegen/xai-chat-state/src/compaction_utils.rs:259-290 | whichever of the tags a block in a plain text has, it is stripped |
| QueryExtraction.QueryIsBetween | grok-build/crates/codegen/xai-chat-state/src/compaction_utils.rs:291-310 | the query is the trimmed text from the first opening tag to the next closing one |
| QueryExtraction.WholeIsQuery | grok-build/crates/codegen/xai-chat-state/src/compaction_utils.rs:291-310 | without the tag, or without its end, the whole text is the query |
| QueryExtraction.TurnTextIs | grok-build/crates/codegen/xai-grok-sampling-types/src/conversation.rs:1334-1345 | the text of a turn is its text parts, each on lines of its own, with the images left out |
| CompactionRounds.TailAddsNoAnchor | grok-build/crates/codegen/xai-chat-state/src/compaction_utils.rs:457-501 | keeping the working tail gives the same anchored turn, followed by items that anchor nothing: an agent message is never both kept and repeated |
| CompactionRounds.RecentIsPaired | grok-build/crates/codegen/xai-chat-state/src/compaction_utils.rs:457-501 | the tail extracted from a contiguously paired history is itself contiguously paired |
| CompactionRounds.BuildCompactedHistory | grok-build/crates/codegen/xai-chat-state/src/compaction_utils.rs:903-970 | pushing items one by one yields prefix, anchored turn, tail, summary and reminder in that order |
| CompactionLayout.RebuiltHistoryOpens | grok-build/crates/codegen/xai-chat-state/src/compaction_utils.rs:903-950 | a rebuilt history item by item: the prompt, the prefix, the instructions of the project or of the directory moved to, then the wrapped query with the agent message on the side it was on, unless the tail brings one |
| CompactionLayout.RebuiltHistoryCloses | grok-build/crates/codegen/xai-chat-state/src/compaction_utils.rs:951-970 | and its end: the kept tail unchanged, behind it the item that carries the summary text, and the reminder last |
| CompactionLayout.TailIs | grok-build/crates/codegen/xai-chat-state/src/compaction_utils.rs:457-501 | the tail keeps, in order, exactly the agent messages, assistants and results that no anchor follows; a result keeps its id, with its content and images omitted |
| CompactionLayout.CapturedQueryIs | grok-build/crates/codegen/xai-chat-state/src/compaction_utils.rs:369-378 | the query captured is that of the last human turn, all of its text parts included |
| CompactionLayout.CapturedAgentIs | grok-build/crates/codegen/xai-chat-state/src/compaction_utils.rs:438-456 | the agent message captured is the last one, marked as before or after the last human turn, or as the only anchor |
| CompactionRounds.SourceTagsAreOk | grok-build/crates/codegen/xai-chat-state/src/compaction_utils.rs:259-273 | the twelve metadata tags and the query tag meet the condition of the results above |
| SummaryCleaner.CleaningIsSafeAndIdempotent | grok-build/crates/codegen/xai-chat-state/src/compaction_utils.rs:699-792 | on every string the cleaned summary has none of the six live control tokens, no triple newline and no blank ends, and cleaning it again changes nothing |
| SummaryCleaner.PlainSummaryIsKept | grok-build/crates/codegen/xai-chat-state/src/compaction_utils.rs:699-792 | a text without control tokens loses only surplus newlines and blank ends |
| SummaryPieces.PlainPiecesAreKeptIff | grok-build/crates/codegen/xai-chat-state/src/compaction_utils.rs:699-765 | for pieces without `<` around and between the summary tags, the output is cleaned to the text in front, the heading, the trimmed summary and the text behind, with newline runs capped; for tags of any shape this fails exactly when the summary is blank and the closing tag is misread for a scratchpad |
| SummaryPieces.PlainPiecesAreKept | grok-build/crates/codegen/xai-chat-state/src/compaction_utils.rs:699-765 | so it holds for tags of any shape when the summary is not blank, and for tags of which none begins another even when it is |
| SummaryPieces.SourceTagsAreApart | grok-build/crates/codegen/xai-chat-state/src/compaction_utils.rs:699-792 | none of the four tags of the source begins with another |
| SummaryPieces.SummaryIsKept | grok-build/crates/codegen/xai-chat-state/src/compaction_utils.rs:741-765 | a summary without scratchpad and opening tags inside is kept whole under its heading, whatever else surrounds it; the text around it may hold any other tags |
| SummaryPieces.ClosedBlockIsDropped | grok-build/crates/codegen/xai-chat-state/src/compaction_utils.rs:701-729 | a closed scratchpad in front of the summary, or at the head of the text, changes nothing: the rest is cleaned as if it were not there |
| SummaryPieces.InnerBlockIsDropped | grok-build/crates/codegen/xai-chat-state/src/compaction_utils.rs:701-729 | so does one that directly follows the opening summary tag |
| SummaryPieces.UnclosedBlockGoesToSummary | grok-build/crates/codegen/xai-chat-state/src/compaction_utils.rs:730-740 | an unclosed scratchpad goes, up to the summary tag and no further |
| SummaryPieces.LaterBlockIsKept | grok-build/crates/codegen/xai-chat-state/src/compaction_utils.rs:701-715 | without a summary, a scratchpad behind other text is no draft and stays, defused |
| SummaryPieces.SharedTagIsNoScratchpad | grok-build/crates/codegen/xai-chat-state/src/compaction_utils.rs:701-715 | were the scratchpad tag to begin with the summary tag, no block in front would go: the rows on blocks are about tags of which none begins another |
| SummaryPieces.NumberedIsKept | grok-build/crates/codegen/xai-chat-state/src/compaction_utils.rs:766-784 | a summary that starts with a number, behind heading marks or not, is kept whole, closing scratchpad tags included |
| SummaryPieces.DraftIsCut | grok-build/crates/codegen/xai-chat-state/src/compaction_utils.rs:766-784 | any other summary is cut through its last closing scratchpad tag, and loses an opening summary tag that comes next |
| SummaryCleaner.DefuseInTurnIsOnePass | grok-build/crates/codegen/xai-chat-state/src/compaction_utils.rs:785-792 | the six replacements in turn equal one simultaneous pass: none creates or destroys a token for another |
| SummaryCleaner.CollapseIsCap | grok-build/crates/codegen/xai-chat-state/src/compaction_utils.rs:699-765 | collapsing triple newlines until none is left caps every run of newlines at two |
| SummaryCleaner.FormatCompactSummaryInPlace | grok-build/crates/codegen/xai-chat-state/src/compaction_utils.rs:699-765 | each rewriting loop ends, and together they compute the cleaned summary |
| SummaryCleaner.TidyIsSimple | grok-build/crates/codegen/xai-chat-state/src/compaction_utils.rs:785-792 | neutralizing, collapsing and trimming has a closed form: sentinels, capped newlines, trimmed ends |
| SummaryCleaner.SourceTagsAreOk | grok-build/crates/codegen/xai-chat-state/src/compaction_utils.rs:781-792 | the six control tokens of the source have the shape that the results above ask for |
| ImageMeasure.BodyBytesExactIff | grok-build/crates/codegen/xai-chat-state/src/image_budget.rs:152-202 | the fast body measure never exceeds the size of the JSON text, and equals it exactly for histories whose base64 tails need no escape |
| ImageMeasure.EncodedUrlIsExactIff | grok-build/crates/codegen/xai-chat-state/src/image_budget.rs:152-163 | the measured length of a URL is its escaped length exactly when its base64 tail needs no escape |
| ImageMeasure.Base64IsClean | grok-build/crates/codegen/xai-chat-state/src/image_budget.rs:152-163 | a tail in the alphabet of section 4 of RFC 4648 needs no escape |
| ImageMeasure.JsonLenIsBodySize | grok-build/crates/codegen/xai-chat-state/src/image_budget.rs:37-62 | the length of the JSON text is the sum of the sizes of its items and parts with their separators |
| ImageMeasure.BodyBytesIsFastSize | grok-build/crates/codegen/xai-chat-state/src/image_budget.rs:165-202 | blanking, serialising and adding back equals the sum of the fast part sizes |
| ImageMeasure.ConversationBodyBytes | grok-build/crates/codegen/xai-chat-state/src/image_budget.rs:175-193 | the loop over a blanked copy computes the measure |
| ImageMeasure.BlankImageUrls | grok-build/crates/codegen/xai-chat-state/src/image_budget.rs:195-202 | blanking in place empties every URL and sums their lengths |
| Json.EscapedLenIsExactIff | grok-build/crates/codegen/xai-chat-state/src/image_budget.rs:37-62 | escaping (section 7 of RFC 8259) never shortens a string and keeps its length exactly when nothing needs an escape |
| JsonReading.EscapedIsRead | grok-build/crates/codegen/xai-chat-state/src/image_budget.rs:37-62 | whatever characters a string holds, reading its escaped form up to the closing quote gives it back, with the rest of the text |
| JsonReading.ItemIsRead | grok-build/crates/codegen/xai-grok-sampling-types/src/conversation.rs:71-299 | the content of System items and assistants, and the id and content of results, are read back from the JSON of the item |
| JsonReading.CallsAreRead | grok-build/crates/codegen/xai-grok-sampling-types/src/conversation.rs:474-481 | the calls of an assistant are read back in order, with id, name and arguments |
| JsonReading.PartsAreRead | grok-build/crates/codegen/xai-grok-sampling-types/src/conversation.rs:379-384 | the texts and image addresses of a list of parts are read back in order |
| ImageBudget.EvictionReachesItsGoal | grok-build/crates/codegen/xai-chat-state/src/image_budget.rs:123-291 | when every user image serialises to at least the placeholder, a triggered eviction ends with the true JSON body at or below the reclaim target or with no inline image left |
| ImageBudget.EvictionReachesItsGoalUpToGrowth | grok-build/crates/codegen/xai-chat-state/src/image_budget.rs:123-291 | without that condition the body exceeds the target by at most the growth that the estimate did not see |
| ImageBudget.EvictSize | grok-build/crates/codegen/xai-chat-state/src/image_budget.rs:251-290 | over the whole loop the true size is exactly the running estimate plus the unseen growth of user images, minus the images fields that evictions emptied |
| ImageBudget.EvictionTakesTheOldest | grok-build/crates/codegen/xai-chat-state/src/image_budget.rs:210-291 | exactly the first images in conversation order go; ids, other parts and texts stay, except placeholders and at most one note per tool result |
| ImageBudget.LocateEvict | grok-build/crates/codegen/xai-chat-state/src/image_budget.rs:221-290 | the recorded locations stay valid: the next one names the first remaining image, and evicting it leaves the rest of the record |
| ImageBudget.SmallImageDefeatsGoal | grok-build/crates/codegen/xai-chat-state/src/image_budget.rs:262-267 | a user image smaller than the placeholder can end the loop above the target with an image left |
| ImageLedger.GoalMetIff | grok-build/crates/codegen/xai-chat-state/src/image_budget.rs:123-291 | for every history and all limits with the trigger reached, the sizes of images, separators, fields and notes alone tell after how many evictions the loop stops, and whether the true JSON body is then within the target or no image is left |
| ImageLedger.AlwaysMetIff | grok-build/crates/codegen/xai-chat-state/src/image_budget.rs:123-291 | for every history the goal is met under all triggers and targets exactly when at no point with an image left the estimate is both below the true size and lower than at every earlier point |
| ImageLedger.UserImagesAlwaysMetIff | grok-build/crates/codegen/xai-chat-state/src/image_budget.rs:123-291 | for histories with clean base64 tails whose images all sit in user items, the goal is met under all limits exactly when no image smaller than the placeholder comes before a larger one, the last image left aside |
| ImageLedger.EvictStopsAt | grok-build/crates/codegen/xai-chat-state/src/image_budget.rs:251-290 | the loop stops at the first point where the sizes put the estimate at or below the target, or at the end |
| ImageLedger.MeasuresEvictFirst | grok-build/crates/codegen/xai-chat-state/src/image_budget.rs:251-290 | after any number of evictions the estimate and the true size are what the sizes say, and the estimate never saturates |
| ImageBudget.EvictImagesToBudget | grok-build/crates/codegen/xai-chat-state/src/image_budget.rs:210-291 | the loop over recorded locations evicts, in place, the oldest images until the estimate reaches the target |
| ImageBudget.ApplyImageBudgetWithLimits | grok-build/crates/codegen/xai-chat-state/src/image_budget.rs:123-150 | trigger, reclaim target and the accounting of the outcome |
| ImageBudget.EvictsIff | grok-build/crates/codegen/xai-chat-state/src/image_budget.rs:129-150 | something is evicted exactly when the body reaches the trigger, exceeds the reclaim target and there is an image; otherwise the items come back as they were |
| Relay.SubscriptionsFollowWatchers | cloud/src/relay.ts:179-249 | in every reachable state each open agent that was ever sent a subscription frame was last told subscribe if an open browser watches its instance, and only if a browser whose close is not yet handled does; when no browser that watched it has dropped the two are the same |
| Relay.DroppedWatcherStaysSubscribed | cloud/src/relay.ts:154-249 | a run after which an agent is subscribed although its only watcher has dropped, the close being unhandled |
| Relay.CatalogIsOwnedAndShown | cloud/src/relay.ts:79-345 | every catalog entry belongs to an agent socket whose close is still to be handled, ids are unique among entries and among open agents, and every open browser was last shown the stored catalog |
| Relay.LateCloseIsHarmless | cloud/src/relay.ts:154-178 | the late close of a replaced socket keeps the catalog and announces nothing but the catalog while its replacement is open |
| Relay.MessageReachesOnlyItsAgent | cloud/src/relay.ts:374-422 | a browser message reaches exactly the open agent of the instance it resolves to, verbatim |
| RelayRouting.MessageIsRouted | cloud/src/relay.ts:396-422 | read off sockets and catalog entries, in every reachable state: the watched instance wins, then the id of the message itself, then the first entry that lists the session or has it active, then the only entry; with none of these the sender hears that the machine is offline |
| RelayRouting.TranscriptNeedsWatcher | cloud/src/relay.ts:347-371 | a transcript frame reaches all open browsers when one of them watches the named instance, and nobody otherwise |
| RelayRouting.NoticeReachesBrowsers | cloud/src/relay.ts:347-371 | a notice reaches all open browsers whether or not one of them watches |
| RelayRouting.HelloSetsEntry | cloud/src/relay.ts:273-317 | the entry that a hello leaves: the machine of the message with the session state stored before |
| RelayRouting.SessionCatalogSetsEntry | cloud/src/relay.ts:319-345 | the entry that a session catalog leaves: the fields of the message, and those stored before for the ones it leaves out |
| RelayRouting.LastCloseIsAnnounced | cloud/src/relay.ts:154-182 | the close of the last open agent of an instance is announced to every open browser, and the machine is offline exactly when no agent is left |
| RelayRouting.BrowserIsGreeted | cloud/src/relay.ts:79-109 | a browser is greeted with the machine state and the catalog, and nobody else is told |
| RelayRouting.AgentIsAnnounced | cloud/src/relay.ts:79-109 | an agent closes the open agent sockets of its instance and no other, and every open browser hears that the machine is online and sees the catalog |
| Relay.ForwardingKeepsSubscriptionsIff | cloud/src/relay.ts:396-422 | forwarding an arbitrary browser message keeps the subscription invariant exactly when it reaches no agent, is no subscription frame, or says what is true |
| Relay.ForgedUnsubscribe | cloud/src/relay.ts:396-422 | a run in which a browser message of type unsubscribe silences an agent that is watched |
| Relay.ReconnectIsNotSubscribed | cloud/src/relay.ts:79-109 | a run after which a reconnected agent has had no subscription frame although a browser watches it |
| RelayHistory.NoFrameIff | cloud/src/relay.ts:79-249 | over every run an open agent has had no subscription frame exactly when, since the event that connected it, no browser has watched and no close of a browser was handled |
| RelayHistory.WatchedAgentIsSubscribedIff | cloud/src/relay.ts:79-249 | over every run a watched open agent is subscribed exactly when one of those has happened since it connected, and has had no frame at all otherwise |
| RelayHistory.ToldExactly | cloud/src/relay.ts:154-249 | over every run an open agent that has had a frame was last told subscribe exactly when a browser watches it whose close is not yet handled and that the last verdicts counted: it was open then, or its own watch message made them |
| RelayHistory.ToldUnwatchedIff | cloud/src/relay.ts:154-249 | over every run an agent is told subscribe though no open browser watches it exactly when a dropped watcher of its instance waits for its close and no verdicts went out since its drop, except by a watch message of its own |
| RelayHistory.LastFrameIs | cloud/src/relay.ts:79-249 | the last subscription frame of every open agent in every run: none when no verdicts went out since the event that connected it, and otherwise subscribe exactly when a counted browser watches it |
| Relay.HandlerKeeps | cloud/src/relay.ts:79-422 | every handler keeps all the invariants |
| Relay.MachineRelay.OnConnectAgent | cloud/src/relay.ts:79-109 | accepting an agent replaces the open sockets of its instance and tells browsers |
| Relay.MachineRelay.OnConnectBrowser | cloud/src/relay.ts:79-109 | accepting a browser greets it with the machine state and the catalog |
| Relay.MachineRelay.OnClose | cloud/src/relay.ts:154-182 | handling a close removes the entry only when no other open socket has the instance |
| Relay.MachineRelay.OnHello | cloud/src/relay.ts:273-317 | a hello identifies the socket and merges its entry into the catalog |
| Relay.MachineRelay.OnSessionCatalog | cloud/src/relay.ts:319-345 | a session catalog updates the entry of its instance, or the first one |
| Relay.MachineRelay.OnAgentMessage | cloud/src/relay.ts:347-371 | which agent messages reach browsers, and when |
| Relay.MachineRelay.OnWatch | cloud/src/relay.ts:384-396 | watching records the instance, recomputes all subscriptions and subscribes its agent |
| Relay.MachineRelay.OnBrowserMessage | cloud/src/relay.ts:397-422 | routing by watch, own id, session and the only instance |
| Relay.MachineRelay.RecomputeSubscriptions | cloud/src/relay.ts:230-249 | every open identified agent is told whether its instance is watched |
| WaitProtocol.NoLostWakeup | grok-build/crates/codegen/ptyctl/src/wait.rs:90-121 | in every interleaving a waiter parked with no unseen generation has checked the current grid, unless a writer still owes its bump |
| WaitProtocol.MetConditionCanWake | grok-build/crates/codegen/ptyctl/src/wait.rs:90-121 | so a parked waiter whose condition holds can wake before its deadline |
| WaitProtocol.EndedSawAllOutput | grok-build/crates/codegen/ptyctl/src/wait.rs:112-117 | a wait reported as ended last checked, and found false, a grid holding all output, and its raw tail is that of all output |
| WaitProtocol.EndedCheckIsCurrentIff | grok-build/crates/codegen/ptyctl/src/wait.rs:112-117 | in every interleaving a waiter that finds the sender gone has checked the present grid exactly when every write without its bump came before that check; with no writer at work these are the silent resizes |
| WaitProtocol.EndedVerdictHoldsIff | grok-build/crates/codegen/ptyctl/src/wait.rs:112-117 | exactly then the verdict of that check holds of the present grid for every condition |
| WaitProtocol.LateResizeDefeatsEndedWait | grok-build/crates/codegen/ptyctl/src/session.rs:272-285 | for every condition that some output leaves false and a following resize makes true, a run in which the resize comes after the feeder ended and the wait fails as ended though its condition holds |
| WaitProtocol.ReportedTailCoversScreen | grok-build/crates/codegen/ptyctl/src/wait.rs:160-186 | whatever runs between the two reads of a report, all output that its screen shows is part of the output whose last 2048 bytes are its raw tail |
| WaitProtocol.InvStep | grok-build/crates/codegen/ptyctl/src/session.rs:158-174 | every step of feeder, resizers and waiters keeps the invariants |
| WaitProtocol.PushTailKeepsLast | grok-build/crates/codegen/ptyctl/src/wait.rs:195-206 | the tail after a push is the last 2048 bytes of everything pushed |
| WaitProtocol.RawTail.Push | grok-build/crates/codegen/ptyctl/src/wait.rs:195-206 | the pop-front loop computes that tail |
| Coalesce.FlushAgreesIff | grok-build/crates/codegen/xai-codebase-graph/src/index_manager.rs:1087-1115 | a flushed batch leaves a path as one-by-one replay does, except exactly when the path was indexed and its last two updates cancel |
| Coalesce.BatchAgreesIff | grok-build/crates/codegen/xai-codebase-graph/src/index_manager.rs:1087-1115 | the whole indexes are equal exactly when no indexed path is cancelled |
| Coalesce.CancelledEntryIsStale | grok-build/crates/codegen/xai-codebase-graph/src/index_manager.rs:1489-1496 | a modify and a removal in one batch leave the entry of a file that is gone |
| Coalesce.QueriesSeeReplay | grok-build/crates/codegen/xai-codebase-graph/src/index_manager.rs:760-830 | over any run of the manager, at a path that no batch cancels, every query is answered as if all commands received before it had been applied one by one |
| Coalesce.IndexesDifferIff | grok-build/crates/codegen/xai-codebase-graph/src/index_manager.rs:760-900 | after any run of the manager its index and the one-by-one index differ at a path exactly when the last round that touches the path is one whose batch cancels it while the manager has it indexed |
| Coalesce.LaterTouchRestores | grok-build/crates/codegen/xai-codebase-graph/src/index_manager.rs:760-900 | whatever was cancelled before, a later update that is not cancelled, a refresh of the path or a rebuild makes the two indexes agree there until the next cancellation |
| Coalesce.CoalescedAt | grok-build/crates/codegen/xai-codebase-graph/src/index_manager.rs:1484-1507 | what is coalesced for a path is decided by its last two updates |
| Coalesce.CoalescedEvents.Insert | grok-build/crates/codegen/xai-codebase-graph/src/index_manager.rs:1482-1508 | the merge of a kind with the one recorded for its path |
| Coalesce.CoalescedEvents.Add | grok-build/crates/codegen/xai-codebase-graph/src/index_manager.rs:1466-1480 | a rename with two paths is a removal and a creation, any other event one update per path |
| Coalesce.PlainEventAt | grok-build/crates/codegen/xai-codebase-graph/src/index_manager.rs:1466-1480 | any event but a rename leaves at each of its paths what its kind says, coalesced or applied by itself, and touches no other path |
| Coalesce.RenameAt | grok-build/crates/codegen/xai-codebase-graph/src/index_manager.rs:1466-1480 | after a rename, coalesced or applied by itself, the old path is gone, the new one has the entry of its file, and no other path is touched |
| Coalesce.OtherCommandAt | grok-build/crates/codegen/xai-codebase-graph/src/index_manager.rs:792-900 | what a rebuild, a refresh or a query leaves at each path |
| Coalesce.QuerySeesDrainedEvents | grok-build/crates/codegen/xai-codebase-graph/src/index_manager.rs:792-900 | a query that a drain meets is answered from the index that holds the event and everything drained, path by path |
| Coalesce.IndexManager.ApplyCoalesced | grok-build/crates/codegen/xai-codebase-graph/src/index_manager.rs:1087-1115 | taking the entries in any order gives the same index and the same count |
| Coalesce.IndexManager.Drain | grok-build/crates/codegen/xai-codebase-graph/src/index_manager.rs:802-820 | the drain merges the waiting file events and stops at the first other command |
| Coalesce.IndexManager.ProcessCommandCoalesced | grok-build/crates/codegen/xai-codebase-graph/src/index_manager.rs:792-900 | a single event drains and flushes before anything else is handled; a batch is flushed at once |
| Coalesce.IndexManager.ProcessBackgroundRefresh | grok-build/crates/codegen/xai-codebase-graph/src/index_manager.rs:1054-1070 | deleted files go, supported stale files are indexed again |
| Interner.RunRefinesList | grok-build/crates/codegen/xai-codebase-graph/src/interner.rs:108-133 | for every hash function and every run within the limits the store stands for the strings in order of first use, and each returned id still names its bytes |
| Interner.IdsEqualIffBytesEqual | grok-build/crates/codegen/xai-codebase-graph/src/interner.rs:108-133 | two ids are equal exactly when their byte strings are |
| Interner.InternRefinesList | grok-build/crates/codegen/xai-codebase-graph/src/interner.rs:108-133 | interning appends to the list exactly when the string is new, and returns its place |
| Interner.LookupIsLinearSearch | grok-build/crates/codegen/xai-codebase-graph/src/interner.rs:143-155 | a lookup through the hash table is a linear search, collisions included |
| Interner.FromPartsRestoresRun | grok-build/crates/codegen/xai-codebase-graph/src/interner.rs:261-277 | rebuilding from the saved arena and offsets gives the same interner, table included |
| Interner.RebuiltDiffersIff | grok-build/crates/codegen/xai-codebase-graph/src/interner.rs:261-277 | after any run with room, long strings included, the rebuilt interner answers otherwise for a string exactly when the first input that leaves its bytes in an entry (itself, or a long string cut to its length modulo 2^16) has another hash |
| Interner.FromPartsRestoresIff | grok-build/crates/codegen/xai-codebase-graph/src/interner.rs:261-277 | after such a run the rebuild gives the same interner exactly when no input has another hash than what its entry holds |
| Interner.RebuildMovesPrefix | grok-build/crates/codegen/xai-codebase-graph/src/interner.rs:261-277 | every interner of one long string whose kept prefix has another hash answers otherwise for that prefix once rebuilt |
| Interner.FoundAgainIffLengthFits | grok-build/crates/codegen/xai-codebase-graph/src/interner.rs:120-127 | in any store a run can reach that has room, an interned string is found again exactly when its length is below 2^16 |
| Interner.LongIsAlwaysAdded | grok-build/crates/codegen/xai-codebase-graph/src/interner.rs:108-133 | after any run whatever, a string of 2^16 bytes or more is not found before or after its intern, which appends it anew |
| Interner.ShortInputsAreFound | grok-build/crates/codegen/xai-codebase-graph/src/interner.rs:108-133 | over runs that mix short and long strings, every short input is found in the end at the id returned for it |
| Interner.ShortIdsEqualIffBytesEqual | grok-build/crates/codegen/xai-codebase-graph/src/interner.rs:108-133 | in such runs two short inputs have one id exactly when their bytes are equal |
| Interner.LongIdIsNew | grok-build/crates/codegen/xai-codebase-graph/src/interner.rs:108-133 | in such runs a long input gets an id that no earlier input has |
| Interner.StringInterner.InternBytes | grok-build/crates/codegen/xai-codebase-graph/src/interner.rs:108-133 | the new arena, table and offsets, with starts kept in 32 and lengths in 16 bits |
| Interner.StringInterner.GetBytesId | grok-build/crates/codegen/xai-codebase-graph/src/interner.rs:143-155 | the loop over a bucket returns the first id with the bytes |
| Interner.StringInterner.FromParts | grok-build/crates/codegen/xai-codebase-graph/src/interner.rs:261-277 | the table is rebuilt from the offsets that lie in the arena |
| Interner.StringInterner.GetBytes | grok-build/crates/codegen/xai-codebase-graph/src/interner.rs:163-167 | the bytes of an id, none when the id or its slice is out of range |
| Interner.StringInterner.Clear | grok-build/crates/codegen/xai-codebase-graph/src/interner.rs:234-238 | clearing leaves the empty interner |
| LineReader.StreamIsPreserved | grok-build/crates/codegen/xai-acp-lib/src/line_reader.rs:57-177 | for every chunking and every schedule of fills and polls, delivered, stashed, queued, partly read and unread bytes are together the source, in order |
| LineReader.PendingOnlyAtBoundary | grok-build/crates/codegen/xai-acp-lib/src/line_reader.rs:84-131 | a poll is pending only when the delivered bytes end a line or are the whole source |
| LineReader.EndMeansDelivered | grok-build/crates/codegen/xai-acp-lib/src/line_reader.rs:84-131 | a poll that reports the end has delivered the whole source, unless the task failed; then exactly the partly read line and the unread rest are missing |
| LineReader.MessagesAreLines | grok-build/crates/codegen/xai-acp-lib/src/line_reader.rs:57-177 | the messages of the task are the lines of its text, up to the first one over the cap or the failure of the source |
| LineReader.ChunkingIsIrrelevant | grok-build/crates/codegen/xai-acp-lib/src/line_reader.rs:136-177 | two sources with the same bytes and end give the same messages, however they are chunked |
| LineReader.ReaderTask.ReadLineCapped | grok-build/crates/codegen/xai-acp-lib/src/line_reader.rs:136-177 | the fill and consume loop returns the next line or its failure and loses no byte |
| LineReader.ReaderTask.Run | grok-build/crates/codegen/xai-acp-lib/src/line_reader.rs:57-74 | the task sends exactly the messages of its source |
| LineReader.LineBufferedRead.PollRead | grok-build/crates/codegen/xai-acp-lib/src/line_reader.rs:84-131 | the bytes copied into the destination, the rest of it untouched, and the new buffer and position |
| Lockout.StoredStreakIsFailures | cloud/src/index.ts:139-211 | after any run with a clock that does not go back, the streak stored for the current day is the number of failed checks of that day since the last success, at most ten, and a tenth comes at least thirty minutes after the first |
| Lockout.RunFollowsHistory | cloud/src/index.ts:139-211 | over any run the stored rows give the answers that the history of checks alone determines, and each third failure is ten minutes before the next |
| Lockout.HandledAsAnswered | cloud/src/index.ts:139-211 | one request is answered as the history determines, and the row goes on standing for it |
| Lockout.CurrentIsStreak | cloud/src/index.ts:155-166 | what a request reads from the row, after the change of day, is the streak of its own day |
| Lockout.CooldownIsLeast | cloud/src/index.ts:139-211 | a request during a cooldown is told the least whole seconds that cover what is left of the ten minutes, and the least whole minutes that cover those seconds |
| Lockout.WrongPasswordCounts | cloud/src/index.ts:139-211 | what a failed check is answered, from the number of failures alone |
| Lockout.LoginLockouts.HandleLogin | cloud/src/index.ts:139-211 | the new row and the answer of one request |
| CrashBlob.ParseOfWritten | grok-build/crates/codegen/xai-crash-handler/src/format.rs:40-169 | a written blob is parsed exactly when it has at most 64 frames; every number and frame comes back, whatever follows it |
| CrashBlob.VersionSurvivesIff | grok-build/crates/codegen/xai-crash-handler/src/format.rs:58-62 | the version comes back exactly when it is valid UTF-8 of at most 32 bytes without trailing NUL |
| CrashBlob.RewriteReproducesIff | grok-build/crates/codegen/xai-crash-handler/src/format.rs:40-169 | writing an accepted blob again reproduces its first 64 + 8n bytes exactly when its version field is valid UTF-8 |
| CrashBlob.WriteHeader | grok-build/crates/codegen/xai-crash-handler/src/format.rs:101-157 | the header written field by field, and in a short buffer the leading fields that fit |
| CrashBlob.HeaderIsPut | grok-build/crates/codegen/xai-crash-handler/src/format.rs:101-157 | in a buffer of 64 bytes or more the fields are contiguous and nothing else changes |
| CrashBlob.WriteFrame | grok-build/crates/codegen/xai-crash-handler/src/format.rs:163-169 | a frame is written whole or not at all |
| CrashBlob.WriteBlob | grok-build/crates/codegen/xai-crash-handler/src/handler.rs:374-379 | header and frames fill the first 64 + 8n bytes and the rest of the buffer stays |
| CrashBlob.Parse | grok-build/crates/codegen/xai-crash-handler/src/format.rs:40-89 | the parser by fields, with its length, magic, version and frame-count tests |

## Left out

- `compaction_utils.rs`: the reminder texts, the segment and verbatim preparations, and the carrier variant that is not compiled in; the optional System fields and other item metadata are one opaque text per item.
- CompactionRounds.RoundsKeepView: does not cover a goal objective, which replaces the query by design, nor queries that contain one of the runtime's tag literals; removing an inner tag there can join text into another tag.
- BudgetFit.FitConversationToBudget: does not model the overflow of 64-bit token sums; the estimator is any function to the naturals.
- ImageMeasure.BodyBytesExactIff: does not model the JSON of fields other than text, images, ids and results in detail; each item's other fields enter as their serialised text.
- JsonReading.EscapedIsRead: the reader takes no escapes of surrogates, which the writer never makes; an item's other fields are read as one text.
- SummaryPieces.ClosedBlockIsDropped: like the other results on scratchpad blocks, asks that no tag begins another, as holds in the source; without that it fails (`SharedTagIsNoScratchpad`).
- Relay.HandlerKeeps: assumes atomic handlers and agents that use one nonempty instance id in header and messages; pairing metadata, the machine record, the touch of the database and the pairing notice are not modelled, and the catalog lists its entries in insertion order (JavaScript puts integer-like keys first).
- WaitProtocol.NoLostWakeup: the `StableMs` wait is not modelled; the text, absence and regex conditions are one arbitrary condition on the grid, and the grid is the sequence of writes to it.
- Coalesce.QueriesSeeReplay: does not model the cache file, the scope graph inside an entry, or path normalisation; an entry is opaque and paths are already relative.
- Interner.RunRefinesList: states the limits as total bytes below 2^32, lengths below 2^16 and at most 2^32 ids; runs with longer strings have the four lemmas on long and short strings instead, and beyond the 2^32 starts the fields wrap as modelled but nothing is claimed except `LongIsAlwaysAdded`.
- LineReader.StreamIsPreserved: does not bound the queue (the channel holds 64 lines) and takes a fill of the source as one step; the byte count in the error text for a too long line is not modelled.
- Lockout.StoredStreakIsFailures: requests are sequential; captcha and password checks are given outcomes, sessions are not modelled.
- CrashBlob.Parse: takes a 64-bit platform, where a frame address is a 64-bit number.
- `xai-compaction-transcript/src/lib.rs` (segment rendering) and `usage.rs` (usage ledger): bounded accumulators and file-name parsing that would add easier members.
- Registry, database, token estimation, tree-sitter, terminal emulation, HTTP and file I/O are not part of this model.
