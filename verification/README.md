# Verified models of the mirri web client's core

Mirri's web client shows a conversation with a coding agent. This project models, in Dafny
4.11, the parts of it where most can go wrong, and proves what they promise. The original
code is TypeScript.

| module | models |
|---|---|
| `TranscriptTypes`, `TranscriptFold` | messages, turns and the fold of one message into the other, as functions |
| `TranscriptBuilder` | `messagesToTurns` in its own form: one pass that updates turn list, gutter number and open group in place, proved equal to the fold |
| `TranscriptViews`, `TranscriptItems`, `TranscriptDecomposition`, `TranscriptDuplicates`, `TranscriptPrompts`, `TranscriptStamps`, `TranscriptContent`, `TranscriptCards`, `TranscriptCopies` | what holds of every transcript |
| `RenderPlan` | tool-card stacks and folded assistant runs, composed with the fold |
| `RpcClientModel`, `RpcClientTraces`, `RpcClient` | the WebSocket JSON-RPC client: state machine, what becomes of calls, waiters and notifications, and the class that refines it |
| `SkillReference`, `SkillReferenceDocs`, `SkillReferenceWhitespace` | the printer, scanner and whitespace normaliser of inline references |
| `SkillReferenceLinks` | one link, character by character |
| `SkillReferenceReparse`, `SkillReferenceInputs` | parsing a message body a second time |
| `FilePreviewModel`, `FilePreview` | the file preview panel over late completions |
| `AttachmentModel`, `AttachmentEffects`, `AttachmentUpload` | pending attachments over late completions |
| `IcnsIcon` | the icns chunk walker |

Code that works by changing state is a class or a loop here too. Each of its methods is
proved equal to a step or a function of the specification beside it, and the theorems are
about that specification. A class records the actions taken so far in a ghost `history`
and its `Valid()` says that its fields are the state this history leads to, so what is
proved of every run holds of every object.

In `RpcClientModel`, `FilePreviewModel` and `AttachmentModel` asynchronous completions are
steps that may come in any order. The fold's pure text helpers are fields of `Env`, so
every theorem holds for every choice of them.

## Where the code and what is said of it differ

- Results, and among the blocks the settle loop, only ever reach the first card with an id
  (`messagesToTurns.ts:787`, `:858`, `:878`). So in a finished turn the two tool views are
  equal, and no card of the blocks is running, if and only if no id occurs twice in it, even
  when every call got a result (`TranscriptViews.TwoViewsAgree`;
  `DuplicateIdsInATranscript` gives a transcript).
- The look-ahead for notices reads past turn boundaries (`messagesToTurns.ts:534-539`), so
  cutting a transcript at a user message can change the turns before the cut
  (`TranscriptDecomposition.Decomposition` says exactly when).
- Duplicates are recognised only under a known prompt id (`messagesToTurns.ts:1140`);
  without one the reply shows twice (`TranscriptDuplicates.UnnamedDuplicateShowsTwice`).
- A row's stamps are taken over before it is recognised as a duplicate
  (`messagesToTurns.ts:1125-1130` and `:1139`), so a second copy moves the end of its turn to
  its own, unless a later row decides anyway. What counts is how the last row before the
  copy ended, not how the copied row did (`TranscriptCopies.EndSurvivesCopyIff`;
  `CopyErasesEnd` and `CopyMovesEndBack` give rows).
- A copy that shows nothing itself can still be seen: a notice between the row and its copy
  that finds no other assistant row stays in the turn because of the copy
  (`TranscriptCopies.CopyIsInvisibleIff` says exactly when a copy changes nothing, wherever
  in its turn it stands; `CopyKeepsNoticeInTurn` gives a transcript).
- A tool result that comes behind a hard boundary, say a hidden user message, is dropped
  (`messagesToTurns.ts:1076-1080`), and the call it belongs to counts as succeeded even when
  it failed (`TranscriptContent.ResultsBehindBoundaryAreLost`; `FailureBehindHiddenMessage`
  gives a transcript).
- The comment at `messagesToTurns.ts:1125` speaks of deriving `endedAt` from `createdAt`;
  the flush never does, and neither does the model.
- `skill-reference.ts:138-139` calls re-parsing the body idempotent. It is not: a shown name
  may start with a trigger (`SkillReferenceDocs.ReparseCanFindALink`), or have a `[` and a
  trigger inside (`SkillReferenceInputs.LinkInsideName`), or trimming it may heal a link
  around it that a space had broken (`SkillReferenceInputs.HealedLink`).
  `SkillReferenceReparse.ReparseFindsNothingIff` says exactly when it holds for printed
  documents, and `ReparseOfEveryText` gives a condition that is enough for any text.
- `skill-reference.ts:130-132` says that parsed targets never show the stale suffix. One
  suffix is dropped, so a builtin target that ends with it twice keeps one; and the builtin
  prefix with nothing but the suffix becomes `builtin:/`, which is of no kind
  (`SkillReference.ParsedTargetIsCleanIff` says exactly when;
  `SkillReferenceInputs.StaleSuffixTwice` and `NothingButSuffix` give texts).
- `skill-reference.ts:154-158` says that only white space between two adjacent references is
  collapsed. What collapses is every run of two or more spaces behind the end of any link and
  in front of `[` and a trigger, a reference or not (`SkillReferenceWhitespace.OnlyGapsShrink`;
  `SpaceWithoutReferences` gives a text). The ends of the text are trimmed besides.
- `app-icon.ts:93-95` says that corrupt lengths give no icon. The walk ends at a corrupt
  length and keeps the chunks before it: there is no icon if and only if none of those is a
  PNG (`IcnsIcon.NothingPickedIff`; `CorruptLengthKeepsIcon` gives a file). The magic is
  compared without the high bits of its bytes (`IcnsIcon.EveryHeaderIsAFile`).
- `useAttachmentUpload.ts:393-403` revokes every URL on unmounting but does not empty the
  lists, so a thumbnail that arrives later for an entry that is still listed is never
  revoked (`AttachmentModel.RevokedAfterUnmountIff`; `LeakAfterUnmount` gives a run).

## Model

| member | source | states |
|---|---|---|
| TranscriptBuilder.ComputeSig | apps/mirri-web/src/composables/messagesToTurns.ts:573-588 | The loop computes the signature function: concatenated text and thinking, the bag of tool ids, the bag of other parts |
| TranscriptBuilder.ApprovalsByTool | apps/mirri-web/src/composables/messagesToTurns.ts:728-732 | The lookup map answers every id with the approval registered last for it, and nothing else |
| TranscriptBuilder.SteeredIntoRunningTurn | apps/mirri-web/src/composables/messagesToTurns.ts:528-540 | The scan decides by the next assistant row anywhere later in the transcript; with no such row, and a group open, it folds |
| TranscriptBuilder.OpenGroup.constructor | apps/mirri-web/src/composables/messagesToTurns.ts:1093-1108 | A fresh group has no content and carries the row's id, prompt and stamps |
| TranscriptBuilder.OpenGroup.ReplaceTool | apps/mirri-web/src/composables/messagesToTurns.ts:785-788 | Writes the card to `tools[i]` and to the first block with its id, nothing else |
| TranscriptBuilder.OpenGroup.AbsorbOne | apps/mirri-web/src/composables/messagesToTurns.ts:808-881 | One content part, every arm: text and thinking merge into a trailing block, a call adds a card to both views and may set the approval, a result patches both views |
| TranscriptBuilder.OpenGroup.AbsorbContent | apps/mirri-web/src/composables/messagesToTurns.ts:807-883 | The loop over a row's parts equals the absorb function on which the invariants below are proved |
| TranscriptBuilder.OpenGroup.MergeVolatileExtras | apps/mirri-web/src/composables/messagesToTurns.ts:894-913 | The gap-filling loop equals the merge function |
| TranscriptBuilder.OpenGroup.SettleRunningTools | apps/mirri-web/src/composables/messagesToTurns.ts:773-790 | The settle loop equals the settle function, freeze anchor included |
| TranscriptBuilder.OpenGroup.TakeStamps | apps/mirri-web/src/composables/messagesToTurns.ts:1109-1129 | A row gives the group its prompt if it had none, its duration if it has one, and always its creation and end stamps |
| TranscriptBuilder.OpenGroup.FoldAssistantRow | apps/mirri-web/src/composables/messagesToTurns.ts:1109-1146 | Stamps, duplicate check, then merge or absorb |
| TranscriptBuilder.TurnBuilder.constructor | apps/mirri-web/src/composables/messagesToTurns.ts:726-734 | The pass starts with no turns, number 1 and no open group |
| TranscriptBuilder.TurnBuilder.FlushGroup | apps/mirri-web/src/composables/messagesToTurns.ts:736-805 | Emits exactly one turn for the open group, settled or not, takes one number, and closes the group |
| TranscriptBuilder.TurnBuilder.Push | apps/mirri-web/src/composables/messagesToTurns.ts:927-942 | A pushed turn goes last; it takes a number only if told to |
| TranscriptBuilder.TurnBuilder.PushInline | apps/mirri-web/src/composables/messagesToTurns.ts:977-994 | An inline block goes last in the open group; turns and numbers stay |
| TranscriptBuilder.TurnBuilder.HandleUser | apps/mirri-web/src/composables/messagesToTurns.ts:968-1074 | Every arm for user-role messages is the step function's |
| TranscriptBuilder.TurnBuilder.HandleAssistant | apps/mirri-web/src/composables/messagesToTurns.ts:1089-1146 | An assistant row continues the open group or flushes it and opens one |
| TranscriptBuilder.TurnBuilder.HandleMessage | apps/mirri-web/src/composables/messagesToTurns.ts:915-1147 | The loop body is the step function, for every message and whatever follows |
| TranscriptBuilder.MessagesToTurns | apps/mirri-web/src/composables/messagesToTurns.ts:705-1151 | The whole imperative pass returns the turns of the fold, for every transcript |
| TranscriptViews.PatchCardPatchesFirst | apps/mirri-web/src/composables/messagesToTurns.ts:787-788 | Patching the first block with an id does to the card list what patching the first entry does to the flat list |
| TranscriptViews.AbsorbKeeps | apps/mirri-web/src/composables/messagesToTurns.ts:807-883 | Absorbing any content keeps the group invariant: normal form, joined text and thinking, equal views |
| TranscriptViews.SettleAgreesIff | apps/mirri-web/src/composables/messagesToTurns.ts:773-790 | After settling any group, the two tool views are equal if and only if every running card is the first with its id |
| TranscriptViews.SettledViewsIff | apps/mirri-web/src/composables/messagesToTurns.ts:773-790 | In a group some transcript leads to, that is: if and only if no id occurs twice; and then nothing runs in the blocks either |
| TranscriptViews.DuplicateIdsSplitTheViews | apps/mirri-web/src/composables/messagesToTurns.ts:787 | Two running cards with one id: the flat list is settled, the second block still says running |
| TranscriptViews.DuplicateIdsInATranscript | apps/mirri-web/src/composables/messagesToTurns.ts:773-790 | The same on a whole one-message transcript |
| TranscriptViews.BlockNormalForm | apps/mirri-web/src/composables/messagesToTurns.ts:791-826 | Every assistant turn of every transcript: text blocks join to `text`, thinking blocks to `thinking`, none is empty, no two of a kind are adjacent |
| TranscriptViews.TwoViewsAgree | apps/mirri-web/src/composables/messagesToTurns.ts:736-913 | Every turn: same calls in the same order in both views. Live turn: equal views. Any other: nothing running in the flat list; views equal, and nothing running in the blocks, if and only if no id occurs twice |
| TranscriptViews.ToolsOnlyAdvance | apps/mirri-web/src/composables/messagesToTurns.ts:807-913 | While a group stays open its cards keep place, id, name and argument, and none returns to running |
| TranscriptItems.StepShows | apps/mirri-web/src/composables/messagesToTurns.ts:915-1147 | One message adds exactly the items it must show: none or one |
| TranscriptItems.ExactlyOnceInOrder | apps/mirri-web/src/composables/messagesToTurns.ts:915-1074 | Flattening turns and inline blocks gives every divider, cron, notice, steer and displayable user message once, in input order, with its content; which those are is told from role, origin kind and trigger; hidden ones never |
| TranscriptItems.OwnTurnIsPresented | apps/mirri-web/src/composables/messagesToTurns.ts:919-1074 | A message can stand alone as a turn exactly if role, origin and trigger say so, and then with exactly these fields, chips included |
| TranscriptItems.UserMessageIsShownIff | apps/mirri-web/src/composables/messagesToTurns.ts:439-449 | A user message that is no divider, cron job or notice has its bubble at its place if and only if it has no origin, is user input, also steered in, or a skill or plugin command the user typed |
| TranscriptItems.NumbersRunWithoutGaps | apps/mirri-web/src/composables/messagesToTurns.ts:727-1060 | Turn by turn, with the message each turn belongs to and the turn it must then be: numbers start at 1 and go up by one behind assistant turns and every message but dividers and inline skill commands |
| TranscriptDecomposition.PrefixUnaffected | apps/mirri-web/src/composables/messagesToTurns.ts:528-540 | Up to the first notice that is placed differently, what follows a prefix is not felt |
| TranscriptDecomposition.SuffixShifted | apps/mirri-web/src/composables/messagesToTurns.ts:736-805 | Behind a hard boundary the second half is built as if alone, with its numbers moved up |
| TranscriptDecomposition.DisagreementShows | apps/mirri-web/src/composables/messagesToTurns.ts:976-983 | The first notice placed differently leaves a visible difference in the turn it belongs to |
| TranscriptDecomposition.Decomposition | apps/mirri-web/src/composables/messagesToTurns.ts:705-1151 | For Q starting with a hard boundary: turns of P+Q are the turns of finished P followed by the shifted turns of Q, if and only if no notice of P is placed differently because of Q |
| TranscriptDecomposition.DecompositionWithLaterRow | apps/mirri-web/src/composables/messagesToTurns.ts:528-540 | In particular when every notice of P has a later assistant row inside P |
| TranscriptDuplicates.CoversIsPreorder | apps/mirri-web/src/composables/messagesToTurns.ts:597-604 | `covers` is reflexive and transitive |
| TranscriptDuplicates.MergeIsIdempotent | apps/mirri-web/src/composables/messagesToTurns.ts:894-913 | Merging the extras of a duplicate a second time changes nothing |
| TranscriptDuplicates.SecondCopyRecognisedIff | apps/mirri-web/src/composables/messagesToTurns.ts:1139-1144 | A second copy of a row just folded is recognised if and only if the group's prompt id is known |
| TranscriptDuplicates.CoveredRowOnlyFills | apps/mirri-web/src/composables/messagesToTurns.ts:1139-1142 | A covered row changes no text, thinking, block sequence, id or status; it only supplies missing outputs and start stamps, in both views alike |
| TranscriptDuplicates.FoldingAgain | apps/mirri-web/src/composables/messagesToTurns.ts:1139-1144 | With a known prompt, folding a row twice only fills gaps and a third time does nothing |
| TranscriptDuplicates.UnnamedDuplicateShowsTwice | apps/mirri-web/src/composables/messagesToTurns.ts:1140 | Without a prompt id the same text shows twice |
| TranscriptPrompts.RowLandsInItsPrompt | apps/mirri-web/src/composables/messagesToTurns.ts:1089-1111 | Every assistant row ends up in an assistant turn that carries its prompt id, if it names one |
| TranscriptPrompts.OnePromptPerTurn | apps/mirri-web/src/composables/messagesToTurns.ts:506-513 | No turn absorbs rows of two different known prompts |
| TranscriptPrompts.TurnPromptComesFromARow | apps/mirri-web/src/composables/messagesToTurns.ts:1093-1111 | A turn's prompt id is that of a row folded into it |
| TranscriptPrompts.NeighboursDiffer | apps/mirri-web/src/composables/messagesToTurns.ts:1011-1111 | Two adjacent assistant turns carry different known prompts, or a hidden user message came between |
| TranscriptStamps.TurnEnds | apps/mirri-web/src/composables/messagesToTurns.ts:745-805 | A turn with a known prompt carries the end stamp of the last row folded into it, and the duration of the last such row that brings one, found by scanning on to the next hard boundary |
| TranscriptContent.TurnContent | apps/mirri-web/src/composables/messagesToTurns.ts:791-883 | Every assistant turn of every transcript: `text` and `thinking` are the non-empty parts of the rows that landed there, joined in input order; its cards are the calls of those rows in input order; each status follows from the results that landed there |
| TranscriptContent.CardShowsLastResult | apps/mirri-web/src/composables/messagesToTurns.ts:857-880 | Card by card: the last result that came while the group was open, for the first call with its id, decides; without one the card runs in the live turn and counts as succeeded elsewhere |
| TranscriptContent.StatusIsLastResult | apps/mirri-web/src/composables/messagesToTurns.ts:857-880 | In any content, a call's status is the verdict of the last result it hears, or running |
| TranscriptContent.ViewsAgreeIffCallsDistinct | apps/mirri-web/src/composables/messagesToTurns.ts:773-790 | The two tool views of a finished turn are equal if and only if no two calls that landed there have the same id: a condition on the input |
| TranscriptContent.RecognisedIff | apps/mirri-web/src/composables/messagesToTurns.ts:1139-1144 | A row is taken for a copy if and only if its turn has a known prompt by then and an earlier row that landed there says all it says: the same text and thinking or none, its calls, its other parts |
| TranscriptContent.CoversIffSays | apps/mirri-web/src/composables/messagesToTurns.ts:573-604 | One signature covers another if and only if the one row, part by part, says all that the other says |
| TranscriptContent.RowLandsIffKept | apps/mirri-web/src/composables/messagesToTurns.ts:1139-1146 | Which rows are kept and which are dropped, by the rows alone |
| TranscriptContent.NothingSaidIsLost | apps/mirri-web/src/composables/messagesToTurns.ts:589-604 | What any assistant row says is said by one row of its turn that is kept |
| TranscriptContent.NewCallIsKept | apps/mirri-web/src/composables/messagesToTurns.ts:601 | A row with a call that no earlier row of its turn made is never dropped |
| TranscriptCards.TurnIsToldByItsRows | apps/mirri-web/src/composables/messagesToTurns.ts:736-913 | Every assistant turn field by field by the rows folded into it: id of the first, end of the last, last duration, approval of the last approved call, and for each call a card with its name, argument, result, media, time, start and plan path, whatever results and copies came in whatever order |
| TranscriptCards.CardShowsCall | apps/mirri-web/src/composables/messagesToTurns.ts:828-913 | One card after any sequence of results and copies: the last result heard decides, the first later copy fills what is missing, the first plan path stays |
| TranscriptContent.ResultsBehindBoundaryAreLost | apps/mirri-web/src/composables/messagesToTurns.ts:1076-1080 | Whatever precedes and follows, tool rows directly behind a hard boundary leave no trace |
| TranscriptContent.FailureBehindHiddenMessage | apps/mirri-web/src/composables/messagesToTurns.ts:1076-1080 | A call, a hidden user message and the call's failure: the call shows as succeeded |
| TranscriptCopies.CoveredRowShowsNothingIff | apps/mirri-web/src/composables/messagesToTurns.ts:1139-1144 | A row covered by any row of the open group changes nothing but durations and ends, whatever precedes and follows, if and only if no notice in front of it is placed differently |
| TranscriptCopies.CoveredRowIsInvisibleIff | apps/mirri-web/src/composables/messagesToTurns.ts:1113-1144 | Exactly when such a row changes no turn at all: notices as before, and a later row decides the end and the duration, or the row leaves them as they are |
| TranscriptCopies.CoveredRowCountsForItsStamps | apps/mirri-web/src/composables/messagesToTurns.ts:1113-1143 | All a covered row can do, if no notice in front of it is placed differently: the turns are as without it, but its turn has the stamps of the last row behind it, or else those the covered row brings |
| TranscriptCopies.CopyIsInvisibleIff | apps/mirri-web/src/composables/messagesToTurns.ts:528-604 | Exactly when a copy changes no turn, wherever in the turn of its row it stands, by the messages between and behind: the notices in between, the end of the last row before the copy, the duration |
| TranscriptCopies.DuplicateIsInvisible | apps/mirri-web/src/composables/messagesToTurns.ts:554-604 | In particular a copy that says nothing new, behind any rows, results and placed notices of the turn, if it ends as the last row before it and brings no other duration |
| TranscriptCopies.DuplicateCountsForItsStamps | apps/mirri-web/src/composables/messagesToTurns.ts:1113-1143 | Directly behind its row, any copy that says nothing new and its row count as the row would with the duration and end the copy leaves behind |
| TranscriptCopies.EndSurvivesCopyIff | apps/mirri-web/src/composables/messagesToTurns.ts:1125-1143 | The end of the turn with and without a copy anywhere in it, and that they are the same if and only if a later row of the turn follows or the copy ends as the last row before it did |
| TranscriptCopies.CopyKeepsNoticeInTurn | apps/mirri-web/src/composables/messagesToTurns.ts:528-540 | A row, a notice, a copy of the row and a row of another prompt: the copy is seen, because the notice stays in the turn |
| TranscriptCopies.CopyMovesEndBack | apps/mirri-web/src/composables/messagesToTurns.ts:1125-1143 | A row, a later row and a copy of the first: the copy ends as its row did and yet the turn's end goes back |
| TranscriptCopies.CopyErasesEnd | apps/mirri-web/src/composables/messagesToTurns.ts:1125-1143 | A persisted row and a streamed copy without end stamp: the end of the turn is lost |
| RenderPlan.RenderBlocksFromBlocks | apps/mirri-web/src/components/chatTurnRendering.ts:63-107 | The stacking loop equals the plan function |
| RenderPlan.PlanShowsEveryBlock | apps/mirri-web/src/components/chatTurnRendering.ts:77-106 | Opening up the stacks gives every non-cron block once, in order, at its own index |
| RenderPlan.StacksAreMaximal | apps/mirri-web/src/components/chatTurnRendering.ts:67-86 | Every stack has two or more members at consecutive indices and cannot be extended on either side; a lone card has no stackable neighbour |
| RenderPlan.CardIsStackedIff | apps/mirri-web/src/components/chatTurnRendering.ts:46-107 | A card is in a stack if and only if it and a neighbour are calls not shown by their media; every other card stands alone |
| RenderPlan.FoldedTurnBlocks | apps/mirri-web/src/components/chatTurnRendering.ts:22-29 | A turn of the fold never needs the fallback reconstruction |
| RenderPlan.ReconstructionShowsTheTurn | apps/mirri-web/src/components/chatTurnRendering.ts:22-29 | Without blocks: the thinking, the text and the calls of the turn, empty ones left out, in that order |
| RenderPlan.FoldedTurnShowsItsTools | apps/mirri-web/src/components/chatTurnRendering.ts:57-107 | A turn of the fold shows one card per call in call order; with distinct ids exactly `turn.tools` |
| RenderPlan.GroupAssistantRuns | apps/mirri-web/src/components/chatTurnRendering.ts:146-159 | The one pass finds all maximal runs of assistant turns, each once, in order, with their slices |
| RenderPlan.RunIsUnique | apps/mirri-web/src/components/chatTurnRendering.ts:136-143 | Only one maximal run contains an index |
| RenderPlan.WalkOut | apps/mirri-web/src/components/chatTurnRendering.ts:205-210 | The two walks stop at the bounds of the run |
| RenderPlan.ComputeRunFinalText | apps/mirri-web/src/components/chatTurnRendering.ts:174-182 | The backward walk finds the terminal text, notices and steers skipped |
| RenderPlan.FinalTextIsTerminal | apps/mirri-web/src/components/chatTurnRendering.ts:161-173 | A final text is a text block behind which only notices and steers come |
| RenderPlan.FinalTextIs | apps/mirri-web/src/components/chatTurnRendering.ts:174-182 | The final text is that of the last block but the notices and steers at the end, if it is a text, else none |
| RenderPlan.AssistantTurnRenderPlan | apps/mirri-web/src/components/chatTurnRendering.ts:196-235 | The computed plan is the plan function; none for an index out of range or another kind of turn |
| RenderPlan.WalkFindsTheRun | apps/mirri-web/src/components/chatTurnRendering.ts:146-210 | At every assistant turn the walk and the one-pass grouping give the same run |
| RenderPlan.PlanAgreesWithGrouping | apps/mirri-web/src/components/chatTurnRendering.ts:212-230 | ... and the same key, start, end and final text |
| RenderPlan.PlanOfRun | apps/mirri-web/src/components/chatTurnRendering.ts:196-235 | The whole plan by the run: streaming if and only if one of its turns streams; folded if and only if none does and the first turn's id is not expanded; stamps of the last turn |
| RenderPlan.NoPlanElsewhere | apps/mirri-web/src/components/chatTurnRendering.ts:202-203 | No plan exactly where there is no assistant turn |
| RenderPlan.RunIsPlannedAsOne | apps/mirri-web/src/components/chatTurnRendering.ts:184-195 | Turns of one run share key, fold state and stamps; folded, only the first and last are visible and the last turn's terminal text shows there, nowhere else |
| RpcClient.WsRpcClient.constructor | packages/server-e2e/src/ws.ts:69-88 | The fresh client |
| RpcClient.WsRpcClient.Connect | packages/server-e2e/src/ws.ts:99-102 | A socket is opened once, and never after a close |
| RpcClient.WsRpcClient.Call | packages/server-e2e/src/ws.ts:133-148 | An id is taken only with an open socket; a failed send settles its call at once |
| RpcClient.WsRpcClient.ScanQueue | packages/server-e2e/src/ws.ts:242-250 | The scan finds the earliest queued match |
| RpcClient.WsRpcClient.WaitForNotification | packages/server-e2e/src/ws.ts:237-268 | Queue first, then closed check, then registration |
| RpcClient.WsRpcClient.OnTimeout | packages/server-e2e/src/ws.ts:259-263 | A timer removes and rejects its own waiter only |
| RpcClient.WsRpcClient.ScanWaiters | packages/server-e2e/src/ws.ts:345-354 | The scan finds the first registered waiter that matches |
| RpcClient.WsRpcClient.HandleNotification | packages/server-e2e/src/ws.ts:329-356 | Pings are consumed; others go to the first matching waiter or to the end of the queue |
| RpcClient.WsRpcClient.HandleFrame | packages/server-e2e/src/ws.ts:286-327 | id and method, id alone, method alone, neither: each does its own step |
| RpcClient.WsRpcClient.HandleMessage | packages/server-e2e/src/ws.ts:270-283 | Non-JSON is dropped; a batch is its frames in order |
| RpcClient.WsRpcClient.HandleFrames | packages/server-e2e/src/ws.ts:277-281 | The batch loop equals the fold over its frames |
| RpcClient.WsRpcClient.RejectPending | packages/server-e2e/src/ws.ts:365-366 | Every pending call is rejected, and only those |
| RpcClient.WsRpcClient.RejectWaiters | packages/server-e2e/src/ws.ts:367-370 | Every waiter is rejected, and only those |
| RpcClient.WsRpcClient.FailPendingAndWaiters | packages/server-e2e/src/ws.ts:364-371 | Both together |
| RpcClient.WsRpcClient.Close | packages/server-e2e/src/ws.ts:208-222 | Closing twice is closing once |
| RpcClient.WsRpcClient.HandleClose | packages/server-e2e/src/ws.ts:358-362 | A close by the server |
| RpcClientModel.RunsKeep | packages/server-e2e/src/ws.ts:69-372 | Every reachable state meets all invariants below |
| RpcClientModel.EachCallIsPendingOrSettledOnce | packages/server-e2e/src/ws.ts:133-148 | Ids handed out are exactly those below `nextId`; each is pending or settled, never both |
| RpcClientModel.EventsAreDeliveredOnceInOrder | packages/server-e2e/src/ws.ts:237-268 | No queued event matches a registered waiter; each arrival is queued or was delivered, once; each delivery was the earliest match left; no older waiter is overtaken |
| RpcClientModel.EachWaiterIsRegisteredOrSettledOnce | packages/server-e2e/src/ws.ts:255-267 | Each waiter is registered or settled, never both; it was settled with an event if and only if that event was delivered to it |
| RpcClientModel.SettledForGood | packages/server-e2e/src/ws.ts:308-371 | Whatever follows, settled promises, arrivals and deliveries stay |
| RpcClientModel.ClosedIsEmptyForGood | packages/server-e2e/src/ws.ts:208-222 | After either kind of close nothing is pending or waiting, and nothing ever is again |
| RpcClientModel.MessageSettlesWhatItAnswers | packages/server-e2e/src/ws.ts:308-323 | A message settles exactly the pending calls it answers, each by the first answer in the batch: an error rejects with its code or 0, its message or a default and its data, anything else resolves with the result |
| RpcClientTraces.OpenIff | packages/server-e2e/src/ws.ts:99-231 | Closed exactly after a close of either side; connected exactly after a connect and before that |
| RpcClientTraces.IdsAreNumbers | packages/server-e2e/src/ws.ts:133-135 | Ids count the calls that found an open socket, from 1 on |
| RpcClientTraces.EachCallMeetsItsFate | packages/server-e2e/src/ws.ts:133-148 | Every call of every run: no id without a socket, rejected if it cannot be sent, else settled by the first later action that answers it or ends the connection, with the outcome that belongs to it, and pending until then |
| RpcClientTraces.ArrivedAreTheNotifications | packages/server-e2e/src/ws.ts:270-356 | What arrives are the named frames without an id, pings excepted, of all messages in order; each is delivered once or queued |
| RpcClientTraces.WaitersFailIff | packages/server-e2e/src/ws.ts:237-268 | A waiter fails exactly when its time is up, when the connection ends while it waits, or when it comes after the end and nothing queued will do, each with its own reason |
| SkillReference.MatchIsLink | packages/protocol/src/skill-reference.ts:56-62 | Whatever the scanner matches is `[`, trigger, name, `](`, target, `)` of the pattern's classes |
| SkillReference.LinkIsMatched | packages/protocol/src/skill-reference.ts:56-62 | Every such text is matched, whole, whatever follows |
| SkillReference.LeftmostMatchesWin | packages/protocol/src/skill-reference.ts:117 | Every match was consumed or starts inside an earlier consumed one |
| SkillReference.RefsAlongMatches | packages/protocol/src/skill-reference.ts:117-137 | The references are those of the consumed matches, in order, and no others |
| SkillReference.NothingIsMissed | packages/protocol/src/skill-reference.ts:117-137 | For every text: a match starts inside an earlier consumed one, or counts as no reference, or is among the references |
| SkillReference.CollectReferences | packages/protocol/src/skill-reference.ts:117-141 | The loop over the matches collects the references of the scan |
| SkillReference.ParseInlineReferences | packages/protocol/src/skill-reference.ts:113-152 | References and body as specified, for every text |
| SkillReference.SpansInOrder | packages/protocol/src/skill-reference.ts:121-137 | For every text: spans in bounds, non-empty, ordered, disjoint |
| SkillReference.BodyRestoresText | packages/protocol/src/skill-reference.ts:143-151 | For every text: body and text are woven from the same gaps, one with bracketed names, the other with the original slices |
| SkillReference.ReferencesAreLinks | packages/protocol/src/skill-reference.ts:117-137 | For every text: a reference's span is a link with its trimmed name, kind and normalised target |
| SkillReferenceLinks.OneLink | packages/protocol/src/skill-reference.ts:56-152 | A link in plain text is a reference if and only if it starts with one of three signs, its name is not blank and its target is a command, builtin or skill file; what the reference and the body then are, by characters |
| SkillReferenceLinks.KindIs | packages/protocol/src/skill-reference.ts:78-91 | The kinds of targets by their letters, in any case |
| SkillReferenceLinks.FormatEscapes | packages/protocol/src/skill-reference.ts:64-76 | A printed link has every bracket of its name escaped, and unescaping gives the name back |
| SkillReference.CleanIff | packages/protocol/src/skill-reference.ts:101-104 | Normalising leaves the stale suffix on exactly the builtin targets that end with it twice |
| SkillReference.KindSurvivesIff | packages/protocol/src/skill-reference.ts:78-104 | ... and keeps a target's kind unless the target is the builtin prefix with nothing but the suffix |
| SkillReference.ParsedTargetIsCleanIff | packages/protocol/src/skill-reference.ts:101-137 | For every text and reference: its target is free of the stale suffix if and only if the written one does not end with it twice, and keeps its kind if and only if the written one is more than prefix and suffix |
| SkillReferenceDocs.PrintThenParse | packages/protocol/src/skill-reference.ts:72-137 | Printed links between `[`-free texts parse back to exactly those that activate, in order, at their places |
| SkillReferenceDocs.SingleLinkRoundTrip | packages/protocol/src/skill-reference.ts:68-76 | Printing one link and parsing it gives the pair back if and only if it is printable: trimmed, bracket-free, right shape, a kind, already normalised |
| SkillReferenceDocs.BodyOfDoc | packages/protocol/src/skill-reference.ts:138-151 | The body is the document with each activating link cut to its bracketed name |
| SkillReferenceDocs.ReparseFindsNothing | packages/protocol/src/skill-reference.ts:138-140 | Parsing the body again finds nothing when no shown name starts with a trigger |
| SkillReferenceDocs.ReparseCanFindALink | packages/protocol/src/skill-reference.ts:138-140 | ... but not always: `[$$x](command:a)(command:b)` has a body that is a link again |
| SkillReferenceDocs.ReparseOfClosedTexts | packages/protocol/src/skill-reference.ts:138-140 | When plain parts between links that open with `(` are closed by `)` or white space: exactly when no shown name with a trigger is followed by plain text that completes a link |
| SkillReferenceReparse.ReparseFindsNothingIff | packages/protocol/src/skill-reference.ts:138-140 | For every printed document, exactly when parsing the body finds nothing: each shown name is judged against the whole body behind it, and a match that is no reference is followed to where it ends |
| SkillReferenceReparse.QuietNamesAreEnough | packages/protocol/src/skill-reference.ts:138-140 | If no target has a `[`, it is enough that no shown name makes a reference with the body behind it |
| SkillReferenceReparse.ReparseOfEveryText | packages/protocol/src/skill-reference.ts:138-151 | For every text: it is enough that each `[` with a trigger behind it lies inside a reference and no shown name has one |
| SkillReferenceInputs.HealedLink | packages/protocol/src/skill-reference.ts:138-140 | `[$q](abc[$a ](command:x)/skill.md)` shows the name `a`, and its body is a link |
| SkillReferenceInputs.LinkInsideName | packages/protocol/src/skill-reference.ts:138-140 | `[$foo[$a](command:x)(command:y)` has a body with a link inside |
| SkillReferenceInputs.SwallowedOpening | packages/protocol/src/skill-reference.ts:138-140 | With a `[` in a target the names alone do not decide |
| SkillReferenceInputs.StaleSuffixTwice | packages/protocol/src/skill-reference.ts:130-133 | `[$a](builtin://x/SKILL.md/SKILL.md)` is parsed to a target with the suffix |
| SkillReferenceInputs.NothingButSuffix | packages/protocol/src/skill-reference.ts:130-133 | `[$a](builtin://SKILL.md)` is parsed to `builtin:/`, which is of no kind |
| SkillReferenceWhitespace.CollapseIsIdempotent | packages/protocol/src/skill-reference.ts:159-165 | Collapsing twice is collapsing once, for every text |
| SkillReferenceWhitespace.SqueezeLeavesNoGaps | packages/protocol/src/skill-reference.ts:160-164 | The replacement leaves no place where the gap pattern matches |
| SkillReferenceWhitespace.OnlyGapsShrink | packages/protocol/src/skill-reference.ts:159-165 | For every text: but for trimming, exactly the runs of two or more spaces behind the end of a link and in front of a link opening change, each judged where it stands, and each becomes one space |
| SkillReferenceLinks.GapAtIff | packages/protocol/src/skill-reference.ts:159-164 | What such a run is, by characters |
| SkillReferenceWhitespace.SpaceWithoutReferences | packages/protocol/src/skill-reference.ts:154-165 | `[x](y)  [$z` loses a space, and holds no reference at all |
| SkillReferenceWhitespace.CollapseKeepsReferences | packages/protocol/src/skill-reference.ts:154-165 | On printed documents with `[`-free targets, collapsing keeps kinds, names and targets |
| FilePreview.FilePreviewPanel.constructor | apps/mirri-web/src/composables/useFilePreview.ts:33-46 | Nothing shown, request number 0 |
| FilePreview.FilePreviewPanel.RevokeMediaObjectUrl | apps/mirri-web/src/composables/useFilePreview.ts:47-52 | The held URL is revoked and forgotten |
| FilePreview.FilePreviewPanel.ResetFilePreview | apps/mirri-web/src/composables/useFilePreview.ts:237-247 | A new request number, an empty view, the URL revoked |
| FilePreview.FilePreviewPanel.CloseFilePreview | apps/mirri-web/src/composables/useFilePreview.ts:249-252 | Reset, and leave the detail layer if it is ours |
| FilePreview.FilePreviewPanel.SelectPanel | apps/mirri-web/src/composables/useFilePreview.ts:254-260 | Leaving the file panel resets the preview |
| FilePreview.FilePreviewPanel.OpenFilePreview | apps/mirri-web/src/composables/useFilePreview.ts:108-136 | Toggle, claim, path error or read under way; the guard number returned is the current one |
| FilePreview.FilePreviewPanel.ReadSettled | apps/mirri-web/src/composables/useFilePreview.ts:137-157 | A read that settles acts only if its request is still the latest |
| FilePreview.FilePreviewPanel.OpenFilePreviewWithData | apps/mirri-web/src/composables/useFilePreview.ts:165-186 | Toggle, or show the given data at once |
| FilePreview.FilePreviewPanel.OpenMediaPreview | apps/mirri-web/src/composables/useFilePreview.ts:193-234 | Images only; with a file id the fetch is under way, else the raw URL shows |
| FilePreview.FilePreviewPanel.BlobSettled | apps/mirri-web/src/composables/useFilePreview.ts:214-230 | A fetch that settles makes a URL only for the latest request |
| FilePreviewModel.PanelShowsLatestRequest | apps/mirri-web/src/composables/useFilePreview.ts:108-235 | Over any interleaving, every field of what is shown is determined by the latest request and the answer to that request |
| FilePreviewModel.LoadingMeansInFlight | apps/mirri-web/src/composables/useFilePreview.ts:108-235 | Loading if and only if the latest request is one that awaits an answer and has none |
| FilePreviewModel.ObjectUrlsAreReleased | apps/mirri-web/src/composables/useFilePreview.ts:42-52 | At most one object URL is live, the one shown; every other one was revoked exactly once |
| FilePreviewModel.LateAnswersAreIgnored | apps/mirri-web/src/composables/useFilePreview.ts:141-152 | An answer to an earlier request changes nothing but the record of answers |
| FilePreviewModel.EventsAsk | apps/mirri-web/src/composables/useFilePreview.ts:108-260 | What each event asks for: opening what is open closes, media that is no image is ignored, leaving the panel resets |
| FilePreviewModel.AnswersAreRecordedOnce | apps/mirri-web/src/composables/useFilePreview.ts:137-230 | Which answers count, each once, and which make an object URL |
| AttachmentUpload.Attachments.constructor | apps/mirri-web/src/composables/useAttachmentUpload.ts:53-60 | No entries, counter 0 |
| AttachmentUpload.Attachments.SetForSession | apps/mirri-web/src/composables/useAttachmentUpload.ts:65-67 | Replaces one session's list |
| AttachmentUpload.Attachments.RevokeAttachment | apps/mirri-web/src/composables/useAttachmentUpload.ts:69-72 | Revokes the preview URL of one entry |
| AttachmentUpload.Attachments.RevokeList | apps/mirri-web/src/composables/useAttachmentUpload.ts:275-277 | The revoking loop |
| AttachmentUpload.Attachments.AddFilesTo | apps/mirri-web/src/composables/useAttachmentUpload.ts:81-134 | Each file gets the next id, a URL if it is media, and an upload bound to the captured session |
| AttachmentUpload.Attachments.RemoveAttachment | apps/mirri-web/src/composables/useAttachmentUpload.ts:136-143 | Revokes the entry's URL and drops it |
| AttachmentUpload.Attachments.ClearAfterSubmit | apps/mirri-web/src/composables/useAttachmentUpload.ts:272-278 | Revokes the session's URLs and empties its list |
| AttachmentUpload.Attachments.LoadAttachments | apps/mirri-web/src/composables/useAttachmentUpload.ts:302-376 | Replaces the list; thumbnail fetch or re-upload per item, skipped items use up an id |
| AttachmentUpload.Attachments.PatchAttachment | apps/mirri-web/src/composables/useAttachmentUpload.ts:280-287 | Patches the entry if it is still there |
| AttachmentUpload.Attachments.UploadSettled | apps/mirri-web/src/composables/useAttachmentUpload.ts:108-126 | Writes to the captured session's list, whichever session is active |
| AttachmentUpload.Attachments.UploadFailed | apps/mirri-web/src/composables/useAttachmentUpload.ts:126-132 | Marks the entry as failed |
| AttachmentUpload.Attachments.ThumbnailSettled | apps/mirri-web/src/composables/useAttachmentUpload.ts:325-335 | Hands the URL to its entry, or revokes it when the entry is gone |
| AttachmentUpload.Attachments.ReuploadSettled | apps/mirri-web/src/composables/useAttachmentUpload.ts:357-373 | Stores the file id, or drops the entry when the upload was refused |
| AttachmentUpload.Attachments.Unmount | apps/mirri-web/src/composables/useAttachmentUpload.ts:393-403 | Every URL made so far was revoked exactly once, only such URLs were, and the lists stay as they are |
| AttachmentModel.RunsKeep | apps/mirri-web/src/composables/useAttachmentUpload.ts:50-376 | Every reachable state meets the invariants |
| AttachmentModel.LocalIdsAreUnique | apps/mirri-web/src/composables/useAttachmentUpload.ts:60-63 | A local id belongs to one entry of one session |
| AttachmentModel.EachUrlIsHeldOrRevokedOnce | apps/mirri-web/src/composables/useAttachmentUpload.ts:69-143 | Each URL made is the preview of exactly one held entry, or was revoked exactly once |
| AttachmentModel.LateCompletionIsLocal | apps/mirri-web/src/composables/useAttachmentUpload.ts:280-287 | A late completion touches only its own entry, in the session captured at the start |
| AttachmentEffects.FilesAreAdded | apps/mirri-web/src/composables/useAttachmentUpload.ts:81-105 | Each picked file gets the entry at its place with the next id and, for media, the next object URL, every field given |
| AttachmentEffects.FilesAreUploaded | apps/mirri-web/src/composables/useAttachmentUpload.ts:107-109 | ... and an upload bound to the session |
| AttachmentEffects.ItemsAreLoaded | apps/mirri-web/src/composables/useAttachmentUpload.ts:302-356 | Each loaded item with a file or a URL to upload gets its entry, in order, every field given; a skipped one uses up an id |
| AttachmentEffects.ItemsAreFetched | apps/mirri-web/src/composables/useAttachmentUpload.ts:325-360 | ... and a thumbnail fetch or an upload exactly where one is due |
| AttachmentEffects.ClearingRevokes | apps/mirri-web/src/composables/useAttachmentUpload.ts:272-306 | Clearing revokes the session's URLs in order and empties its list; loading does so first |
| AttachmentEffects.RemovingDrops | apps/mirri-web/src/composables/useAttachmentUpload.ts:136-143 | Removing takes the entry out of its list and revokes its own URL, if it is listed |
| AttachmentEffects.UploadedEffect | apps/mirri-web/src/composables/useAttachmentUpload.ts:108-126 | A settled upload changes exactly its entry: no longer under way, id and type adopted, or marked as refused |
| AttachmentEffects.UploadThrewEffect | apps/mirri-web/src/composables/useAttachmentUpload.ts:126-132 | A failed upload marks exactly its entry |
| AttachmentEffects.ThumbnailEffect | apps/mirri-web/src/composables/useAttachmentUpload.ts:325-337 | A thumbnail becomes the preview of its entry, or is revoked at once if that is gone |
| AttachmentEffects.ReuploadEffect | apps/mirri-web/src/composables/useAttachmentUpload.ts:357-369 | A repeated upload gives its entry the file's id, or takes a refused entry out |
| AttachmentEffects.ReuploadThrewEffect | apps/mirri-web/src/composables/useAttachmentUpload.ts:370-375 | One that failed takes the entry out |
| AttachmentModel.ThumbnailAfterUnmount | apps/mirri-web/src/composables/useAttachmentUpload.ts:325-403 | One completion after unmounting leaves a URL unrevoked if and only if it is a thumbnail for an entry still listed |
| AttachmentModel.RevokedAfterUnmountIff | apps/mirri-web/src/composables/useAttachmentUpload.ts:325-403 | After any completions in any order after unmounting, all URLs are revoked if and only if no thumbnail arrived for an entry still listed |
| AttachmentModel.LeakAfterUnmount | apps/mirri-web/src/composables/useAttachmentUpload.ts:325-403 | Loading one image, unmounting, and the thumbnail arriving leaves its URL unrevoked |
| IcnsIcon.CollectPngChunks | apps/mirri-desktop/src/main/app-icon.ts:101-113 | The walk ends, reads in bounds, and collects the PNG chunks it visits, for every byte string |
| IcnsIcon.PickPngChunk | apps/mirri-desktop/src/main/app-icon.ts:96-125 | For every byte string: none for a bad header or total, else the choice among the PNG chunks visited |
| IcnsIcon.VisitsWritten | apps/mirri-desktop/src/main/app-icon.ts:103-113 | On a written chunk list the walk visits exactly those chunks |
| IcnsIcon.PicksAmongWrittenChunks | apps/mirri-desktop/src/main/app-icon.ts:93-113 | For a written file, whatever stops the walk behind the chunks, the choice is made among exactly those chunks |
| IcnsIcon.NothingPickedIff | apps/mirri-desktop/src/main/app-icon.ts:93-115 | ... and there is no icon if and only if none of them is a PNG |
| IcnsIcon.CorruptLengthKeepsIcon | apps/mirri-desktop/src/main/app-icon.ts:93-106 | A PNG chunk before a corrupt length is still picked |
| IcnsIcon.EveryHeaderIsAFile | apps/mirri-desktop/src/main/app-icon.ts:97-113 | Every byte string with a header is, behind its magic, the file written from the chunks visited and a tail that stops the walk; of the magic only the low seven bits of each byte are fixed |
| IcnsIcon.ChoiceIsBest | apps/mirri-desktop/src/main/app-icon.ts:114-124 | None if and only if there is no PNG; else the first of the smallest size at or above 256, failing that the first of the largest |
| IcnsIcon.SizeIsPixels | apps/mirri-desktop/src/main/app-icon.ts:24-36 | The size of each chunk type by its number |
| IcnsIcon.FileGivesItsBestPicture | apps/mirri-desktop/src/main/app-icon.ts:93-125 | For every written file: none if no chunk is a PNG, else the data of the best one: the first of the smallest from 256 on, failing that the first of the largest |
| IcnsIcon.HeaderIff | apps/mirri-desktop/src/main/app-icon.ts:97-99 | What the first eight bytes of a file must be, or nothing is picked |

## Left out

- Content extraction inside messages (media tags, captions, attachment notices, cron and notification envelopes), `JSON.stringify`, `Date.parse`, `formatDuration`, `buildApprovalBlock`, `normalizeToolOutput`, `normalizeToolMedia` and `parsePlanSavedPath`: arbitrary functions in `Env`.
- Decoding of message metadata: origins, file references and compaction statistics come decoded, missing and malformed fields alike as absent.
- Sorted id lists of signatures are multisets; `covers` only asks for membership.
- Plain-object lookups by tool id: names that objects inherit are not special here.
- Times and durations are integers; the NaN of a failed date parse is an absent value.
- Strings are sequences of Unicode characters; lone surrogates and lower-case mappings that change a string's length are not modelled.
- RpcClient.WsRpcClient.Connect: does not model the handshake that follows, because it is a wait and a call, which are steps of their own.
- RpcClient.WsRpcClient.HandleNotification: does not model the observers and the pong reply, because they change none of the client's bookkeeping; the observers see exactly the notifications recorded as arrived.
- RpcClient.WsRpcClient.HandleFrame: does not model the observers of reverse requests, nor `respond`, because they change none of the client's bookkeeping.
- Timers are steps that may happen at any time while their waiter is registered; waiter predicates are pure functions.
- SkillReferenceDocs.ReparseOfClosedTexts: does not cover documents with an unclosed plain part between two links, because there the would-be target runs on into the next name; SkillReferenceReparse.ReparseFindsNothingIff covers them all.
- TranscriptCopies.DuplicateCountsForItsStamps: speaks of a copy directly behind its row, because further on the stamps are no longer that row's; CoveredRowCountsForItsStamps covers every place.
- The block variants a render plan re-wraps are one case with the block itself.
- Path normalisation, download URL and opening in an editor in the file preview: the normalised path is an argument of the handler.
- AttachmentUpload.Attachments.RemoveAttachment: does not model closing the lightbox, because the lightbox only shows an entry and holds nothing.
- Drag and drop, pasting and file inputs of attachments. Loaded URLs are taken not to be object URLs made by the same composable.
- Vue watchers are atomic steps right after the handler that triggers them.
- `IcnsIcon` takes the bytes; reading the bundle, the property list and the data URL are left out.
- The seq/epoch replay protocol (the source has only its schemas), the daemon spawn lock (its guarantees are those of the operating system), and REST wrappers, schemas, user-interface wiring, dialogs and form helpers (declarations and I/O, and state that no code modelled here reads).
