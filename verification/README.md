# MineBot, modelled and verified in Dafny

MineBot drives a Minecraft body for a language-model agent. This project models the
parts of it that decide something by a rule and proves what those rules promise: which
part of a conversation a model sees, who may drive the body, how one tool batch becomes
one durable progress commit, how a trace is scored, and how the world and the agent's
own life record are read and written.

One module holds one component:

- `CompactionBoundary`, `PlayerMessages`, `ConversationCompactor`: summarizing an
  unbounded conversation without splitting a tool exchange or losing an item.
- `ModelInputWindow`, `SessionWindow`: what is sent, and what is stored between turns.
- `AnthropicMessages`: merging messages of one role, and the prompt-cache mark.
- `BodyControl`, `DecisionClient`, `BodyLoop`: three single-writer protocols.
- `ProgressAuthority`, `ProgressRecovery`, `ProgressEpochAdapter`, `ProgressDurability`:
  counters, their durable record and its replay, the epoch that commits a tool batch,
  and what a restart gives back.
- `DeadlockWindow`, `OutputScore`: two judgements of the trace evaluator.
- `SchematicCells`, `ConstructionFacts`: decoding a blueprint and reading back a build.
- `LifeProfile`, `LifeStore`: the agent's own life profile and its versioned store.
- `Options`, `Lists`, `Decimal`, `Whitespace`, `Positions`, `ConversationItems`: shared vocabulary.

Objects whose methods update fields are classes; every such method equates the state it
leaves with a step function of the state it found, and the theorems about runs are
lemmas over those step functions. Loops of the source are methods with invariants,
proved against a function that is in turn characterised by lemmas. `dafny verify
dfyconfig.toml` checks everything.

## What does not hold as one would first put it

Each of these fails on inputs the code accepts as they come. The first lemma named gives
such an input or the whole family of them; the exact condition under which the code does
meet the property is named with it.

- A view right after a compaction need not continue the compacted one
  (`RepeatedItemBreaksTheView`): it does if and only if the boundary item equals none
  before it (`ViewContinuesCompactionIff`, `NextRequestContinuesIff`).
- The model window can split a tool exchange, though only one that the latest user item
  is itself part of (`UserCallSplitsItsPair`): per cut `CutSplitsIff`, before the call
  `SomeBudgetSplitsIff`.
- `pop_item` can break "batch by batch equals once": it does if and only if it pops a
  user item after a turn was dropped (`PopAfterBatchesIff`).
- A question that overtakes the request in flight makes answers still queued stale too
  (`QueuedAnswersGoStaleToo`); which answers stay real says `AnswerIsRealIff`.
- Stopping the loop, itself or by a disconnect, while the lifecycle task watches a call
  that was not abandoned can leave a result slot that nobody releases
  (`StopUnderWatchIsReachable`): exactly such a step can (`StepLeaksIff`).
- A stored epoch need not replay. The server navigator notes its goal as a dictionary
  inside the action key, which recovery refuses (`NavigationRunDoesNotReplay`); the next
  record, which starts from that action, is refused as well unless an outside write put
  a readable one in its place (`UnreadableStepSpoilsTwo`). Which records replay:
  `StoredEpochsReplayIff`, `RecordReplaysIff`.
- The last record need not give back what the authority holds. A direct call that
  outlives its window commits its steps later, and a plan's outcome and a cancelled turn
  are noted, all without a record (`BackgroundCommitIsLost`, `InvalidationIsLost`). When
  a restart does give the facts back: `RestartKeepsFactsIff`, `WriteChangesNothingIff`.
- A list inside an action key comes back as a tuple (`ListComesBackAsTuple`). When a
  replay still gives exactly what the commit left: `StoredEpochsReplayExactlyIff`.
- A negative baseline, or two names that normalise to one, make an item count for more
  than it gained (`DuplicateNamesCountAtOnce`): `CountsItsGainIff`, `NothingGainedIff`.
- An imported seed profile may carry duplicate project ids (`SeedIsSoundIff`).

Seven more lemmas show what a guard elsewhere in the program is for; the inputs that fail
do not arrive.

- `JoinedKeepsBlocksIff`: merging would lose blocks next to a plain text, but the
  converter makes block lists only (`anthropic_model.py:451-482`).
- `UnsortedSamplesCanHideADeadlock`: the evaluator sorts by time first
  (`autonomy_quality.py:166`).
- `RestoredStopIff`: restoring drops the "not working" stops, which only older records
  still hold (`contract/progress.py:19-22`).
- `OwnAnswerMissesQueuedRespawn`: the death fence would have a gap for the lifecycle
  task; questions are asked from tasks of their own.
- `RevivedIffClaimedAsUnknown`, `TakenOverIffHolderNotReal`: a claim in the name of
  "unknown" would revive a fenced generation, and one without a real holder could be
  taken over without a settle; every claim the program makes names a real holder.
- `CountsAddUpIff`: counts would not add up for a size with a negative product, which
  the tool schema bars (`client_body_tools.py`).

## Model

| member | source | states |
|---|---|---|
| CompactionBoundary.LastCall | minebot/app/context_compaction.py:296-299 | the position the call table holds for a call id: of several calls the last one wins, none gives None |
| CompactionBoundary.BudgetIndexIsLongestTailThatFits | minebot/app/context_compaction.py:289-295 | the size walk stops at the longest tail that fits the budget while leaving an older item, or at the last item alone |
| CompactionBoundary.GreatestBoundary | minebot/app/context_compaction.py:300-313 | the greatest index in (first, limit] that splits no call from its result and has no reasoning item directly before it; None exactly when there is none |
| CompactionBoundary.KeepsPairsIff | minebot/app/context_compaction.py:300-307 | a boundary splits no pair exactly when no result at or after it belongs to a call before it, a result belonging to the last call with its call id |
| CompactionBoundary.TailBoundaryIs | minebot/app/context_compaction.py:287-313 | on the fields of the items: the tail starts at the last place under the budget that leaves something on both sides, has no reasoning item before it and no result after it whose call lies before it; nowhere exactly when there is none |
| CompactionBoundary.CallPositions | minebot/app/context_compaction.py:296-299 | the table built in one pass agrees with `LastCall` for every id |
| CompactionBoundary.SplitCall | minebot/app/context_compaction.py:303-307 | no result: the index splits no pair; a result: every index above that call, up to this one, does |
| CompactionBoundary.Settle | minebot/app/context_compaction.py:296-313 | the backward fixpoint loop terminates with the greatest boundary at or below its start, None iff none exists |
| CompactionBoundary.TailStart | minebot/app/context_compaction.py:287-313 | the whole search returns the greatest boundary under the budget index, which is found without the search |
| PlayerMessages.CollectMessages | minebot/app/context_compaction.py:332-344 | the loop computes `Messages` |
| PlayerMessages.PlayersWords | minebot/app/context_compaction.py:316-330 | what a user item contributes, on the lines of its text: itself when no harness fact occurs in it; else exactly the lines that do not start with one, in order; nothing when those are all blank |
| PlayerMessages.OthersSayNothing | minebot/app/context_compaction.py:332-337 | items that are no user items, and summaries, contribute nothing; a content that is no text stands as it is |
| PlayerMessages.WordsReachTheMessages | minebot/app/context_compaction.py:316-344 | the spoken lines of an item with a harness fact are one of the messages, without the fact |
| PlayerMessages.EveryUtteranceSurvivesInOrder | minebot/app/context_compaction.py:316-344 | every player utterance has a place with its words, places never go backwards, every kept message is an utterance at its place, only immediate repeats share one |
| PlayerMessages.MessagesGrowth | minebot/app/context_compaction.py:332-344 | messages of a prefix are a prefix; each item adds at most one and a summary none |
| ConversationCompactor.AnchorIndex | minebot/app/context_compaction.py:229-234 | the first item equal to the anchor, None when no item is |
| ConversationCompactor.Compactor.NoteUsage | minebot/app/context_compaction.py:195-198 | records a positive reported size, only after a view |
| ConversationCompactor.SizesKnown | minebot/app/context_compaction.py:195-227 | what is known of sizes after a report and after a request |
| ConversationCompactor.Compactor.Locate | minebot/app/context_compaction.py:229-240 | finds the first anchor item; a compaction whose anchor is gone is dropped together with its calibration |
| ConversationCompactor.Compactor.Render | minebot/app/context_compaction.py:242-246 | all items, or player messages, summary and the verbatim items from the start |
| ConversationCompactor.CutIs | minebot/app/context_compaction.py:242-246 | piece by piece: what the player said before the boundary, one user item with the header and the summary, every item from the boundary on |
| ConversationCompactor.Compactor.Compact | minebot/app/context_compaction.py:248-285 | moves to the greatest boundary unless too little lies before it; the stored anchor and summary are those of that move |
| ConversationCompactor.SummaryKeeps | minebot/app/context_compaction.py:272-282 | the stored summary is the reply, or without one what the summary before it said followed by a notice, whole or as far as an item may go |
| ConversationCompactor.FailedReplyKeepsSummary | minebot/app/context_compaction.py:262-282 | when the summarizer fails what earlier summaries said stays in the new one |
| ConversationCompactor.EstimateIs | minebot/app/context_compaction.py:200-204 | what a request is taken to cost, as a relation of sizes: calibrated on the reported size, never below nothing, else a third of all characters and a flat amount |
| ConversationCompactor.CompactsIff | minebot/app/context_compaction.py:189-193 | a request compacts exactly when a threshold is set and reached, a boundary splits nothing and enough lies before it |
| ConversationCompactor.Compactor.Prepare | minebot/app/context_compaction.py:212-216 | the view so far, and whether the estimate reaches the threshold |
| ConversationCompactor.Compactor.Answer | minebot/app/context_compaction.py:217-220 | what is sent is the compacted view if the request compacts, else the view so far |
| ConversationCompactor.Compactor.View | minebot/app/context_compaction.py:206-225 | one request: the view sent and the state after it are those of the step function |
| ConversationCompactor.RunsKeepTheChain | minebot/app/context_compaction.py:206-285 | over every append-only run the stored summary ends a chain of summary requests, each continuing the one before, that covers every item before its anchor |
| ConversationCompactor.NothingIsLost | minebot/app/context_compaction.py:206-285 | after any append-only run the next view shows every item verbatim from some index on and every item before it is covered by the chain |
| ConversationCompactor.ViewsOnlyGrow | minebot/app/context_compaction.py:229-246 | between compactions the next view is the previous view plus exactly the appended items |
| ConversationCompactor.NextRequestContinuesIff | minebot/app/context_compaction.py:206-285 | two consecutive requests of any run, with usage reports in between, the second not compacting: it sends what the first sent plus the new items exactly when the first did not compact or moved to an item that equals none before it |
| ConversationCompactor.RepeatedItemBreaksTheView | minebot/app/context_compaction.py:229-246 | an input, two requests long, where it does not |
| ConversationCompactor.ViewContinuesCompactionIff | minebot/app/context_compaction.py:229-246 | right after a compaction the next view continues it if and only if no earlier item equals the boundary item |
| ModelInputWindow.PairIndices | minebot/app/conversation.py:306-312 | each tool-exchange id leads to the indices of exactly the items paired under it |
| ModelInputWindow.BoundedItems | minebot/app/conversation.py:285-335 | for any budgets, those below 1 counting as 1: returns everything when it fits, else the items of one window, the longest allowed; the returned list holds the latest user item and meets both budgets, unless it is that item and one group |
| ModelInputWindow.Weigh | minebot/app/conversation.py:319-328 | what keeping an item and its mates adds, and whether that exceeds either budget |
| ModelInputWindow.WindowIsASuffixWithItsPairs | minebot/app/conversation.py:298-335 | everything from the cut on is kept, and below the cut only the latest user item and mates of items above |
| ModelInputWindow.ExchangesStayWhole | minebot/app/conversation.py:306-335 | all or none of the items of a tool exchange are kept unless the latest user item is part of it |
| ModelInputWindow.MatesIff | minebot/app/conversation.py:376-379 | on the fields: two items belong together exactly when both are halves of a tool exchange and carry one name, the own id of an item counting only without a call id |
| ModelInputWindow.CallKeepsItsResult | minebot/app/conversation.py:306-335 | a call and a result with one call id, whatever their own ids, are kept both or neither, unless the latest user item is another half of that exchange |
| ModelInputWindow.LoneItemIsKeptIff | minebot/app/conversation.py:313-335 | an item that is no half of an exchange is kept exactly when it lies from the cut on or is the latest user item |
| ModelInputWindow.CutSplitsIff | minebot/app/conversation.py:306-335 | a window splits an exchange exactly when the latest user item has a mate and no mate lies from the cut on |
| ModelInputWindow.SomeBudgetSplitsIff | minebot/app/conversation.py:285-335 | before the call: some budgets split an exchange exactly when the latest user item has mates and the last other item is none of them |
| ModelInputWindow.WindowFitsUnlessMinimal | minebot/app/conversation.py:316-333 | both budgets hold unless what is kept is the latest user item and one group; no longer cut that adds anything fits |
| ModelInputWindow.SelectIsSubsequence | minebot/app/conversation.py:334-335 | what is returned for a set of indices is their items, each once, in order |
| ModelInputWindow.SelectSizes | minebot/app/conversation.py:316-335 | the length and the characters of the returned list are the two amounts the budgets are compared with |
| ModelInputWindow.ReturnedWindow | minebot/app/conversation.py:285-335 | so the returned list itself meets both budgets, unless it is the latest user item and one group |
| ModelInputWindow.WindowIsUnique | minebot/app/conversation.py:285-335 | the items and budgets alone determine which items are kept |
| ModelInputWindow.CountOfIsCardinality | minebot/app/conversation.py:316-333 | the count used for the item budget is the number of selected items |
| ModelInputWindow.UserCallSplitsItsPair | minebot/app/conversation.py:285-335 | an input of three items where the latest user item is itself a tool call: budgets of 1 keep it without its result |
| SessionWindow.BoundedIsWindow | minebot/app/conversation.py:239-254 | the bounded input is everything, or exactly the last `maxTurns` turns starting at a user item |
| SessionWindow.WindowIsUnique | minebot/app/conversation.py:239-254 | there is only one such window |
| SessionWindow.WindowOfWindow | minebot/app/conversation.py:52-61 | windowing a window with new items windows the whole history |
| SessionWindow.IncrementalEqualsOneShot | minebot/app/conversation.py:52-61 | after any batches of `add_items` the stored items are those of windowing the concatenation once |
| SessionWindow.PopKeepsWindowIff | minebot/app/conversation.py:52-68 | popping the last item of a window gives the window of the shorter history exactly when that item is no user item or no turn had been dropped |
| SessionWindow.PopAfterBatchesIff | minebot/app/conversation.py:52-68 | the same after any batches of `add_items` |
| SessionWindow.Session.constructor | minebot/app/conversation.py:28-39 | starts empty and open with at least one turn |
| SessionWindow.Session.AddItems | minebot/app/conversation.py:52-61 | an open session stores the bounded input of old and new items; a closed one refuses and keeps its state |
| SessionWindow.Session.Limited | minebot/app/conversation.py:342-361 | the longest suffix of whole turns within the limit, the last turn alone if even it is longer; nothing for a limit of 0 or less |
| SessionWindow.Session.GetItems | minebot/app/conversation.py:41-50 | all items, or those of a limit; a closed session refuses |
| SessionWindow.Session.PopItem | minebot/app/conversation.py:63-68 | takes the last item off; None when there is none |
| AnthropicMessages.MergeMessages | minebot/app/anthropic_model.py:547-562 | the loop computes `Merged` |
| AnthropicMessages.MergeInto | minebot/app/anthropic_model.py:550-561 | one message joins the last one of its role or follows it |
| AnthropicMessages.MergedAlternates | minebot/app/anthropic_model.py:547-562 | no two adjacent merged messages have the same role |
| AnthropicMessages.JoinedKeepsBlocksIff | minebot/app/anthropic_model.py:485-511 | one merge keeps every block exactly when both sides are block lists, or the blocks on both sides survive the conversion that a merge with plain text applies |
| AnthropicMessages.ConvertedPartIs | minebot/app/anthropic_model.py:485-511 | what each kind of part is converted to |
| AnthropicMessages.MergedKeepsBlocks | minebot/app/anthropic_model.py:547-562 | merging messages that carry block lists preserves the flattened (role, block) sequence |
| AnthropicMessages.StableLength | minebot/app/anthropic_model.py:594-597 | how many blocks are left once the volatile ones at the end are dropped |
| AnthropicMessages.TrimVolatile | minebot/app/anthropic_model.py:594-597 | the backward loop over volatile blocks computes `StableLength` |
| AnthropicMessages.MarkHistoryBreakpoint | minebot/app/anthropic_model.py:578-601 | marks, in place, the last cacheable block before the volatile tail and nothing else; marks nothing only when there is no candidate |
| AnthropicMessages.CandidateIff | minebot/app/anthropic_model.py:604-612 | on the blocks: where a mark may go, by kind and text, and in the last message only up to its last block that is no text of the current context |
| AnthropicMessages.BreakpointLiesInHistory | minebot/app/anthropic_model.py:578-612 | with a volatile context appended, every candidate lies inside the history |
| AnthropicMessages.CachedPrefixComesAgain | minebot/app/anthropic_model.py:547-612 | on an append-only history everything up to the mark is a block prefix of the next request |
| BodyControl.Body.constructor | minebot/app/body_control.py:43-54 | starts free and settled at the current generation |
| BodyControl.Body.ClaimBody | minebot/app/body_control.py:92-106 | accepts exactly when the id is real, no stop is unknown or pending and nobody else holds; a new claim takes a new generation |
| BodyControl.Body.BeginStop | minebot/app/body_control.py:108-116 | a stop by a stranger changes nothing; else stopping under a new generation |
| BodyControl.Body.SettleBody | minebot/app/body_control.py:118-127 | a settle by a stranger changes nothing; else free at the current generation |
| BodyControl.Body.LoseTrack | minebot/app/body_control.py:129-142 | quarantines as unknown, unless asked by a stranger |
| BodyControl.Body.Confirm | minebot/app/body_control.py:144-153 | a confirmed stop settles, an unconfirmed one quarantines |
| BodyControl.Body.OnGenerationInvalidated | minebot/app/body_control.py:56-76 | an outside invalidation moves the generation and quarantines a held Body |
| BodyControl.Body.InvalidateGeneration | minebot/brain/progress.py:153-161 | the authority moves on one generation and tells the Body |
| BodyControl.Body.OwnsBody | minebot/app/body_control.py:155-163 | owned means: same claim, real holder, running, current generation |
| BodyControl.ClaimIs | minebot/app/body_control.py:92-106 | on the fields: who gets in, and under which generation |
| BodyControl.StrangersChangeNothing | minebot/app/body_control.py:108-142 | a stop, a settle or a loss of track in the name of another claim changes nothing |
| BodyControl.ConcernedStops | minebot/app/body_control.py:108-142 | in the name of the claim held, or of nobody, each leaves exactly the record it should |
| BodyControl.ConfirmationIsRecorded | minebot/app/body_control.py:144-153 | what the native side confirmed is on record with the generation it was about |
| BodyControl.InvalidationIs | minebot/app/body_control.py:56-76 | an outside invalidation takes the next generation and loses track of whoever held the body |
| BodyControl.RunsStaySound | minebot/app/body_control.py:92-163 | over every run the record stays consistent |
| BodyControl.Fencing | minebot/app/body_control.py:92-163 | in every run at most one (claim, generation) is owned, and a handed-out pair that is not owned now is never owned again |
| BodyControl.StopEndsOwnership | minebot/app/body_control.py:92-163 | once stopped, the claim that owned the body never owns that generation again, whatever follows |
| BodyControl.NoTakeoverWithoutSettle | minebot/app/body_control.py:92-153 | between two accepted claims by different ids there is a settle |
| BodyControl.ConfirmedStopFreesTheBody | minebot/app/body_control.py:144-153 | from every state a confirmed stop lets any claim in, under a generation nobody had |
| BodyControl.InvalidationQuarantines | minebot/app/body_control.py:56-76 | after an outside invalidation nobody owns and nobody gets in until a stop is confirmed or settled |
| BodyControl.RevivedIffClaimedAsUnknown | minebot/app/body_control.py:92-106 | a re-claim followed by a claim revives a fenced pair exactly when the re-claim was in the name of "unknown" |
| BodyControl.TakenOverIffHolderNotReal | minebot/app/body_control.py:92-106 | another id gets in without a settle exactly when the claim named no real holder |
| DecisionClient.Channel.AskFor | minebot/app/decision_client.py:68-101 | a question drops lower queued ones as unknown, opens an epoch when it overtakes the one in flight, and is queued |
| DecisionClient.Channel.DropBelow | minebot/app/decision_client.py:84-90 | lower queued requests are answered unknown, the others retained in order |
| DecisionClient.Channel.TakeNext | minebot/app/decision_client.py:108-115 | the worker pops the head |
| DecisionClient.Channel.FinishWith | minebot/app/decision_client.py:122-134 | an answer from an older epoch becomes unknown |
| DecisionClient.Channel.CancelRunning | minebot/app/decision_client.py:117-121 | a cancelled worker answers its request unknown |
| DecisionClient.Channel.CloseChannel | minebot/app/decision_client.py:169-176 | closing answers everything queued with unknown |
| DecisionClient.SortNeverReorders | minebot/app/decision_client.py:91-96 | on a queue in order the sort changes nothing |
| DecisionClient.AskAppends | minebot/app/decision_client.py:84-96 | the retained requests and the new one are in order already |
| DecisionClient.RunsKeepValid | minebot/app/decision_client.py:68-134 | over every run the queue is non-increasing in priority and increasing in sequence, and answers never change |
| DecisionClient.TheMostUrgentIsServed | minebot/app/decision_client.py:108-117 | over every run, whenever a request is taken up every other one queued has a lower priority, or the same and is younger; exactly the others stay, in order |
| DecisionClient.DroppedAreUnknown | minebot/app/decision_client.py:84-90 | a question drops exactly the queued requests of lower priority, and closing all of them: unknown for whoever still waits |
| DecisionClient.SortedSorts | minebot/app/decision_client.py:91-96 | the sort gives the same requests by falling priority and rising age |
| DecisionClient.NobodyIffAbandoned | minebot/app/decision_client.py:84-134 | over every run a request ends unanswered exactly when its caller had stopped waiting before |
| DecisionClient.QueueIsServed | minebot/app/decision_client.py:100-134 | over every run without a cancelled worker there is a worker exactly from the first question until a closed channel has drained, and priorities are compared with what it has outside |
| DecisionClient.CancelIs | minebot/app/decision_client.py:117-121 | a cancelled worker answers its request unknown and is gone; what priorities are compared with stays |
| DecisionClient.EveryRequestIsInOnePlace | minebot/app/decision_client.py:68-134 | every issued request is in exactly one of queued, in flight, answered |
| DecisionClient.AnswerIsRealIff | minebot/app/decision_client.py:122-134 | a request of the current epoch gets the answer it was given exactly when its caller still waits and no question since overtook what was in flight |
| DecisionClient.AskedInTheCurrentEpoch | minebot/app/decision_client.py:80-99 | every request is of the current epoch when it is asked |
| DecisionClient.EpochStandsIff | minebot/app/decision_client.py:80-83 | the epoch of a run stands still exactly when no question in it overtook what was in flight |
| DecisionClient.OvertakenInFlightIsUnknown | minebot/app/decision_client.py:80-83 | a request overtaken in flight by a strictly higher priority never ends with a real choice |
| DecisionClient.CloseDrains | minebot/app/decision_client.py:169-180 | once a closed channel has drained nothing is unanswered |
| DecisionClient.LeftBehindIsUnknown | minebot/app/decision_client.py:122-134 | a request from an older epoch is answered unknown when its turn comes, however good the answer |
| DecisionClient.QueuedAnswersGoStaleToo | minebot/app/decision_client.py:80-99 | a run of four steps where the last question overtakes the request in flight and leaves a queued one of higher priority behind its epoch |
| BodyLoop.Loop.SetState | minebot/app/body_loop.py:1269-1278 | dead gives way to nothing but a respawn |
| BodyLoop.Loop.QueueLifecycleEvent | minebot/app/body_loop.py:90-100 | queues the event and notes the world coming or going |
| BodyLoop.Loop.HandleEvent | minebot/app/body_loop.py:112-166 | each lifecycle event: a death clears the slots and abandons the current call once, a respawn clears them and revives, a disconnect abandons and stops |
| BodyLoop.Loop.ProcessLifecycleEvents | minebot/app/body_loop.py:102-167 | the lifecycle task drains the queue up to a disconnect; other tasks only learn of a death |
| BodyLoop.Loop.EnterRun | minebot/app/body_loop.py:275-293 | a call enters with a slot unless the world is gone or the Body dead |
| BodyLoop.Loop.StartMonitor | minebot/app/body_loop.py:317-329 | refuses a second monitor; else the slot gives way to the monitor |
| BodyLoop.Loop.EndMonitor | minebot/app/body_loop.py:1612-1626 | the slot comes back unless the call was abandoned |
| BodyLoop.Loop.ReleaseResultPending | minebot/app/body_loop.py:1331-1342 | both spellings of a plan id are released |
| BodyLoop.Loop.LeaveSupervisor | minebot/app/direct_call_supervision.py:756-796 | a raised or cancelled call is abandoned and released, a direct call released, a plan call keeps its slot |
| BodyLoop.Loop.LeaveRun | minebot/app/body_loop.py:297-315 | the state is restored unless a death came between; the slot is released unless a plan result awaits its judge |
| BodyLoop.Loop.ReleaseJudged | minebot/app/body_loop.py:1320-1329 | a judged plan result gives up its slot |
| BodyLoop.Loop.ReserveForResult | minebot/app/body_loop.py:1095-1104 | a protective result takes the slot only if nobody has it |
| BodyLoop.Loop.FollowedResult | minebot/app/body_loop.py:1105-1110 | and releases only what it took |
| BodyLoop.Loop.StopLoop | minebot/app/body_loop.py:1410-1453 | lets go of the monitor and all slots |
| BodyLoop.EnteredIs | minebot/app/body_loop.py:275-293 | on the fields: when a call gets in, the state of its kind, and what it remembers |
| BodyLoop.LeftIs | minebot/app/body_loop.py:297-315 | on the fields: which slots, state and current call remain after a call |
| BodyLoop.EnterLeaveRoundTrip | minebot/app/body_loop.py:275-315 | entering and leaving gives back state, current call and slots, but for the state of a reflex call |
| BodyLoop.DeathIs | minebot/app/body_loop.py:131-155 | a death not known yet counts, clears the slots and abandons the current call; a known one changes nothing |
| BodyLoop.RevivalsAre | minebot/app/body_loop.py:125-131 | a respawn revives and clears the slots, the world back makes a living Body idle |
| BodyLoop.DisconnectIs | minebot/app/body_loop.py:117-124 | a lost world abandons the current call, clears the slots and lets the monitor go |
| BodyLoop.SensedIs | minebot/app/body_loop.py:104-106 | when facts of a dead Body are taken for a death |
| BodyLoop.SpellingsIs | minebot/app/body_loop.py:1331-1342 | a slot goes by an id, by it with the plan prefix, and without it |
| BodyLoop.RegisteredIs | minebot/app/body_loop.py:317-329 | a call inside `run` gets a monitor unless there is one, and gives up its slot for that time |
| BodyLoop.UnwatchedIs | minebot/app/body_loop.py:1612-1626 | after a monitor its call waits no more and has its slot back unless it was abandoned |
| BodyLoop.GuardsAre | minebot/app/body_loop.py:1095-1110 | a protective result takes a slot that nobody has and gives up only one it took |
| BodyLoop.JudgedIs | minebot/app/body_loop.py:1320-1329 | a judge is done with exactly the returned calls of its node |
| BodyLoop.StoppedIs | minebot/app/body_loop.py:1410-1453 | a stop lets go of the monitor and of all slots |
| BodyLoop.ConnectedIffLastWord | minebot/app/body_loop.py:90-96 | over every run the world counts as there exactly when the last word on it said so |
| BodyLoop.NoSlotLeaks | minebot/app/body_loop.py:273-329 | over every run that never stops under a watched call, each slot belongs to a call inside `run`, an unjudged plan call or a protective result |
| BodyLoop.IdleComesBack | minebot/app/body_loop.py:1638-1658 | so when all calls are done and judged, idle questions are free again |
| BodyLoop.StepLeaksIff | minebot/app/body_loop.py:1410-1453 | step by step the condition of `NoSlotLeaks` is exact: some continuation of a step ends with a slot nobody owns if and only if the step stops the loop, itself or by a disconnect, under a call that is watched and not abandoned |
| BodyLoop.StopUnderWatchIsReachable | minebot/app/body_loop.py:1410-1453 | a three-step run reaches a state where a stop leaks |
| BodyLoop.IdleWaitsForResults | minebot/app/body_loop.py:1638-1658 | in an undisturbed life no idle question is asked while a call is inside `run` or unjudged |
| BodyLoop.StepCoversIff | minebot/app/body_loop.py:1638-1658 | step by step, whatever the step: a call still live and not abandoned is monitored or holds a slot exactly when the step gives it that, or it had it and the step does not take it away |
| BodyLoop.CoveredUnlessSlotLost | minebot/app/body_loop.py:1638-1658 | over every run, deaths, respawns, disconnects and stops included: such a call keeps idle questions away exactly unless some step took its slot or monitor and none since gave it back |
| BodyLoop.IdleMeansSlotLost | minebot/app/body_loop.py:1638-1658 | an idle question asked while such a call is not done means just that |
| BodyLoop.DeathFencesAnswers | minebot/app/body_loop.py:806-813 | an answer is passed on exactly when no death was announced between asking and answering, handled or not, respawned or not |
| BodyLoop.OwnAnswerMissesQueuedRespawn | minebot/app/body_loop.py:806-813 | why questions are asked from tasks of their own: asked by the lifecycle task the fence would miss a death and respawn both still queued |
| BodyLoop.DeadUntilRespawned | minebot/app/body_loop.py:1269-1278 | from a handled death to the respawn the state stays dead whatever happens |
| ProgressAuthority.Dominant | minebot/contract/progress.py:58-67 | the first reason of the highest priority, None only for no reason |
| ProgressAuthority.Distinct | minebot/brain/progress.py:274-274 | non-empty keys, each once |
| ProgressAuthority.Authority.RestoreFacts | minebot/brain/progress.py:127-139 | the facts asked for afterwards are the facts restored |
| ProgressAuthority.Authority.ApplyObservation | minebot/brain/progress.py:177-189 | counts stagnation against the last fingerprint and action |
| ProgressAuthority.Authority.ApplyNote | minebot/brain/progress.py:213-237 | a neutral note moves only the current fingerprint, a success resets, a failure counts |
| ProgressAuthority.Authority.CommitSteps | minebot/brain/progress.py:252-287 | the loop over the steps and the credit for novelty leave the facts of `Committed` |
| ProgressAuthority.ObservedCounts | minebot/brain/progress.py:177-189 | an observation counts a stalled step when the Body stands where it stood, a stagnant one when besides the action was the last one again, and starts both afresh when it moved |
| ProgressAuthority.NotedCounts | minebot/brain/progress.py:213-237 | a note counts a failure exactly when it is neither neutral nor a success; a success clears the counts |
| ProgressAuthority.CreditedCounts | minebot/brain/progress.py:274-287 | material change clears failures and what was learnt; new evidence without it counts one step learnt and clears the stagnation; else nothing moves |
| ProgressAuthority.RepeatsAreCounted | minebot/brain/progress.py:177-189 | one action observed n times more on a Body that stands still counts n stagnant and n stalled steps |
| ProgressAuthority.Authority.NoteInvalidation | minebot/brain/progress.py:153-155 | appends one event to the facts and changes nothing else |
| ProgressAuthority.CommittedKeepsGoal | minebot/brain/progress.py:252-312 | committing does not depend on the goal the facts are asked for |
| ProgressRecovery.KeyRoundTrip | minebot/app/progress_recovery.py:13-26 | an action key of any depth has one of three fates: unchanged when it holds no list, its lists turned into tuples, or refused when it holds a dictionary or a number that is not finite or is no tuple or list |
| ProgressRecovery.ListComesBackAsTuple | minebot/app/progress_recovery.py:13-26 | an input: a list comes back as a tuple, which no longer equals it |
| ProgressRecovery.FactsRoundTrip | minebot/app/progress_recovery.py:42-61 | authority facts come back with the action as storage gives it back, or are refused exactly when it is unreadable |
| ProgressRecovery.StepRoundTrip | minebot/app/progress_recovery.py:66-78 | so does a step; a note without a verdict and an observation with one are refused |
| ProgressRecovery.KeyReadIff | minebot/app/progress_recovery.py:13-26 | on the JSON: a key is read exactly when it is an array of plain values, finite numbers and such arrays, and is then written the same |
| ProgressRecovery.FactsReadIff | minebot/app/progress_recovery.py:42-61 | on the JSON: which baselines are accepted, and that each fact is what its field says |
| ProgressRecovery.StepReadIff | minebot/app/progress_recovery.py:66-78 | on the JSON: which steps are accepted, and that each part is what its field says |
| ProgressRecovery.RecordReadIff | minebot/app/progress_recovery.py:35-94 | a record of any form is replayed exactly when its commit, its outcome and all its stops are sound; every other one is refused |
| ProgressRecovery.ReplaySteps | minebot/app/progress_recovery.py:65-78 | the loop over the stored steps refuses at the first bad one |
| ProgressRecovery.ReadCommit | minebot/app/progress_recovery.py:36-81 | the commit part of a record, or nothing at its first malformed field |
| ProgressRecovery.ReplayEpoch | minebot/app/progress_recovery.py:35-99 | checks the record, then restores and commits on a fresh authority |
| ProgressRecovery.LastingStopIs | minebot/app/progress_recovery.py:82-94 | what a restart brings back: a lost transport before unknown, either only when raised, never any other stop |
| ProgressRecovery.LastingDominates | minebot/app/progress_recovery.py:82-94 | dropping reviewable reasons first gives the dominant reason, or none if that one was reviewable |
| ProgressRecovery.ReplayOf | minebot/app/progress_recovery.py:35-99 | what the record of any epoch replays to, marked with any stop or not: nothing when a key in it is unreadable, else the live commit and stop on the keys as storage gives them back |
| ProgressRecovery.CrashEquivalence | minebot/app/progress_recovery.py:35-99 | for every epoch: its record replays if and only if every key in it is readable; without lists in the keys it gives exactly the live facts and stop, and marking it with its own stop changes nothing |
| ProgressRecovery.MarkedReplaysIff | minebot/app/progress_recovery.py:82-94 | a record replays or not whatever stop it is marked with |
| ProgressRecovery.ExactReplayIff | minebot/app/progress_recovery.py:35-99 | an epoch of at most one step replays to exactly the live facts and stop if and only if its keys are readable, the action remembered afterwards holds no list and no lasting stagnation count rests on a list having become a tuple |
| ProgressRecovery.NavigationStepIsRefused | minebot/body/navigation.py:950-955 | an epoch with a step of the server navigator, whose key holds its goal as a dictionary, is refused |
| ProgressEpochAdapter.CollapsedCountsOnce | minebot/app/progress_epoch_adapter.py:82-128 | a committed epoch moves each counter by at most one, a final success clears the failures, and the fingerprint is the last one seen |
| ProgressEpochAdapter.SummaryKey | minebot/app/progress_epoch_adapter.py:82-128 | the key of the collapsed step holds all keys in order |
| ProgressEpochAdapter.SummaryVerdict | minebot/app/progress_epoch_adapter.py:82-128 | it has the verdict of the last real note |
| ProgressEpochAdapter.SummaryOfRest | minebot/app/progress_epoch_adapter.py:82-128 | without a real note it is an observation if one of the steps is, else a neutral note |
| ProgressEpochAdapter.LastFingerprintIs | minebot/app/progress_epoch_adapter.py:82-128 | its mark is that of the last step that has one |
| ProgressEpochAdapter.CollapsedReadableIff | minebot/app/progress_epoch_adapter.py:82-128 | the collapsed step can be read back exactly when every part of it can, and holds no list exactly when no part does |
| ProgressEpochAdapter.FirstMatch | minebot/app/progress_epoch_adapter.py:245-256 | the first unclaimed member of the tool, with these arguments when given |
| ProgressEpochAdapter.WithId | minebot/app/progress_epoch_adapter.py:210-210 | of several members with one native id the last |
| ProgressEpochAdapter.Candidate | minebot/app/progress_epoch_adapter.py:230-262 | only an unclaimed member of the open epoch and of that tool is claimed |
| ProgressEpochAdapter.CandidateIs | minebot/app/progress_epoch_adapter.py:230-262 | on the members: a native id of the open epoch decides alone; else the first open, unclaimed member of the tool with these arguments, else the first of the tool, else nobody |
| ProgressEpochAdapter.Adapter.ClaimMember | minebot/app/progress_epoch_adapter.py:230-266 | claims the candidate and nothing else |
| ProgressEpochAdapter.Adapter.MemberFor | minebot/app/progress_epoch_adapter.py:237-262 | by native id, else exact arguments, else tool |
| ProgressEpochAdapter.Adapter.FirstUnclaimed | minebot/app/progress_epoch_adapter.py:245-256 | the search loop finds the first match |
| ProgressEpochAdapter.Adapter.Settle | minebot/app/progress_epoch_adapter.py:315-378 | settles a pending member once; the last one commits the epoch; a settled or left-over member changes nothing |
| ProgressEpochAdapter.SettledMemberIs | minebot/app/progress_epoch_adapter.py:337-362 | on the result: status, reason, steps, stop, keys and evidence of a settled member |
| ProgressEpochAdapter.Adapter.CancelMember | minebot/app/progress_epoch_adapter.py:380-393 | settles as cancelled |
| ProgressEpochAdapter.Adapter.FinalizeUnsettled | minebot/app/progress_epoch_adapter.py:395-415 | cancels what is pending and commits |
| ProgressEpochAdapter.Adapter.Gather | minebot/app/progress_epoch_adapter.py:417-486 | what an epoch commits: collapsed steps, novel keys, material change, stops, and whether it is bookkeeping only |
| ProgressEpochAdapter.CommitIs | minebot/app/progress_epoch_adapter.py:417-486 | on the members: what an epoch commits and when it counts for nothing |
| ProgressEpochAdapter.MembersInOrder | minebot/app/progress_epoch_adapter.py:421-421 | steps, keys and stops are those of the members one after the other |
| ProgressEpochAdapter.StopRaised | minebot/app/progress_epoch_adapter.py:533-551 | which stop a commit raises: a lost transport before all, else unknown when a member says so, storing or marking failed, else the members own; none exactly when there is none and nothing failed |
| ProgressEpochAdapter.RecordedIs | minebot/app/progress_epoch_adapter.py:487-565 | how a commit moves on, and that it is on record exactly when the archive stored it |
| ProgressEpochAdapter.Adapter.CommitEpoch | minebot/app/progress_epoch_adapter.py:525-532 | the authority ends with exactly the facts the record determines |
| ProgressEpochAdapter.Adapter.Arbitrate | minebot/app/progress_epoch_adapter.py:533-551 | the dominant of everything raised: unknown when the archive failed, the pending stops, unknown when marking the stop failed |
| ProgressEpochAdapter.Adapter.Finalize | minebot/app/progress_epoch_adapter.py:417-565 | one commit closes the open epoch |
| ProgressEpochAdapter.Adapter.Open | minebot/app/progress_epoch_adapter.py:151-210 | settles an epoch still open and issues one pending, unclaimed member per call |
| ProgressEpochAdapter.Adapter.IndexMembers | minebot/app/progress_epoch_adapter.py:210-210 | the dictionary of native ids |
| ProgressEpochAdapter.TaskProgress.CommitBackground | minebot/app/runner.py:2451-2475 | commits what a detached call did as one collapsed step, without novelty and without a record |
| ProgressEpochAdapter.TaskProgress.RestoreTask | minebot/app/runner.py:2340-2369 | nothing for the same task; else the facts and the lasting stop of its latest record, fresh facts without one, and no change with an unknown stop when the archive fails or the record is refused |
| ProgressEpochAdapter.Latest | minebot/app/runtime_state.py:1584-1612 | the last stored epoch of a task, None when there is none |
| ProgressEpochAdapter.LatestIsLast | minebot/app/runtime_state.py:1584-1612 | of several records of a task the last one |
| ProgressEpochAdapter.SwitchedIs | minebot/app/runner.py:2340-2369 | when the held progress changes hands, and to what |
| ProgressEpochAdapter.ConflictsIff | minebot/app/progress_epoch_adapter.py:176-197 | a body-mutating call is flagged exactly when the batch has two or more of them |
| ProgressEpochAdapter.StepKeeps | minebot/app/progress_epoch_adapter.py:151-415 | members keep their claim and, once settled, everything else; the history only grows |
| ProgressEpochAdapter.ClaimedOnce | minebot/app/progress_epoch_adapter.py:230-266 | a member is claimed at most once in any run |
| ProgressEpochAdapter.SettledOnce | minebot/app/progress_epoch_adapter.py:315-345 | a member is settled at most once in any run |
| ProgressEpochAdapter.LateSettlementIsIgnored | minebot/app/progress_epoch_adapter.py:326-339 | a settlement from an earlier epoch changes nothing in any reachable state |
| ProgressEpochAdapter.EpochsCommitOnceInOrder | minebot/app/progress_epoch_adapter.py:417-565 | in every run the ids committed are the ids of the batches the events opened, each once and in that order, but for the one still open; members are pending only in that one |
| ProgressDurability.StoredEpochsReplayIff | minebot/app/progress_epoch_adapter.py:487-551 | over every run, with any steps, a stored epoch replays if and only if the action it starts from and its collapsed step are readable |
| ProgressDurability.MarkedEpochsReplayIff | minebot/app/progress_epoch_adapter.py:539-551 | so does its marked record; marked with the epoch's own stop it replays to the same |
| ProgressDurability.StoredEpochsReplayExactlyIff | minebot/app/progress_epoch_adapter.py:487-551 | over every run it replays to the very facts its commit left and its lasting stop if and only if, besides, storage leaves the outcome alone |
| ProgressDurability.RecordReplaysIff | minebot/app/progress_epoch_adapter.py:487-551 | over every run a stored epoch replays if and only if its own step is readable and so is the last action remembered before it, from outside or else from the commit before; what a restore brought back always is |
| ProgressDurability.ReadabilityCarriesOver | minebot/app/progress_epoch_adapter.py:525-532 | what a commit leaves is readable exactly when the action it leaves is: its own step's if that is remembered, else the one it started from |
| ProgressDurability.UnreadableStepSpoilsTwo | minebot/app/progress_recovery.py:13-26 | over every run a remembered unreadable step makes its own record unreplayable; the next record, when it starts from that commit, starts from a readable action exactly when the last outside write that remembers one put a readable one in its place |
| ProgressDurability.NavigationRunDoesNotReplay | minebot/body/navigation.py:950-955 | a run of two events whose one call settles with a navigator step and whose record does not replay |
| ProgressDurability.EveryCommitIsOnRecord | minebot/app/progress_epoch_adapter.py:487-505 | with an archive that never fails the stored ids are the committed ids, in order |
| ProgressDurability.RestartKeepsFactsIff | minebot/app/progress_epochs.py:57-65 | at any time in any run, outside writes and task switches included: after a restore of the task, restarting and restoring it gives the facts held now exactly when the writes since made no difference; after a commit for it, exactly when that record is readable and gives back what those writes made of the facts, and it gives back what the commit left exactly when storage leaves the outcome alone |
| ProgressDurability.WriteChangesNothingIff | minebot/brain/progress.py:177-287 | the exact condition, on the facts and the write, for one outside write to leave the facts as they are |
| ProgressDurability.BackgroundCommitIsLost | minebot/app/runner.py:2451-2475 | a run of three events: a direct call is stored on its receipt, what it did is committed later, and a restart gives the facts without it |
| ProgressDurability.InvalidationIsLost | minebot/brain/progress.py:153-155 | over every run an invalidation noted since the last commit or restore is never given back |
| ProgressDurability.RestoredStopIff | minebot/app/progress_epoch_adapter.py:533-551 | of an epoch that was stored the restored stop is the one raised live exactly unless that one was reviewable; whether the mark failed does not matter |
| DeadlockWindow.Detect | minebot/app/autonomy_quality.py:888-925 | the nested loops compute `DetectedFrom` |
| DeadlockWindow.FirstLong | minebot/app/autonomy_quality.py:900-906 | the first sample that makes the window long enough |
| DeadlockWindow.DetectedFrom | minebot/app/autonomy_quality.py:900-925 | a reported window is long, silent and still |
| DeadlockWindow.ExtentIsDiameter | minebot/app/autonomy_quality.py:1064-1072 | each side of the bounding box is the greatest distance of two samples along it |
| DeadlockWindow.SpanGrows | minebot/app/autonomy_quality.py:1064-1072 | a longer window has a box at least as large |
| DeadlockWindow.DetectsIff | minebot/app/autonomy_quality.py:888-925 | on time-sorted samples a window is reported if and only if some pair of samples bounds a deadlock, and then the earliest start with its shortest window |
| DeadlockWindow.DeadlockedMeans | minebot/app/autonomy_quality.py:900-925 | on the samples: long enough, no output after its first sample and up to its last, and all of it in a box whose diagonal is at most epsilon |
| DeadlockWindow.UnsortedSamplesCanHideADeadlock | minebot/app/autonomy_quality.py:160-166 | why the evaluator sorts first: out of time order a deadlock would be missed |
| OutputScore.Evaluate | minebot/app/autonomy_quality.py:458-509 | the loop over the observations computes the reports and the final score |
| OutputScore.CountLines | minebot/app/autonomy_quality.py:461-468 | the loop over one sample updates baseline and high-water marks |
| OutputScore.TallyMeans | minebot/app/autonomy_quality.py:458-488 | what the accumulators mean: first sample, event totals, larger of highest sample and event total |
| OutputScore.EquippedIff | minebot/app/autonomy_quality.py:470-477 | a hand counts as newly equipped exactly when some sample shows a named item in it that the first sample did not show in that hand |
| OutputScore.FamilyGives | minebot/app/autonomy_quality.py:797-823 | a family gives a point for each accepted item that counts, or for each full unit of what they count together, at most its cap |
| OutputScore.CapIs | minebot/app/autonomy_quality.py:800-815 | the cap: its own, else the distinct items asked for, else the least number of units that reaches the minimum and at least one |
| OutputScore.TallyRises | minebot/app/autonomy_quality.py:458-496 | no observation makes any item count for less, the first sample included |
| OutputScore.ScoreRises | minebot/app/autonomy_quality.py:458-498 | so the score never decreases |
| OutputScore.ScoreWithinCaps | minebot/app/autonomy_quality.py:791-831 | no score exceeds the caps of the yardstick |
| OutputScore.DeltasSumToScore | minebot/app/autonomy_quality.py:497-509 | reported deltas are positive, totals rise, and the deltas sum to the final score |
| OutputScore.CountsItsGainIff | minebot/app/autonomy_quality.py:489-496 | an item counts for the larger of its rise over the baseline and its event total, exactly unless a negative baseline meets event totals above every sample |
| OutputScore.NothingGainedIff | minebot/app/autonomy_quality.py:461-496 | without events nothing counts exactly when no line of any sample exceeds its baseline |
| OutputScore.StandingStillScoresNothing | minebot/app/autonomy_quality.py:791-831 | such a trace scores nothing for inventory |
| OutputScore.DuplicateNamesCountAtOnce | minebot/app/autonomy_quality.py:461-468 | two lines that normalise to one name count in the first sample alone |
| SchematicCells.DecodeIndices | minebot/app/client_body_tools.py:170-181 | the byte loop computes `Decoded`, errors included |
| SchematicCells.ScanDecodes | minebot/app/client_body_tools.py:170-181 | reading on in the middle of a group comes to decoding the group with what follows |
| SchematicCells.RoundTripIff | minebot/app/client_body_tools.py:170-181 | decoding the concatenated encodings gives the indices back exactly when all are below 2^35, else the index error |
| SchematicCells.TruncationIsRejected | minebot/app/client_body_tools.py:181-182 | a stream that ends inside a group is rejected |
| SchematicCells.PositionComesBack | minebot/app/client_body_tools.py:183-184 | position to index to position is the identity on the box |
| SchematicCells.IndexComesBack | minebot/app/client_body_tools.py:183-184 | index to position to index is the identity below the volume |
| SchematicCells.ReadSchematic | minebot/app/client_body_tools.py:161-184 | the cells or the first complaint: version or offset, dimensions, index, data, palette |
| SchematicCells.CellAt | minebot/app/client_body_tools.py:183-184 | where each block stands: x fastest, then z, then y, from the origin |
| SchematicCells.WrittenBytes | minebot/app/client_body_tools.py:170-170 | signed or not, a byte is read as the byte it is |
| SchematicCells.ReadsIff | minebot/app/client_body_tools.py:161-184 | which files are read, with which block at each place, and what the others are refused for first |
| SchematicCells.EveryPositionOnce | minebot/app/client_body_tools.py:161-184 | a file that is read has exactly one cell for every position of its box |
| SchematicCells.NothingOutside | minebot/app/client_body_tools.py:161-184 | and none outside |
| SchematicCells.BlueprintComesBack | minebot/app/client_body_tools.py:161-184 | a blueprint written in the file order reads back as itself |
| ConstructionFacts.CuboidCells | minebot/app/construction_facts.py:11-20 | the capped triple loop lists the first 4096 cells of the box |
| ConstructionFacts.AllCellsAreTheBox | minebot/app/construction_facts.py:11-20 | the uncapped list is the box: each position once, in lexicographic order |
| ConstructionFacts.CappedCells | minebot/app/construction_facts.py:11-20 | the capped list is distinct and ordered, and what it leaves out comes after all of it |
| ConstructionFacts.TellApart | minebot/app/construction_facts.py:30-52 | the batched loop with failures and timeout puts every listed cell in its class |
| ConstructionFacts.ReadBatch | minebot/app/construction_facts.py:35-52 | one batch classified by the facts read for it |
| ConstructionFacts.ReadConstruction | minebot/app/construction_facts.py:23-60 | the evidence of the read |
| ConstructionFacts.ReadsDecideIff | minebot/app/construction_facts.py:30-52 | on the reads: a listed cell is matched exactly when its batch and all before it were read in time and what is known of it fits, remaining exactly when it does not fit, unknown exactly when nothing is known of it |
| ConstructionFacts.EachCellOnce | minebot/app/construction_facts.py:30-52 | however the reads end, every listed cell is in exactly one class, no other cell in any |
| ConstructionFacts.CountsAddUpIff | minebot/app/construction_facts.py:53-57 | matched, remaining, unknown and unread add up to the expected number exactly when that is not negative |
| ConstructionFacts.CompleteIff | minebot/app/construction_facts.py:53-58 | for a box of real size, complete exactly when every position is classified |
| LifeProfile.StripCleans | minebot/app/life_profile.py:552-557 | a stripped text within the limit passes the text check unchanged |
| LifeProfile.StripIs | minebot/app/life_profile.py:552-557 | stripping takes white space off both ends, all of it and nothing else |
| LifeProfile.NormalTextIs | minebot/app/life_profile.py:552-557 | which texts pass, and what is kept of them |
| LifeProfile.MineAgain | minebot/app/life_profile.py:500-524 | areas and containers in normal form pass unchanged |
| LifeProfile.MineIff | minebot/app/life_profile.py:500-524 | which areas and containers pass: lists within their limits, each entry sound, no two areas of one name |
| LifeProfile.ProjectAgain | minebot/app/life_profile.py:275-311 | a kept project passes unchanged, or is refused because its area is gone |
| LifeProfile.NormalProfileIsGood | minebot/app/life_profile.py:241-272 | what passes the check is in normal form, each project naming an existing area |
| LifeProfile.NormalProfileMeans | minebot/app/life_profile.py:241-272 | a profile that passed has no two areas of one name, projects for its own areas only, and lists within their limits |
| LifeProfile.ProjectIdIff | minebot/app/life_profile.py:31-31 | a project id is one to forty-eight small letters, digits and hyphens, no hyphen first |
| LifeProfile.FixedPointIff | minebot/app/life_profile.py:241-311 | the normal forms are exactly the fixed points of the check |
| LifeProfile.NormalProfileIsIdempotent | minebot/app/life_profile.py:241-272 | checking twice is checking once |
| LifeStore.Store.Commit | minebot/app/life_profile.py:211-221 | one revision up, the reason kept, or nothing written |
| LifeStore.Store.Update | minebot/app/life_profile.py:133-152 | unknown fields, no changes, a stale revision or a bad shape change nothing |
| LifeStore.Store.UpdateProject | minebot/app/life_profile.py:154-184 | an edit of the project list is committed whole or not at all |
| LifeStore.Store.EditProjects | minebot/app/life_profile.py:165-178 | upsert merges, checks and places; remove needs the project to exist |
| LifeStore.AcceptedUpsert | minebot/app/life_profile.py:154-184 | after an accepted upsert the project holds, field by field, what was given as checked, else what it held before, else the default; every other project and part of the profile is as it was |
| LifeStore.AcceptedRemoval | minebot/app/life_profile.py:154-184 | after an accepted removal that project, which there was, is gone and nothing else |
| LifeStore.AcceptedUpdate | minebot/app/life_profile.py:133-152 | after an accepted update each field named holds the checked value given, or nothing for null, and each other field what it held |
| LifeStore.UpsertAcceptedIff | minebot/app/life_profile.py:154-184 | exactly when an upsert is accepted |
| LifeStore.RemovalAcceptedIff | minebot/app/life_profile.py:154-184 | exactly when a removal is accepted |
| LifeStore.UpdateRefusesIff | minebot/app/life_profile.py:133-152 | exactly when a field update is accepted, and for which fault it is refused |
| LifeStore.ProjectRefusals | minebot/app/life_profile.py:154-164 | exactly when a project edit is refused for its operation, its id or its revision |
| LifeStore.CommitRefusesIff | minebot/app/life_profile.py:211-227 | exactly when a commit is refused, and for which fault |
| LifeStore.UpsertInPlace | minebot/app/life_profile.py:165-178 | with unique ids an upsert replaces the project where it stands or appends it |
| LifeStore.UpsertIsMapUpdate | minebot/app/life_profile.py:165-178 | an upsert changes the value at its id alone |
| LifeStore.RemovalIsMapRemoval | minebot/app/life_profile.py:165-180 | a removal drops the value at its id alone |
| LifeStore.FieldWritesKeepProjects | minebot/app/life_profile.py:133-152 | a field update keeps every project or is refused |
| LifeStore.WriteStaysSound | minebot/app/life_profile.py:133-221 | an accepted write names the current revision, raises it by one and keeps every invariant; a rejected one changes nothing |
| LifeStore.RunsStaySound | minebot/app/life_profile.py:133-221 | over every run stored profiles are fixed points of the check, ids stay unique and the change log is the last revisions |
| LifeStore.OneWriterPerRevision | minebot/app/life_profile.py:206-209 | of all writers that read one revision at most one is ever accepted |
| LifeStore.SeedIsSoundIff | minebot/app/life_profile.py:86-95 | an imported seed starts a sound run exactly when its project ids are unique |

## Left out

- ConversationCompactor.AnchorIndex: compares items where the source compares sha256 fingerprints; two different items with one fingerprint are not modelled.
- ConversationCompactor.Compactor.View: the summarizer's answer is an input, empty when it failed; `EstimateTokens` uses exact thirds where the source divides in floating point.
- AnthropicMessages.MergeMessages: works on values, so a caller's message dictionary that the source extends in place is not seen to change; the array form is kept where the cache mark is written. Whether a picture's URL is usable (`_image_block`) is an input.
- SessionWindow.Session.AddItems: converting stored images and the persistent archive are left out.
- BodyControl.Body.ClaimBody: the lock makes each method one step; timestamps are left out.
- DecisionClient.Channel.AskFor: each section between two awaits is one step; HTTP and its timeouts are inputs.
- BodyLoop.NoSlotLeaks: sections between awaits are atomic steps in any order; what Decision chooses, frames, facts and default actions are inputs.
- BodyLoop.Loop.HandleEvent: the settlement of a cancelled action, notifications and the protection task are left out.
- ProgressEpochAdapter.Adapter.Settle: members are rows of a table addressed by handle instead of shared objects; no caller gives "pending" as a status, and `ClaimMember` sees only calls of registered tools.
- ProgressEpochAdapter.Adapter.Gather: the parts of the record that only report (fingerprints, tactic signatures, evidence handles) are left out; material evidence is an input.
- ProgressRecovery.CrashEquivalence: object keys stand for the names in the JSON text, and the database write is one step.
- ProgressRecovery.ExactReplayIff: action keys are compared as values, while Python also equates 1, 1.0 and True.
- ProgressEpochAdapter.TaskProgress.RestoreTask: that the task cannot be read or its history is not its own counts as an archive that fails; a record's task is kept beside its JSON.
- ProgressDurability.RestartKeepsFactsIff: a write that falls between storing a record and committing it is not modelled.
- DeadlockWindow.Detect: exact reals for floating point, and squares compared instead of a square root.
- OutputScore.Evaluate: yardstick numbers are not negative; name normalisation, sorting by time and sequence, and the verdict from gaps are left out.
- SchematicCells.DecodeIndices: bit operations are written as arithmetic; loading the NBT file is left out.
- ConstructionFacts.ReadConstruction: reads and the clock are inputs, one answer per batch; whether a fact fits the wanted block state is part of the answer.
- LifeProfile.FixedPointIff: `validate_plan`, Python's `str`, the write check and the length of the file are functions given from outside; `str` of a text is assumed to be that text.
- LifeStore.Store.Update: a file that cannot be read is an empty store, and the rename that replaces it is one step.
- Verifying a finished blueprint cell by cell (`_verify_cells`): the same batched loop as `ReadConstruction` with fewer classes.
- Repeated-failure, idle and coverage signals of the evaluator: single-pass counts.
- Which areas later cover a project's write points: they are checked once, when the project is written, and an area may shrink afterwards.
- Wording of questions, tool schemas, transports, model providers and launchers: no rule to prove.
