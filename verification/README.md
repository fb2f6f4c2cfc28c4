# NeuroPath core in Dafny

NeuroPath runs an eight-round, AI-guided knowledge journey: the user picks a
topic, is offered a batch of knowledge cards, picks one, is offered the next
batch, and so on; after the eighth pick the generator writes a summary and the
choices are drawn as a knowledge graph. This project models the logic behind
that, as pure Dafny functions over immutable datatypes:

- `Types` — the records of `types.ts`: `Card`, `Turn` (whose `selectedCard` may
  be absent), `GameStatus` (idle, loading, playing, summary), `NodeKind` (root,
  selected, discarded), `GraphNode` (optional description; the field `label` is
  called `labelText` because `label` is a Dafny keyword, and the field `type`
  is called `kind`, holding a `NodeKind`) and `GraphLink`.
- `KnowledgeGraph` — the node/link construction of the graph view: a fold
  (`Nodes`, `Links`, `Cursor`) and a method `RenderGraphData` that is the
  source's nested loop with its mutable `previousId`, proved to build the same
  lists.
- `GeminiService` — the generator client with the model call abstracted: each
  request's reply is a parameter (`CardsReply`, `SummaryReply`), and the
  next-batch reply is a `CardsResponder`, a function of the context the
  request is built from, so the handler's request is visible. Modelled are
  the "Current Path" and "Just Selected" prompt context, the summary's
  per-round detail lines, the empty-text defaults, which failures propagate,
  and the fixed fallback summary.
- `App` — the page component's state machine. Each handler is a function of
  the state and the generator replies; `AwaitStart` and `AwaitSelection` give
  the state rendered while a request is pending. `Event`, `Step` and `Run`
  string the handlers together with the page's gating (`Enabled`), and
  `Settled` is the invariant of every state between handlers.
- `Text` — the JavaScript string behaviour the core relies on:
  `Array.prototype.join`, the decimal numeral inside a template literal, and
  `String.prototype.trim` (the ECMAScript WhiteSpace and LineTerminator code
  points).

Behaviour of the code worth knowing, all of it modelled as written:

- "Start New Journey" only sets the status to idle. Topic, history, options
  and summary stay until the next start clears history and summary.
- `startJourney` and `handleCardSelect` check neither the phase nor card
  membership. The page's gating is stated as the `requires` of `SelectCard`
  (`CardsOffered`: the game screen is up and not loading, and the card is one
  of `currentOptions`) and as `Enabled` for the other actions.
- A failed mid-game batch request does not strand the user. `finally` clears
  `isLoading`, so the previous batch is offered again and can be picked again
  (`FailedBatchKeepsOptionsOffered`). An empty reply text is different: it
  parses as `{"cards": []}`, so the batch on offer becomes empty, and the game
  screen then shows no card and no other control (`EmptyFirstBatchStrands`,
  `EmptyNextBatchStrands`).
- A failed summary request never reaches the page, because `generateSummary`
  returns the fallback instead of rejecting. The page's own `catch` branch,
  which would leave the status at loading, is modelled (`SettleSummary`) but
  is never taken (`FinalPickReachesSummary`).
- An empty summary text gives `JSON.parse('{}')`, an object without any of
  the three fields (`EmptyObject`), not the fallback. That object is truthy,
  so the result screen is chosen, and rendering it maps over the missing key
  takeaways and throws: the page offers no action at all, "Start New Journey"
  included (`ResultScreenRenders`, `EmptySummaryLeavesNoAction`; see
  Findings).
- `generateNextCards` with an empty history throws a TypeError before any
  request is made (`NoPreviousTurn`). The page never calls it that way: a pick
  records its turn first, and the options that follow are the reply to a
  request carrying that turn's card (`SelectCard`, `PickRequestsNextRound`).

## Model

| member | source | states |
|---|---|---|
| KnowledgeGraph.BuildGraph | components/KnowledgeGraph.tsx:16-54 | nothing is built for an empty history; otherwise the root node comes first, there are 1 + (options offered) nodes and one link per option |
| KnowledgeGraph.RenderGraphData | components/KnowledgeGraph.tsx:19-54 | the nested loop with a mutable `previousId` builds exactly the fold's node and link lists, so one history and topic always give one graph |
| KnowledgeGraph.RootFirst | components/KnowledgeGraph.tsx:22-24 | the first node is id "root", labelled with the topic, kind root, round 0, no description |
| KnowledgeGraph.Counts | components/KnowledgeGraph.tsx:28-48 | node count is 1 + the total number of options over all turns; link count is that total |
| KnowledgeGraph.NodeOfOption | components/KnowledgeGraph.tsx:28-40 | option j of turn i is the node at position 1 + (options of earlier turns) + j, with the card's id, title as label and description, round i + 1 (not the stored round), kind selected iff its id is the turn's selected id and discarded otherwise |
| KnowledgeGraph.LinkOfOption | components/KnowledgeGraph.tsx:42-47 | option j of turn i is the link at the same offset, from the cursor left by the earlier turns to the option's id, weight 2 iff the option is the selection and 1 otherwise |
| KnowledgeGraph.LinkWeights | components/KnowledgeGraph.tsx:46 | every link weighs 1 or 2 |
| KnowledgeGraph.GraphGrowsByPrefix | components/KnowledgeGraph.tsx:28-54 | the graph of a history is a prefix of the graph of any continuation of it, nodes and links alike, and the cursor does not move while the later turns have no selection |
| KnowledgeGraph.CursorWithoutSelection | components/KnowledgeGraph.tsx:26 | with no selection in any turn the cursor is still "root" |
| KnowledgeGraph.CursorIsLatestSelection | components/KnowledgeGraph.tsx:50-53 | the cursor is the id selected in the latest turn that has a selection |
| KnowledgeGraph.EdgeSourceIsRoot | components/KnowledgeGraph.tsx:26-47 | every edge of a turn with no earlier selection starts at "root" |
| KnowledgeGraph.EdgeSourceIsLatestSelection | components/KnowledgeGraph.tsx:43-53 | every edge of turn i starts at the card selected in the latest earlier turn that has a selection |
| KnowledgeGraph.UnselectedTurnAddsNoPath | components/KnowledgeGraph.tsx:33 | a turn whose selection is absent adds no selected node and no weight-2 link |
| KnowledgeGraph.SelectedTurnAddsOneStep | components/KnowledgeGraph.tsx:32-47 | a turn whose selection is one of its uniquely identified options adds exactly one selected node and one weight-2 link, both for the selected card |
| KnowledgeGraph.HeavyLinksFormChain | components/KnowledgeGraph.tsx:43-53 | when every turn selected one of its options and ids are unique per batch, the weight-2 links in order are exactly root → s1 → … → sk |
| KnowledgeGraph.SelectedNodesFormPath | components/KnowledgeGraph.tsx:33-40 | under the same conditions the selected-kind nodes in order are the picked cards, one per round, with rounds 1..k |
| Text.JoinPart | services/geminiService.ts:81 | in `parts.join(sep)` each part appears unchanged at its offset |
| Text.JoinSeparator | services/geminiService.ts:81 | exactly one separator lies between consecutive parts |
| Text.JoinLength | services/geminiService.ts:81 | the joined string ends right after the last part |
| Text.JoinAppend | services/geminiService.ts:81 | joining one more part appends one separator and that part |
| Text.SplitJoin | services/geminiService.ts:122 | splitting on a one-character separator gives back the parts joined with it, when no part contains it |
| Text.NatToString | services/geminiService.ts:122 | the numeral of `${i + 1}` is non-empty, all digits, with no leading zero |
| Text.NatToStringRoundTrip | services/geminiService.ts:122 | reading that numeral back yields the number |
| Text.Trim | App.tsx:20 | `trim()` is the slice of the topic left after dropping whitespace at both ends, and does not start or end with whitespace |
| Text.TrimEmptyIffBlank | App.tsx:20 | the trimmed topic is empty exactly when the topic is all whitespace |
| GeminiService.GenerateInitialCards | services/geminiService.ts:45-71 | the first batch fails exactly when the request fails, and is otherwise the parsed cards or the empty list |
| GeminiService.UnselectedTurnReadsUndefined | services/geminiService.ts:81 | a turn whose selected card is absent puts the text "undefined" into the path summary, at the offset where its title would stand |
| GeminiService.NextCardsRequest | services/geminiService.ts:78-94 | the next-batch context holds the topic, the path summary, the last turn's selection and the round number, and exists exactly when the history is non-empty |
| GeminiService.GenerateNextCards | services/geminiService.ts:73-113 | with an empty history the call fails whatever the model replies; otherwise the model is asked with the topic, the path summary, the last turn's selection and the round, and the call fails exactly when that request fails, empty text giving an empty list |
| GeminiService.PathSummarySegments | services/geminiService.ts:81 | part i of the path summary is turn i's selected title, and consecutive titles are separated by " -> " |
| GeminiService.PathSummaryAppend | services/geminiService.ts:81 | one more turn adds " -> " and its selected title to the path summary; a single turn's path is its title |
| GeminiService.DetailLineLabel | services/geminiService.ts:122 | detail line i starts with "Round ", then the numeral that reads back as i + 1, then ":" |
| GeminiService.PathDetailsLines | services/geminiService.ts:122 | when no selected title or description has a line break, the path details split into exactly one line per turn, line i being turn i's detail line |
| App.StartJourney | App.tsx:19-38 | a blank topic changes no state; otherwise loading ends with history empty and no summary, and status is playing with the returned batch on success, or idle with the options unchanged on failure |
| App.SelectCard | App.tsx:40-81 | a pick appends exactly the turn {round: length + 1, options: the current batch, selectedCard: the card}; at round 8 the status becomes summary with the generated summary and no batch is requested; below 8 the status is kept and the options become the batch the model returns when asked with the topic, the new history's path, the clicked card and round length + 2, the empty list for empty text, or stay on failure; loading ends |
| App.DisplayedRound | App.tsx:174 | corrected progress round: between 1 and 8, equal to length + 1 whenever fewer than 8 rounds are recorded, and 8 once 8 are |
| App.DisplayedFraction | App.tsx:179 | corrected bar fraction: in (0, 1], equal to (length + 1) / 8 whenever fewer than 8 rounds are recorded, and 1 once 8 are |
| App.InitialSettled | App.tsx:11-16 | the initial hook values satisfy the between-handlers invariant |
| App.StepKeepsSettled | App.tsx:19-81 | every action the page offers keeps the invariant: loading off, status never left at loading, rounds numbered 1..k, each turn's selection among its options, at most 8 rounds, playing only below 8, summary only with a summary at 8 |
| App.RunKeepsSettled | App.tsx:19-81 | any sequence of offered actions keeps that invariant |
| App.OfferedOnlyWhilePlaying | components/CardSelection.tsx:11-32 | in a settled state cards are clickable only while playing and before round 8 is recorded |
| App.FinalPickReachesSummary | App.tsx:56-68 | the eighth pick always ends in status summary with 8 rounds, whatever the summary request does (a failed request leaves the fixed fallback as the summary), and no card is offered afterwards |
| App.PicksAdvanceRounds | App.tsx:42-80 | each offered pick records one round; status is summary iff 8 rounds are recorded and playing iff fewer; no pick is offered after the summary |
| App.JourneyLastsEightPicks | App.tsx:8-81 | after a successful start, a run of picks has at most 8 picks and reaches summary exactly at the eighth, whatever the generator replies |
| App.RestartClearsHistoryOnStart | App.tsx:126 | after the reset the old topic and history are still there; the next start clears history and summary |
| App.PickRequestsNextRound | App.tsx:71-80 | a pick below round 8 asks for round length + 2 with the clicked card as "just selected" and the previous path extended by " -> " and its title (the title alone on the first pick); the options on offer afterwards are decided by the reply to exactly that request |
| App.FailedBatchKeepsOptionsOffered | App.tsx:71-80 | after a failed mid-game batch the previous cards are offered again |
| App.EmptyFirstBatchStrands | services/geminiService.ts:65 | an empty first reply starts the game with no card on offer, and the page then offers no action |
| App.EmptyNextBatchStrands | services/geminiService.ts:107 | an empty mid-game reply replaces the cards on offer with none, and the page then offers no action |
| App.SettledGraphFollowsPicks | components/KnowledgeGraph.tsx:43-53 | for any settled journey with unique ids per batch, the graph's weight-2 links chain root through every pick in order |
| App.CoffeeScenario | App.tsx:19-50 | starting with "Coffee" and cards A, B, C then picking B records one round-1 turn holding A, B, C with B selected; its graph has 4 nodes and the links root → A (1), root → B (2), root → C (1) |
| App.FinalLoadingShowsRoundNine | App.tsx:174-179 | as written, while the summary request after the eighth pick is pending the game screen reads round 9 of 8 and a bar fraction above 1 |
| App.DisplayedProgressInRange | App.tsx:174-179 | with the corrected formula a settled game screen and the screen pending after a pick read a round in 1..8 and a fraction of at most 1, and settled states read what the original formula gives |
| App.StartShowsRoundOne | App.tsx:174-179 | the screen pending after a start shows round 1 and the fraction 1/8, as written and corrected alike |
| App.EmptySummaryLeavesNoAction | App.tsx:121-137 | as written, an empty summary text after the eighth pick stores the field-less object; the result screen is chosen but cannot render, and no action is offered |
| GeminiService.GenerateSummaryWithFallback | services/geminiService.ts:143-150 | corrected summary: every outcome is a full record, the parsed fields for a parsed reply and the fixed fallback otherwise |
| App.FallbackSummaryOffersReset | App.tsx:121-126 | with the corrected summary the eighth pick always lands on a result screen that renders and offers "Start New Journey" |

## Findings

| source | as written | input that shows it | evidently intended | confidence | as-written member | corrected member |
|---|---|---|---|---|---|---|
| App.tsx:174-179 | the header shows `history.length + 1` of 8 and the bar `(history.length + 1) / 8` (`App.ProgressRound`, `App.ProgressFraction`) in every state that renders the game screen | seven rounds recorded, the eighth card is picked: while the summary request is pending the status is loading, so the game screen stays up and reads "Round 9 / 8" with the bar at 112.5% (clipped by its container) | the round shown never exceeds 8 | medium; not executed | App.FinalLoadingShowsRoundNine | App.DisplayedRound, App.DisplayedFraction, App.DisplayedProgressInRange |
| services/geminiService.ts:143 | an empty summary text is parsed as `{}` and returned; App.tsx:121 takes it as a summary and App.tsx:137 calls `summary.keyTakeaways.map` on `undefined` | seven rounds recorded, the eighth card is picked, and the summary reply's text is empty: rendering the result screen throws, and "Start New Journey" (App.tsx:126) never appears | an empty text falls back to the fixed summary, as a throw does, so the result screen always renders | medium; not executed | App.EmptySummaryLeavesNoAction | GeminiService.GenerateSummaryWithFallback, App.FallbackSummaryOffersReset |

## Left out

- The d3 force simulation, zoom, drag and SVG rendering (components/KnowledgeGraph.tsx:56-156): floating-point physics inside a library that is not part of this model.
- The generator's SDK client, response schemas, prompt wording and `JSON.parse`: network and foreign code. Each call's reply is a parameter (for the next batch, a function of the request's context), and a parse error is folded into the failed reply.
- The topic, and for the summary the history with its per-round detail lines (`PathDetails`), only shape the prompt text, so `GenerateInitialCards` ignores the topic and `GenerateSummary` ignores both; the summary prompt is not modelled beyond `PathDetails`.
- The history sidebar and the card visuals: pure presentation. Only the card area's gating is kept, as the `requires` of `SelectCard`.
- React's asynchronous state updates, stale closures, `window.scrollTo`, `alert` and `console.error`: event-loop and I/O concerns. Each handler is modelled as one atomic step, plus its pending state.
- Behaviour the code does not implement: it has no token against stale responses after a reset, no retry, no runtime rejection of a card outside `currentOptions`, and no check that card ids are unique.
- The early return on a missing SVG element (components/KnowledgeGraph.tsx:16): a rendering concern.
- KnowledgeGraph.HeavyLinksFormChain: assumes ids are unique within each batch. The source relies on the generator for this and does not check it.
