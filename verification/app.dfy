/** The turn-progression state machine of the page component (App.tsx).
    Each handler is modelled twice: the state rendered while its generator
    call is pending (`Await…`) and the state once the call has settled, with
    the call's reply passed in as a parameter. */
module App {
  import opened Wrappers
  import opened Types
  import opened Text
  import opened GeminiService
  import KnowledgeGraph

  /** Length of a journey, in rounds. */
  const TotalRounds: nat := 8

  /** The component's state hooks. */
  datatype AppState = AppState(
    status: GameStatus,
    topic: string,
    history: seq<Turn>,
    currentOptions: seq<Card>,
    isLoading: bool,
    summary: Option<SummaryResult>)

  /** The hooks' initial values. */
  function Initial(): AppState {
    AppState(Idle, "", [], [], false, None)
  }

  // ---------------------------------------------------------------------------
  // What the page renders
  // ---------------------------------------------------------------------------

  /** The result screen is chosen when the status is summary and a summary
      is stored; any stored object counts, the field-less one included. */
  predicate ResultScreenChosen(s: AppState) {
    s.status == Summary && s.summary.Some?
  }

  /** The result screen renders only for a summary that has its fields: for
      the field-less object, mapping over the missing key takeaways throws
      during rendering, and nothing, "Start New Journey" included, is shown. */
  predicate ResultScreenRenders(s: AppState) {
    ResultScreenChosen(s) && s.summary.value.SummaryResult?
  }

  /** The game screen (progress header and card area) is rendered unless the
      start screen (idle) or the result screen is chosen. */
  predicate GameScreenShown(s: AppState) {
    s.status != Idle && !ResultScreenChosen(s)
  }

  /** The cards are clickable: the game screen is shown and not loading. */
  predicate CardsOffered(s: AppState) {
    GameScreenShown(s) && !s.isLoading
  }

  // ---------------------------------------------------------------------------
  // startJourney
  // ---------------------------------------------------------------------------

  predicate TopicBlank(s: AppState) {
    Trim(s.topic) == ""
  }

  /** The state while the first batch is requested: loading, with history and
      summary already cleared. A blank topic returns before any of this. */
  function AwaitStart(s: AppState): (p: AppState)
    ensures TopicBlank(s) ==> p == s
    ensures !TopicBlank(s) ==>
      && p.status == Loading && p.isLoading
      && p.history == [] && p.summary == None
      && p.topic == s.topic && p.currentOptions == s.currentOptions
  {
    if TopicBlank(s) then s
    else s.(status := Loading, isLoading := true, history := [], summary := None)
  }

  /** `startJourney` once the first-batch request has settled. */
  function StartJourney(s: AppState, reply: CardsReply): (t: AppState)
    ensures TopicBlank(s) ==> t == s
    ensures !TopicBlank(s) ==>
      && !t.isLoading && t.history == [] && t.summary == None && t.topic == s.topic
    ensures !TopicBlank(s) && reply.CardsError? ==>
      t.status == Idle && t.currentOptions == s.currentOptions
    ensures !TopicBlank(s) && !reply.CardsError? ==>
      t.status == Playing && t.currentOptions == (if reply.CardsJson? then reply.cards else [])
  {
    if TopicBlank(s) then s
    else
      var p := AwaitStart(s);
      match GenerateInitialCards(s.topic, reply)
      case Success(cards) => p.(currentOptions := cards, status := Playing, isLoading := false)
      case Failure(_) => p.(status := Idle, isLoading := false)
  }

  // ---------------------------------------------------------------------------
  // handleCardSelect
  // ---------------------------------------------------------------------------

  /** The turn recorded when `card` is clicked. */
  function NewTurn(s: AppState, card: Card): Turn {
    Turn(|s.history| + 1, s.currentOptions, Some(card))
  }

  /** The state while the follow-up request is pending: the turn is recorded
      and loading is on; only the final round also sets the status. */
  function AwaitSelection(s: AppState, card: Card): (p: AppState)
    requires CardsOffered(s) && card in s.currentOptions
    ensures p.history == s.history + [NewTurn(s, card)]
    ensures p.isLoading
    ensures p.topic == s.topic && p.currentOptions == s.currentOptions && p.summary == s.summary
    ensures p.status == (if |s.history| + 1 >= TotalRounds then Loading else s.status)
  {
    var newHistory := s.history + [NewTurn(s, card)];
    if |s.history| + 1 >= TotalRounds then
      s.(history := newHistory, status := Loading, isLoading := true)
    else
      s.(history := newHistory, isLoading := true)
  }

  /** The end-game branch once the summary promise settles; a rejection would
      only clear loading and leave the status at loading. */
  function SettleSummary(p: AppState, result: Result<SummaryResult, GenerationError>): (t: AppState)
    ensures !t.isLoading
    ensures result.Success? ==> t.status == Summary && t.summary == Some(result.value)
    ensures result.Failure? ==> t.status == p.status && t.summary == p.summary
    ensures t.history == p.history && t.topic == p.topic && t.currentOptions == p.currentOptions
  {
    match result
    case Success(r) => p.(summary := Some(r), status := Summary, isLoading := false)
    case Failure(_) => p.(isLoading := false)
  }

  /** The next-round branch once the batch promise settles: success replaces
      the options, a rejection keeps the old ones; the status is untouched. */
  function SettleNext(p: AppState, result: Result<seq<Card>, GenerationError>): (t: AppState)
    ensures !t.isLoading
    ensures t.currentOptions == (if result.Success? then result.value else p.currentOptions)
    ensures t.status == p.status && t.summary == p.summary
    ensures t.history == p.history && t.topic == p.topic
  {
    match result
    case Success(cards) => p.(currentOptions := cards, isLoading := false)
    case Failure(_) => p.(isLoading := false)
  }

  /** `handleCardSelect` once its request has settled. The card must be one
      the page offers: the page shows buttons only for `currentOptions`, and
      none while loading. */
  function SelectCard(s: AppState, card: Card, next: CardsResponder, summaryReply: SummaryReply): (t: AppState)
    requires CardsOffered(s) && card in s.currentOptions
    ensures t.history == s.history + [Turn(|s.history| + 1, s.currentOptions, Some(card))]
    ensures !t.isLoading && t.topic == s.topic
    ensures |s.history| + 1 >= TotalRounds ==>
      && t.status == Summary
      && t.summary == Some(GenerateSummary(s.topic, t.history, summaryReply))
      && t.currentOptions == s.currentOptions
    ensures |s.history| + 1 < TotalRounds ==>
      && t.status == s.status && t.summary == s.summary
      && t.currentOptions ==
           (match next(NextCardsContext(s.topic, PathSummary(t.history), Some(card), |s.history| + 2))
            case CardsJson(cards) => cards
            case EmptyText => []
            case CardsError => s.currentOptions)
  {
    var p := AwaitSelection(s, card);
    var currentRound := |s.history| + 1;
    if currentRound >= TotalRounds then
      SettleSummary(p, Success(GenerateSummary(s.topic, p.history, summaryReply)))
    else
      SettleNext(p, GenerateNextCards(s.topic, p.history, currentRound + 1, next))
  }

  // ---------------------------------------------------------------------------
  // Start New Journey, topic input, progress
  // ---------------------------------------------------------------------------

  /** The "Start New Journey" button: back to the start screen, nothing else
      is cleared. */
  function StartNewJourney(s: AppState): (t: AppState)
    ensures t.status == Idle
    ensures t.(status := s.status) == s
  {
    s.(status := Idle)
  }

  /** Typing into the topic field of the start screen. */
  function EditTopic(s: AppState, text: string): (t: AppState)
    ensures t.topic == text
    ensures t.(topic := s.topic) == s
  {
    s.(topic := text)
  }

  /** "Round {history.length + 1} / 8", as written. */
  function ProgressRound(s: AppState): nat {
    |s.history| + 1
  }

  /** The progress bar's width as a fraction of the full bar, as written. */
  function ProgressFraction(s: AppState): real {
    (|s.history| + 1) as real / TotalRounds as real
  }

  /** The round number capped at the journey length. */
  function DisplayedRound(s: AppState): (r: nat)
    ensures 1 <= r <= TotalRounds
    ensures r <= ProgressRound(s)
    ensures |s.history| < TotalRounds ==> r == ProgressRound(s)
    ensures |s.history| >= TotalRounds ==> r == TotalRounds
  {
    if |s.history| + 1 < TotalRounds then |s.history| + 1 else TotalRounds
  }

  /** The bar fraction for the capped round number. */
  function DisplayedFraction(s: AppState): (f: real)
    ensures 0.0 < f <= 1.0
    ensures |s.history| < TotalRounds ==> f == ProgressFraction(s)
    ensures |s.history| >= TotalRounds ==> f == 1.0
  {
    DisplayedRound(s) as real / TotalRounds as real
  }

  // ---------------------------------------------------------------------------
  // Events and reachable states
  // ---------------------------------------------------------------------------

  /** A user action, together with the reply its generator call receives. */
  datatype Event =
    | TypeTopic(text: string)
    | Start(reply: CardsReply)
    | Pick(card: Card, next: CardsResponder, summaryReply: SummaryReply)
    | StartNew

  /** Whether the page currently offers the control that triggers `e`. */
  predicate Enabled(s: AppState, e: Event) {
    match e
    case TypeTopic(_) => s.status == Idle
    case Start(_) => s.status == Idle
    case Pick(card, _, _) => CardsOffered(s) && card in s.currentOptions
    case StartNew => ResultScreenRenders(s)
  }

  function Step(s: AppState, e: Event): AppState
    requires Enabled(s, e)
  {
    match e
    case TypeTopic(text) => EditTopic(s, text)
    case Start(reply) => StartJourney(s, reply)
    case Pick(card, next, summaryReply) => SelectCard(s, card, next, summaryReply)
    case StartNew => StartNewJourney(s)
  }

  /** The state after a sequence of actions, or None once an action is not
      offered by the page. */
  function Run(s: AppState, events: seq<Event>): Option<AppState>
    decreases |events|
  {
    if |events| == 0 then Some(s)
    else if !Enabled(s, events[0]) then None
    else Run(Step(s, events[0]), events[1..])
  }

  /** Round numbers follow the position in the history. */
  predicate RoundsNumbered(history: seq<Turn>) {
    forall i :: 0 <= i < |history| ==> history[i].round == i + 1
  }

  /** What holds whenever no handler is in flight. */
  predicate Settled(s: AppState) {
    && !s.isLoading
    && s.status != Loading
    && |s.history| <= TotalRounds
    && (s.status == Playing ==> |s.history| < TotalRounds)
    && (s.status == Summary ==> s.summary.Some? && |s.history| == TotalRounds)
    && RoundsNumbered(s.history)
    && KnowledgeGraph.SelectionsOffered(s.history)
  }

  lemma InitialSettled()
    ensures Settled(Initial())
  {
  }

  /** Every action the page offers leads from a settled state to a settled
      state: loading never outlives a handler, rounds stay numbered 1..k,
      every turn holds one of its own options, and the journey stops at 8. */
  lemma StepKeepsSettled(s: AppState, e: Event)
    requires Settled(s) && Enabled(s, e)
    ensures Settled(Step(s, e))
  {
  }

  lemma {:induction false} RunKeepsSettled(s: AppState, events: seq<Event>)
    requires Settled(s) && Run(s, events).Some?
    ensures Settled(Run(s, events).value)
    decreases |events|
  {
    if |events| > 0 {
      StepKeepsSettled(s, events[0]);
      RunKeepsSettled(Step(s, events[0]), events[1..]);
    }
  }

  /** In a settled state cards can be clicked only while playing, before the
      last round has been recorded. */
  lemma OfferedOnlyWhilePlaying(s: AppState)
    requires Settled(s) && CardsOffered(s)
    ensures s.status == Playing && |s.history| < TotalRounds
  {
  }

  /** The eighth pick ends the journey whatever the summary request does:
      the fallback means the status reaches summary, and no card is offered
      afterwards. */
  lemma FinalPickReachesSummary(s: AppState, card: Card, next: CardsResponder, summaryReply: SummaryReply)
    requires Settled(s) && CardsOffered(s) && card in s.currentOptions
    requires |s.history| == TotalRounds - 1
    ensures var t := SelectCard(s, card, next, summaryReply);
            t.status == Summary && |t.history| == TotalRounds && !CardsOffered(t)
    ensures summaryReply.SummaryError? ==>
              SelectCard(s, card, next, summaryReply).summary == Some(FallbackSummary)
  {
  }

  /** Pick events from a playing, settled state: each one that the page
      offers records exactly one round, the status is summary exactly when
      eight rounds are recorded, and no more picks are offered after that. */
  lemma {:induction false} PicksAdvanceRounds(s: AppState, events: seq<Event>)
    requires Settled(s) && s.status == Playing
    requires forall i :: 0 <= i < |events| ==> events[i].Pick?
    requires Run(s, events).Some?
    ensures var t := Run(s, events).value;
            && |t.history| == |s.history| + |events|
            && |t.history| <= TotalRounds
            && (t.status == Summary <==> |t.history| == TotalRounds)
            && (t.status == Playing <==> |t.history| < TotalRounds)
    decreases |events|
  {
    if |events| > 0 {
      var e := events[0];
      StepKeepsSettled(s, e);
      var u := Step(s, e);
      assert |u.history| == |s.history| + 1;
      if u.status == Summary {
        if |events| > 1 {
          assert false;
        }
      } else {
        PicksAdvanceRounds(u, events[1..]);
      }
    }
  }

  /** A journey started successfully and continued by picks alone ends in the
      summary after exactly eight picks, whatever the generator replies. */
  lemma {:induction false} JourneyLastsEightPicks(s: AppState, reply: CardsReply, picks: seq<Event>)
    requires Settled(s) && s.status == Idle && !TopicBlank(s) && !reply.CardsError?
    requires forall i :: 0 <= i < |picks| ==> picks[i].Pick?
    requires Run(StartJourney(s, reply), picks).Some?
    ensures |picks| <= TotalRounds
    ensures Run(StartJourney(s, reply), picks).value.status == Summary <==> |picks| == TotalRounds
  {
    PicksAdvanceRounds(StartJourney(s, reply), picks);
  }

  /** "Start New Journey" then a new start: the old history survives the
      reset and is cleared only by the start itself. */
  lemma RestartClearsHistoryOnStart(s: AppState, reply: CardsReply)
    requires s.status == Summary && s.summary.Some? && !TopicBlank(s)
    ensures StartNewJourney(s).history == s.history
    ensures StartNewJourney(s).topic == s.topic
    ensures StartJourney(StartNewJourney(s), reply).history == []
    ensures StartJourney(StartNewJourney(s), reply).summary == None
  {
  }

  /** A pick below the last round asks the model for the next batch with the
      clicked card as "just selected", the path extended by its title, and
      the round after the one just recorded; the options on offer afterwards
      are decided by the reply to exactly that request. */
  lemma PickRequestsNextRound(s: AppState, card: Card, next: CardsResponder, summaryReply: SummaryReply)
    requires CardsOffered(s) && card in s.currentOptions
    requires |s.history| + 1 < TotalRounds
    ensures var t := SelectCard(s, card, next, summaryReply);
            var path := if |s.history| == 0 then card.title
                        else PathSummary(s.history) + PathSeparator + card.title;
            var reply := next(NextCardsContext(s.topic, path, Some(card), |t.history| + 1));
            t.currentOptions == (match reply
                                 case CardsJson(cards) => cards
                                 case EmptyText => []
                                 case CardsError => s.currentOptions)
  {
    PathSummaryAppend(s.history, NewTurn(s, card));
  }

  /** An empty first batch leaves the page with nothing to do: the game
      screen is up without a card, and there is no other control on it. */
  lemma EmptyFirstBatchStrands(s: AppState)
    requires s.status == Idle && !TopicBlank(s)
    ensures var t := StartJourney(s, EmptyText);
            && t.status == Playing && GameScreenShown(t) && t.currentOptions == []
            && forall e :: !Enabled(t, e)
  {
  }

  /** Likewise an empty batch in the middle of the journey: unlike a failed
      request, it replaces the cards on offer with none. */
  lemma EmptyNextBatchStrands(s: AppState, card: Card, summaryReply: SummaryReply)
    requires Settled(s) && CardsOffered(s) && card in s.currentOptions
    requires |s.history| + 1 < TotalRounds
    ensures var t := SelectCard(s, card, Constantly(EmptyText), summaryReply);
            && GameScreenShown(t) && t.currentOptions == []
            && forall e :: !Enabled(t, e)
  {
  }

  /** A round's failed batch request leaves the previous options on offer,
      so the same cards can be picked again rather than the page hanging. */
  lemma FailedBatchKeepsOptionsOffered(s: AppState, card: Card, summaryReply: SummaryReply)
    requires Settled(s) && CardsOffered(s) && card in s.currentOptions
    requires |s.history| + 1 < TotalRounds
    ensures var t := SelectCard(s, card, Constantly(CardsError), summaryReply);
            CardsOffered(t) && card in t.currentOptions
  {
  }

  /** The knowledge graph of any settled journey whose batches have unique
      ids: its weight-2 links chain root → s1 → … → sk through the picks. */
  lemma {:induction false} SettledGraphFollowsPicks(s: AppState)
    requires Settled(s) && KnowledgeGraph.UniqueIdsPerBatch(s.history)
    ensures KnowledgeGraph.Filter(KnowledgeGraph.Links(s.history), KnowledgeGraph.IsHeavy)
              == KnowledgeGraph.SelectionChain(s.history)
  {
    KnowledgeGraph.HeavyLinksFormChain(s.history);
  }

  /** "Coffee" is not blank, so starting with it asks for the first batch. */
  lemma CoffeeIsNotBlank()
    ensures !TopicBlank(EditTopic(Initial(), "Coffee"))
  {
    var c0 := "Coffee";
    assert |c0| == 6 && c0[0] == 'C' && c0[5] == 'e';
    TrimKeepsTrimmed(c0);
  }

  /** A one-turn history with three options, the second one selected, gives
      the root and three option nodes, and links from the root weighing 1, 2
      and 1. */
  lemma OneTurnGraph(a: Card, b: Card, c: Card, topic: string)
    requires a.id != b.id && c.id != b.id
    ensures var h := [Turn(1, [a, b, c], Some(b))];
            && |KnowledgeGraph.Nodes(h, topic)| == 4
            && KnowledgeGraph.Links(h)
                 == [GraphLink("root", a.id, 1), GraphLink("root", b.id, 2), GraphLink("root", c.id, 1)]
  {
    var h := [Turn(1, [a, b, c], Some(b))];
    assert KnowledgeGraph.Front(h) == [];
    KnowledgeGraph.Counts(h, topic);
    assert KnowledgeGraph.Links(h) == KnowledgeGraph.TurnLinks(h[0], "root");
  }

  /** A worked journey start: topic "Coffee", cards A, B, C offered, B picked.
      The history is one turn of round 1 holding A, B, C with B selected, and
      its graph has the root and three option nodes, with the weight-2 link
      root → B and weight-1 links root → A and root → C. */
  lemma {:induction false} CoffeeScenario(a: Card, b: Card, c: Card, next: CardsResponder, summaryReply: SummaryReply)
    requires a.id != b.id && b.id != c.id && a.id != c.id
    ensures var t := SelectCard(AppState(Playing, "Coffee", [], [a, b, c], false, None), b, next, summaryReply);
            && t.history == [Turn(1, [a, b, c], Some(b))]
            && |KnowledgeGraph.Nodes(t.history, t.topic)| == 4
            && KnowledgeGraph.Links(t.history)
                 == [GraphLink("root", a.id, 1), GraphLink("root", b.id, 2), GraphLink("root", c.id, 1)]
    ensures StartJourney(EditTopic(Initial(), "Coffee"), CardsJson([a, b, c]))
              == AppState(Playing, "Coffee", [], [a, b, c], false, None)
  {
    CoffeeStart([a, b, c]);
    var s := AppState(Playing, "Coffee", [], [a, b, c], false, None);
    assert CardsOffered(s) && b in s.currentOptions;
    FirstPick(s, b, next, summaryReply);
    OneTurnGraph(a, b, c, "Coffee");
  }

  /** Starting with "Coffee" and a batch of cards offers that batch. */
  lemma CoffeeStart(cards: seq<Card>)
    ensures StartJourney(EditTopic(Initial(), "Coffee"), CardsJson(cards))
              == AppState(Playing, "Coffee", [], cards, false, None)
  {
    CoffeeIsNotBlank();
  }

  lemma FirstPick(s: AppState, card: Card, next: CardsResponder, summaryReply: SummaryReply)
    requires s.history == [] && CardsOffered(s) && card in s.currentOptions
    ensures var t := SelectCard(s, card, next, summaryReply);
            t.history == [Turn(1, s.currentOptions, Some(card))] && t.topic == s.topic
  {
  }

  // ---------------------------------------------------------------------------
  // The result screen after an empty summary text
  // ---------------------------------------------------------------------------

  /** As written, an empty summary text after the eighth pick stores the
      field-less object: the result screen is chosen but throws while
      rendering, so the page offers no action at all, not even a reset. */
  lemma EmptySummaryLeavesNoAction(s: AppState, card: Card, next: CardsResponder)
    requires Settled(s) && CardsOffered(s) && card in s.currentOptions
    requires |s.history| == TotalRounds - 1
    ensures var t := SelectCard(s, card, next, EmptySummaryText);
            && t.summary == Some(EmptyObject)
            && ResultScreenChosen(t) && !ResultScreenRenders(t)
            && forall e :: !Enabled(t, e)
  {
  }

  /** With the summary falling back on an empty text as it does on a throw,
      the eighth pick always lands on a result screen that renders and offers
      "Start New Journey", whatever the summary request returns. */
  lemma FallbackSummaryOffersReset(s: AppState, card: Card, summaryReply: SummaryReply)
    requires Settled(s) && CardsOffered(s) && card in s.currentOptions
    requires |s.history| == TotalRounds - 1
    ensures var p := AwaitSelection(s, card);
            var t := SettleSummary(p, Success(GenerateSummaryWithFallback(s.topic, p.history, summaryReply)));
            && ResultScreenRenders(t) && Enabled(t, StartNew)
            && |t.history| == TotalRounds
  {
  }

  // ---------------------------------------------------------------------------
  // Progress display during the final summary request
  // ---------------------------------------------------------------------------

  /** As written, while the summary request after the eighth pick is pending
      the game screen is still shown and its header reads round 9 of 8, with
      the bar at 9/8. */
  lemma FinalLoadingShowsRoundNine(s: AppState, card: Card)
    requires Settled(s) && CardsOffered(s) && card in s.currentOptions
    requires |s.history| == TotalRounds - 1
    ensures var p := AwaitSelection(s, card);
            && GameScreenShown(p)
            && ProgressRound(p) == TotalRounds + 1
            && ProgressFraction(p) > 1.0
  {
  }

  /** With the capped round, a settled game screen and the screen pending
      after a pick read a round between 1 and 8 and a fraction of at most 1,
      and settled states read the same as the formula as written. */
  lemma DisplayedProgressInRange(s: AppState, card: Card)
    requires Settled(s) && CardsOffered(s) && card in s.currentOptions
    ensures var p := AwaitSelection(s, card);
            && 1 <= DisplayedRound(p) <= TotalRounds
            && DisplayedFraction(p) <= 1.0
            && DisplayedRound(s) == ProgressRound(s)
            && DisplayedFraction(s) == ProgressFraction(s)
  {
  }

  /** The screen pending after a start shows round 1 of 8, as written and
      capped alike. */
  lemma StartShowsRoundOne(s: AppState)
    requires s.status == Idle && !TopicBlank(s)
    ensures var p := AwaitStart(s);
            && GameScreenShown(p)
            && ProgressRound(p) == 1 && DisplayedRound(p) == 1
            && DisplayedFraction(p) == ProgressFraction(p) == 1.0 / TotalRounds as real
  {
  }
}
