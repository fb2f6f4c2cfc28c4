/** The generator client (services/geminiService.ts) with the model call
    abstracted: each request's reply is a parameter. What remains is the
    context computed for the prompts, the treatment of an empty reply text,
    which failures reach the caller, and the fixed fallback summary. */
module GeminiService {
  import opened Wrappers
  import opened Types
  import opened Text

  /** Why a card request rejected. */
  datatype GenerationError =
    | NoPreviousTurn  // `history[history.length - 1]` was undefined: a TypeError before any request
    | RequestFailed   // the model call or `JSON.parse` of its text threw, and was rethrown

  /** How a card request came back: parsed cards, an empty text, or a throw. */
  datatype CardsReply = CardsJson(cards: seq<Card>) | EmptyText | CardsError

  /** A summary record; `EmptyObject` is what `JSON.parse('{}')` gives, an
      object in which none of the three fields is present. */
  datatype SummaryResult =
    | SummaryResult(summary: string, keyTakeaways: seq<string>, title: string)
    | EmptyObject

  /** How a summary request came back: parsed fields, an empty text, or a throw. */
  datatype SummaryReply =
    | SummaryJson(summary: string, keyTakeaways: seq<string>, title: string)
    | EmptySummaryText
    | SummaryError

  /** The summary returned whenever the summary request throws. */
  const FallbackSummary: SummaryResult :=
    SummaryResult("We successfully navigated the knowledge graph.",
                  ["Exploration complete"],
                  "Journey Complete")

  /** `JSON.parse(response.text || '{"cards": []}').cards`, with a throw
      rethrown: an empty text is an empty list, not a failure. */
  function ParseCards(reply: CardsReply): (r: Result<seq<Card>, GenerationError>)
    ensures r.Failure? <==> reply.CardsError?
    ensures r.Failure? ==> r.error == RequestFailed
    ensures reply.EmptyText? ==> r == Success([])
    ensures reply.CardsJson? ==> r == Success(reply.cards)
  {
    match reply
    case CardsJson(cards) => Success(cards)
    case EmptyText => Success([])
    case CardsError => Failure(RequestFailed)
  }

  /** The first batch, for the bare topic (the topic only shapes the prompt).
      A failed request rejects; it is not turned into an empty batch. */
  function GenerateInitialCards(topic: string, reply: CardsReply): (r: Result<seq<Card>, GenerationError>)
    ensures r.Failure? <==> reply.CardsError?
    ensures r.Success? ==> r.value == (if reply.CardsJson? then reply.cards else [])
  {
    ParseCards(reply)
  }

  // ---------------------------------------------------------------------------
  // Context of a next-batch request
  // ---------------------------------------------------------------------------

  /** `${x}` of a possibly missing value in a template literal. */
  function TemplateText(value: Option<string>): (r: string)
    ensures value.Some? ==> r == value.value
    ensures value.None? ==> r == "undefined"
  {
    if value.Some? then value.value else "undefined"
  }

  /** `${h.selectedCard?.title}` for one turn. */
  function SelectedTitle(turn: Turn): string {
    TemplateText(if turn.selectedCard.Some? then Some(turn.selectedCard.value.title) else None)
  }

  /** `${h.selectedCard?.description}` for one turn. */
  function SelectedDescription(turn: Turn): string {
    TemplateText(if turn.selectedCard.Some? then Some(turn.selectedCard.value.description) else None)
  }

  const PathSeparator: string := " -> "

  function SelectedTitles(history: seq<Turn>): seq<string> {
    seq(|history|, i requires 0 <= i < |history| => SelectedTitle(history[i]))
  }

  /** The "Current Path" of the prompt: every turn's selected title, in
      order, joined by " -> ". */
  function PathSummary(history: seq<Turn>): string {
    Join(SelectedTitles(history), PathSeparator)
  }

  /** The "Just Selected" card: the selection of the last turn, which may be
      absent. An empty history has no last turn and the access throws. */
  function JustSelected(history: seq<Turn>): (r: Result<Option<Card>, GenerationError>)
    ensures r.Success? <==> |history| > 0
    ensures r.Success? ==> r.value == history[|history| - 1].selectedCard
    ensures r.Failure? ==> r.error == NoPreviousTurn
  {
    if |history| == 0 then Failure(NoPreviousTurn)
    else Success(history[|history| - 1].selectedCard)
  }

  /** Everything a next-batch prompt is built from. */
  datatype NextCardsContext = NextCardsContext(
    topic: string,
    pathSummary: string,
    justSelected: Option<Card>,
    currentRound: int)

  /** The model's reply to a next-batch request, as a function of the
      context its prompt is built from. */
  type CardsResponder = NextCardsContext -> CardsReply

  /** A model that gives the same reply whatever it is asked. */
  function Constantly(reply: CardsReply): CardsResponder {
    _ => reply
  }

  /** The context computed before the request is sent (outside the `try`). */
  function NextCardsRequest(topic: string, history: seq<Turn>, currentRound: int): (r: Result<NextCardsContext, GenerationError>)
    ensures r.Success? <==> |history| > 0
    ensures r.Success? ==> r.value.topic == topic && r.value.currentRound == currentRound
    ensures r.Success? ==> r.value.pathSummary == PathSummary(history)
    ensures r.Success? ==> r.value.justSelected == history[|history| - 1].selectedCard
  {
    var selected :- JustSelected(history);
    Success(NextCardsContext(topic, PathSummary(history), selected, currentRound))
  }

  /** The next batch. With an empty history the call rejects before any
      request is made, whatever the model would reply; otherwise the model is
      asked with the topic, the path, the last selection and the round, and
      its reply is treated exactly as for the first batch. */
  function GenerateNextCards(topic: string, history: seq<Turn>, currentRound: int, respond: CardsResponder): (r: Result<seq<Card>, GenerationError>)
    ensures |history| == 0 ==> r == Failure(NoPreviousTurn)
    ensures |history| > 0 ==>
      var reply := respond(NextCardsContext(topic, PathSummary(history), history[|history| - 1].selectedCard, currentRound));
      && (r.Failure? <==> reply.CardsError?)
      && (r.Success? ==> r.value == (if reply.CardsJson? then reply.cards else []))
  {
    var context :- NextCardsRequest(topic, history, currentRound);
    ParseCards(respond(context))
  }

  /** Part `i` of the path summary is turn `i`'s selected title, and
      consecutive parts are separated by " -> ". */
  lemma PathSummarySegments(history: seq<Turn>, i: nat)
    requires i < |history|
    ensures var titles := SelectedTitles(history);
            var start := JoinStart(titles, PathSeparator, i);
            && start + |SelectedTitle(history[i])| <= |PathSummary(history)|
            && PathSummary(history)[start..start + |SelectedTitle(history[i])|] == SelectedTitle(history[i])
            && (i + 1 < |history| ==>
                  && start + |SelectedTitle(history[i])| + |PathSeparator| == JoinStart(titles, PathSeparator, i + 1)
                  && JoinStart(titles, PathSeparator, i + 1) <= |PathSummary(history)|
                  && PathSummary(history)[start + |SelectedTitle(history[i])|..JoinStart(titles, PathSeparator, i + 1)]
                    == PathSeparator)
  {
    JoinPart(SelectedTitles(history), PathSeparator, i);
    if i + 1 < |history| {
      JoinSeparator(SelectedTitles(history), PathSeparator, i);
    }
  }

  /** A turn without a selection appears in the path summary as the text
      "undefined", at the place its title would take. */
  lemma UnselectedTurnReadsUndefined(history: seq<Turn>, i: nat)
    requires i < |history| && history[i].selectedCard.None?
    ensures var start := JoinStart(SelectedTitles(history), PathSeparator, i);
            && start + 9 <= |PathSummary(history)|
            && PathSummary(history)[start..start + 9] == "undefined"
  {
    assert SelectedTitle(history[i]) == "undefined";
    PathSummarySegments(history, i);
  }

  /** Growing the history by one turn grows the path by one step. */
  lemma PathSummaryAppend(history: seq<Turn>, turn: Turn)
    ensures |history| == 0 ==> PathSummary(history + [turn]) == SelectedTitle(turn)
    ensures |history| > 0 ==> PathSummary(history + [turn]) == PathSummary(history) + PathSeparator + SelectedTitle(turn)
  {
    assert SelectedTitles(history + [turn]) == SelectedTitles(history) + [SelectedTitle(turn)];
    if |history| > 0 {
      JoinAppend(SelectedTitles(history), SelectedTitle(turn), PathSeparator);
    }
  }

  // ---------------------------------------------------------------------------
  // Summary request
  // ---------------------------------------------------------------------------

  /** `Round ${i + 1}: Chosen "${title}" (Context: ${description})`. */
  function DetailLine(i: nat, turn: Turn): string {
    "Round " + NatToString(i + 1) + ": Chosen \"" + SelectedTitle(turn)
      + "\" (Context: " + SelectedDescription(turn) + ")"
  }

  function DetailLines(history: seq<Turn>): seq<string> {
    seq(|history|, i requires 0 <= i < |history| => DetailLine(i, history[i]))
  }

  /** The "Path" block of the summary prompt: one line per turn. */
  function PathDetails(history: seq<Turn>): string {
    Join(DetailLines(history), "\n")
  }

  /** Line `i` is labelled "Round " followed by the numeral of `i + 1`. */
  lemma DetailLineLabel(i: nat, turn: Turn)
    ensures var digits := NatToString(i + 1);
            && 6 + |digits| < |DetailLine(i, turn)|
            && DetailLine(i, turn)[..6] == "Round "
            && DetailLine(i, turn)[6..6 + |digits|] == digits
            && DetailLine(i, turn)[6 + |digits|] == ':'
            && ParseNat(digits) == i + 1
  {
    NatToStringRoundTrip(i + 1);
    var digits := NatToString(i + 1);
    var rest := ": Chosen \"" + SelectedTitle(turn) + "\" (Context: " + SelectedDescription(turn) + ")";
    assert DetailLine(i, turn) == "Round " + digits + rest;
    assert rest[0] == ':';
  }

  /** No selected title or description contains a line break. */
  predicate SingleLineSelections(history: seq<Turn>) {
    forall i :: 0 <= i < |history| && history[i].selectedCard.Some? ==>
      '\n' !in history[i].selectedCard.value.title && '\n' !in history[i].selectedCard.value.description
  }

  lemma DetailLineIsSingleLine(i: nat, turn: Turn)
    requires turn.selectedCard.Some? ==>
      '\n' !in turn.selectedCard.value.title && '\n' !in turn.selectedCard.value.description
    ensures '\n' !in DetailLine(i, turn)
  {
  }

  /** With single-line selections, the path details split back into exactly
      one line per turn: the detail line of turn `i` is line `i`. */
  lemma PathDetailsLines(history: seq<Turn>)
    requires |history| > 0
    requires SingleLineSelections(history)
    ensures Split(PathDetails(history), '\n') == DetailLines(history)
    ensures |Split(PathDetails(history), '\n')| == |history|
  {
    forall i | 0 <= i < |history|
      ensures '\n' !in DetailLines(history)[i]
    {
      DetailLineIsSingleLine(i, history[i]);
    }
    SplitJoin(DetailLines(history), '\n');
  }

  /** The summary. Failure never escapes: a throw yields the fixed fallback,
      an empty text the field-less object, and otherwise the parsed fields. */
  function GenerateSummary(topic: string, history: seq<Turn>, reply: SummaryReply): (r: SummaryResult)
    ensures reply.SummaryError? ==> r == FallbackSummary
    ensures reply.EmptySummaryText? ==> r == EmptyObject
    ensures reply.SummaryJson? ==> r == SummaryResult(reply.summary, reply.keyTakeaways, reply.title)
  {
    match reply
    case SummaryJson(summary, keyTakeaways, title) => SummaryResult(summary, keyTakeaways, title)
    case EmptySummaryText => EmptyObject
    case SummaryError => FallbackSummary
  }

  /** The summary as evidently intended: an empty text falls back like a
      throw, so every outcome is a record with all three fields. */
  function GenerateSummaryWithFallback(topic: string, history: seq<Turn>, reply: SummaryReply): (r: SummaryResult)
    ensures r.SummaryResult?
    ensures reply.SummaryJson? ==> r == GenerateSummary(topic, history, reply)
    ensures !reply.SummaryJson? ==> r == FallbackSummary
  {
    match reply
    case SummaryJson(summary, keyTakeaways, title) => SummaryResult(summary, keyTakeaways, title)
    case EmptySummaryText => FallbackSummary
    case SummaryError => FallbackSummary
  }
}
