/** The data-preparation step of the knowledge-graph view
    (components/KnowledgeGraph.tsx): a fold over the turn history that emits
    a root node, then one node and one edge per offered option, with a cursor
    (the id of the latest selection) deciding where each edge starts. */
module KnowledgeGraph {
  import opened Wrappers
  import opened Types

  /** Id of the node that stands for the journey's topic. */
  const RootId: string := "root"

  /** The node and link lists handed to the layout simulation. */
  datatype Graph = Graph(nodes: seq<GraphNode>, links: seq<GraphLink>)

  function RootNode(rootTopic: string): GraphNode {
    GraphNode(RootId, rootTopic, Root, 0, None)
  }

  /** `opt.id === turn.selectedCard?.id`: never true when nothing was selected. */
  predicate IsSelected(opt: Card, turn: Turn) {
    turn.selectedCard.Some? && opt.id == turn.selectedCard.value.id
  }

  function OptionNode(opt: Card, turn: Turn, roundNum: int): GraphNode {
    GraphNode(opt.id, opt.title, if IsSelected(opt, turn) then Selected else Discarded,
              roundNum, Some(opt.description))
  }

  function OptionLink(opt: Card, turn: Turn, source: string): GraphLink {
    GraphLink(source, opt.id, if IsSelected(opt, turn) then 2 else 1)
  }

  /** The nodes one turn contributes, in offered order. */
  function TurnNodes(turn: Turn, roundNum: int): seq<GraphNode> {
    seq(|turn.options|, j requires 0 <= j < |turn.options| => OptionNode(turn.options[j], turn, roundNum))
  }

  /** The links one turn contributes, all starting at `source`. */
  function TurnLinks(turn: Turn, source: string): seq<GraphLink> {
    seq(|turn.options|, j requires 0 <= j < |turn.options| => OptionLink(turn.options[j], turn, source))
  }

  /** The cursor after a turn: the selected id, or unchanged without a selection. */
  function Advance(turn: Turn, cursor: string): string {
    if turn.selectedCard.Some? then turn.selectedCard.value.id else cursor
  }

  function Front(history: seq<Turn>): seq<Turn>
    requires |history| > 0
  {
    history[..|history| - 1]
  }

  /** The cursor (`previousId`) once every turn of `history` is processed. */
  function Cursor(history: seq<Turn>): string
    decreases |history|
  {
    if |history| == 0 then RootId else Advance(history[|history| - 1], Cursor(Front(history)))
  }

  /** The node list the loop has built after processing `history`. */
  function Nodes(history: seq<Turn>, rootTopic: string): seq<GraphNode>
    decreases |history|
  {
    if |history| == 0 then [RootNode(rootTopic)]
    else Nodes(Front(history), rootTopic) + TurnNodes(history[|history| - 1], |history|)
  }

  /** The link list the loop has built after processing `history`. */
  function Links(history: seq<Turn>): seq<GraphLink>
    decreases |history|
  {
    if |history| == 0 then []
    else Links(Front(history)) + TurnLinks(history[|history| - 1], Cursor(Front(history)))
  }

  /** Number of options offered over all turns. */
  function TotalOptions(history: seq<Turn>): nat
    decreases |history|
  {
    if |history| == 0 then 0 else TotalOptions(Front(history)) + |history[|history| - 1].options|
  }

  /** The graph for a history, or nothing at all for an empty history (the
      effect returns before drawing). When built, the root comes first and
      there is one node and one link per offered option. */
  function BuildGraph(history: seq<Turn>, rootTopic: string): (g: Option<Graph>)
    ensures g.None? <==> |history| == 0
    ensures g.Some? ==> |g.value.nodes| == 1 + TotalOptions(history)
    ensures g.Some? ==> |g.value.links| == TotalOptions(history)
    ensures g.Some? ==> g.value.nodes[0] == RootNode(rootTopic)
  {
    if |history| == 0 then None
    else
      Counts(history, rootTopic);
      RootFirst(history, rootTopic);
      Some(Graph(Nodes(history, rootTopic), Links(history)))
  }

  /** The effect's nested loop, written as the source writes it: push the root,
      then for each turn push a node and a link per option, then move
      `previousId` to the selection if there is one. It builds exactly the
      fold's lists, so the same history and topic always give the same graph. */
  method RenderGraphData(history: seq<Turn>, rootTopic: string) returns (g: Option<Graph>)
    ensures g == BuildGraph(history, rootTopic)
  {
    if |history| == 0 {
      return None;
    }
    var nodes := [RootNode(rootTopic)];
    var links: seq<GraphLink> := [];
    var previousId := RootId;
    var index := 0;
    while index < |history|
      invariant 0 <= index <= |history|
      invariant nodes == Nodes(history[..index], rootTopic)
      invariant links == Links(history[..index])
      invariant previousId == Cursor(history[..index])
    {
      var turn := history[index];
      var roundNum := index + 1;
      var k := 0;
      while k < |turn.options|
        invariant 0 <= k <= |turn.options|
        invariant nodes == Nodes(history[..index], rootTopic) + TurnNodes(turn, roundNum)[..k]
        invariant links == Links(history[..index]) + TurnLinks(turn, previousId)[..k]
      {
        var opt := turn.options[k];
        var isSelected := turn.selectedCard.Some? && opt.id == turn.selectedCard.value.id;
        nodes := nodes + [GraphNode(opt.id, opt.title, if isSelected then Selected else Discarded,
                                    roundNum, Some(opt.description))];
        links := links + [GraphLink(previousId, opt.id, if isSelected then 2 else 1)];
        assert TurnNodes(turn, roundNum)[..k + 1] == TurnNodes(turn, roundNum)[..k] + [TurnNodes(turn, roundNum)[k]];
        assert TurnLinks(turn, previousId)[..k + 1] == TurnLinks(turn, previousId)[..k] + [TurnLinks(turn, previousId)[k]];
        k := k + 1;
      }
      if turn.selectedCard.Some? {
        previousId := turn.selectedCard.value.id;
      }
      assert Front(history[..index + 1]) == history[..index];
      index := index + 1;
    }
    assert history[..index] == history;
    g := Some(Graph(nodes, links));
  }

  // ---------------------------------------------------------------------------
  // Shape of the graph
  // ---------------------------------------------------------------------------

  /** The first node is always the root: id "root", the topic as label, kind
      root, round 0, no description. */
  lemma {:induction false} RootFirst(history: seq<Turn>, rootTopic: string)
    ensures |Nodes(history, rootTopic)| >= 1
    ensures Nodes(history, rootTopic)[0] == GraphNode(RootId, rootTopic, Root, 0, None)
    decreases |history|
  {
    if |history| > 0 {
      RootFirst(Front(history), rootTopic);
    }
  }

  /** One node per offered option plus the root, and one link per option. */
  lemma {:induction false} Counts(history: seq<Turn>, rootTopic: string)
    ensures |Nodes(history, rootTopic)| == 1 + TotalOptions(history)
    ensures |Links(history)| == TotalOptions(history)
    decreases |history|
  {
    if |history| > 0 {
      Counts(Front(history), rootTopic);
    }
  }

  /** Option `j` of turn `i` becomes the node right after the root and the
      options of the earlier turns: its id and description are the card's,
      its label is the card's title, its round is `i + 1` (whatever the turn's
      stored round says), and it is `selected` exactly when its id equals the
      turn's selected id, `discarded` otherwise. */
  lemma {:induction false} NodeOfOption(history: seq<Turn>, rootTopic: string, i: nat, j: nat)
    requires i < |history| && j < |history[i].options|
    ensures 1 + TotalOptions(history[..i]) + j < |Nodes(history, rootTopic)|
    ensures var n := Nodes(history, rootTopic)[1 + TotalOptions(history[..i]) + j];
            var opt := history[i].options[j];
            && n.id == opt.id
            && n.labelText == opt.title
            && n.description == Some(opt.description)
            && n.round == i + 1
            && (n.kind == Selected <==> history[i].selectedCard.Some? && opt.id == history[i].selectedCard.value.id)
            && (n.kind != Selected ==> n.kind == Discarded)
    decreases |history|
  {
    var front := Front(history);
    Counts(front, rootTopic);
    if i == |history| - 1 {
      assert history[..i] == front;
    } else {
      assert front[..i] == history[..i];
      NodeOfOption(front, rootTopic, i, j);
    }
  }

  /** Option `j` of turn `i` becomes the link at the same offset as its node
      (less the root): it ends at the option's id, starts at the cursor left
      by the earlier turns, and weighs 2 when the option is the selection and
      1 otherwise. */
  lemma {:induction false} LinkOfOption(history: seq<Turn>, i: nat, j: nat)
    requires i < |history| && j < |history[i].options|
    ensures TotalOptions(history[..i]) + j < |Links(history)|
    ensures var l := Links(history)[TotalOptions(history[..i]) + j];
            var opt := history[i].options[j];
            && l.source == Cursor(history[..i])
            && l.target == opt.id
            && (l.value == 2 <==> history[i].selectedCard.Some? && opt.id == history[i].selectedCard.value.id)
            && (l.value != 2 ==> l.value == 1)
    decreases |history|
  {
    var front := Front(history);
    Counts(front, "");
    if i == |history| - 1 {
      assert history[..i] == front;
    } else {
      assert front[..i] == history[..i];
      LinkOfOption(front, i, j);
    }
  }

  /** Every link weighs 1 or 2. */
  lemma {:induction false} LinkWeights(history: seq<Turn>)
    ensures forall l :: l in Links(history) ==> l.value == 1 || l.value == 2
    decreases |history|
  {
    if |history| > 0 {
      LinkWeights(Front(history));
    }
  }

  /** Later rounds only add to the graph: the nodes and links built for a
      history are a prefix of those built for any continuation of it, and the
      cursor stays where it was while no later turn has a selection. */
  lemma {:induction false} GraphGrowsByPrefix(history: seq<Turn>, more: seq<Turn>, rootTopic: string)
    ensures Nodes(history, rootTopic) <= Nodes(history + more, rootTopic)
    ensures Links(history) <= Links(history + more)
    ensures (forall m :: 0 <= m < |more| ==> more[m].selectedCard.None?) ==>
              Cursor(history + more) == Cursor(history)
    decreases |more|
  {
    if |more| > 0 {
      var h := history + more;
      assert Front(h) == history + Front(more);
      GraphGrowsByPrefix(history, Front(more), rootTopic);
    } else {
      assert history + more == history;
    }
  }

  // ---------------------------------------------------------------------------
  // The cursor: where each round's edges start
  // ---------------------------------------------------------------------------

  /** With no selection anywhere, the cursor is still at the root. */
  lemma {:induction false} CursorWithoutSelection(history: seq<Turn>)
    requires forall m :: 0 <= m < |history| ==> history[m].selectedCard.None?
    ensures Cursor(history) == RootId
    decreases |history|
  {
    if |history| > 0 {
      CursorWithoutSelection(Front(history));
    }
  }

  /** The cursor is the id selected in the latest turn that has a selection. */
  lemma {:induction false} CursorIsLatestSelection(history: seq<Turn>, k: nat)
    requires k < |history| && history[k].selectedCard.Some?
    requires forall m :: k < m < |history| ==> history[m].selectedCard.None?
    ensures Cursor(history) == history[k].selectedCard.value.id
    decreases |history|
  {
    if k < |history| - 1 {
      CursorIsLatestSelection(Front(history), k);
    }
  }

  /** Every edge of turn `i` starts at the root when no earlier turn has a
      selection. */
  lemma EdgeSourceIsRoot(history: seq<Turn>, i: nat, j: nat)
    requires i < |history| && j < |history[i].options|
    requires forall m :: 0 <= m < i ==> history[m].selectedCard.None?
    ensures TotalOptions(history[..i]) + j < |Links(history)|
    ensures Links(history)[TotalOptions(history[..i]) + j].source == RootId
  {
    LinkOfOption(history, i, j);
    CursorWithoutSelection(history[..i]);
  }

  /** Every edge of turn `i` starts at the card selected in turn `k`, the
      latest turn before `i` that has a selection. */
  lemma EdgeSourceIsLatestSelection(history: seq<Turn>, i: nat, j: nat, k: nat)
    requires i < |history| && j < |history[i].options|
    requires k < i && history[k].selectedCard.Some?
    requires forall m :: k < m < i ==> history[m].selectedCard.None?
    ensures TotalOptions(history[..i]) + j < |Links(history)|
    ensures Links(history)[TotalOptions(history[..i]) + j].source == history[k].selectedCard.value.id
  {
    LinkOfOption(history, i, j);
    CursorIsLatestSelection(history[..i], k);
  }

  // ---------------------------------------------------------------------------
  // The selection path
  // ---------------------------------------------------------------------------

  /** The elements of `s` that satisfy `p`, in order. */
  function Filter<T>(s: seq<T>, p: T -> bool): (r: seq<T>)
    ensures |r| <= |s|
    ensures forall x :: x in r ==> x in s && p(x)
    decreases |s|
  {
    if |s| == 0 then []
    else Filter(s[..|s| - 1], p) + (if p(s[|s| - 1]) then [s[|s| - 1]] else [])
  }

  lemma {:induction false} FilterConcat<T>(a: seq<T>, b: seq<T>, p: T -> bool)
    ensures Filter(a + b, p) == Filter(a, p) + Filter(b, p)
    decreases |b|
  {
    if |b| == 0 {
      assert a + b == a;
    } else {
      assert (a + b)[..|a + b| - 1] == a + b[..|b| - 1];
      FilterConcat(a, b[..|b| - 1], p);
    }
  }

  lemma {:induction false} FilterNone<T>(s: seq<T>, p: T -> bool)
    requires forall j :: 0 <= j < |s| ==> !p(s[j])
    ensures Filter(s, p) == []
    decreases |s|
  {
    if |s| > 0 {
      FilterNone(s[..|s| - 1], p);
    }
  }

  lemma {:induction false} FilterSingle<T>(s: seq<T>, p: T -> bool, k: nat)
    requires k < |s| && p(s[k])
    requires forall j :: 0 <= j < |s| && j != k ==> !p(s[j])
    ensures Filter(s, p) == [s[k]]
    decreases |s|
  {
    if k == |s| - 1 {
      FilterNone(s[..k], p);
    } else {
      FilterSingle(s[..|s| - 1], p, k);
    }
  }

  predicate IsHeavy(l: GraphLink) {
    l.value == 2
  }

  predicate IsSelectedNode(n: GraphNode) {
    n.kind == Selected
  }

  /** Every turn has a selection, and it is one of the turn's options. */
  predicate SelectionsOffered(history: seq<Turn>) {
    forall i :: 0 <= i < |history| ==>
      history[i].selectedCard.Some? && history[i].selectedCard.value in history[i].options
  }

  /** Within each batch no two options share an id. */
  predicate UniqueIdsPerBatch(history: seq<Turn>) {
    forall i, a, b :: 0 <= i < |history| && 0 <= a < b < |history[i].options| ==>
      history[i].options[a].id != history[i].options[b].id
  }

  /** Root → s1 → … → sk as weight-2 links, for the selections s1 … sk. */
  function SelectionChain(history: seq<Turn>): seq<GraphLink>
    requires forall i :: 0 <= i < |history| ==> history[i].selectedCard.Some?
  {
    seq(|history|, i requires 0 <= i < |history| =>
      GraphLink(if i == 0 then RootId else history[i - 1].selectedCard.value.id,
                history[i].selectedCard.value.id, 2))
  }

  /** The node of each selection, with its round. */
  function SelectedPath(history: seq<Turn>): seq<GraphNode>
    requires forall i :: 0 <= i < |history| ==> history[i].selectedCard.Some?
  {
    seq(|history|, i requires 0 <= i < |history| =>
      var c := history[i].selectedCard.value;
      GraphNode(c.id, c.title, Selected, i + 1, Some(c.description)))
  }

  /** Index of the selected card within a batch. */
  lemma SelectedIndex(turn: Turn) returns (k: nat)
    requires turn.selectedCard.Some? && turn.selectedCard.value in turn.options
    requires forall a, b :: 0 <= a < b < |turn.options| ==> turn.options[a].id != turn.options[b].id
    ensures k < |turn.options| && turn.options[k] == turn.selectedCard.value
    ensures forall j :: 0 <= j < |turn.options| && j != k ==> !IsSelected(turn.options[j], turn)
  {
    k :| 0 <= k < |turn.options| && turn.options[k] == turn.selectedCard.value;
    forall j | 0 <= j < |turn.options| && j != k
      ensures !IsSelected(turn.options[j], turn)
    {
      if j < k {
        assert turn.options[j].id != turn.options[k].id;
      } else {
        assert turn.options[k].id != turn.options[j].id;
      }
    }
  }

  /** A turn without a selection adds neither a selected node nor a weight-2
      link. */
  lemma UnselectedTurnAddsNoPath(turn: Turn, roundNum: int, source: string)
    requires turn.selectedCard.None?
    ensures Filter(TurnNodes(turn, roundNum), IsSelectedNode) == []
    ensures Filter(TurnLinks(turn, source), IsHeavy) == []
  {
    FilterNone(TurnNodes(turn, roundNum), IsSelectedNode);
    FilterNone(TurnLinks(turn, source), IsHeavy);
  }

  /** A turn whose selection is one of its uniquely-identified options adds
      exactly one selected node and exactly one weight-2 link, both for the
      selected card. */
  lemma SelectedTurnAddsOneStep(turn: Turn, roundNum: int, source: string)
    requires turn.selectedCard.Some? && turn.selectedCard.value in turn.options
    requires forall a, b :: 0 <= a < b < |turn.options| ==> turn.options[a].id != turn.options[b].id
    ensures var c := turn.selectedCard.value;
            Filter(TurnNodes(turn, roundNum), IsSelectedNode)
              == [GraphNode(c.id, c.title, Selected, roundNum, Some(c.description))]
    ensures Filter(TurnLinks(turn, source), IsHeavy)
              == [GraphLink(source, turn.selectedCard.value.id, 2)]
  {
    var k := SelectedIndex(turn);
    FilterSingle(TurnNodes(turn, roundNum), IsSelectedNode, k);
    FilterSingle(TurnLinks(turn, source), IsHeavy, k);
  }

  lemma PrefixConditions(history: seq<Turn>)
    requires |history| > 0
    requires SelectionsOffered(history) && UniqueIdsPerBatch(history)
    ensures SelectionsOffered(Front(history)) && UniqueIdsPerBatch(Front(history))
  {
  }

  /** When every turn selected one of its own options and ids are unique per
      batch, the weight-2 links are exactly root → s1 → … → sk, one per turn,
      in round order. */
  lemma {:induction false} HeavyLinksFormChain(history: seq<Turn>)
    requires SelectionsOffered(history) && UniqueIdsPerBatch(history)
    ensures Filter(Links(history), IsHeavy) == SelectionChain(history)
    decreases |history|
  {
    var n := |history|;
    if n > 0 {
      var front := Front(history);
      var last := history[n - 1];
      PrefixConditions(history);
      HeavyLinksFormChain(front);
      var c := Cursor(front);
      SelectedTurnAddsOneStep(last, n, c);
      assert Links(history) == Links(front) + TurnLinks(last, c);
      FilterConcat(Links(front), TurnLinks(last, c), IsHeavy);
      SelectionChainSnoc(history);
    }
  }

  lemma SelectionChainSnoc(history: seq<Turn>)
    requires |history| > 0
    requires forall i :: 0 <= i < |history| ==> history[i].selectedCard.Some?
    ensures SelectionChain(history)
              == SelectionChain(Front(history))
                 + [GraphLink(Cursor(Front(history)), history[|history| - 1].selectedCard.value.id, 2)]
  {
  }

  /** Under the same conditions the selected-kind nodes, in list order, are
      the chosen cards in round order: the path reproduces the selections. */
  lemma {:induction false} SelectedNodesFormPath(history: seq<Turn>, rootTopic: string)
    requires SelectionsOffered(history) && UniqueIdsPerBatch(history)
    ensures Filter(Nodes(history, rootTopic), IsSelectedNode) == SelectedPath(history)
    decreases |history|
  {
    var n := |history|;
    if n > 0 {
      var front := Front(history);
      var last := history[n - 1];
      var c := last.selectedCard.value;
      PrefixConditions(history);
      SelectedNodesFormPath(front, rootTopic);
      SelectedTurnAddsOneStep(last, n, "");
      assert Nodes(history, rootTopic) == Nodes(front, rootTopic) + TurnNodes(last, n);
      FilterConcat(Nodes(front, rootTopic), TurnNodes(last, n), IsSelectedNode);
      SelectedPathSnoc(history);
    }
  }

  lemma SelectedPathSnoc(history: seq<Turn>)
    requires |history| > 0
    requires forall i :: 0 <= i < |history| ==> history[i].selectedCard.Some?
    ensures var c := history[|history| - 1].selectedCard.value;
            SelectedPath(history)
              == SelectedPath(Front(history)) + [GraphNode(c.id, c.title, Selected, |history|, Some(c.description))]
  {
  }
}
