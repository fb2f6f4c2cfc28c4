/** The records shared by the turn engine, the generator client and the graph
    builder (types.ts). */
module Types {
  import opened Wrappers

  /** A knowledge card offered by the generator; the icon is optional. */
  datatype Card = Card(
    id: string,
    title: string,
    description: string,
    reasoning: string,
    icon: Option<string>)

  /** One round of the journey: the batch that was offered and the card that
      was picked from it, which consumers must allow to be absent. */
  datatype Turn = Turn(round: int, options: seq<Card>, selectedCard: Option<Card>)

  /** The four phases of a session. */
  datatype GameStatus = Idle | Loading | Playing | Summary

  /** The three kinds of graph node. */
  datatype NodeKind = Root | Selected | Discarded

  /** A node of the knowledge graph; the description is optional. */
  datatype GraphNode = GraphNode(
    id: string,
    labelText: string,  // `label` in the source, a reserved word here
    kind: NodeKind,
    round: int,
    description: Option<string>)

  /** An edge of the knowledge graph with its numeric weight. */
  datatype GraphLink = GraphLink(source: string, target: string, value: int)
}
