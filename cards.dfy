/**
 * The card elements the ticket cards are made of, as a closed variant in place of the
 * AdaptiveCards object model. Weight, size, spacing, wrapping and the card version are not modelled.
 */
module Cards {
  import opened Wrappers

  /** A body element: a text block, or a two-column row with a caption (the label) on the left and a value on the right. */
  datatype Element =
    | TextBlock(text: string)
    | ColumnPair(caption: string, value: Option<string>)

  /** The Teams card action a submit action carries: a task-module fetch, or a message sent back with the given text. */
  datatype TeamsAction = FetchAction | MessageBackAction(text: string)

  /** The bot commands a card action can post; only the edit command occurs on these cards. */
  datatype Command = EditRequestAction

  /** An action under a card: a submit button with its data, or a button that opens a nested card. */
  datatype Action =
    | SubmitAction(title: string, teamsAction: TeamsAction, command: Option<Command>, postedValues: Option<string>)
    | ShowCardAction(title: string, card: Card)

  /** A card: its body elements in reading order, then its actions in display order. */
  datatype Card = Card(body: seq<Element>, actions: seq<Action>)

  /** The labelled rows of a body, in reading order, as (caption, value) pairs. */
  function Columns(body: seq<Element>): (r: seq<(string, Option<string>)>)
    ensures |r| <= |body|
    ensures |r| == |body| ==> forall i :: 0 <= i < |body| ==> body[i].ColumnPair?
  {
    if body == [] then []
    else
      var head := match body[0]
        case ColumnPair(caption, value) => [(caption, value)]
        case TextBlock(_) => [];
      head + Columns(body[1..])
  }

  /** A single element contributes its own row if it is a labelled row, and nothing otherwise. */
  lemma ColumnsOne(e: Element)
    ensures Columns([e]) == if e.ColumnPair? then [(e.caption, e.value)] else []
  {
  }

  /** Reading the rows of a body built piece by piece is reading the rows of each piece in turn. */
  lemma {:induction false} ColumnsAppend(a: seq<Element>, b: seq<Element>)
    ensures Columns(a + b) == Columns(a) + Columns(b)
  {
    if a == [] {
      assert a + b == b;
    } else {
      assert (a + b)[0] == a[0];
      assert (a + b)[1..] == a[1..] + b;
      ColumnsAppend(a[1..], b);
    }
  }
}
