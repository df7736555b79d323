/** The Microsoft Teams message the notifier posts: a "message" carrying
    Adaptive Card attachments (schema version 1.0), as a tree of values.
    Each JSON object's "type" is the constructor's name; a property the
    source leaves out of the literal is `None`. */
module Card {
  import opened Wrappers

  const MessageType := "message"
  const AdaptiveCardContentType := "application/vnd.microsoft.card.adaptive"
  const AdaptiveCardSchema := "http://adaptivecards.io/schemas/adaptive-card.json"
  const AdaptiveCardType := "AdaptiveCard"
  const CardVersion := "1.0"

  datatype Fact = Fact(title: string, value: string)

  /** An "Action.OpenUrl" button. */
  datatype Action = OpenUrl(title: string, url: string)

  datatype Element =
    | Container(style: Option<string>, items: seq<Element>)
    | TextBlock(text: string, weight: Option<string>, size: Option<string>,
                wrap: Option<bool>, spacing: Option<string>, isSubtle: Option<bool>)
    | ColumnSet(columns: seq<Column>)
    | Image(url: string, altText: string, imageSize: string, imageStyle: string)
    | FactSet(facts: seq<Fact>)

  datatype Column = Column(width: string, columnItems: seq<Element>)

  datatype AdaptiveCard = AdaptiveCard(
    schema: string,
    cardType: string,
    version: string,
    msteamsWidth: Option<string>,
    body: seq<Element>,
    actions: Option<seq<Action>>)

  datatype Attachment = Attachment(contentType: string, content: AdaptiveCard)

  datatype Message = Message(messageType: string, attachments: seq<Attachment>)

  // ---- Queries over the element tree, in document order ----

  /** Every fact of every FactSet, in document order. */
  function Facts(es: seq<Element>): seq<Fact>
    decreases es, 1
  {
    if es == [] then [] else ElementFacts(es[0]) + Facts(es[1..])
  }

  function ElementFacts(e: Element): seq<Fact>
    decreases e, 0
  {
    match e
    case Container(_, items) => Facts(items)
    case ColumnSet(cols) => ColumnFacts(cols)
    case FactSet(fs) => fs
    case _ => []
  }

  function ColumnFacts(cs: seq<Column>): seq<Fact>
    decreases cs
  {
    if cs == [] then [] else Facts(cs[0].columnItems) + ColumnFacts(cs[1..])
  }

  /** The number of FactSet elements anywhere in the tree. */
  function FactSetCount(es: seq<Element>): nat
    decreases es, 1
  {
    if es == [] then 0 else ElementFactSetCount(es[0]) + FactSetCount(es[1..])
  }

  function ElementFactSetCount(e: Element): nat
    decreases e, 0
  {
    match e
    case Container(_, items) => FactSetCount(items)
    case ColumnSet(cols) => ColumnFactSetCount(cols)
    case FactSet(_) => 1
    case _ => 0
  }

  function ColumnFactSetCount(cs: seq<Column>): nat
    decreases cs
  {
    if cs == [] then 0 else FactSetCount(cs[0].columnItems) + ColumnFactSetCount(cs[1..])
  }

  /** The text of every TextBlock, in document order. */
  function Texts(es: seq<Element>): seq<string>
    decreases es, 1
  {
    if es == [] then [] else ElementTexts(es[0]) + Texts(es[1..])
  }

  function ElementTexts(e: Element): seq<string>
    decreases e, 0
  {
    match e
    case Container(_, items) => Texts(items)
    case TextBlock(text, _, _, _, _, _) => [text]
    case ColumnSet(cols) => ColumnTexts(cols)
    case _ => []
  }

  function ColumnTexts(cs: seq<Column>): seq<string>
    decreases cs
  {
    if cs == [] then [] else Texts(cs[0].columnItems) + ColumnTexts(cs[1..])
  }

  /** The number of action buttons of a card; a card with no "actions"
      property has none. */
  function ActionCount(c: AdaptiveCard): nat
  {
    match c.actions
    case None => 0
    case Some(acts) => |acts|
  }

  /** The queries on a body of one, two or three elements, and on two
      columns, unfolded. */
  lemma QueriesOfOne(a: Element)
    ensures Facts([a]) == ElementFacts(a)
    ensures FactSetCount([a]) == ElementFactSetCount(a)
    ensures Texts([a]) == ElementTexts(a)
  {
    assert [a][1..] == [];
  }

  lemma QueriesOfTwo(a: Element, b: Element)
    ensures Facts([a, b]) == ElementFacts(a) + ElementFacts(b)
    ensures FactSetCount([a, b]) == ElementFactSetCount(a) + ElementFactSetCount(b)
    ensures Texts([a, b]) == ElementTexts(a) + ElementTexts(b)
  {
    assert [a, b][1..] == [b];
    QueriesOfOne(b);
  }

  lemma QueriesOfThree(a: Element, b: Element, c: Element)
    ensures Facts([a, b, c]) == ElementFacts(a) + ElementFacts(b) + ElementFacts(c)
    ensures FactSetCount([a, b, c]) == ElementFactSetCount(a) + ElementFactSetCount(b) + ElementFactSetCount(c)
    ensures Texts([a, b, c]) == ElementTexts(a) + ElementTexts(b) + ElementTexts(c)
  {
    assert [a, b, c][1..] == [b, c];
    QueriesOfTwo(b, c);
  }

  lemma QueriesOfTwoColumns(c: Column, d: Column)
    ensures ColumnFacts([c, d]) == Facts(c.columnItems) + Facts(d.columnItems)
    ensures ColumnFactSetCount([c, d]) == FactSetCount(c.columnItems) + FactSetCount(d.columnItems)
    ensures ColumnTexts([c, d]) == Texts(c.columnItems) + Texts(d.columnItems)
  {
    assert [c, d][1..] == [d];
    assert [d][1..] == [];
    assert ColumnFacts([d]) == Facts(d.columnItems);
    assert ColumnFactSetCount([d]) == FactSetCount(d.columnItems);
    assert ColumnTexts([d]) == Texts(d.columnItems);
  }
}
