/** What a static card may hold: at most five tables, ninety elements and 28,000 bytes.
    A card over any of these is cut down step by step, the oldest parts first. */
module CardBudget {
  import opened Texts
  import opened Truncate
  import MarkdownTables

  const CARD_BUDGET_BYTES: nat := 28_000
  const MAX_CARD_ELEMENTS: nat := 90

  datatype Tag = Panel | Div | OtherTag

  datatype Field = Field(markdown: bool, content: Text)

  /** `id` is a history: it tells which element of the original card this is. `frame` is
      the markup the element adds to the JSON text besides its text and children, and
      `inner` the elements held under other keys. */
  datatype Element = Element(
    id: nat,
    tag: Tag,
    text: Option<Field>,
    elements: seq<Element>,
    columns: seq<Column>,
    frame: nat,
    inner: nat)

  datatype Column = Column(elements: seq<Element>, frame: nat)

  /** `rest` are the elements outside the body. */
  datatype Card = Card(frame: nat, rest: nat, elements: seq<Element>)

  datatype Options = Options(maxEventPanels: nat, maxPanelContentBytes: nat, hint: nat -> Text)

  // ---- sizes ----

  /** Members of `elements` arrays, at any depth. */
  function Weight(e: Element): nat {
    1 + e.inner + Weights(e.elements) + ColumnWeights(e.columns)
  }

  function Weights(els: seq<Element>): nat {
    if els == [] then 0 else Weight(els[0]) + Weights(els[1..])
  }

  function ColumnWeights(columns: seq<Column>): nat {
    if columns == [] then 0 else Weights(columns[0].elements) + ColumnWeights(columns[1..])
  }

  function CountCardElements(card: Card): nat {
    card.rest + Weights(card.elements)
  }

  /** Bytes of one code point inside a JSON string. */
  function JsonCharBytes(c: Text): nat
    requires c != []
  {
    if |c| > 1 then 4
    else if c[0] == 0x22 || c[0] == 0x5C || c[0] == 8 || c[0] == 9 || c[0] == 10 || c[0] == 12 || c[0] == 13 then 2
    else if c[0] < 0x20 || IsHigh(c[0]) || IsLow(c[0]) then 6
    else CharBytes(c)
  }

  function JsonSum(chars: seq<Text>): nat
    requires forall i | 0 <= i < |chars| :: chars[i] != []
  {
    if chars == [] then 0 else JsonCharBytes(chars[0]) + JsonSum(chars[1..])
  }

  function TextBytes(text: Option<Field>): nat {
    if text.None? then 0 else JsonSum(Chars(text.value.content))
  }

  function ElementBytes(e: Element): nat {
    e.frame + TextBytes(e.text) + ListBytes(e.elements) + ColumnBytes(e.columns)
  }

  /** The members of an array and the commas between them. */
  function ListBytes(els: seq<Element>): nat {
    if els == [] then 0
    else ElementBytes(els[0]) + (if |els| > 1 then 1 else 0) + ListBytes(els[1..])
  }

  function ColumnBytes(columns: seq<Column>): nat {
    if columns == [] then 0
    else columns[0].frame + ListBytes(columns[0].elements) + (if |columns| > 1 then 1 else 0) + ColumnBytes(columns[1..])
  }

  function CardBytes(card: Card): nat {
    card.frame + ListBytes(card.elements)
  }

  // ---- tables ----

  /** The markdown texts of a tree, in document order. */
  function Fields(els: seq<Element>): seq<Text> {
    if els == [] then [] else FieldsOf(els[0]) + Fields(els[1..])
  }

  function FieldsOf(e: Element): seq<Text> {
    (if e.text.Some? && e.text.value.markdown then [e.text.value.content] else [])
    + Fields(e.elements) + ColumnFields(e.columns)
  }

  function ColumnFields(columns: seq<Column>): seq<Text> {
    if columns == [] then [] else Fields(columns[0].elements) + ColumnFields(columns[1..])
  }

  /** The same tree with its markdown texts taken from `contents`. */
  function Refill(els: seq<Element>, contents: seq<Text>): (r: seq<Element>)
    requires |contents| == |Fields(els)|
    ensures |r| == |els|
    decreases els
  {
    if els == [] then []
    else
      var n := |FieldsOf(els[0])|;
      [RefillOne(els[0], contents[..n])] + Refill(els[1..], contents[n..])
  }

  function RefillOne(e: Element, contents: seq<Text>): Element
    requires |contents| == |FieldsOf(e)|
    decreases e
  {
    var own := if e.text.Some? && e.text.value.markdown then 1 else 0;
    var n := own + |Fields(e.elements)|;
    e.(text := if own == 1 then Some(Field(true, contents[0])) else e.text,
       elements := Refill(e.elements, contents[own..n]),
       columns := RefillColumns(e.columns, contents[n..]))
  }

  function RefillColumns(columns: seq<Column>, contents: seq<Text>): (r: seq<Column>)
    requires |contents| == |ColumnFields(columns)|
    ensures |r| == |columns|
    decreases columns
  {
    if columns == [] then []
    else
      var n := |Fields(columns[0].elements)|;
      [columns[0].(elements := Refill(columns[0].elements, contents[..n]))] + RefillColumns(columns[1..], contents[n..])
  }

  function CardTables(card: Card): nat {
    MarkdownTables.Total(Fields(card.elements))
  }

  function CapTables(card: Card, maxTables: nat): Card {
    var fields := Fields(card.elements);
    card.(elements := Refill(card.elements, MarkdownTables.Cap(fields, MarkdownTables.Total(fields) - maxTables)))
  }

  // ---- panels ----

  function PanelCount(els: seq<Element>): (n: nat)
    ensures n <= |els|
  {
    if els == [] then 0 else (if els[0].tag.Panel? then 1 else 0) + PanelCount(els[1..])
  }

  /** Without the first `n` panels. */
  function DropPanels(els: seq<Element>, n: nat): (r: seq<Element>)
    ensures |r| == |els| - Min(n, PanelCount(els))
  {
    if els == [] || n == 0 then els
    else if els[0].tag.Panel? then DropPanels(els[1..], n - 1)
    else [els[0]] + DropPanels(els[1..], n)
  }

  /** The originals of the panels of a list, or of its other elements. */
  function Panels(els: seq<Element>): seq<nat> {
    if els == [] then [] else (if els[0].tag.Panel? then [els[0].id] else []) + Panels(els[1..])
  }

  function Others(els: seq<Element>): seq<nat> {
    if els == [] then [] else (if els[0].tag.Panel? then [] else [els[0].id]) + Others(els[1..])
  }

  // ---- contents ----

  predicate IsLong(e: Element, maxBytes: nat) {
    e.tag.Div? && e.text.Some? && e.text.value.content != [] && ByteLength(e.text.value.content) > maxBytes
  }

  function CutText(e: Element, maxBytes: nat): Element {
    if IsLong(e, maxBytes)
    then e.(text := Some(e.text.value.(content := TruncateUtf8(e.text.value.content, maxBytes, false, SUFFIX))))
    else e
  }

  function CutTexts(els: seq<Element>, maxBytes: nat): (r: seq<Element>)
    ensures |r| == |els| && forall i | 0 <= i < |r| :: r[i] == CutText(els[i], maxBytes)
  {
    seq(|els|, i requires 0 <= i < |els| => CutText(els[i], maxBytes))
  }

  function CutPanel(e: Element, maxBytes: nat): Element {
    if e.tag.Panel? then e.(elements := CutTexts(e.elements, maxBytes)) else e
  }

  function CutPanels(els: seq<Element>, maxBytes: nat): (r: seq<Element>)
    ensures |r| == |els| && forall i | 0 <= i < |r| :: r[i] == CutPanel(els[i], maxBytes)
  {
    seq(|els|, i requires 0 <= i < |els| => CutPanel(els[i], maxBytes))
  }

  /** How many texts of a list are cut. */
  function LongCount(els: seq<Element>, maxBytes: nat): nat {
    if els == [] then 0 else LongCount(els[..|els| - 1], maxBytes) + if IsLong(els[|els| - 1], maxBytes) then 1 else 0
  }

  function LongInPanels(els: seq<Element>, maxBytes: nat): nat {
    if els == [] then 0
    else LongInPanels(els[..|els| - 1], maxBytes)
         + if els[|els| - 1].tag.Panel? then LongCount(els[|els| - 1].elements, maxBytes) else 0
  }

  // ---- the byte budget, phase by phase ----

  /** A card on its way: what is left of it, how many elements went and whether a text
      was cut. */
  datatype Work = Work(card: Card, omitted: nat, cuts: nat)

  predicate Fits(w: Work) {
    CardBytes(w.card) <= CARD_BUDGET_BYTES
    && CountCardElements(w.card) + (if w.omitted > 0 then 1 else 0) <= MAX_CARD_ELEMENTS
  }

  const HINT_FRAME: nat := 51

  function HintElement(omitted: nat, opts: Options): Element {
    Element(0, Div, Some(Field(true, opts.hint(omitted))), [], [], HINT_FRAME, 0)
  }

  /** The card with the number of omitted elements told at its head. */
  function WithHint(w: Work, opts: Options): Card {
    if w.omitted == 0 then w.card else w.card.(elements := [HintElement(w.omitted, opts)] + w.card.elements)
  }

  function Drop(w: Work, n: nat): Work {
    w.(card := w.card.(elements := DropPanels(w.card.elements, n)),
       omitted := w.omitted + Min(n, PanelCount(w.card.elements)))
  }

  function CutPanelContents(w: Work, opts: Options): Work {
    w.(card := w.card.(elements := CutPanels(w.card.elements, opts.maxPanelContentBytes)),
       cuts := w.cuts + LongInPanels(w.card.elements, opts.maxPanelContentBytes))
  }

  function LimitPanels(w: Work, opts: Options): Work {
    if PanelCount(w.card.elements) > opts.maxEventPanels
    then Drop(w, PanelCount(w.card.elements) - opts.maxEventPanels)
    else w
  }

  function DropAllPanels(w: Work): Work {
    Drop(w, PanelCount(w.card.elements))
  }

  function CutTopLevel(w: Work, opts: Options): Work {
    w.(card := w.card.(elements := CutTexts(w.card.elements, opts.maxPanelContentBytes)),
       cuts := w.cuts + LongCount(w.card.elements, opts.maxPanelContentBytes))
  }

  /** From the front, while there are too many and more than three are left. */
  function Shift(w: Work): Work
    decreases |w.card.elements|
  {
    if CountCardElements(w.card) > MAX_CARD_ELEMENTS && |w.card.elements| > 3
    then Shift(w.(card := w.card.(elements := w.card.elements[1..]), omitted := w.omitted + 1))
    else w
  }

  const MINIMAL_ID: nat := 0

  /** The card of last resort: a header and one sentence. */
  const MINIMAL_TEXT: Text := [
    0x4F1A, 0x8BDD, 0x5185, 0x5BB9, 0x8FC7, 0x5927, 0xFF0C, 0x5DF2, 0x81EA, 0x52A8, 0x622A, 0x65AD, 0x3002, 0x0A,
    0x0A, 0x8BF7, 0x4F7F, 0x7528, 0x20, 0x60, 0x2F, 0x61, 0x63, 0x74, 0x69, 0x76, 0x65, 0x60, 0x20, 0x67E5, 0x770B,
    0x5B8C, 0x6574, 0x5217, 0x8868, 0x3002]

  const MINIMAL_CARD: Card := Card(169, 0, [Element(MINIMAL_ID, Div, Some(Field(true, MINIMAL_TEXT)), [], [], 51, 0)])

  datatype Result = Result(card: Card, wasTruncated: bool, minimal: bool)

  function Finish(w: Work, opts: Options, wasTruncated: bool): Result {
    Result(WithHint(w, opts), wasTruncated, false)
  }

  function ByteBudget(card: Card, opts: Options): Result {
    var w1 := LimitPanels(CutPanelContents(Work(card, 0, 0), opts), opts);
    if Fits(w1) then Finish(w1, opts, w1.cuts > 0 || w1.omitted > 0)
    else
      var w2 := DropAllPanels(w1);
      if Fits(w2) then Finish(w2, opts, true)
      else
        var w3 := CutTopLevel(w2, opts);
        if Fits(w3) then Finish(w3, opts, true)
        else if CountCardElements(w3.card) > MAX_CARD_ELEMENTS && Fits(Shift(w3)) then Finish(Shift(w3), opts, true)
        else Result(MINIMAL_CARD, true, true)
  }

  /** Panels go one at a time while there are too many elements. */
  function DropWhileTooMany(card: Card): Card
    decreases |card.elements|
  {
    if CountCardElements(card) > MAX_CARD_ELEMENTS && PanelCount(card.elements) > 0
    then DropWhileTooMany(card.(elements := DropPanels(card.elements, 1)))
    else card
  }

  function ElementBudget(card: Card, opts: Options): Result {
    var fewer := DropWhileTooMany(card);
    if CountCardElements(fewer) <= MAX_CARD_ELEMENTS && CardBytes(fewer) <= CARD_BUDGET_BYTES
    then Result(fewer, true, false)
    else ByteBudget(fewer, opts)
  }

  predicate WithinSizes(card: Card) {
    CardBytes(card) <= CARD_BUDGET_BYTES && CountCardElements(card) <= MAX_CARD_ELEMENTS
  }

  function Enforce(card: Card, opts: Options): Result {
    var capped := CapTables(card, MarkdownTables.MAX_TABLES);
    if CardTables(card) > CardTables(capped) then
      if WithinSizes(capped) then Result(capped, true, false) else ElementBudget(capped, opts)
    else if WithinSizes(card) then Result(card, false, false)
    else if CardBytes(card) <= CARD_BUDGET_BYTES then ElementBudget(capped, opts)
    else ByteBudget(card, opts)
  }
}
