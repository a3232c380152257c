/**
 * The mind-map view: the card of one symbol (title, kind label and a doc
 * text cut at 120 characters with a show/hide toggle) and the choice of the
 * centre card and the ring of up to eight cards around it.
 */
module Graph {
  import opened Wrappers
  import opened Symbols
  import opened JsDoc

  /** Docs longer than this are cut on the card until expanded. */
  const MaxInlineDoc: nat := 120

  const Ellipsis: string := "..."

  /** The inline form of a doc: unchanged when short, else its first 120 characters and `"..."`. */
  function Truncate(doc: string): (t: string)
    ensures |doc| <= MaxInlineDoc ==> t == doc
    ensures |doc| > MaxInlineDoc ==> |t| == MaxInlineDoc + |Ellipsis|
    ensures |doc| > MaxInlineDoc ==> t[..MaxInlineDoc] == doc[..MaxInlineDoc] && t[MaxInlineDoc..] == Ellipsis
  {
    if |doc| > MaxInlineDoc then doc[..MaxInlineDoc] + Ellipsis else doc
  }

  /** Cutting an already cut doc changes nothing. */
  lemma TruncateIdempotent(doc: string)
    ensures Truncate(Truncate(doc)) == Truncate(doc)
  {
    if |doc| > MaxInlineDoc {
      var t := Truncate(doc);
      assert t[..MaxInlineDoc] + Ellipsis == t;
    }
  }

  /** The doc area of a card: the text shown, and the toggle button's label when there is one. */
  datatype DocPanel = DocPanel(text: string, button: Option<string>)

  /**
   * The doc area for `doc` when the card's `showFullDoc` flag is as given:
   * none for an empty doc, a button only for a doc too long to show inline.
   */
  function DocView(doc: string, showFullDoc: bool): (p: Option<DocPanel>)
    ensures p.None? <==> doc == ""
    ensures p.Some? ==> (p.value.button.Some? <==> |doc| > MaxInlineDoc)
    ensures p.Some? && p.value.button.Some? ==> p.value.button.value == (if showFullDoc then "Hide JSDoc" else "Show JSDoc")
    ensures p.Some? && showFullDoc ==> p.value.text == doc
    ensures p.Some? && !showFullDoc ==> p.value.text == Truncate(doc)
  {
    if doc == "" then None
    else
      var text := if showFullDoc then doc else Truncate(doc);
      var button := if |doc| > MaxInlineDoc then Some(if showFullDoc then "Hide JSDoc" else "Show JSDoc") else None;
      Some(DocPanel(text, button))
  }

  /** A card's `showFullDoc` starts false. */
  const InitialShowFullDoc: bool := false

  /** The button's handler: `v => !v`. */
  function ToggleDoc(showFullDoc: bool): (b: bool)
    ensures b != showFullDoc
  {
    !showFullDoc
  }

  /**
   * A new card shows the inline form; pressing the button shows the whole
   * doc, and pressing it again restores the first view.
   */
  lemma ToggleCycle(doc: string)
    requires |doc| > MaxInlineDoc
    ensures DocView(doc, InitialShowFullDoc) == Some(DocPanel(Truncate(doc), Some("Show JSDoc")))
    ensures DocView(doc, ToggleDoc(InitialShowFullDoc)) == Some(DocPanel(doc, Some("Hide JSDoc")))
    ensures ToggleDoc(ToggleDoc(InitialShowFullDoc)) == InitialShowFullDoc
  {
  }

  /** For a doc short enough to show inline the flag makes no difference. */
  lemma ShortDocIgnoresFlag(doc: string, showFullDoc: bool)
    requires |doc| <= MaxInlineDoc
    ensures DocView(doc, showFullDoc) == DocView(doc, ToggleDoc(showFullDoc))
    ensures doc != "" ==> DocView(doc, showFullDoc) == Some(DocPanel(doc, None))
  {
  }

  /** What a card renders: title, kind label, and doc area. */
  datatype CardView = CardView(title: string, kind: KindLabel, doc: Option<DocPanel>)

  /** `SymbolCard`, given the symbol object as `getSymbolJSDoc` sees it. */
  function Card(symbol: Symbol, value: SymbolValue, kindMap: map<string, string>, showFullDoc: bool): (c: CardView)
    ensures c.title == symbol.name
    ensures c.kind == LabelOf(kindMap, symbol.kind)
    ensures c.doc == DocView(GetSymbolJSDoc(value), showFullDoc)
  {
    CardView(symbol.name, LabelOf(kindMap, symbol.kind), DocView(GetSymbolJSDoc(value), showFullDoc))
  }

  /**
   * The symbol object a card receives is a normalised record from the host
   * side, which has no `jsDoc` or `documentation` property.
   */
  function AsValue(symbol: Symbol): (v: SymbolValue)
    ensures v.Record? && v.jsDoc == NoJsDoc && v.documentation == NoDoc
  {
    Record(NoJsDoc, NoDoc)
  }

  /** So the cards of normalised symbols never show a doc area. */
  lemma NormalizedCardHasNoDoc(symbol: Symbol, kindMap: map<string, string>, showFullDoc: bool)
    ensures Card(symbol, AsValue(symbol), kindMap, showFullDoc).doc == None
  {
  }

  /**
   * The webview is started without a kind table, and the `data` message's
   * table is not read, so a card labels every kind by its number.
   */
  lemma CardKindWithoutTable(symbol: Symbol, value: SymbolValue, showFullDoc: bool)
    ensures Card(symbol, value, map[], showFullDoc).kind == Numeric(symbol.kind)
  {
  }

  /** At most this many cards are placed around the centre. */
  const MaxRing: nat := 8

  /** The cards `SymbolGraph` draws: the centre and the ring in clockwise order. */
  datatype Layout = Layout(centre: Symbol, ring: seq<Symbol>)

  function Min(a: int, b: int): int
  {
    if a <= b then a else b
  }

  /**
   * `SymbolGraph`'s choice: nothing for no symbols; else `symbols[0]` in the
   * centre and `symbols.slice(1, Math.min(9, symbols.length))` around it.
   */
  function SelectNodes(symbols: seq<Symbol>): (r: Option<Layout>)
    ensures r.None? <==> symbols == []
    ensures r.Some? ==> r.value.centre == symbols[0]
    ensures r.Some? ==> |r.value.ring| == Min(MaxRing, |symbols| - 1)
    ensures r.Some? ==> forall i :: 0 <= i < |r.value.ring| ==> r.value.ring[i] == symbols[i + 1]
  {
    if symbols == [] then None
    else Some(Layout(symbols[0], symbols[1..Min(MaxRing + 1, |symbols|)]))
  }

  /**
   * The cards drawn are the leading `min(9, n)` symbols, the centre first;
   * the symbols after the ninth never affect the layout.
   */
  lemma SelectionIsPrefix(symbols: seq<Symbol>, more: seq<Symbol>)
    requires symbols != []
    ensures var l := SelectNodes(symbols).value;
      [l.centre] + l.ring == symbols[..Min(MaxRing + 1, |symbols|)]
    ensures |symbols| >= MaxRing + 1 ==> SelectNodes(symbols + more) == SelectNodes(symbols)
  {
    var l := SelectNodes(symbols).value;
    assert ([l.centre] + l.ring)[0] == symbols[0];
    if |symbols| >= MaxRing + 1 {
      var l2 := SelectNodes(symbols + more).value;
      assert l2.ring == l.ring;
    }
  }
}
