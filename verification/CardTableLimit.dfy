/** No phase of the budget adds a table, so the cap on the whole card holds to the end. */
module CardTableLimit {
  import opened Texts
  import opened Truncate
  import opened CardBudget
  import opened CardBudgetLaws
  import M = MarkdownTables

  // ---- cutting a text ----

  /** The lines of two texts, the last of the one run into the first of the other. */
  function RunOn(x: seq<Text>, y: seq<Text>): seq<Text>
    requires x != [] && y != []
  {
    x[..|x| - 1] + [x[|x| - 1] + y[0]] + y[1..]
  }

  lemma {:induction false} SplitConcat(a: Text, b: Text)
    ensures M.Split(a + b) == RunOn(M.Split(a), M.Split(b))
  {
    if a == [] {
      assert a + b == b;
      assert [] + M.Split(b)[0] == M.Split(b)[0];
    } else {
      SplitConcat(a[1..], b);
      assert (a + b)[1..] == a[1..] + b;
      RunOnUnit(a[0], M.Split(a[1..]), M.Split(b));
    }
  }

  /** What `Split` does with one more unit in front. */
  function Front(u: CodeUnit, lines: seq<Text>): seq<Text>
    requires lines != []
  {
    if u == M.NEWLINE then [[]] + lines else [[u] + lines[0]] + lines[1..]
  }

  lemma RunOnUnit(u: CodeUnit, x: seq<Text>, y: seq<Text>)
    requires x != [] && y != []
    ensures Front(u, RunOn(x, y)) == RunOn(Front(u, x), y)
  {
    if u != M.NEWLINE && |x| == 1 {
      assert [u] + (x[0] + y[0]) == [u] + x[0] + y[0];
    }
  }

  /** Lines of a text ending in the suffix: the last is no separator. */
  lemma SuffixedLine(line: Text)
    ensures !M.IsSeparator(line + SUFFIX)
  {
    var s := line + SUFFIX;
    assert s[|s| - 1] == 0xFF09;
    M.TrimStartKeeps(s);
  }

  lemma SuffixIsOneLine()
    ensures M.Split(SUFFIX) == [SUFFIX]
  {
    M.SplitOfLine(SUFFIX, []);
  }

  lemma PrefixAddsNoTable(p: Text, rest: Text)
    ensures M.Tables(p + SUFFIX) <= M.Tables(p + rest)
  {
    SplitConcat(p, SUFFIX);
    SuffixIsOneLine();
    SplitConcat(p, rest);
    SuffixedLine(M.Split(p)[|M.Split(p)| - 1]);
    RunOnCounts(M.Split(p), M.Split(rest));
  }

  lemma RunOnCounts(x: seq<Text>, y: seq<Text>)
    requires x != [] && y != [] && !M.IsSeparator(x[|x| - 1] + SUFFIX)
    ensures M.CountTables(RunOn(x, [SUFFIX])) <= M.CountTables(RunOn(x, y))
  {
    hide M.IsSeparator, M.CountTables;
    var full := x[..|x| - 1];
    assert RunOn(x, [SUFFIX]) == full + [x[|x| - 1] + SUFFIX];
    assert RunOn(x, y) == full + ([x[|x| - 1] + y[0]] + y[1..]);
    M.CountConcat(full, [x[|x| - 1] + SUFFIX]);
    M.CountOne(x[|x| - 1] + SUFFIX);
    M.CountConcat(full, [x[|x| - 1] + y[0]] + y[1..]);
  }

  /** A text with no `|` in it has no table. */
  lemma NoPipeNoTable(text: Text)
    requires M.PIPE !in text
    ensures M.Tables(text) == 0
  {
    SplitKeepsUnits(text);
    NoSeparators(M.Split(text), |M.Split(text)|);
  }

  lemma {:induction false} SplitKeepsUnits(text: Text)
    ensures forall i, u | 0 <= i < |M.Split(text)| && u in M.Split(text)[i] :: u in text
  {
    if text != [] {
      SplitKeepsUnits(text[1..]);
      var r := M.Split(text[1..]);
      assert forall u | u in text[1..] :: u in text;
      assert forall i | 0 <= i < |M.Split(text)| :: M.Split(text)[i] == [] || M.Split(text)[i] in r || M.Split(text)[i] == [text[0]] + r[0];
      assert forall i, u | 0 <= i < |r| && u in r[i] :: u in text;
    }
  }

  lemma {:induction false} NoSeparators(lines: seq<Text>, n: nat)
    requires n <= |lines| && forall i | 0 <= i < |lines| :: M.PIPE !in lines[i]
    ensures M.CountUpTo(lines, n) == 0
  {
    if n > 0 {
      NoSeparators(lines, n - 1);
      TrimIsInside(lines[n - 1]);
    }
  }

  lemma TrimIsInside(line: Text)
    ensures forall u | u in M.Trim(line) :: u in line
  {
    TrimStartIsInside(line);
    TrimEndIsInside(M.TrimStart(line));
  }

  lemma {:induction false} TrimStartIsInside(line: Text)
    ensures forall u | u in M.TrimStart(line) :: u in line
  {
    if line != [] {
      TrimStartIsInside(line[1..]);
    }
  }

  lemma {:induction false} TrimEndIsInside(line: Text)
    ensures forall u | u in M.TrimEnd(line) :: u in line
  {
    if line != [] {
      TrimEndIsInside(line[..|line| - 1]);
    }
  }

  /** Cutting a text by bytes adds no table to it. */
  lemma TruncationAddsNoTable(value: Text, maxBytes: nat)
    ensures M.Tables(TruncateUtf8(value, maxBytes, false, SUFFIX)) <= M.Tables(value)
  {
    hide ByteLength, FitHead, M.Tables;
    NoPipeNoTable(SUFFIX);
    var budget := maxBytes - ByteLength(SUFFIX);
    if ByteLength(value) > maxBytes && budget > 0 {
      HeadIsPrefix(value, budget);
      var p := FitHead(value, budget);
      PrefixAddsNoTable(p, value[|p|..]);
    }
  }

  lemma HeadIsPrefix(value: Text, budget: nat)
    ensures var p := FitHead(value, budget);
            p <= value && value == p + value[|p|..]
  {
    FitHeadIsLongest(value, budget);
    hide FitHead;
    var p := FitHead(value, budget);
    assert p == value[..|p|];
  }

  // ---- cutting a card ----

  function TablesIn(els: seq<Element>): nat {
    M.Total(Fields(els))
  }

  lemma TablesHead(els: seq<Element>)
    requires els != []
    ensures TablesIn(els) == M.Total(FieldsOf(els[0])) + TablesIn(els[1..])
  {
    hide M.Total, FieldsOf;
    M.TotalConcat(FieldsOf(els[0]), Fields(els[1..]));
  }

  lemma {:induction false} DropPanelsAddsNoTable(els: seq<Element>, n: nat)
    ensures TablesIn(DropPanels(els, n)) <= TablesIn(els)
  {
    hide M.Total, FieldsOf;
    if els != [] && n > 0 {
      TablesHead(els);
      if els[0].tag.Panel? {
        DropPanelsAddsNoTable(els[1..], n - 1);
      } else {
        DropPanelsAddsNoTable(els[1..], n);
        TablesHead(DropPanels(els, n));
        assert DropPanels(els, n)[1..] == DropPanels(els[1..], n);
      }
    }
  }

  lemma {:induction false} EachNoMore(a: seq<Element>, b: seq<Element>)
    requires |a| == |b| && forall i | 0 <= i < |a| :: M.Total(FieldsOf(a[i])) <= M.Total(FieldsOf(b[i]))
    ensures TablesIn(a) <= TablesIn(b)
  {
    hide M.Total, FieldsOf;
    if a != [] {
      TablesHead(a);
      TablesHead(b);
      assert forall i | 0 <= i < |a[1..]| :: a[1..][i] == a[i + 1] && b[1..][i] == b[i + 1];
      EachNoMore(a[1..], b[1..]);
    }
  }

  lemma FieldsOfText(e: Element)
    requires e.text.Some? && e.text.value.markdown
    ensures M.Total(FieldsOf(e)) == M.Tables(e.text.value.content) + M.Total(Fields(e.elements) + ColumnFields(e.columns))
  {
    hide M.Tables, M.Total, Fields, ColumnFields;
    var rest := Fields(e.elements) + ColumnFields(e.columns);
    assert FieldsOf(e) == [e.text.value.content] + rest;
    M.TotalConcat([e.text.value.content], rest);
    M.TotalOne(e.text.value.content);
  }

  lemma CutTextAddsNoTable(e: Element, maxBytes: nat)
    ensures M.Total(FieldsOf(CutText(e, maxBytes))) <= M.Total(FieldsOf(e))
  {
    hide M.Tables, M.Total, TruncateUtf8, FieldsOf, Fields, ColumnFields, ByteLength;
    if IsLong(e, maxBytes) {
      if e.text.value.markdown {
        TruncationAddsNoTable(e.text.value.content, maxBytes);
        FieldsOfText(e);
        FieldsOfText(CutText(e, maxBytes));
      } else {
        PlainFields(e, CutText(e, maxBytes));
      }
    }
  }

  lemma PlainFields(e: Element, cut: Element)
    requires e.text.Some? && !e.text.value.markdown && cut.text.Some? && !cut.text.value.markdown
    requires cut.elements == e.elements && cut.columns == e.columns
    ensures FieldsOf(cut) == FieldsOf(e)
  {
  }

  lemma CutTextsAddNoTable(els: seq<Element>, maxBytes: nat)
    ensures TablesIn(CutTexts(els, maxBytes)) <= TablesIn(els)
  {
    hide M.Total, FieldsOf, CutText;
    forall i | 0 <= i < |els|
      ensures M.Total(FieldsOf(CutTexts(els, maxBytes)[i])) <= M.Total(FieldsOf(els[i]))
    {
      CutTextAddsNoTable(els[i], maxBytes);
    }
    EachNoMore(CutTexts(els, maxBytes), els);
  }

  lemma CutPanelAddsNoTable(e: Element, maxBytes: nat)
    ensures M.Total(FieldsOf(CutPanel(e, maxBytes))) <= M.Total(FieldsOf(e))
  {
    if e.tag.Panel? {
      CutTextsAddNoTable(e.elements, maxBytes);
      var own := if e.text.Some? && e.text.value.markdown then [e.text.value.content] else [];
      var cut := CutTexts(e.elements, maxBytes);
      hide M.Total, Fields, ColumnFields, CutTexts;
      assert FieldsOf(e) == own + Fields(e.elements) + ColumnFields(e.columns);
      assert FieldsOf(CutPanel(e, maxBytes)) == own + Fields(cut) + ColumnFields(e.columns);
      M.TotalConcat(own + Fields(e.elements), ColumnFields(e.columns));
      M.TotalConcat(own + Fields(cut), ColumnFields(e.columns));
      M.TotalConcat(own, Fields(e.elements));
      M.TotalConcat(own, Fields(cut));
    }
  }

  lemma CutPanelsAddNoTable(els: seq<Element>, maxBytes: nat)
    ensures TablesIn(CutPanels(els, maxBytes)) <= TablesIn(els)
  {
    hide M.Total, FieldsOf, CutPanel;
    forall i | 0 <= i < |els|
      ensures M.Total(FieldsOf(CutPanels(els, maxBytes)[i])) <= M.Total(FieldsOf(els[i]))
    {
      CutPanelAddsNoTable(els[i], maxBytes);
    }
    EachNoMore(CutPanels(els, maxBytes), els);
  }

  lemma {:induction false} ShiftAddsNoTable(w: Work)
    ensures TablesIn(Shift(w).card.elements) <= TablesIn(w.card.elements)
    decreases |w.card.elements|
  {
    hide M.Total, Fields, Weights;
    if CountCardElements(w.card) > MAX_CARD_ELEMENTS && |w.card.elements| > 3 {
      TablesHead(w.card.elements);
      ShiftAddsNoTable(w.(card := w.card.(elements := w.card.elements[1..]), omitted := w.omitted + 1));
    }
  }

  /** Tables of a hint, were it to hold any. */
  function HintTables(w: Work, opts: Options): nat {
    if w.omitted == 0 then 0 else M.Tables(opts.hint(w.omitted))
  }

  lemma HintedTables(w: Work, opts: Options)
    ensures CardTables(WithHint(w, opts)) == CardTables(w.card) + HintTables(w, opts)
  {
    if w.omitted > 0 {
      var h := HintElement(w.omitted, opts);
      assert FieldsOf(h) == [opts.hint(w.omitted)];
      M.TotalOne(opts.hint(w.omitted));
      hide M.Tables, M.Total, Fields, FieldsOf;
      TablesHead([h] + w.card.elements);
      assert ([h] + w.card.elements)[1..] == w.card.elements;
    }
  }

  /** No hint holds a table; the default one does not. */
  ghost predicate PlainHints(opts: Options) {
    forall n :: M.Tables(opts.hint(n)) == 0
  }

  const HINT_BEFORE: Text := [0xD83D, 0xDCDC, 0x20, 0x8FD8, 0x6709, 0x20]
  const HINT_AFTER: Text := [0x20, 0x4E2A, 0x4E8B, 0x4EF6, 0x672A, 0x663E, 0x793A]

  /** Five panels, 2000 bytes a text, `📜 还有 n 个事件未显示`. */
  const DEFAULT_OPTIONS: Options := Options(5, 2000, (n: nat) => HINT_BEFORE + Decimal(n) + HINT_AFTER)

  lemma DefaultHintsArePlain()
    ensures PlainHints(DEFAULT_OPTIONS)
  {
    forall n: nat
      ensures M.Tables(DEFAULT_OPTIONS.hint(n)) == 0
    {
      assert forall u | u in Decimal(n) :: IsDigit(u);
      NoPipeNoTable(DEFAULT_OPTIONS.hint(n));
    }
  }

  lemma DropAddsNoTable(w: Work, n: nat)
    ensures CardTables(Drop(w, n).card) <= CardTables(w.card)
  {
    DropPanelsAddsNoTable(w.card.elements, n);
  }

  lemma MinimalHasNoTable()
    ensures CardTables(MINIMAL_CARD) == 0
  {
    NoPipeNoTable(MINIMAL_TEXT);
    hide M.Tables, M.Total;
    OneElementTables(MINIMAL_CARD.elements[0]);
    assert [MINIMAL_CARD.elements[0]] == MINIMAL_CARD.elements;
  }

  lemma OneElementTables(e: Element)
    requires e.text.Some? && e.text.value.markdown && e.elements == [] && e.columns == []
    ensures TablesIn([e]) == M.Tables(e.text.value.content)
  {
    hide M.Tables;
    assert [e][1..] == [];
    assert FieldsOf(e) == [e.text.value.content];
    assert Fields([e]) == [e.text.value.content];
    M.TotalOne(e.text.value.content);
  }

  lemma PhasesAddNoTable(card: Card, opts: Options)
    ensures var w1 := LimitPanels(CutPanelContents(Work(card, 0, 0), opts), opts);
            var w2 := DropAllPanels(w1);
            var w3 := CutTopLevel(w2, opts);
            && CardTables(w1.card) <= CardTables(card) && CardTables(w2.card) <= CardTables(card)
            && CardTables(w3.card) <= CardTables(card) && CardTables(Shift(w3).card) <= CardTables(card)
  {
    hide M.Total, Fields, CutPanels, CutTexts, LongCount, LongInPanels, Drop, Shift;
    var w0 := CutPanelContents(Work(card, 0, 0), opts);
    CutPanelsAddNoTable(card.elements, opts.maxPanelContentBytes);
    var w1 := LimitPanels(w0, opts);
    DropAddsNoTable(w0, if PanelCount(w0.card.elements) > opts.maxEventPanels then PanelCount(w0.card.elements) - opts.maxEventPanels else 0);
    DropAddsNoTable(w1, PanelCount(w1.card.elements));
    var w2 := DropAllPanels(w1);
    CutTextsAddNoTable(w2.card.elements, opts.maxPanelContentBytes);
    ShiftAddsNoTable(CutTopLevel(w2, opts));
  }

  lemma PlainHinted(w: Work, opts: Options)
    requires PlainHints(opts)
    ensures CardTables(WithHint(w, opts)) == CardTables(w.card)
  {
    hide CardTables, WithHint, M.Tables;
    HintedTables(w, opts);
    if w.omitted > 0 {
      assert M.Tables(opts.hint(w.omitted)) == 0;
    }
  }

  lemma ByteBudgetIs(card: Card, opts: Options)
    ensures var w1 := LimitPanels(CutPanelContents(Work(card, 0, 0), opts), opts);
            var w2 := DropAllPanels(w1);
            var w3 := CutTopLevel(w2, opts);
            var r := ByteBudget(card, opts).card;
            r == WithHint(w1, opts) || r == WithHint(w2, opts) || r == WithHint(w3, opts) || r == WithHint(Shift(w3), opts)
            || r == MINIMAL_CARD
  {
    hide Fits, LimitPanels, CutPanelContents, DropAllPanels, CutTopLevel, Shift, WithHint;
  }

  lemma ByteBudgetAddsNoTable(card: Card, opts: Options)
    requires PlainHints(opts)
    ensures CardTables(ByteBudget(card, opts).card) <= CardTables(card)
  {
    hide *;
    PhasesAddNoTable(card, opts);
    MinimalHasNoTable();
    ByteBudgetIs(card, opts);
    var w1 := LimitPanels(CutPanelContents(Work(card, 0, 0), opts), opts);
    var w2 := DropAllPanels(w1);
    var w3 := CutTopLevel(w2, opts);
    PlainHinted(w1, opts);
    PlainHinted(w2, opts);
    PlainHinted(w3, opts);
    PlainHinted(Shift(w3), opts);
  }

  lemma {:induction false} DropWhileAddsNoTable(card: Card)
    ensures CardTables(DropWhileTooMany(card)) <= CardTables(card)
    decreases |card.elements|
  {
    if CountCardElements(card) > MAX_CARD_ELEMENTS && PanelCount(card.elements) > 0 {
      DropPanelsAddsNoTable(card.elements, 1);
      DropWhileAddsNoTable(card.(elements := DropPanels(card.elements, 1)));
    }
  }

  lemma ElementBudgetAddsNoTable(card: Card, opts: Options)
    requires PlainHints(opts)
    ensures CardTables(ElementBudget(card, opts).card) <= CardTables(card)
  {
    hide *;
    ElementBudgetSplits(card, opts);
    DropWhileAddsNoTable(card);
    ByteBudgetAddsNoTable(DropWhileTooMany(card), opts);
  }

  lemma CappedTables(card: Card)
    ensures CardTables(CapTables(card, M.MAX_TABLES)) <= Max(M.MAX_TABLES, M.TotalStuck(Fields(card.elements)))
  {
    CapKeepsElements(card, M.MAX_TABLES);
    hide M.Total, M.TotalStuck, M.Cap, Fields, CapTables;
    M.CapBounds(Fields(card.elements), CardTables(card) - M.MAX_TABLES);
  }

  /** Five tables at most leave the budget, unless more fields than that begin with a
      separator line on its own. */
  lemma TableLimitHolds(card: Card, opts: Options)
    requires PlainHints(opts)
    ensures CardTables(Enforce(card, opts).card) <= Max(M.MAX_TABLES, M.TotalStuck(Fields(card.elements)))
  {
    hide *;
    EnforceSplits(card, opts);
    CapChangesOrNot(card, M.MAX_TABLES);
    CappedTables(card);
    var capped := CapTables(card, M.MAX_TABLES);
    ElementBudgetAddsNoTable(capped, opts);
    ByteBudgetAddsNoTable(capped, opts);
  }
}
