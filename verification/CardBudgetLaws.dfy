/** What every card that has been through the budget can be relied on for. */
module CardBudgetLaws {
  import opened Texts
  import opened Truncate
  import opened CardBudget
  import M = MarkdownTables

  predicate IsSuffix<T(==)>(a: seq<T>, b: seq<T>) {
    |a| <= |b| && b[|b| - |a|..] == a
  }

  lemma SuffixOfSuffix<T>(a: seq<T>, b: seq<T>, c: seq<T>)
    requires IsSuffix(a, b) && IsSuffix(b, c)
    ensures IsSuffix(a, c)
  {
  }

  // ---- dropping panels ----

  lemma {:induction false} DropPanelsKeeps(els: seq<Element>, n: nat)
    ensures |Panels(els)| == PanelCount(els)
    ensures Panels(DropPanels(els, n)) == Panels(els)[Min(n, PanelCount(els))..]
    ensures Others(DropPanels(els, n)) == Others(els)
    ensures PanelCount(DropPanels(els, n)) == PanelCount(els) - Min(n, PanelCount(els))
  {
    if els != [] {
      DropPanelsKeeps(els[1..], if els[0].tag.Panel? && n > 0 then n - 1 else n);
      if n > 0 && !els[0].tag.Panel? {
        assert DropPanels(els, n)[1..] == DropPanels(els[1..], n);
      }
    }
  }

  /** Same tags and originals, element by element. */
  predicate SameElements(a: seq<Element>, b: seq<Element>) {
    |a| == |b| && forall i | 0 <= i < |a| :: a[i].id == b[i].id && a[i].tag == b[i].tag
  }

  lemma {:induction false} SameElementsKeep(a: seq<Element>, b: seq<Element>)
    requires SameElements(a, b)
    ensures Panels(a) == Panels(b) && Others(a) == Others(b) && PanelCount(a) == PanelCount(b)
  {
    if a != [] {
      assert forall i | 0 <= i < |a[1..]| :: a[1..][i] == a[i + 1] && b[1..][i] == b[i + 1];
      SameElementsKeep(a[1..], b[1..]);
    }
  }

  lemma {:induction false} SkeletonIgnoresContents(a: seq<Element>, b: seq<Element>)
    requires |a| == |b|
    requires forall i | 0 <= i < |a| :: a[i].tag == b[i].tag && (!a[i].tag.Panel? ==> a[i] == b[i])
    ensures DropPanels(a, PanelCount(a)) == DropPanels(b, PanelCount(b))
  {
    if a != [] {
      assert forall i | 0 <= i < |a[1..]| :: a[1..][i] == a[i + 1] && b[1..][i] == b[i + 1];
      SkeletonIgnoresContents(a[1..], b[1..]);
      if PanelCount(a) == 0 {
        NoPanelsNoDrop(a[1..]);
        NoPanelsNoDrop(b[1..]);
      }
      if PanelCount(b) == 0 {
        NoPanelsNoDrop(a[1..]);
        NoPanelsNoDrop(b[1..]);
      }
    }
  }

  lemma NoPanelsNoDrop(els: seq<Element>)
    requires PanelCount(els) == 0
    ensures DropPanels(els, 0) == els
  {
  }

  lemma {:induction false} DropInTwo(els: seq<Element>, n: nat)
    ensures DropPanels(DropPanels(els, n), PanelCount(DropPanels(els, n))) == DropPanels(els, PanelCount(els))
  {
    if els != [] && n > 0 {
      var rest := DropPanels(els, n);
      if els[0].tag.Panel? {
        DropInTwo(els[1..], n - 1);
      } else {
        DropInTwo(els[1..], n);
        assert rest[1..] == DropPanels(els[1..], n);
        if PanelCount(els) == 0 {
          DropPanelsKeeps(els[1..], n);
        }
      }
    }
  }

  // ---- weights ----

  lemma {:induction false} SameWeights(a: seq<Element>, b: seq<Element>)
    requires |a| == |b| && forall i | 0 <= i < |a| :: Weight(a[i]) == Weight(b[i])
    ensures Weights(a) == Weights(b)
  {
    if a != [] {
      assert forall i | 0 <= i < |a[1..]| :: a[1..][i] == a[i + 1] && b[1..][i] == b[i + 1];
      SameWeights(a[1..], b[1..]);
    }
  }

  lemma CutTextsKeepWeights(els: seq<Element>, maxBytes: nat)
    ensures Weights(CutTexts(els, maxBytes)) == Weights(els)
    ensures SameElements(CutTexts(els, maxBytes), els)
  {
    hide ByteLength, TruncateUtf8;
    SameWeights(CutTexts(els, maxBytes), els);
  }

  lemma CutPanelsKeepWeights(els: seq<Element>, maxBytes: nat)
    ensures Weights(CutPanels(els, maxBytes)) == Weights(els)
    ensures SameElements(CutPanels(els, maxBytes), els)
  {
    forall i | 0 <= i < |els|
      ensures Weight(CutPanels(els, maxBytes)[i]) == Weight(els[i])
    {
      CutTextsKeepWeights(els[i].elements, maxBytes);
    }
    SameWeights(CutPanels(els, maxBytes), els);
  }

  lemma {:induction false} NothingLongNothingCut(els: seq<Element>, maxBytes: nat)
    requires LongCount(els, maxBytes) == 0
    ensures CutTexts(els, maxBytes) == els
  {
    hide IsLong;
    if els != [] {
      NothingLongNothingCut(els[..|els| - 1], maxBytes);
      assert CutTexts(els, maxBytes)[..|els| - 1] == CutTexts(els[..|els| - 1], maxBytes);
      assert els == els[..|els| - 1] + [els[|els| - 1]];
    }
  }

  lemma {:induction false} NothingLongInPanels(els: seq<Element>, maxBytes: nat)
    requires LongInPanels(els, maxBytes) == 0
    ensures CutPanels(els, maxBytes) == els
  {
    if els != [] {
      NothingLongInPanels(els[..|els| - 1], maxBytes);
      if els[|els| - 1].tag.Panel? {
        NothingLongNothingCut(els[|els| - 1].elements, maxBytes);
      }
      assert CutPanels(els, maxBytes)[..|els| - 1] == CutPanels(els[..|els| - 1], maxBytes);
      assert els == els[..|els| - 1] + [els[|els| - 1]];
    }
  }

  // ---- what may survive ----

  /** An element as it was, or with its long texts cut: its own, or those in a panel. */
  predicate Derives(e: Element, was: Element, maxBytes: nat) {
    e == was || e == CutPanel(was, maxBytes) || e == CutText(was, maxBytes)
  }

  /** Each of `kept` derives from an element of `els`, in order, no two from the same. */
  predicate Survive(kept: seq<Element>, els: seq<Element>, maxBytes: nat) {
    kept == []
    || (els != [] &&
        (Survive(kept, els[1..], maxBytes) || (Derives(kept[0], els[0], maxBytes) && Survive(kept[1..], els[1..], maxBytes))))
  }

  lemma {:induction false} AllSurvive(kept: seq<Element>, els: seq<Element>, maxBytes: nat)
    requires |kept| == |els| && forall i | 0 <= i < |els| :: Derives(kept[i], els[i], maxBytes)
    ensures Survive(kept, els, maxBytes)
  {
    hide Derives;
    if els != [] {
      assert forall i | 0 <= i < |els[1..]| :: kept[1..][i] == kept[i + 1] && els[1..][i] == els[i + 1];
      AllSurvive(kept[1..], els[1..], maxBytes);
    }
  }

  lemma {:induction false} FewerSurvive(kept: seq<Element>, els: seq<Element>, maxBytes: nat, n: nat)
    requires Survive(kept, els, maxBytes)
    ensures Survive(DropPanels(kept, n), els, maxBytes)
    decreases |els|
  {
    hide Derives;
    if kept != [] && n > 0 {
      if Survive(kept, els[1..], maxBytes) {
        FewerSurvive(kept, els[1..], maxBytes, n);
      } else if kept[0].tag.Panel? {
        FewerSurvive(kept[1..], els[1..], maxBytes, n - 1);
      } else {
        FewerSurvive(kept[1..], els[1..], maxBytes, n);
        assert DropPanels(kept, n)[0] == kept[0] && DropPanels(kept, n)[1..] == DropPanels(kept[1..], n);
      }
    }
  }

  lemma {:induction false} RestSurvives(kept: seq<Element>, els: seq<Element>, maxBytes: nat)
    requires Survive(kept, els, maxBytes) && kept != []
    ensures Survive(kept[1..], els, maxBytes)
    decreases |els|
  {
    hide Derives;
    if Survive(kept, els[1..], maxBytes) {
      RestSurvives(kept, els[1..], maxBytes);
    }
  }

  lemma CutDerives(e: Element, was: Element, maxBytes: nat)
    requires Derives(e, was, maxBytes)
    ensures Derives(CutText(e, maxBytes), was, maxBytes)
  {
    if e == CutText(was, maxBytes) && IsLong(was, maxBytes) {
      HeadOnlyOnce(was.text.value.content, maxBytes, SUFFIX);
      hide TruncateUtf8, ByteLength;
    }
  }

  lemma {:induction false} CutSurvive(kept: seq<Element>, els: seq<Element>, maxBytes: nat)
    requires Survive(kept, els, maxBytes)
    ensures Survive(CutTexts(kept, maxBytes), els, maxBytes)
    decreases |els|
  {
    hide Derives, CutText;
    if kept != [] {
      if Survive(kept, els[1..], maxBytes) {
        CutSurvive(kept, els[1..], maxBytes);
      } else {
        CutDerives(kept[0], els[0], maxBytes);
        CutSurvive(kept[1..], els[1..], maxBytes);
        assert CutTexts(kept, maxBytes)[1..] == CutTexts(kept[1..], maxBytes);
      }
    }
  }

  /** What survives of a list without some panels survives of the list. */
  lemma {:induction false} SurviveThrough(kept: seq<Element>, els: seq<Element>, maxBytes: nat, n: nat)
    requires Survive(kept, DropPanels(els, n), maxBytes)
    ensures Survive(kept, els, maxBytes)
    decreases |els|
  {
    hide Derives;
    if kept != [] && els != [] && n > 0 {
      if els[0].tag.Panel? {
        SurviveThrough(kept, els[1..], maxBytes, n - 1);
      } else {
        assert DropPanels(els, n)[1..] == DropPanels(els[1..], n);
        if Survive(kept, DropPanels(els[1..], n), maxBytes) {
          SurviveThrough(kept, els[1..], maxBytes, n);
        } else {
          SurviveThrough(kept[1..], els[1..], maxBytes, n);
        }
      }
    }
  }

  // ---- one phase after another ----

  /** What is left of panels and of other elements is the newest part of each, and every
      element left is an original one, whole or with its long texts cut. */
  ghost predicate Left(kept: seq<Element>, els: seq<Element>, maxBytes: nat) {
    && IsSuffix(Panels(kept), Panels(els))
    && IsSuffix(Others(kept), Others(els))
    && Survive(kept, els, maxBytes)
  }

  /** What every phase keeps, measured against the card the budget was given. */
  ghost predicate Trimmed(w: Work, card: Card, maxBytes: nat) {
    && Left(w.card.elements, card.elements, maxBytes)
    && w.card.frame == card.frame && w.card.rest == card.rest
    && w.omitted == |card.elements| - |w.card.elements|
  }

  lemma DropKeepsTrimmed(w: Work, card: Card, maxBytes: nat, n: nat)
    requires Trimmed(w, card, maxBytes)
    ensures Trimmed(Drop(w, n), card, maxBytes)
  {
    hide Survive;
    DropPanelsKeeps(w.card.elements, n);
    FewerSurvive(w.card.elements, card.elements, maxBytes, n);
    SuffixOfSuffix(Panels(Drop(w, n).card.elements), Panels(w.card.elements), Panels(card.elements));
  }

  lemma CutPanelsTrim(card: Card, opts: Options)
    ensures Trimmed(CutPanelContents(Work(card, 0, 0), opts), card, opts.maxPanelContentBytes)
  {
    var cut := CutPanels(card.elements, opts.maxPanelContentBytes);
    CutPanelsKeepWeights(card.elements, opts.maxPanelContentBytes);
    SameElementsKeep(cut, card.elements);
    AllSurvive(cut, card.elements, opts.maxPanelContentBytes);
    hide CutPanels, Panels, Others, LongInPanels, Survive;
    SuffixOfItself(Panels(card.elements));
    SuffixOfItself(Others(card.elements));
  }

  lemma CutsKeepTrimmed(w: Work, card: Card, opts: Options)
    requires Trimmed(w, card, opts.maxPanelContentBytes)
    ensures Trimmed(CutTopLevel(w, opts), card, opts.maxPanelContentBytes)
  {
    CutTextsKeepWeights(w.card.elements, opts.maxPanelContentBytes);
    SameElementsKeep(CutTexts(w.card.elements, opts.maxPanelContentBytes), w.card.elements);
    CutSurvive(w.card.elements, card.elements, opts.maxPanelContentBytes);
    hide CutTexts, Panels, Others, LongCount, Survive;
  }

  lemma RestIsLeft(kept: seq<Element>, els: seq<Element>, maxBytes: nat)
    requires Left(kept, els, maxBytes) && kept != []
    ensures Left(kept[1..], els, maxBytes)
  {
    hide Survive;
    RestSurvives(kept, els, maxBytes);
    SuffixOfSuffix(Panels(kept[1..]), Panels(kept), Panels(els));
    SuffixOfSuffix(Others(kept[1..]), Others(kept), Others(els));
  }

  lemma {:induction false} ShiftKeepsTrimmed(w: Work, card: Card, maxBytes: nat)
    requires Trimmed(w, card, maxBytes)
    ensures Trimmed(Shift(w), card, maxBytes)
    decreases |w.card.elements|
  {
    hide Weights, Left;
    if CountCardElements(w.card) > MAX_CARD_ELEMENTS && |w.card.elements| > 3 {
      RestIsLeft(w.card.elements, card.elements, maxBytes);
      ShiftKeepsTrimmed(w.(card := w.card.(elements := w.card.elements[1..]), omitted := w.omitted + 1), card, maxBytes);
    }
  }

  lemma ByteBudgetTrims(card: Card, opts: Options)
    ensures var w1 := LimitPanels(CutPanelContents(Work(card, 0, 0), opts), opts);
            var w2 := DropAllPanels(w1);
            var w3 := CutTopLevel(w2, opts);
            var max := opts.maxPanelContentBytes;
            Trimmed(w1, card, max) && Trimmed(w2, card, max) && Trimmed(w3, card, max) && Trimmed(Shift(w3), card, max)
  {
    var max := opts.maxPanelContentBytes;
    var w0 := CutPanelContents(Work(card, 0, 0), opts);
    CutPanelsTrim(card, opts);
    hide Trimmed, Shift, CutPanelContents, CutTopLevel, Drop;
    var w1 := LimitPanels(w0, opts);
    if PanelCount(w0.card.elements) > opts.maxEventPanels {
      DropKeepsTrimmed(w0, card, max, PanelCount(w0.card.elements) - opts.maxEventPanels);
    }
    DropKeepsTrimmed(w1, card, max, PanelCount(w1.card.elements));
    CutsKeepTrimmed(DropAllPanels(w1), card, opts);
    ShiftKeepsTrimmed(CutTopLevel(DropAllPanels(w1), opts), card, max);
  }

  /** What is left of these elements, small enough, with the hint at its head when
      anything was omitted. */
  ghost predicate IsWhatIsLeft(r: Result, w: Work, els: seq<Element>, opts: Options) {
    r.card == WithHint(w, opts) && Fits(w) && Left(w.card.elements, els, opts.maxPanelContentBytes)
  }

  /** A result is the minimal card, or what is left of the elements it was made from. */
  ghost predicate Sound(r: Result, els: seq<Element>, opts: Options) {
    if r.minimal then r.card == MINIMAL_CARD else exists w :: IsWhatIsLeft(r, w, els, opts)
  }

  /** The number in the hint is the number of elements that went. */
  lemma HintTellsTheNumber(card: Card, opts: Options)
    ensures var r := ByteBudget(card, opts);
            !r.minimal ==> exists w :: IsWhatIsLeft(r, w, card.elements, opts) && w.omitted == |card.elements| - |w.card.elements|
  {
    ByteBudgetTrims(card, opts);
    var w1 := LimitPanels(CutPanelContents(Work(card, 0, 0), opts), opts);
    var w2 := DropAllPanels(w1);
    var w3 := CutTopLevel(w2, opts);
    var w4 := Shift(w3);
    var r := ByteBudget(card, opts);
    hide Fits, LimitPanels, CutPanelContents, DropAllPanels, CutTopLevel, Shift, WithHint, Left;
    if Fits(w1) {
      assert IsWhatIsLeft(r, w1, card.elements, opts);
    } else if Fits(w2) {
      assert IsWhatIsLeft(r, w2, card.elements, opts);
    } else if Fits(w3) {
      assert IsWhatIsLeft(r, w3, card.elements, opts);
    } else if Fits(w4) {
      assert IsWhatIsLeft(r, w4, card.elements, opts) || r.minimal;
    }
  }

  lemma ByteBudgetSound(card: Card, opts: Options)
    ensures Sound(ByteBudget(card, opts), card.elements, opts)
  {
    HintTellsTheNumber(card, opts);
    hide IsWhatIsLeft, Fits, LimitPanels, CutPanelContents, DropAllPanels, CutTopLevel, Shift;
  }

  /** The budget never calls a card that was too big untouched. */
  lemma ByteBudgetTellsTheTruth(card: Card, opts: Options)
    requires !WithinSizes(card)
    ensures ByteBudget(card, opts).wasTruncated
  {
    UncutMeansUnchanged(card, opts);
    hide LimitPanels, CutPanelContents, DropAllPanels, CutTopLevel, Shift, WithHint, Weights, ListBytes;
  }

  lemma UncutMeansUnchanged(card: Card, opts: Options)
    ensures var w1 := LimitPanels(CutPanelContents(Work(card, 0, 0), opts), opts);
            w1.cuts == 0 && w1.omitted == 0 ==> w1.card == card
  {
    var w0 := CutPanelContents(Work(card, 0, 0), opts);
    hide CutPanels, LongInPanels, DropPanels;
    if w0.cuts == 0 {
      NothingLongInPanels(card.elements, opts.maxPanelContentBytes);
    }
  }

  // ---- the element budget ----

  lemma {:induction false} DropWhileKeeps(card: Card)
    ensures var r := DropWhileTooMany(card);
            && IsSuffix(Panels(r.elements), Panels(card.elements)) && Others(r.elements) == Others(card.elements)
            && r.frame == card.frame && r.rest == card.rest
            && (CountCardElements(card) <= MAX_CARD_ELEMENTS ==> r == card)
    decreases |card.elements|
  {
    if CountCardElements(card) > MAX_CARD_ELEMENTS && PanelCount(card.elements) > 0 {
      var next := card.(elements := DropPanels(card.elements, 1));
      DropPanelsKeeps(card.elements, 1);
      DropWhileKeeps(next);
      SuffixOfSuffix(Panels(DropWhileTooMany(card).elements), Panels(next.elements), Panels(card.elements));
    }
  }

  lemma {:induction false} DropWhileSurvives(card: Card, kept: seq<Element>, maxBytes: nat)
    requires Survive(kept, DropWhileTooMany(card).elements, maxBytes)
    ensures Survive(kept, card.elements, maxBytes)
    decreases |card.elements|
  {
    hide Survive;
    if CountCardElements(card) > MAX_CARD_ELEMENTS && PanelCount(card.elements) > 0 {
      DropWhileSurvives(card.(elements := DropPanels(card.elements, 1)), kept, maxBytes);
      SurviveThrough(kept, card.elements, maxBytes, 1);
    }
  }

  lemma LeftOfFewer(card: Card, kept: seq<Element>, maxBytes: nat)
    requires Left(kept, DropWhileTooMany(card).elements, maxBytes)
    ensures Left(kept, card.elements, maxBytes)
  {
    var fewer := DropWhileTooMany(card).elements;
    DropWhileKeeps(card);
    DropWhileSurvives(card, kept, maxBytes);
    hide DropWhileTooMany, Survive, Panels, Others;
    SuffixOfSuffix(Panels(kept), Panels(fewer), Panels(card.elements));
  }

  lemma LeftWhole(els: seq<Element>, maxBytes: nat)
    ensures Left(els, els, maxBytes)
  {
    AllSurvive(els, els, maxBytes);
    SuffixOfItself(Panels(els));
    SuffixOfItself(Others(els));
  }

  lemma ElementBudgetSound(card: Card, opts: Options)
    ensures Sound(ElementBudget(card, opts), card.elements, opts)
  {
    hide *;
    var fewer := DropWhileTooMany(card);
    ElementBudgetSplits(card, opts);
    if WithinSizes(fewer) {
      WithinIsSound(fewer, true, opts);
    } else {
      ByteBudgetSound(fewer, opts);
    }
    SoundOfFewer(ElementBudget(card, opts), card, opts);
  }

  lemma ElementBudgetSplits(card: Card, opts: Options)
    ensures var fewer := DropWhileTooMany(card);
            ElementBudget(card, opts) == if WithinSizes(fewer) then Result(fewer, true, false) else ByteBudget(fewer, opts)
  {
    hide ByteBudget, DropWhileTooMany;
  }

  lemma SuffixOfItself<T>(a: seq<T>)
    ensures IsSuffix(a, a)
  {
  }

  lemma SoundOfFewer(r: Result, card: Card, opts: Options)
    requires Sound(r, DropWhileTooMany(card).elements, opts)
    ensures Sound(r, card.elements, opts)
  {
    hide DropWhileTooMany, Left, Fits, WithHint;
    if !r.minimal {
      var w :| IsWhatIsLeft(r, w, DropWhileTooMany(card).elements, opts);
      LeftOfFewer(card, w.card.elements, opts.maxPanelContentBytes);
      assert IsWhatIsLeft(r, w, card.elements, opts);
    }
  }

  lemma ElementBudgetTellsTheTruth(card: Card, opts: Options)
    requires !WithinSizes(card)
    ensures ElementBudget(card, opts).wasTruncated
  {
    var fewer := DropWhileTooMany(card);
    if !WithinSizes(fewer) {
      ByteBudgetTellsTheTruth(fewer, opts);
    }
    hide ByteBudget;
  }

  // ---- putting capped texts back ----

  lemma {:induction false} RefillKeeps(els: seq<Element>, contents: seq<Text>)
    requires |contents| == |Fields(els)|
    ensures Fields(Refill(els, contents)) == contents
    ensures Weights(Refill(els, contents)) == Weights(els)
    ensures SameElements(Refill(els, contents), els)
    decreases els
  {
    if els != [] {
      var n := |FieldsOf(els[0])|;
      RefillOneKeeps(els[0], contents[..n]);
      RefillKeeps(els[1..], contents[n..]);
      assert contents == contents[..n] + contents[n..];
      assert Refill(els, contents)[1..] == Refill(els[1..], contents[n..]);
      assert forall i | 0 < i < |els| :: Refill(els, contents)[i] == Refill(els[1..], contents[n..])[i - 1] && els[i] == els[1..][i - 1];
    }
  }

  lemma {:induction false} RefillOneKeeps(e: Element, contents: seq<Text>)
    requires |contents| == |FieldsOf(e)|
    ensures FieldsOf(RefillOne(e, contents)) == contents
    ensures Weight(RefillOne(e, contents)) == Weight(e)
    ensures RefillOne(e, contents).id == e.id && RefillOne(e, contents).tag == e.tag
    decreases e
  {
    var own := if e.text.Some? && e.text.value.markdown then 1 else 0;
    var n := own + |Fields(e.elements)|;
    RefillKeeps(e.elements, contents[own..n]);
    RefillColumnsKeep(e.columns, contents[n..]);
    hide Refill, RefillColumns, Fields, ColumnFields, Weights, ColumnWeights;
    ThreeParts(contents, own, n);
  }

  lemma ThreeParts<T>(s: seq<T>, i: nat, j: nat)
    requires i <= j <= |s| && i <= 1
    ensures (if i == 1 then [s[0]] else []) + s[i..j] + s[j..] == s
  {
  }

  lemma {:induction false} RefillColumnsKeep(columns: seq<Column>, contents: seq<Text>)
    requires |contents| == |ColumnFields(columns)|
    ensures ColumnFields(RefillColumns(columns, contents)) == contents
    ensures ColumnWeights(RefillColumns(columns, contents)) == ColumnWeights(columns)
    decreases columns
  {
    if columns != [] {
      var n := |Fields(columns[0].elements)|;
      RefillKeeps(columns[0].elements, contents[..n]);
      RefillColumnsKeep(columns[1..], contents[n..]);
      assert contents == contents[..n] + contents[n..];
      assert RefillColumns(columns, contents)[1..] == RefillColumns(columns[1..], contents[n..]);
    }
  }

  lemma {:induction false} RefillSame(els: seq<Element>)
    ensures Refill(els, Fields(els)) == els
    decreases els
  {
    if els != [] {
      RefillOneSame(els[0]);
      RefillSame(els[1..]);
      RefillStep(els);
    }
  }

  lemma RefillStep(els: seq<Element>)
    requires els != []
    ensures Refill(els, Fields(els)) == [RefillOne(els[0], FieldsOf(els[0]))] + Refill(els[1..], Fields(els[1..]))
  {
    hide FieldsOf, RefillOne;
    var own, rest := FieldsOf(els[0]), Fields(els[1..]);
    assert Fields(els) == own + rest;
    assert (own + rest)[..|own|] == own && (own + rest)[|own|..] == rest;
  }

  lemma {:induction false} RefillOneSame(e: Element)
    ensures RefillOne(e, FieldsOf(e)) == e
    decreases e
  {
    var own := if e.text.Some? && e.text.value.markdown then 1 else 0;
    var n := own + |Fields(e.elements)|;
    assert FieldsOf(e)[own..n] == Fields(e.elements) && FieldsOf(e)[n..] == ColumnFields(e.columns);
    RefillSame(e.elements);
    RefillColumnsSame(e.columns);
  }

  lemma {:induction false} RefillColumnsSame(columns: seq<Column>)
    ensures RefillColumns(columns, ColumnFields(columns)) == columns
    decreases columns
  {
    if columns != [] {
      RefillSame(columns[0].elements);
      RefillColumnsSame(columns[1..]);
      RefillColumnStep(columns);
    }
  }

  lemma RefillColumnStep(columns: seq<Column>)
    requires columns != []
    ensures RefillColumns(columns, ColumnFields(columns)) ==
            [columns[0].(elements := Refill(columns[0].elements, Fields(columns[0].elements)))]
            + RefillColumns(columns[1..], ColumnFields(columns[1..]))
  {
    hide Fields, Refill;
    var own, rest := Fields(columns[0].elements), ColumnFields(columns[1..]);
    assert ColumnFields(columns) == own + rest;
    assert (own + rest)[..|own|] == own && (own + rest)[|own|..] == rest;
  }

  /** A cap that lowers no count changes no text. */
  lemma {:induction false} NothingCappedNothingChanged(fields: seq<Text>, excess: int)
    requires M.Total(M.Cap(fields, excess)) == M.Total(fields)
    ensures M.Cap(fields, excess) == fields
  {
    hide M.DropOldest, M.Tables;
    if fields != [] && excess > 0 {
      var content := M.DropOldest(fields[0], Min(excess, M.Tables(fields[0])));
      M.DropLowersTheCount(fields[0], Min(excess, M.Tables(fields[0])));
      var left := excess - M.Tables(fields[0]) + M.Tables(content);
      M.CapBounds(fields[1..], left);
      assert M.Cap(fields, excess)[1..] == M.Cap(fields[1..], left);
      NothingCappedNothingChanged(fields[1..], left);
      SameCountSameText(fields[0], Min(excess, M.Tables(fields[0])));
    }
  }

  lemma SameCountSameText(text: Text, maxDrop: int)
    requires M.Tables(M.DropOldest(text, maxDrop)) == M.Tables(text)
    ensures M.DropOldest(text, maxDrop) == text
  {
    M.DropLowersTheCount(text, maxDrop);
    hide M.Tables, M.Split, M.Blocks;
  }

  // ---- every card ----

  lemma CapKeepsElements(card: Card, maxTables: nat)
    ensures var capped := CapTables(card, maxTables);
            && Panels(capped.elements) == Panels(card.elements) && Others(capped.elements) == Others(card.elements)
            && CountCardElements(capped) == CountCardElements(card)
            && CardTables(capped) == M.Total(M.Cap(Fields(card.elements), CardTables(card) - maxTables))
  {
    hide M.Cap, M.Total, Fields, Weights, Refill, Panels, Others;
    var fields := Fields(card.elements);
    var contents := M.Cap(fields, M.Total(fields) - maxTables);
    RefillKeeps(card.elements, contents);
    SameElementsKeep(Refill(card.elements, contents), card.elements);
  }

  lemma CapChangesOrNot(card: Card, maxTables: nat)
    ensures CardTables(CapTables(card, maxTables)) <= CardTables(card)
    ensures CardTables(CapTables(card, maxTables)) == CardTables(card) ==> CapTables(card, maxTables) == card
    ensures CardTables(card) <= maxTables ==> CapTables(card, maxTables) == card
  {
    CapKeepsElements(card, maxTables);
    hide M.Cap, M.Total, M.TotalStuck, Fields, Refill;
    var fields := Fields(card.elements);
    M.CapBounds(fields, M.Total(fields) - maxTables);
    RefillSame(card.elements);
    M.CapStops(fields, M.Total(fields) - maxTables);
    if CardTables(CapTables(card, maxTables)) == CardTables(card) {
      NothingCappedNothingChanged(fields, M.Total(fields) - maxTables);
    }
  }

  lemma WithinIsSound(card: Card, wasTruncated: bool, opts: Options)
    requires WithinSizes(card)
    ensures Sound(Result(card, wasTruncated, false), card.elements, opts)
  {
    hide Left, Weights, ListBytes;
    LeftWhole(card.elements, opts.maxPanelContentBytes);
    assert IsWhatIsLeft(Result(card, wasTruncated, false), Work(card, 0, 0), card.elements, opts);
  }

  lemma EnforceSplits(card: Card, opts: Options)
    ensures var capped := CapTables(card, M.MAX_TABLES);
            Enforce(card, opts) ==
            if CardTables(card) > CardTables(capped) then
              if WithinSizes(capped) then Result(capped, true, false) else ElementBudget(capped, opts)
            else if WithinSizes(card) then Result(card, false, false)
            else if CardBytes(card) <= CARD_BUDGET_BYTES then ElementBudget(capped, opts)
            else ByteBudget(card, opts)
  {
    hide CapTables, CardTables, WithinSizes, ElementBudget, ByteBudget, CardBytes;
  }

  // ---- the number told ----

  /** The way on which panels go one at a time, in no count. */
  predicate DropsUntold(card: Card) {
    var capped := CapTables(card, M.MAX_TABLES);
    !WithinSizes(capped) && (CardTables(card) > CardTables(capped) || CardBytes(card) <= CARD_BUDGET_BYTES)
  }

  /** How many panels go without being told. */
  function Untold(card: Card): nat {
    var capped := CapTables(card, M.MAX_TABLES);
    DropWhileShrinks(capped);
    if DropsUntold(card) then |capped.elements| - |DropWhileTooMany(capped).elements| else 0
  }

  lemma {:induction false} DropWhileShrinks(card: Card)
    ensures |DropWhileTooMany(card).elements| <= |card.elements|
    ensures DropWhileTooMany(card).elements == card.elements <==>
            CountCardElements(card) <= MAX_CARD_ELEMENTS || PanelCount(card.elements) == 0
    ensures |DropWhileTooMany(card).elements| == |card.elements| ==> DropWhileTooMany(card).elements == card.elements
    decreases |card.elements|
  {
    hide Weights;
    if CountCardElements(card) > MAX_CARD_ELEMENTS && PanelCount(card.elements) > 0 {
      DropWhileShrinks(card.(elements := DropPanels(card.elements, 1)));
    }
  }

  /** All elements of a list that went are told, but for `untold` of them. */
  ghost predicate Tells(r: Result, els: seq<Element>, untold: nat, opts: Options) {
    exists w :: IsWhatIsLeft(r, w, els, opts) && w.omitted + untold == |els| - |w.card.elements|
  }

  lemma WithinTells(card: Card, wasTruncated: bool, opts: Options)
    requires WithinSizes(card)
    ensures Tells(Result(card, wasTruncated, false), card.elements, 0, opts)
  {
    hide Left, Weights, ListBytes;
    LeftWhole(card.elements, opts.maxPanelContentBytes);
    assert IsWhatIsLeft(Result(card, wasTruncated, false), Work(card, 0, 0), card.elements, opts);
  }

  lemma ByteBudgetTells(card: Card, opts: Options)
    ensures ByteBudget(card, opts).minimal || Tells(ByteBudget(card, opts), card.elements, 0, opts)
  {
    HintTellsTheNumber(card, opts);
    hide ByteBudget, IsWhatIsLeft;
  }

  lemma ElementBudgetTells(card: Card, opts: Options)
    ensures var untold := |card.elements| - |DropWhileTooMany(card).elements|;
            untold >= 0 && (ElementBudget(card, opts).minimal || Tells(ElementBudget(card, opts), card.elements, untold, opts))
  {
    var fewer := DropWhileTooMany(card);
    var r := ElementBudget(card, opts);
    DropWhileShrinks(card);
    ElementBudgetSplits(card, opts);
    hide DropWhileTooMany, ElementBudget, ByteBudget, IsWhatIsLeft, WithinSizes;
    if WithinSizes(fewer) {
      WithinTells(fewer, true, opts);
    } else {
      ByteBudgetTells(fewer, opts);
    }
    if !r.minimal {
      var w :| IsWhatIsLeft(r, w, fewer.elements, opts) && w.omitted + 0 == |fewer.elements| - |w.card.elements|;
      StillLeft(r, w, card, opts);
    }
  }

  lemma StillLeft(r: Result, w: Work, card: Card, opts: Options)
    requires IsWhatIsLeft(r, w, DropWhileTooMany(card).elements, opts)
    ensures IsWhatIsLeft(r, w, card.elements, opts)
  {
    hide DropWhileTooMany, Left, Fits, WithHint;
    LeftOfFewer(card, w.card.elements, opts.maxPanelContentBytes);
  }

  /** The number in the hint is the number of elements that went, but for panels that went
      one at a time. Such panels there are exactly on that way, when the card has panels
      and more than ninety elements. */
  lemma HintTellsAllBut(card: Card, opts: Options)
    ensures var capped := CapTables(card, M.MAX_TABLES);
            && (Enforce(card, opts).minimal || Tells(Enforce(card, opts), capped.elements, Untold(card), opts))
            && (Untold(card) > 0 <==>
                DropsUntold(card) && CountCardElements(capped) > MAX_CARD_ELEMENTS && PanelCount(capped.elements) > 0)
  {
    var capped := CapTables(card, M.MAX_TABLES);
    EnforceSplits(card, opts);
    CapChangesOrNot(card, M.MAX_TABLES);
    DropWhileShrinks(capped);
    ElementBudgetTells(capped, opts);
    ByteBudgetTells(capped, opts);
    hide Enforce, ElementBudget, ByteBudget, DropWhileTooMany, CapTables, CardTables, CountCardElements, CardBytes, Tells, PanelCount;
    if WithinSizes(capped) {
      WithinTells(capped, true, opts);
      WithinTells(capped, false, opts);
    }
  }

  /** Whatever the card: the result is the minimal card, or what is left of the card with
      its tables capped, which are the same elements with other texts at most. The newest
      panels and the newest other elements stay, in their order, each whole or with its
      long texts cut. */
  lemma EveryCardIsSound(card: Card, opts: Options)
    ensures var capped := CapTables(card, M.MAX_TABLES);
            && Sound(Enforce(card, opts), capped.elements, opts)
            && Panels(capped.elements) == Panels(card.elements) && Others(capped.elements) == Others(card.elements)
  {
    hide *;
    EnforceSplits(card, opts);
    CapKeepsElements(card, M.MAX_TABLES);
    CapChangesOrNot(card, M.MAX_TABLES);
    var capped := CapTables(card, M.MAX_TABLES);
    ElementBudgetSound(capped, opts);
    ByteBudgetSound(capped, opts);
    if WithinSizes(capped) {
      WithinIsSound(capped, true, opts);
      WithinIsSound(capped, false, opts);
    }
  }

  lemma {:induction false} JsonIsShort(chars: seq<Text>)
    requires forall i | 0 <= i < |chars| :: chars[i] != []
    ensures JsonSum(chars) <= 6 * |chars|
  {
    if chars != [] {
      JsonIsShort(chars[1..]);
    }
  }

  lemma {:induction false} CharsAreFew(s: Text)
    ensures |Chars(s)| <= |s|
    decreases |s|
  {
    if s != [] {
      CharsAreFew(s[FirstLength(s)..]);
    }
  }

  /** An element with one text and nothing in it. */
  lemma PlainElement(e: Element)
    requires e.text.Some? && e.elements == [] && e.columns == [] && e.inner == 0
    ensures Weights([e]) == 1 && ListBytes([e]) <= e.frame + 6 * |e.text.value.content|
  {
    CharsAreFew(e.text.value.content);
    JsonIsShort(Chars(e.text.value.content));
    hide JsonSum, Chars;
    assert [e][1..] == [];
    assert Weight(e) == 1 && ElementBytes(e) == e.frame + TextBytes(e.text);
  }

  lemma MinimalIsSmall()
    ensures CardBytes(MINIMAL_CARD) <= CARD_BUDGET_BYTES && CountCardElements(MINIMAL_CARD) == 1
  {
    hide Weights, ListBytes;
    PlainElement(MINIMAL_CARD.elements[0]);
    assert [MINIMAL_CARD.elements[0]] == MINIMAL_CARD.elements;
    assert |MINIMAL_TEXT| == 36;
  }

  lemma HintAdds(w: Work, opts: Options)
    requires w.omitted > 0
    ensures CountCardElements(WithHint(w, opts)) == CountCardElements(w.card) + 1
    ensures CardBytes(WithHint(w, opts)) <= CardBytes(w.card) + ElementBytes(HintElement(w.omitted, opts)) + 1
  {
    var h := HintElement(w.omitted, opts);
    assert ([h] + w.card.elements)[1..] == w.card.elements;
    assert Weight(h) == 1;
    hide ElementBytes;
  }

  /** Ninety elements at most, and 28,000 bytes, not counting a hint at the head. */
  lemma SoundIsSmall(r: Result, els: seq<Element>, opts: Options)
    requires Sound(r, els, opts)
    ensures CountCardElements(r.card) <= MAX_CARD_ELEMENTS
    ensures || CardBytes(r.card) <= CARD_BUDGET_BYTES
            || exists n :: n > 0 && r.card.elements != [] && r.card.elements[0] == HintElement(n, opts)
                           && CardBytes(r.card) <= CARD_BUDGET_BYTES + ElementBytes(HintElement(n, opts)) + 1
  {
    hide Left, Weights, ListBytes, ElementBytes, HintElement;
    if r.minimal {
      MinimalIsSmall();
    } else {
      var w :| IsWhatIsLeft(r, w, els, opts);
      if w.omitted > 0 {
        HintAdds(w, opts);
        assert r.card.elements[0] == HintElement(w.omitted, opts);
      }
    }
  }

  /** The promise of the budget, for every card and all options. */
  lemma EveryCardIsSmall(card: Card, opts: Options)
    ensures var r := Enforce(card, opts);
            && CountCardElements(r.card) <= MAX_CARD_ELEMENTS
            && (|| CardBytes(r.card) <= CARD_BUDGET_BYTES
                || exists n :: n > 0 && r.card.elements != [] && r.card.elements[0] == HintElement(n, opts)
                               && CardBytes(r.card) <= CARD_BUDGET_BYTES + ElementBytes(HintElement(n, opts)) + 1)
  {
    hide *;
    EveryCardIsSound(card, opts);
    SoundIsSmall(Enforce(card, opts), CapTables(card, M.MAX_TABLES).elements, opts);
  }

  /** A card is left as it is exactly when it is within both sizes and no table of it
      could be dropped, which is so whenever it holds five at most. */
  lemma UntouchedMeansWithin(card: Card, opts: Options)
    ensures var r := Enforce(card, opts);
            && (!r.wasTruncated ==> r.card == card)
            && (!r.wasTruncated <==> WithinSizes(card) && CardTables(CapTables(card, M.MAX_TABLES)) == CardTables(card))
            && (WithinSizes(card) && CardTables(card) <= M.MAX_TABLES ==> !r.wasTruncated)
  {
    hide *;
    EnforceSplits(card, opts);
    CapChangesOrNot(card, M.MAX_TABLES);
    var capped := CapTables(card, M.MAX_TABLES);
    if !WithinSizes(capped) {
      ElementBudgetTellsTheTruth(capped, opts);
    }
    if !WithinSizes(card) {
      ByteBudgetTellsTheTruth(card, opts);
    }
  }
}
