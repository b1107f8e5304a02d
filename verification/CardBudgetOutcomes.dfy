/** When the skeleton of a card survives the budget, and when nothing of the card does. */
module CardBudgetOutcomes {
  import opened Texts
  import opened Truncate
  import opened CardBudget
  import opened CardBudgetLaws
  import M = MarkdownTables

  // ---- the skeleton ----

  /** Everything but the panels: header, usage, buttons. */
  function Skeleton(card: Card): Card {
    card.(elements := DropPanels(card.elements, PanelCount(card.elements)))
  }

  /** The skeleton with its long texts cut. */
  function CutSkeleton(card: Card, opts: Options): Card {
    var bare := Skeleton(card);
    bare.(elements := CutTexts(bare.elements, opts.maxPanelContentBytes))
  }

  lemma {:induction false} SkeletonIsSmaller(els: seq<Element>, n: nat)
    ensures ListBytes(DropPanels(els, n)) <= ListBytes(els)
    ensures Weights(DropPanels(els, n)) <= Weights(els)
  {
    if els != [] && n > 0 {
      hide ElementBytes, Weight;
      SkeletonIsSmaller(els[1..], if els[0].tag.Panel? then n - 1 else n);
      if !els[0].tag.Panel? {
        assert DropPanels(els, n)[1..] == DropPanels(els[1..], n);
      }
    }
  }

  /** Each panel counts for one element at least. */
  lemma {:induction false} PanelsWeigh(els: seq<Element>)
    ensures Weights(els) >= Weights(DropPanels(els, PanelCount(els))) + PanelCount(els)
  {
    if els != [] {
      hide Weights;
      PanelsWeigh(els[1..]);
      WeightsStep(els);
      if !els[0].tag.Panel? {
        if PanelCount(els) == 0 {
          NoPanelsNoDrop(els);
        } else {
          var bare := DropPanels(els, PanelCount(els));
          assert bare[0] == els[0] && bare[1..] == DropPanels(els[1..], PanelCount(els[1..]));
          WeightsStep(bare);
        }
      } else {
        assert DropPanels(els, PanelCount(els)) == DropPanels(els[1..], PanelCount(els[1..]));
      }
    }
  }

  lemma WeightsStep(els: seq<Element>)
    requires els != []
    ensures Weights(els) == Weight(els[0]) + Weights(els[1..]) && Weight(els[0]) >= 1
  {
  }

  lemma SkeletonBounds(card: Card)
    ensures CardBytes(Skeleton(card)) <= CardBytes(card)
    ensures CountCardElements(Skeleton(card)) + PanelCount(card.elements) <= CountCardElements(card)
    ensures PanelCount(card.elements) == 0 ==> Skeleton(card) == card
  {
    hide DropPanels, Weights, ListBytes, PanelCount;
    SkeletonIsSmaller(card.elements, PanelCount(card.elements));
    PanelsWeigh(card.elements);
    if PanelCount(card.elements) == 0 {
      NoPanelsNoDrop(card.elements);
    }
  }

  lemma CutSkeletonCounts(card: Card, opts: Options)
    ensures CountCardElements(CutSkeleton(card, opts)) == CountCardElements(Skeleton(card))
  {
    hide CutTexts, Weights, Skeleton;
    CutTextsKeepWeights(Skeleton(card).elements, opts.maxPanelContentBytes);
  }

  // ---- which elements are dropped from the front ----

  /** The card without its first `k` elements. */
  function Newest(card: Card, k: nat): Card
    requires k <= |card.elements|
  {
    card.(elements := card.elements[k..])
  }

  /** Dropping the `k`-th element from the front comes from above ninety to below ninety,
      and what remains is small enough. Exactly ninety would leave no place for the hint. */
  predicate SavesAt(card: Card, k: nat)
    requires 0 < k <= |card.elements|
  {
    && CountCardElements(Newest(card, k - 1)) > MAX_CARD_ELEMENTS
    && CountCardElements(Newest(card, k)) < MAX_CARD_ELEMENTS
    && CardBytes(Newest(card, k)) <= CARD_BUDGET_BYTES
  }

  /** Three elements are always left. */
  ghost predicate Saves(card: Card) {
    exists k | 0 < k <= |card.elements| - 3 :: SavesAt(card, k)
  }

  lemma {:induction false} FewerWeigh(els: seq<Element>, k: nat)
    requires k <= |els|
    ensures Weights(els[k..]) <= Weights(els)
  {
    hide Weight;
    if k > 0 {
      FewerWeigh(els[1..], k - 1);
      assert els[1..][k - 1..] == els[k..];
    } else {
      assert els[k..] == els;
    }
  }

  lemma NewestOfNewest(card: Card, k: nat)
    requires 1 < k <= |card.elements|
    ensures SavesAt(Newest(card, 1), k - 1) == SavesAt(card, k)
  {
    hide CountCardElements, CardBytes;
    var next := Newest(card, 1);
    assert Newest(next, k - 1) == Newest(card, k) && Newest(next, k - 2) == Newest(card, k - 1);
  }

  lemma SavesLater(card: Card)
    requires |card.elements| > 3 && CountCardElements(Newest(card, 1)) > MAX_CARD_ELEMENTS
    ensures Saves(card) <==> Saves(Newest(card, 1))
  {
    var next := Newest(card, 1);
    assert !SavesAt(card, 1);
    hide SavesAt, CountCardElements, CardBytes;
    forall k | 1 < k <= |card.elements|
      ensures SavesAt(next, k - 1) == SavesAt(card, k)
    {
      NewestOfNewest(card, k);
    }
    if Saves(next) {
      var k :| 0 < k <= |next.elements| - 3 && SavesAt(next, k);
      assert SavesAt(next, (k + 1) - 1) == SavesAt(card, k + 1);
    }
  }

  lemma NewestWeighs(card: Card, k: nat)
    requires k <= |card.elements|
    ensures k > 0 ==> CountCardElements(Newest(card, k)) <= CountCardElements(Newest(card, 1))
  {
    hide Weights;
    if k > 0 {
      FewerWeigh(card.elements[1..], k - 1);
      assert card.elements[1..][k - 1..] == card.elements[k..];
    }
  }

  lemma SavesNow(card: Card)
    requires |card.elements| > 3 && CountCardElements(card) > MAX_CARD_ELEMENTS
    requires CountCardElements(Newest(card, 1)) <= MAX_CARD_ELEMENTS
    ensures Saves(card) <==> CountCardElements(Newest(card, 1)) < MAX_CARD_ELEMENTS && CardBytes(Newest(card, 1)) <= CARD_BUDGET_BYTES
  {
    hide CountCardElements, CardBytes;
    assert Newest(card, 1 - 1) == card;
    if Saves(card) {
      var k :| 0 < k <= |card.elements| - 3 && SavesAt(card, k);
      NewestWeighs(card, k - 1);
      assert k == 1;
    } else {
      assert !SavesAt(card, 1);
    }
  }

  lemma {:induction false} ShiftSavesIff(w: Work)
    requires CountCardElements(w.card) > MAX_CARD_ELEMENTS
    ensures Fits(Shift(w)) <==> Saves(w.card)
    decreases |w.card.elements|
  {
    hide Weights, ListBytes, Saves;
    if |w.card.elements| > 3 {
      var next := w.(card := Newest(w.card, 1), omitted := w.omitted + 1);
      assert Shift(w) == Shift(next);
      if CountCardElements(next.card) > MAX_CARD_ELEMENTS {
        ShiftSavesIff(next);
        SavesLater(w.card);
      } else {
        SavesNow(w.card);
      }
    } else {
      NothingSaves(w.card);
    }
  }

  lemma NothingSaves(card: Card)
    requires |card.elements| <= 3
    ensures !Saves(card)
  {
  }

  // ---- when the byte budget ends in the minimal card ----

  /** What is too big even without panels and with its texts cut. */
  predicate BareTooBig(card: Card, opts: Options) {
    CardBytes(Skeleton(card)) > CARD_BUDGET_BYTES && CardBytes(CutSkeleton(card, opts)) > CARD_BUDGET_BYTES
  }

  lemma SameSkeletonSameCut(a: Card, b: Card, opts: Options)
    requires Skeleton(a) == Skeleton(b)
    ensures CutSkeleton(a, opts) == CutSkeleton(b, opts) && BareTooBig(a, opts) == BareTooBig(b, opts)
  {
    hide Skeleton, CutTexts, CardBytes;
  }

  /** The works of the byte budget, described by the skeleton. */
  lemma ByteBudgetPhases(card: Card, opts: Options)
    returns (w1: Work, w2: Work, w3: Work)
    ensures w1 == LimitPanels(CutPanelContents(Work(card, 0, 0), opts), opts)
    ensures w2 == DropAllPanels(w1) && w3 == CutTopLevel(w2, opts)
    ensures Skeleton(w1.card) == Skeleton(card)
    ensures w2.card == Skeleton(card) && w2.omitted == PanelCount(card.elements)
    ensures w3.card == CutSkeleton(card, opts) && w3.omitted == PanelCount(card.elements)
    ensures w1.omitted + PanelCount(w1.card.elements) == PanelCount(card.elements)
  {
    w1 := LimitPanels(CutPanelContents(Work(card, 0, 0), opts), opts);
    w2 := DropAllPanels(w1);
    w3 := CutTopLevel(w2, opts);
    LimitedSkeleton(card, opts);
    hide LimitPanels, CutPanelContents, CutTexts, DropPanels, PanelCount, LongCount;
  }

  lemma LimitedSkeleton(card: Card, opts: Options)
    ensures var w := LimitPanels(CutPanelContents(Work(card, 0, 0), opts), opts);
            Skeleton(w.card) == Skeleton(card) && w.omitted + PanelCount(w.card.elements) == PanelCount(card.elements)
  {
    var cut := CutPanels(card.elements, opts.maxPanelContentBytes);
    CutPanelsKeepSkeleton(card.elements, opts.maxPanelContentBytes);
    hide CutPanels, CutTexts, DropPanels, PanelCount, Panels, Others, LongInPanels, LongCount;
    if PanelCount(cut) > opts.maxEventPanels {
      DropInTwo(cut, PanelCount(cut) - opts.maxEventPanels);
      DropPanelsKeeps(cut, PanelCount(cut) - opts.maxEventPanels);
    }
  }

  lemma CutPanelsKeepSkeleton(els: seq<Element>, maxBytes: nat)
    ensures var cut := CutPanels(els, maxBytes);
            DropPanels(cut, PanelCount(cut)) == DropPanels(els, PanelCount(els)) && PanelCount(cut) == PanelCount(els)
  {
    hide CutTexts;
    var cut := CutPanels(els, maxBytes);
    SkeletonIgnoresContents(cut, els);
    CutPanelsKeepWeights(els, maxBytes);
    SameElementsKeep(cut, els);
  }

  lemma ByteBudgetSteps(card: Card, opts: Options)
    ensures var w1 := LimitPanels(CutPanelContents(Work(card, 0, 0), opts), opts);
            var w2 := DropAllPanels(w1);
            var w3 := CutTopLevel(w2, opts);
            ByteBudget(card, opts) ==
            if Fits(w1) then Finish(w1, opts, w1.cuts > 0 || w1.omitted > 0)
            else if Fits(w2) then Finish(w2, opts, true)
            else if Fits(w3) then Finish(w3, opts, true)
            else if CountCardElements(w3.card) > MAX_CARD_ELEMENTS && Fits(Shift(w3)) then Finish(Shift(w3), opts, true)
            else Result(MINIMAL_CARD, true, true)
  {
    hide Fits, LimitPanels, CutPanelContents, DropAllPanels, CutTopLevel, Shift, Finish;
  }

  lemma ByteBudgetMinimalIff(card: Card, opts: Options)
    ensures ByteBudget(card, opts).minimal <==>
            if CountCardElements(Skeleton(card)) > MAX_CARD_ELEMENTS then !Saves(CutSkeleton(card, opts))
            else (CountCardElements(Skeleton(card)) == MAX_CARD_ELEMENTS && PanelCount(card.elements) > 0) || BareTooBig(card, opts)
  {
    var w1, w2, w3 := ByteBudgetPhases(card, opts);
    ByteBudgetSteps(card, opts);
    SkeletonBounds(w1.card);
    CutSkeletonCounts(card, opts);
    if CountCardElements(w3.card) > MAX_CARD_ELEMENTS {
      ShiftSavesIff(w3);
    }
    hide ByteBudget, LimitPanels, CutPanelContents, DropAllPanels, CutTopLevel, Shift, WithHint, Skeleton, CutSkeleton, Saves;
    hide Weights, ListBytes, PanelCount;
  }

  // ---- panels dropped one at a time ----

  lemma {:induction false} DropWhileKeepsSkeleton(card: Card)
    ensures var fewer := DropWhileTooMany(card);
            && Skeleton(fewer) == Skeleton(card)
            && (CountCardElements(fewer) <= MAX_CARD_ELEMENTS || PanelCount(fewer.elements) == 0)
    decreases |card.elements|
  {
    hide Weights;
    if CountCardElements(card) > MAX_CARD_ELEMENTS && PanelCount(card.elements) > 0 {
      DropInTwo(card.elements, 1);
      DropWhileKeepsSkeleton(card.(elements := DropPanels(card.elements, 1)));
    }
  }

  lemma ElementBudgetMinimalIff(card: Card, opts: Options)
    ensures ElementBudget(card, opts).minimal <==>
            if CountCardElements(Skeleton(card)) > MAX_CARD_ELEMENTS then !Saves(CutSkeleton(card, opts)) else BareTooBig(card, opts)
  {
    var fewer := DropWhileTooMany(card);
    DropWhileKeepsSkeleton(card);
    ElementBudgetSplits(card, opts);
    ByteBudgetMinimalIff(fewer, opts);
    SkeletonBounds(fewer);
    SameSkeletonSameCut(fewer, card, opts);
    hide ElementBudget, ByteBudget, DropWhileTooMany, Skeleton, CutSkeleton, Saves, CountCardElements, CardBytes, PanelCount;
  }

  // ---- when nothing of the card is left ----

  /** A skeleton of exactly ninety elements beside a panel, on the way that tells the
      panels in a hint. */
  predicate HintSqueezed(card: Card) {
    var capped := CapTables(card, M.MAX_TABLES);
    && CountCardElements(Skeleton(capped)) == MAX_CARD_ELEMENTS && PanelCount(capped.elements) > 0
    && CardTables(card) == CardTables(capped) && CardBytes(card) > CARD_BUDGET_BYTES
  }

  /** Exactly when a card is replaced by the minimal one. With more than ninety elements
      besides the panels: unless dropping the oldest saves it. Otherwise: when it is too
      big even with its texts cut, or when the hint would be the ninety-first element. */
  lemma MinimalIff(card: Card, opts: Options)
    ensures var capped := CapTables(card, M.MAX_TABLES);
            Enforce(card, opts).minimal <==>
            if CountCardElements(Skeleton(capped)) > MAX_CARD_ELEMENTS then !Saves(CutSkeleton(capped, opts))
            else HintSqueezed(card) || BareTooBig(capped, opts)
  {
    var capped := CapTables(card, M.MAX_TABLES);
    EnforceSplits(card, opts);
    CapChangesOrNot(card, M.MAX_TABLES);
    SkeletonBounds(capped);
    ElementBudgetMinimalIff(capped, opts);
    ByteBudgetMinimalIff(capped, opts);
    hide Enforce, ElementBudget, ByteBudget, CapTables, CardTables, Skeleton, CutSkeleton, Saves, CountCardElements, CardBytes, PanelCount;
  }

  // ---- when the skeleton stays ----

  /** A result that lost nothing but panels: the other elements are all there, unchanged. */
  ghost predicate KeepsSkeleton(r: Result, card: Card, opts: Options) {
    !r.minimal && exists w :: IsWhatIsLeft(r, w, card.elements, opts) && Skeleton(w.card) == Skeleton(card)
  }

  lemma FinishKeepsSkeleton(w: Work, card: Card, opts: Options, wasTruncated: bool)
    requires Trimmed(w, card, opts.maxPanelContentBytes) && Fits(w) && Skeleton(w.card) == Skeleton(card)
    ensures KeepsSkeleton(Finish(w, opts, wasTruncated), card, opts)
  {
    hide Fits, WithHint, Left, Skeleton;
    assert IsWhatIsLeft(Finish(w, opts, wasTruncated), w, card.elements, opts);
  }

  lemma ByteBudgetKeepsSkeleton(card: Card, opts: Options)
    requires CardBytes(Skeleton(card)) <= CARD_BUDGET_BYTES
    requires CountCardElements(Skeleton(card)) + (if PanelCount(card.elements) > 0 then 1 else 0) <= MAX_CARD_ELEMENTS
    ensures KeepsSkeleton(ByteBudget(card, opts), card, opts)
  {
    var w1, w2, w3 := ByteBudgetPhases(card, opts);
    ByteBudgetSteps(card, opts);
    ByteBudgetTrims(card, opts);
    assert Fits(w2);
    SkeletonTwice(card);
    hide *;
    if Fits(w1) {
      FinishKeepsSkeleton(w1, card, opts, w1.cuts > 0 || w1.omitted > 0);
    } else {
      FinishKeepsSkeleton(w2, card, opts, true);
    }
  }

  lemma SkeletonTwice(card: Card)
    ensures Skeleton(Skeleton(card)) == Skeleton(card)
  {
    DropInTwo(card.elements, PanelCount(card.elements));
  }

  lemma WithinKeepsSkeleton(card: Card, wasTruncated: bool, opts: Options)
    requires WithinSizes(card)
    ensures KeepsSkeleton(Result(card, wasTruncated, false), card, opts)
  {
    hide Left, Weights, ListBytes, Skeleton;
    LeftWhole(card.elements, opts.maxPanelContentBytes);
    assert IsWhatIsLeft(Result(card, wasTruncated, false), Work(card, 0, 0), card.elements, opts);
  }

  lemma ElementBudgetKeepsSkeleton(card: Card, opts: Options)
    requires CardBytes(Skeleton(card)) <= CARD_BUDGET_BYTES && CountCardElements(Skeleton(card)) <= MAX_CARD_ELEMENTS
    ensures KeepsSkeleton(ElementBudget(card, opts), card, opts)
  {
    var fewer := DropWhileTooMany(card);
    DropWhileKeepsSkeleton(card);
    ElementBudgetSplits(card, opts);
    SkeletonBounds(fewer);
    hide Skeleton, Weights, CardBytes, KeepsSkeleton, DropWhileTooMany, ElementBudget, ByteBudget;
    if WithinSizes(fewer) {
      WithinKeepsSkeleton(fewer, true, opts);
    } else {
      ByteBudgetKeepsSkeleton(fewer, opts);
    }
    FewerKeepsSkeleton(ElementBudget(card, opts), card, opts);
  }

  lemma FewerKeepsSkeleton(r: Result, card: Card, opts: Options)
    requires KeepsSkeleton(r, DropWhileTooMany(card), opts)
    ensures KeepsSkeleton(r, card, opts)
  {
    DropWhileKeepsSkeleton(card);
    hide DropWhileTooMany, Left, Fits, WithHint, Skeleton;
    var w :| IsWhatIsLeft(r, w, DropWhileTooMany(card).elements, opts) && Skeleton(w.card) == Skeleton(DropWhileTooMany(card));
    LeftOfFewer(card, w.card.elements, opts.maxPanelContentBytes);
    assert IsWhatIsLeft(r, w, card.elements, opts);
  }

  lemma KeptIsSmall(r: Result, card: Card, opts: Options)
    requires KeepsSkeleton(r, card, opts)
    ensures CardBytes(Skeleton(card)) <= CARD_BUDGET_BYTES && CountCardElements(Skeleton(card)) <= MAX_CARD_ELEMENTS
  {
    hide Left, WithHint, Skeleton, Weights, ListBytes;
    var w :| IsWhatIsLeft(r, w, card.elements, opts) && Skeleton(w.card) == Skeleton(card);
    SkeletonBounds(w.card);
  }

  /** Exactly when nothing but panels is taken from a card, its tables capped: when the
      card without its panels is within both sizes and the hint has its place. */
  lemma SkeletonSurvives(card: Card, opts: Options)
    ensures var capped := CapTables(card, M.MAX_TABLES);
            KeepsSkeleton(Enforce(card, opts), capped, opts) <==>
            && CardBytes(Skeleton(capped)) <= CARD_BUDGET_BYTES && CountCardElements(Skeleton(capped)) <= MAX_CARD_ELEMENTS
            && !HintSqueezed(card)
  {
    var capped := CapTables(card, M.MAX_TABLES);
    if KeepsSkeleton(Enforce(card, opts), capped, opts) {
      KeptIsSmall(Enforce(card, opts), capped, opts);
      MinimalIff(card, opts);
    } else {
      SkeletonStays(card, opts);
    }
  }

  lemma SkeletonStays(card: Card, opts: Options)
    ensures var capped := CapTables(card, M.MAX_TABLES);
            && CardBytes(Skeleton(capped)) <= CARD_BUDGET_BYTES && CountCardElements(Skeleton(capped)) <= MAX_CARD_ELEMENTS
            && !HintSqueezed(card)
            ==> KeepsSkeleton(Enforce(card, opts), capped, opts)
  {
    var capped := CapTables(card, M.MAX_TABLES);
    EnforceSplits(card, opts);
    CapChangesOrNot(card, M.MAX_TABLES);
    hide Enforce, ElementBudget, ByteBudget, CapTables, CardTables, Skeleton, CountCardElements, CardBytes, PanelCount, KeepsSkeleton;
    if CardBytes(Skeleton(capped)) <= CARD_BUDGET_BYTES && CountCardElements(Skeleton(capped)) <= MAX_CARD_ELEMENTS && !HintSqueezed(card) {
      ElementBudgetKeepsSkeleton(capped, opts);
      if WithinSizes(capped) {
        WithinKeepsSkeleton(capped, true, opts);
        WithinKeepsSkeleton(capped, false, opts);
      } else if CardTables(card) == CardTables(capped) && CardBytes(card) > CARD_BUDGET_BYTES {
        ByteBudgetKeepsSkeleton(capped, opts);
      }
    }
  }

  // ---- flat cards ----

  /** No panels, and nothing inside any element. */
  predicate Flat(els: seq<Element>) {
    forall i | 0 <= i < |els| :: Weight(els[i]) == 1 && !els[i].tag.Panel?
  }

  lemma {:induction false} FlatWeights(els: seq<Element>)
    requires Flat(els)
    ensures Weights(els) == |els| && PanelCount(els) == 0
  {
    hide Weight;
    if els != [] {
      assert forall i | 0 <= i < |els[1..]| :: els[1..][i] == els[i + 1];
      FlatWeights(els[1..]);
    }
  }

  lemma FlatCut(els: seq<Element>, max: nat)
    requires Flat(els)
    ensures Flat(CutTexts(els, max))
  {
    hide IsLong, TruncateUtf8;
  }

  /** Dropping one plain element after another comes by exactly ninety. */
  lemma FlatNeverSaves(card: Card)
    requires Flat(card.elements)
    ensures !Saves(card)
  {
    hide ListBytes, Weight;
    forall k | 0 < k <= |card.elements|
      ensures !SavesAt(card, k)
    {
      assert card.elements[k - 1..][1..] == card.elements[k..];
    }
  }

  /** Capping tables changes texts only. */
  lemma {:induction false} RefillKeepsEach(els: seq<Element>, contents: seq<Text>)
    requires |contents| == |Fields(els)|
    ensures forall i | 0 <= i < |els| ::
              Weight(Refill(els, contents)[i]) == Weight(els[i]) && Refill(els, contents)[i].tag == els[i].tag
    decreases els
  {
    if els != [] {
      var n := |FieldsOf(els[0])|;
      RefillOneKeeps(els[0], contents[..n]);
      RefillKeepsEach(els[1..], contents[n..]);
      hide RefillOne, FieldsOf, Weight;
      var r := Refill(els, contents);
      assert forall i | 0 < i < |els| :: r[i] == Refill(els[1..], contents[n..])[i - 1] && els[i] == els[1..][i - 1];
    }
  }

  lemma FlatCapped(card: Card)
    requires Flat(card.elements)
    ensures var capped := CapTables(card, M.MAX_TABLES);
            Flat(capped.elements) && CountCardElements(capped) == CountCardElements(card)
  {
    CapKeepsElements(card, M.MAX_TABLES);
    hide M.Cap, M.Total, Fields, Refill, Weight;
    var fields := Fields(card.elements);
    RefillKeepsEach(card.elements, M.Cap(fields, M.Total(fields) - M.MAX_TABLES));
  }

  /** A card of more than ninety elements, none of them a panel or with anything in it,
      always becomes the minimal card, whatever its texts: the phase that should keep its
      newest elements stops at ninety, which leaves no place for the hint. */
  lemma FlatOverflowIsMinimal(card: Card, opts: Options)
    requires Flat(card.elements) && CountCardElements(card) > MAX_CARD_ELEMENTS
    ensures Enforce(card, opts).minimal
  {
    var capped := CapTables(card, M.MAX_TABLES);
    FlatCapped(card);
    FlatWeights(capped.elements);
    SkeletonBounds(capped);
    FlatCut(capped.elements, opts.maxPanelContentBytes);
    FlatNeverSaves(CutSkeleton(capped, opts));
    MinimalIff(card, opts);
    hide Enforce, CapTables, Weights, CardBytes, Flat, Saves;
  }
}
