/** What each way through the budget leaves of a card, told without its phases: the newest
    panels, the bare card, the bare card with its texts cut, or its newest elements. */
module CardBudgetPhases {
  import opened Texts
  import opened Truncate
  import opened CardBudget
  import opened CardBudgetLaws
  import opened CardBudgetOutcomes

  // ---- the newest panels ----

  /** All other elements, and the last `n` panels. */
  function KeepNewest(els: seq<Element>, n: nat): (r: seq<Element>)
    ensures |r| <= |els|
  {
    if els == [] then []
    else if els[0].tag.Panel? && PanelCount(els) > n then KeepNewest(els[1..], n)
    else [els[0]] + KeepNewest(els[1..], n)
  }

  lemma {:induction false} KeepEnough(els: seq<Element>, n: nat)
    requires PanelCount(els) <= n
    ensures KeepNewest(els, n) == els
  {
    if els != [] {
      KeepEnough(els[1..], n);
    }
  }

  lemma {:induction false} DropKeepsNewest(els: seq<Element>, n: nat)
    ensures KeepNewest(els, n) == DropPanels(els, Max(0, PanelCount(els) - n))
  {
    if PanelCount(els) <= n {
      KeepEnough(els, n);
    } else if els[0].tag.Panel? {
      DropKeepsNewest(els[1..], n);
    } else {
      DropKeepsNewest(els[1..], n);
    }
  }

  /** Which panels they are. */
  lemma NewestPanels(els: seq<Element>, n: nat)
    ensures Others(KeepNewest(els, n)) == Others(els)
    ensures |Panels(els)| == PanelCount(els) && Panels(KeepNewest(els, n)) == Panels(els)[Max(0, PanelCount(els) - n)..]
  {
    DropKeepsNewest(els, n);
    DropPanelsKeeps(els, Max(0, PanelCount(els) - n));
    hide DropPanels, KeepNewest, Panels, Others;
  }

  /** The card with the texts in its panels cut, and no more panels than allowed. */
  function Limited(card: Card, opts: Options): Card {
    card.(elements := KeepNewest(CutPanels(card.elements, opts.maxPanelContentBytes), opts.maxEventPanels))
  }

  /** Small enough, with the place for a hint if elements went. */
  predicate FitsWithHint(card: Card, gone: nat) {
    CardBytes(card) <= CARD_BUDGET_BYTES && CountCardElements(card) + (if gone > 0 then 1 else 0) <= MAX_CARD_ELEMENTS
  }

  /** The card, with the hint in front if elements went. */
  predicate Shows(r: Result, card: Card, gone: nat, opts: Options) {
    !r.minimal && r.card == card.(elements := (if gone > 0 then [HintElement(gone, opts)] else []) + card.elements)
  }

  lemma LimitedWork(card: Card, opts: Options)
    ensures var w := LimitPanels(CutPanelContents(Work(card, 0, 0), opts), opts);
            w.card == Limited(card, opts) && w.omitted == |card.elements| - |Limited(card, opts).elements|
  {
    var cut := CutPanels(card.elements, opts.maxPanelContentBytes);
    DropKeepsNewest(cut, opts.maxEventPanels);
    hide CutPanels, LongInPanels, KeepNewest, DropPanels, PanelCount;
    NoPanelsToDrop(cut);
  }

  lemma NoPanelsToDrop(els: seq<Element>)
    ensures DropPanels(els, 0) == els
  {
  }

  lemma FitsAre(w: Work)
    ensures Fits(w) == FitsWithHint(w.card, w.omitted)
  {
    hide Weights, ListBytes;
  }

  lemma FinishShows(w: Work, opts: Options, wasTruncated: bool)
    ensures Shows(Finish(w, opts, wasTruncated), w.card, w.omitted, opts)
  {
  }

  /** Whenever the newest panels, as many as allowed and with their long texts cut, leave a
      card small enough, exactly these panels stay, and all other elements unchanged. */
  lemma NewestPanelsSurvive(card: Card, opts: Options)
    requires FitsWithHint(Limited(card, opts), |card.elements| - |Limited(card, opts).elements|)
    ensures Shows(ByteBudget(card, opts), Limited(card, opts), |card.elements| - |Limited(card, opts).elements|, opts)
    ensures var kept := Limited(card, opts).elements;
            && Panels(kept) == Panels(card.elements)[Max(0, |Panels(card.elements)| - opts.maxEventPanels)..]
            && Skeleton(Limited(card, opts)) == Skeleton(card)
  {
    hide *;
    var w1, w2, w3 := ByteBudgetPhases(card, opts);
    ByteBudgetSteps(card, opts);
    LimitedWork(card, opts);
    FitsAre(w1);
    FinishShows(w1, opts, w1.cuts > 0 || w1.omitted > 0);
    LimitedPanels(card, opts);
  }

  lemma LimitedPanels(card: Card, opts: Options)
    ensures Max(0, |Panels(card.elements)| - opts.maxEventPanels) <= |Panels(card.elements)|
    ensures Panels(Limited(card, opts).elements) == Panels(card.elements)[Max(0, |Panels(card.elements)| - opts.maxEventPanels)..]
  {
    var cut := CutPanels(card.elements, opts.maxPanelContentBytes);
    CutPanelsKeepWeights(card.elements, opts.maxPanelContentBytes);
    SameElementsKeep(cut, card.elements);
    NewestPanels(cut, opts.maxEventPanels);
    hide CutPanels, KeepNewest, Panels, Others, PanelCount;
  }

  // ---- the bare card ----

  /** When the panels do not fit, they all go if the bare card fits; its texts are cut only
      if it does not. */
  lemma BareCardSurvives(card: Card, opts: Options)
    requires !FitsWithHint(Limited(card, opts), |card.elements| - |Limited(card, opts).elements|)
    ensures var gone := PanelCount(card.elements);
            && (FitsWithHint(Skeleton(card), gone) ==> Shows(ByteBudget(card, opts), Skeleton(card), gone, opts))
            && (!FitsWithHint(Skeleton(card), gone) && FitsWithHint(CutSkeleton(card, opts), gone) ==>
                  Shows(ByteBudget(card, opts), CutSkeleton(card, opts), gone, opts))
  {
    hide *;
    var w1, w2, w3 := ByteBudgetPhases(card, opts);
    ByteBudgetSteps(card, opts);
    LimitedWork(card, opts);
    FitsAre(w1);
    FitsAre(w2);
    FitsAre(w3);
    FinishShows(w2, opts, true);
    FinishShows(w3, opts, true);
  }

  // ---- the newest elements ----

  lemma {:induction false} ShiftDrops(w: Work, k: nat)
    requires 0 < k <= |w.card.elements| - 3 && SavesAt(w.card, k)
    ensures Shift(w) == w.(card := Newest(w.card, k), omitted := w.omitted + k)
    decreases k
  {
    hide Weights, ListBytes;
    NewestKeepsWeight(w.card, k - 1);
    var next := w.(card := Newest(w.card, 1), omitted := w.omitted + 1);
    assert Shift(w) == Shift(next);
    if k > 1 {
      NewestOfNewest(w.card, k);
      ShiftDrops(next, k - 1);
      assert Newest(next.card, k - 1) == Newest(w.card, k);
    }
  }

  lemma NewestKeepsWeight(card: Card, k: nat)
    requires k <= |card.elements|
    ensures CountCardElements(Newest(card, k)) <= CountCardElements(card)
  {
    hide Weights;
    FewerWeigh(card.elements, k);
  }

  /** When there are too many elements besides the panels, and dropping the oldest can save
      the card, exactly the elements from there on stay, all others being told. */
  lemma NewestElementsSurvive(card: Card, opts: Options, k: nat)
    requires CountCardElements(Skeleton(card)) > MAX_CARD_ELEMENTS
    requires 0 < k <= |CutSkeleton(card, opts).elements| - 3 && SavesAt(CutSkeleton(card, opts), k)
    ensures Shows(ByteBudget(card, opts), Newest(CutSkeleton(card, opts), k), PanelCount(card.elements) + k, opts)
  {
    hide *;
    var w1, w2, w3 := ByteBudgetPhases(card, opts);
    ByteBudgetSteps(card, opts);
    CutSkeletonCounts(card, opts);
    SkeletonBounds(w1.card);
    TooManyFitsNot(w1);
    TooManyFitsNot(w2);
    TooManyFitsNot(w3);
    ShiftDrops(w3, k);
    SavesFits(w3, k);
    FinishShows(Shift(w3), opts, true);
  }

  lemma TooManyFitsNot(w: Work)
    requires CountCardElements(Skeleton(w.card)) > MAX_CARD_ELEMENTS || CountCardElements(w.card) > MAX_CARD_ELEMENTS
    ensures !Fits(w)
  {
    SkeletonBounds(w.card);
    hide Weights, Skeleton, ListBytes;
  }

  lemma SavesFits(w: Work, k: nat)
    requires 0 < k <= |w.card.elements| - 3 && SavesAt(w.card, k)
    ensures Fits(w.(card := Newest(w.card, k), omitted := w.omitted + k))
  {
    hide Weights, ListBytes, Newest;
  }

  // ---- panels one at a time ----

  /** While there are too many elements the oldest panels go, and no more of them than it
      takes. */
  lemma {:induction false} DropsTheFewest(card: Card) returns (k: nat)
    ensures k <= PanelCount(card.elements)
    ensures DropWhileTooMany(card) == card.(elements := DropPanels(card.elements, k))
    ensures forall j: nat | j < k :: CountCardElements(card.(elements := DropPanels(card.elements, j))) > MAX_CARD_ELEMENTS
    ensures CountCardElements(DropWhileTooMany(card)) <= MAX_CARD_ELEMENTS || k == PanelCount(card.elements)
    decreases |card.elements|
  {
    hide Weights;
    NoPanelsToDrop(card.elements);
    if CountCardElements(card) > MAX_CARD_ELEMENTS && PanelCount(card.elements) > 0 {
      var next := card.(elements := DropPanels(card.elements, 1));
      var n := DropsTheFewest(next);
      DropPanelsKeeps(card.elements, 1);
      k := n + 1;
      DropMore(card.elements, 1, n);
      forall j: nat | j < k
        ensures CountCardElements(card.(elements := DropPanels(card.elements, j))) > MAX_CARD_ELEMENTS
      {
        if j > 0 {
          DropMore(card.elements, 1, j - 1);
        }
      }
    } else {
      k := 0;
    }
  }

  lemma {:induction false} DropMore(els: seq<Element>, a: nat, b: nat)
    ensures DropPanels(DropPanels(els, a), b) == DropPanels(els, a + b)
  {
    if els != [] && a > 0 {
      if els[0].tag.Panel? {
        DropMore(els[1..], a - 1, b);
      } else {
        DropMore(els[1..], a, b);
        assert DropPanels(els, a)[1..] == DropPanels(els[1..], a);
      }
    } else {
      NoPanelsToDrop(els);
    }
  }

  // ---- texts ----

  /** No long text is left in a list whose texts were cut, if the suffix itself is short. */
  lemma NoLongTextLeft(els: seq<Element>, maxBytes: nat)
    requires ByteLength(SUFFIX) <= maxBytes
    ensures forall i | 0 <= i < |els| :: !IsLong(CutTexts(els, maxBytes)[i], maxBytes)
  {
    forall i | 0 <= i < |els|
      ensures !IsLong(CutTexts(els, maxBytes)[i], maxBytes)
    {
      if IsLong(els[i], maxBytes) {
        HeadFits(els[i].text.value.content, maxBytes, SUFFIX);
      }
    }
  }

  /** The panels of a list lose their long texts, and the other elements nothing. */
  lemma PanelTextsAreCut(els: seq<Element>, maxBytes: nat, i: nat)
    requires ByteLength(SUFFIX) <= maxBytes && i < |els|
    ensures var cut := CutPanels(els, maxBytes)[i];
            if els[i].tag.Panel? then
              && cut == els[i].(elements := cut.elements) && |cut.elements| == |els[i].elements|
              && forall j | 0 <= j < |cut.elements| ::
                   !IsLong(cut.elements[j], maxBytes)
                   && (!IsLong(els[i].elements[j], maxBytes) ==> cut.elements[j] == els[i].elements[j])
            else cut == els[i]
  {
    NoLongTextLeft(els[i].elements, maxBytes);
    hide IsLong;
  }

  /** A long text keeps the longest part of its head that leaves room for the suffix. */
  lemma CutKeepsTheHead(e: Element, maxBytes: nat)
    requires IsLong(e, maxBytes)
    ensures var was, cut := e.text.value.content, CutText(e, maxBytes).text.value.content;
            && CutText(e, maxBytes) == e.(text := CutText(e, maxBytes).text)
            && CutText(e, maxBytes).text.value.markdown == e.text.value.markdown
            && ByteLength(cut) <= Max(maxBytes, ByteLength(SUFFIX))
            && if maxBytes <= ByteLength(SUFFIX) then cut == SUFFIX
               else exists n :: 0 <= n <= |Chars(was)| && cut == Flatten(Chars(was)[..n]) + SUFFIX && IsLongestHead(was, n, maxBytes - ByteLength(SUFFIX))
  {
    var was := e.text.value.content;
    HeadFits(was, maxBytes, SUFFIX);
    hide ByteLength, Chars, Flatten;
    if maxBytes > ByteLength(SUFFIX) {
      LongestHead(was, maxBytes - ByteLength(SUFFIX));
    }
  }

  /** The first `n` code points fit, and one more would not. */
  predicate IsLongestHead(s: Text, n: nat, maxBytes: nat)
    requires n <= |Chars(s)|
  {
    Sum(Chars(s)[..n]) <= maxBytes && (n < |Chars(s)| ==> Sum(Chars(s)[..n]) + CharBytes(Chars(s)[n]) > maxBytes)
  }

  lemma LongestHead(s: Text, maxBytes: nat)
    ensures exists n :: 0 <= n <= |Chars(s)| && FitHead(s, maxBytes) == Flatten(Chars(s)[..n]) && IsLongestHead(s, n, maxBytes)
  {
    HeadCountIsMost(Chars(s), maxBytes);
    assert IsLongestHead(s, HeadCount(Chars(s), maxBytes), maxBytes);
  }
}
