/** The budget as the source runs it: a context whose element list is spliced, shifted and
    rewritten in place, and the counters beside it. */
module CardTrimming {
  import opened Texts
  import opened Truncate
  import opened CardBudget
  import opened CardBudgetLaws
  import M = MarkdownTables

  class ByteBudgetContext {
    const opts: Options
    const frame: nat
    const rest: nat
    var elements: seq<Element>
    var omitted: nat
    var modifications: nat
    var textTruncations: nat

    constructor (card: Card, opts: Options)
      ensures View() == Work(card, 0, 0) && this.opts == opts
    {
      this.opts, frame, rest, elements := opts, card.frame, card.rest, card.elements;
      omitted, modifications, textTruncations := 0, 0, 0;
    }

    function View(): Work
      reads this
    {
      Work(Card(frame, rest, elements), omitted, modifications + textTruncations)
    }

    /** The oldest `count` panels are spliced out, the last of them first. */
    method DropOldestPanels(count: nat)
      modifies this`elements, this`omitted
      ensures View() == Drop(old(View()), count)
    {
      SpliceOldest(count);
      hide DropPanels, PanelCount;
    }

    method SpliceOldest(count: nat)
      modifies this`elements, this`omitted
      ensures elements == DropPanels(old(elements), count)
      ensures omitted == old(omitted) + Min(count, PanelCount(old(elements)))
    {
      hide *;
      var indices := GetPanelIndices(elements);
      ghost var was := elements;
      ghost var before := omitted;
      FirstToGo(was, count);
      var k: nat := Min(count, |indices|);
      ghost var first: nat := k;
      NothingSpliced(was, k);
      while k > 0
        invariant k <= first && indices == PanelIndices(was, 0) && first <= |indices|
        invariant elements == Splice(was, k, first - k) && omitted == before + first - k
      {
        SpliceAtIndex(was, k, first - k);
        var idx := indices[k - 1];
        elements := elements[..idx] + elements[idx + 1..];
        omitted := omitted + 1;
        k := k - 1;
      }
      AllSpliced(was, first);
      DropNoMoreThanThereAre(was, count);
    }

    /** Phase one: long texts inside panels. */
    method TruncatePanelContents()
      modifies this`elements, this`modifications
      ensures View() == CutPanelContents(old(View()), opts)
    {
      hide CutText, CutTexts, LongCount;
      var done: seq<Element> := [];
      for i := 0 to |elements|
        invariant elements == old(elements) && |done| == i
        invariant forall j | 0 <= j < i :: done[j] == CutPanel(elements[j], opts.maxPanelContentBytes)
        invariant modifications == old(modifications) + LongInPanels(elements[..i], opts.maxPanelContentBytes)
      {
        var el := elements[i];
        assert elements[..i + 1][..i] == elements[..i];
        if el.tag.Panel? {
          var inner, cuts := TruncateDivs(el.elements, opts.maxPanelContentBytes);
          el := el.(elements := inner);
          modifications := modifications + cuts;
        }
        done := done + [el];
      }
      assert elements[..|elements|] == elements;
      elements := done;
      assert done == CutPanels(old(elements), opts.maxPanelContentBytes);
    }

    /** Phase two: no more than so many panels. */
    method LimitPanelCount()
      modifies this`elements, this`omitted
      ensures View() == LimitPanels(old(View()), opts)
    {
      IndicesCount(elements);
      hide Drop, PanelIndices;
      var indices := GetPanelIndices(elements);
      var panelCount := |indices|;
      if panelCount > opts.maxEventPanels {
        DropOldestPanels(panelCount - opts.maxEventPanels);
      }
    }

    /** Phase three: no panels. */
    method DropPanelsAltogether()
      modifies this`elements, this`omitted
      ensures View() == DropAllPanels(old(View()))
    {
      IndicesCount(elements);
      hide Drop, PanelIndices;
      var indices := GetPanelIndices(elements);
      DropOldestPanels(|indices|);
    }

    /** Phase four: long texts at the top level. */
    method TruncateTopLevelDivs()
      modifies this`elements, this`textTruncations
      ensures View() == CutTopLevel(old(View()), opts)
    {
      hide CutTexts, LongCount;
      var cut, cuts := TruncateDivs(elements, opts.maxPanelContentBytes);
      elements := cut;
      textTruncations := textTruncations + cuts;
    }

    /** Phase four and a half: elements from the front. */
    method DropExcessElements()
      modifies this`elements, this`omitted
      ensures View() == Shift(old(View()))
    {
      hide Weights;
      while CountCardElements(Card(frame, rest, elements)) > MAX_CARD_ELEMENTS && |elements| > 3
        invariant Shift(View()) == Shift(old(View()))
        decreases |elements|
      {
        elements := elements[1..];
        omitted := omitted + 1;
      }
    }

    /** When what is left fits, the hint goes in front and the card is done. */
    method TryFinish(wasTruncated: bool) returns (r: Option<Result>)
      modifies this`elements
      ensures r == if Fits(old(View())) then Some(Finish(old(View()), opts, wasTruncated)) else None
      ensures r.None? ==> View() == old(View())
    {
      hide Weights, ListBytes;
      if !Fits(View()) {
        return None;
      }
      if omitted > 0 {
        elements := [HintElement(omitted, opts)] + elements;
      }
      return Some(Result(Card(frame, rest, elements), wasTruncated, false));
    }
  }

  /** Where the panels are. */
  function PanelIndices(els: seq<Element>, from: nat): (r: seq<nat>)
    requires from <= |els|
    ensures forall i | 0 <= i < |r| :: from <= r[i] < |els| && els[r[i]].tag.Panel?
    ensures forall i, j | 0 <= i < j < |r| :: r[i] < r[j]
    decreases |els| - from
  {
    if from == |els| then []
    else (if els[from].tag.Panel? then [from] else []) + PanelIndices(els, from + 1)
  }

  method GetPanelIndices(els: seq<Element>) returns (indices: seq<nat>)
    ensures indices == PanelIndices(els, 0)
  {
    indices := [];
    for i := 0 to |els|
      invariant indices + PanelIndices(els, i) == PanelIndices(els, 0)
    {
      ghost var later := PanelIndices(els, i + 1);
      assert PanelIndices(els, i) == (if els[i].tag.Panel? then [i] else []) + later;
      if els[i].tag.Panel? {
        assert indices + ([i] + later) == indices + [i] + later;
        indices := indices + [i];
      }
    }
  }

  lemma {:induction false} IndicesFrom(els: seq<Element>, from: nat)
    requires from <= |els|
    ensures |PanelIndices(els, from)| == PanelCount(els[from..])
    decreases |els| - from
  {
    if from < |els| {
      IndicesFrom(els, from + 1);
      assert els[from..][0] == els[from] && els[from..][1..] == els[from + 1..];
    }
  }

  lemma IndicesCount(els: seq<Element>)
    ensures |PanelIndices(els, 0)| == PanelCount(els)
  {
    IndicesFrom(els, 0);
    assert els[0..] == els;
  }

  /** Without panels number `k` to `k + n`, counted from nought. */
  function Splice(els: seq<Element>, k: nat, n: nat): seq<Element> {
    if els == [] then []
    else if !els[0].tag.Panel? then [els[0]] + Splice(els[1..], k, n)
    else if k > 0 then [els[0]] + Splice(els[1..], k - 1, n)
    else if n > 0 then Splice(els[1..], 0, n - 1)
    else els
  }

  lemma FirstToGo(els: seq<Element>, count: nat)
    ensures 0 <= Min(count, |PanelIndices(els, 0)|) <= |PanelIndices(els, 0)|
    ensures Min(count, |PanelIndices(els, 0)|) == Min(count, PanelCount(els))
  {
    IndicesCount(els);
  }

  lemma SpliceAtIndex(els: seq<Element>, k: nat, n: nat)
    requires 0 < k <= |PanelIndices(els, 0)|
    ensures var idx := PanelIndices(els, 0)[k - 1];
            var part := Splice(els, k, n);
            idx < |part| && part[..idx] + part[idx + 1..] == Splice(els, k - 1, n + 1)
  {
    hide *;
    IndicesCount(els);
    SpliceOneMore(els, k, n);
    IndexOfPanel(els, 0, k - 1);
    assert els[0..] == els;
  }

  /** Where panel number `k` stands. */
  function PanelAt(els: seq<Element>, k: nat): (at: nat)
    requires k < PanelCount(els)
    ensures at < |els|
  {
    if els[0].tag.Panel? then (if k == 0 then 0 else 1 + PanelAt(els[1..], k - 1))
    else 1 + PanelAt(els[1..], k)
  }

  lemma {:induction false} IndexOfPanel(els: seq<Element>, from: nat, k: nat)
    requires from <= |els| && k < |PanelIndices(els, from)|
    ensures k < PanelCount(els[from..]) && PanelIndices(els, from)[k] == from + PanelAt(els[from..], k)
    decreases |els| - from
  {
    IndicesFrom(els, from);
    assert els[from..][0] == els[from] && els[from..][1..] == els[from + 1..];
    if !els[from].tag.Panel? {
      IndexOfPanel(els, from + 1, k);
    } else if k > 0 {
      IndexOfPanel(els, from + 1, k - 1);
    }
  }

  lemma {:induction false} NothingSpliced(els: seq<Element>, k: nat)
    ensures Splice(els, k, 0) == els
  {
    if els != [] {
      NothingSpliced(els[1..], if els[0].tag.Panel? && k > 0 then k - 1 else k);
    }
  }

  lemma {:induction false} AllSpliced(els: seq<Element>, n: nat)
    ensures Splice(els, 0, n) == DropPanels(els, n)
  {
    if els != [] {
      if n == 0 {
        NothingSpliced(els, 0);
      } else {
        AllSpliced(els[1..], if els[0].tag.Panel? then n - 1 else n);
      }
    }
  }

  lemma {:induction false} DropNoMoreThanThereAre(els: seq<Element>, n: nat)
    ensures DropPanels(els, n) == DropPanels(els, Min(n, PanelCount(els)))
  {
    if els != [] && n > 0 {
      DropNoMoreThanThereAre(els[1..], if els[0].tag.Panel? then n - 1 else n);
      if PanelCount(els) == 0 {
        assert [els[0]] + els[1..] == els;
      }
    }
  }

  /** Taking out the last panel not yet taken. */
  lemma {:induction false} SpliceOneMore(els: seq<Element>, k: nat, n: nat)
    requires 0 < k <= PanelCount(els)
    ensures var idx := PanelAt(els, k - 1);
            var part := Splice(els, k, n);
            idx < |part| && part[..idx] + part[idx + 1..] == Splice(els, k - 1, n + 1)
  {
    var part := Splice(els, k, n);
    var idx := PanelAt(els, k - 1);
    if els[0].tag.Panel? && k == 1 {
      assert part[..0] + part[1..] == part[1..];
    } else {
      var tail := Splice(els[1..], if els[0].tag.Panel? then k - 1 else k, n);
      SpliceOneMore(els[1..], if els[0].tag.Panel? then k - 1 else k, n);
      assert part[1..] == tail && part[0] == els[0];
      assert part[..idx] == [els[0]] + tail[..idx - 1] && part[idx + 1..] == tail[idx..];
    }
  }

  /** Long texts of the divs of a list, cut; the number of cuts is returned. */
  method TruncateDivs(els: seq<Element>, maxBytes: nat) returns (r: seq<Element>, cuts: nat)
    ensures r == CutTexts(els, maxBytes) && cuts == LongCount(els, maxBytes)
  {
    hide ByteLength, TruncateUtf8;
    r, cuts := [], 0;
    for i := 0 to |els|
      invariant |r| == i && cuts == LongCount(els[..i], maxBytes)
      invariant forall j | 0 <= j < i :: r[j] == CutText(els[j], maxBytes)
    {
      var inner := els[i];
      assert els[..i + 1][..i] == els[..i];
      if IsLong(inner, maxBytes) {
        var content := TruncateText(inner.text.value.content, maxBytes, false, SUFFIX);
        inner := inner.(text := Some(inner.text.value.(content := content)));
        cuts := cuts + 1;
      }
      r := r + [inner];
    }
    assert els[..|els|] == els;
  }

  method EnforceByteBudget(card: Card, opts: Options) returns (r: Result)
    ensures r == ByteBudget(card, opts)
  {
    hide Fits, CutPanelContents, CutTopLevel, Drop, Shift, WithHint, Weights, PanelCount;
    var ctx := new ByteBudgetContext(card, opts);
    ctx.TruncatePanelContents();
    ctx.LimitPanelCount();
    var result := ctx.TryFinish(ctx.modifications + ctx.textTruncations > 0 || ctx.omitted > 0);
    if result.Some? {
      return result.value;
    }
    ctx.DropPanelsAltogether();
    result := ctx.TryFinish(true);
    if result.Some? {
      return result.value;
    }
    ctx.TruncateTopLevelDivs();
    result := ctx.TryFinish(true);
    if result.Some? {
      return result.value;
    }
    if CountCardElements(ctx.View().card) > MAX_CARD_ELEMENTS {
      ctx.DropExcessElements();
      result := ctx.TryFinish(true);
      if result.Some? {
        return result.value;
      }
    }
    return Result(MINIMAL_CARD, true, true);
  }

  method SpliceFirst(els: seq<Element>) returns (r: seq<Element>)
    requires PanelCount(els) > 0
    ensures r == DropPanels(els, 1)
  {
    var indices := GetPanelIndices(els);
    IndicesCount(els);
    IndexOfPanel(els, 0, 0);
    SpliceOneMore(els, 1, 0);
    NothingSpliced(els, 1);
    AllSpliced(els, 1);
    assert els[0..] == els;
    hide *;
    r := els[..indices[0]] + els[indices[0] + 1..];
  }

  method EnforceElementBudget(card: Card, opts: Options) returns (r: Result)
    ensures r == ElementBudget(card, opts)
  {
    hide Weights, PanelIndices, ListBytes, ByteBudget;
    var fewer := card;
    IndicesCount(fewer.elements);
    var indices := GetPanelIndices(fewer.elements);
    while CountCardElements(fewer) > MAX_CARD_ELEMENTS && |indices| > 0
      invariant DropWhileTooMany(fewer) == DropWhileTooMany(card) && |indices| == PanelCount(fewer.elements)
      decreases |fewer.elements|
    {
      var rest := SpliceFirst(fewer.elements);
      fewer := fewer.(elements := rest);
      IndicesCount(fewer.elements);
      indices := GetPanelIndices(fewer.elements);
    }
    if CountCardElements(fewer) <= MAX_CARD_ELEMENTS && CardBytes(fewer) <= CARD_BUDGET_BYTES {
      return Result(fewer, true, false);
    }
    r := EnforceByteBudget(fewer, opts);
  }

  method EnforceCardBudget(card: Card, opts: Options) returns (r: Result)
    ensures r == Enforce(card, opts)
  {
    EnforceSplits(card, opts);
    CapKeepsElements(card, M.MAX_TABLES);
    CapChangesOrNot(card, M.MAX_TABLES);
    hide Enforce, ElementBudget, ByteBudget, M.Cap, M.Total, Fields, Refill, Weights, ListBytes;
    var fields := Fields(card.elements);
    var contents, dropped := M.CapTables(fields, M.MAX_TABLES);
    var capped := card.(elements := Refill(card.elements, contents));
    assert capped == CapTables(card, M.MAX_TABLES);
    if dropped > 0 {
      if WithinSizes(capped) {
        return Result(capped, true, false);
      }
      r := EnforceElementBudget(capped, opts);
    } else if WithinSizes(card) {
      r := Result(card, false, false);
    } else if CardBytes(card) <= CARD_BUDGET_BYTES && CountCardElements(card) > MAX_CARD_ELEMENTS {
      r := EnforceElementBudget(capped, opts);
    } else {
      r := EnforceByteBudget(card, opts);
    }
  }
}
