/** What every mix of events and finishes keeps of the block store: its bounds. */
module RunStateLaws {
  import opened Texts
  import opened TailMark
  import opened RunState

  datatype Act = Happens(event: Event) | Finish(kind: FinalKind, meta: FinishMeta, now: nat)

  function Do(s: RunState, a: Act): RunState {
    match a
    case Happens(e) => Reduce(s, e)
    case Finish(kind, meta, now) => FinishRun(s, kind, meta, now)
  }

  function DoAll(s: RunState, acts: seq<Act>): RunState {
    if acts == [] then s else Do(DoAll(s, acts[..|acts| - 1]), acts[|acts| - 1])
  }

  // ---- the store ----

  /** Within its window, unless it begins with a marker that defeats the budget. */
  predicate Kept(content: Text, maxChars: nat) {
    |content| <= maxChars || Overlong(content, maxChars)
  }

  predicate WindowedBlock(b: Block) {
    match b
    case Thinking(_, content, _) => Kept(content, MAX_REASONING_CHARS)
    case Plan(_, content, _) => Kept(content, MAX_PLAN_CHARS)
    case _ => true
  }

  function ToolCount(blocks: seq<Block>, id: string): nat {
    if blocks == [] then 0
    else
      var b := blocks[|blocks| - 1];
      ToolCount(blocks[..|blocks| - 1], id) + if b.Tool? && b.id == id then 1 else 0
  }

  /** No tool appears twice, and thinking and plans are within their windows. */
  ghost predicate Store(blocks: seq<Block>) {
    && (forall b | b in blocks :: WindowedBlock(b))
    && (forall id :: ToolCount(blocks, id) <= 1)
  }

  /** A text block that a later one has superseded is within the progress window. */
  predicate StaleTextsWindowed(blocks: seq<Block>) {
    forall i, j | 0 <= i < j < |blocks| && blocks[i].TextBlock? && blocks[j].TextBlock? ::
      Kept(blocks[i].content, MAX_TEXT_CHARS)
  }

  ghost predicate Bounded(s: RunState) {
    && |s.blocks| <= MAX_BLOCKS
    && Store(s.blocks)
    && Kept(s.plan, MAX_PLAN_CHARS)
    && s.omittedBlocks == |s.evicted|
  }

  lemma {:induction false} CountSplit(a: seq<Block>, b: seq<Block>, id: string)
    ensures ToolCount(a + b, id) == ToolCount(a, id) + ToolCount(b, id)
  {
    if b == [] {
      assert a + b == a;
    } else {
      assert (a + b)[..|a + b| - 1] == a + b[..|b| - 1];
      CountSplit(a, b[..|b| - 1], id);
    }
  }

  lemma CountOne(b: Block, id: string)
    ensures ToolCount([b], id) == if b.Tool? && b.id == id then 1 else 0
  {
    assert [b][..0] == [];
  }

  /** Dropping blocks, at either end or in the middle, keeps a store. */
  lemma StoreSplit(a: seq<Block>, b: seq<Block>)
    requires Store(a + b)
    ensures Store(a) && Store(b)
  {
    forall id
      ensures ToolCount(a, id) <= 1 && ToolCount(b, id) <= 1
    {
      CountSplit(a, b, id);
    }
    assert forall x | x in a :: x in a + b;
    assert forall x | x in b :: x in a + b;
  }

  lemma StoreAppend(blocks: seq<Block>, b: Block)
    requires Store(blocks) && WindowedBlock(b)
    requires b.Tool? ==> ToolCount(blocks, b.id) == 0
    ensures Store(blocks + [b])
  {
    forall id
      ensures ToolCount(blocks + [b], id) <= 1
    {
      CountSplit(blocks, [b], id);
      CountOne(b, id);
    }
  }

  lemma CountAround(blocks: seq<Block>, i: nat, b: Block, id: string)
    requires i < |blocks|
    ensures ToolCount(blocks, id) == ToolCount(RemoveAt(blocks, i), id) + ToolCount([blocks[i]], id)
    ensures ToolCount(blocks[i := b], id) == ToolCount(RemoveAt(blocks, i), id) + ToolCount([b], id)
  {
    CountSplit(blocks[..i], blocks[i + 1..], id);
    forall c: Block
      ensures ToolCount(blocks[..i] + ([c] + blocks[i + 1..]), id) == ToolCount(RemoveAt(blocks, i), id) + ToolCount([c], id)
    {
      CountSplit(blocks[..i], [c] + blocks[i + 1..], id);
      CountSplit([c], blocks[i + 1..], id);
    }
    assert blocks[i := b] == blocks[..i] + ([b] + blocks[i + 1..]);
    assert blocks == blocks[..i] + ([blocks[i]] + blocks[i + 1..]);
  }

  lemma StoreRemove(blocks: seq<Block>, i: nat)
    requires Store(blocks) && i < |blocks|
    ensures Store(RemoveAt(blocks, i))
  {
    forall id
      ensures ToolCount(RemoveAt(blocks, i), id) <= 1
    {
      CountAround(blocks, i, blocks[i], id);
    }
  }

  /** A block may be replaced by one of its own kind: a tool by the same tool. */
  predicate Succeeds(b: Block, was: Block) {
    WindowedBlock(b) && (b.Tool? ==> was.Tool? && was.id == b.id)
  }

  lemma StoreReplace(blocks: seq<Block>, i: nat, b: Block)
    requires Store(blocks) && i < |blocks| && Succeeds(b, blocks[i])
    ensures Store(blocks[i := b])
    ensures Store(RemoveAt(blocks, i) + [b])
  {
    var r := blocks[i := b];
    forall id
      ensures ToolCount(r, id) <= 1
      ensures ToolCount(RemoveAt(blocks, i) + [b], id) <= 1
    {
      CountAround(blocks, i, b, id);
      CountSplit(RemoveAt(blocks, i), [b], id);
      CountOne(b, id);
      CountOne(blocks[i], id);
    }
    forall x | x in r
      ensures WindowedBlock(x)
    {
      var k :| 0 <= k < |r| && r[k] == x;
      assert k != i ==> x == blocks[k] && blocks[k] in blocks;
    }
    assert forall x | x in RemoveAt(blocks, i) + [b] :: x == b || x in blocks;
  }

  /** Mapping each block to a successor keeps a store. */
  lemma {:induction false} StoreMap(blocks: seq<Block>, r: seq<Block>)
    requires Store(blocks) && |r| == |blocks|
    requires forall i | 0 <= i < |r| :: Succeeds(r[i], blocks[i])
    ensures Store(r)
    ensures forall id :: ToolCount(r, id) <= ToolCount(blocks, id)
  {
    if r != [] {
      var init, last := blocks[..|r| - 1], r[|r| - 1];
      assert blocks == init + [blocks[|r| - 1]];
      StoreSplit(init, [blocks[|r| - 1]]);
      StoreMap(init, r[..|r| - 1]);
      assert r == r[..|r| - 1] + [last];
      forall id
        ensures ToolCount(r, id) <= ToolCount(blocks, id)
      {
        CountSplit(init, [blocks[|r| - 1]], id);
        CountSplit(r[..|r| - 1], [last], id);
        CountOne(last, id);
        CountOne(blocks[|r| - 1], id);
      }
      assert forall id :: ToolCount(r, id) <= ToolCount(blocks, id) <= 1;
    }
  }

  lemma StoreInactive(blocks: seq<Block>)
    requires Store(blocks)
    ensures Store(MarkThinkingInactive(blocks))
    ensures forall id :: ToolCount(MarkThinkingInactive(blocks), id) <= ToolCount(blocks, id)
  {
    assert forall i | 0 <= i < |blocks| :: blocks[i] in blocks;
    StoreMap(blocks, MarkThinkingInactive(blocks));
  }

  lemma StoreCapped(blocks: seq<Block>)
    requires Store(blocks)
    ensures Store(CapStaleTexts(blocks))
  {
    StoreMap(blocks, CapStaleTexts(blocks));
  }

  lemma {:induction false} StoreWithout(blocks: seq<Block>, p: Block -> bool)
    requires Store(blocks)
    ensures Store(Without(blocks, p))
    ensures forall b | b in Without(blocks, p) :: b in blocks && !p(b)
    ensures forall id :: ToolCount(Without(blocks, p), id) <= ToolCount(blocks, id)
  {
    if blocks != [] {
      var init, b := blocks[..|blocks| - 1], blocks[|blocks| - 1];
      assert blocks == init + [b];
      StoreSplit(init, [b]);
      StoreWithout(init, p);
      forall id
        ensures ToolCount(Without(blocks, p), id) <= ToolCount(blocks, id)
      {
        CountSplit(init, [b], id);
        CountSplit(Without(init, p), [b], id);
        CountOne(b, id);
        assert Without(blocks, p) == if p(b) then Without(init, p) else Without(init, p) + [b];
      }
    }
  }

  lemma NoToolNoCount(blocks: seq<Block>, id: string)
    requires forall i | 0 <= i < |blocks| :: !(blocks[i].Tool? && blocks[i].id == id)
    ensures ToolCount(blocks, id) == 0
  {
  }

  lemma StoreUpsert(blocks: seq<Block>, p: Block -> bool, added: Block, update: Block -> Block, moveToEnd: bool)
    requires Store(blocks) && WindowedBlock(added)
    requires added.Tool? ==> forall b: Block | b.Tool? && b.id == added.id :: p(b)
    requires forall b: Block | p(b) && WindowedBlock(b) :: Succeeds(update(b), b)
    ensures Store(Upsert(blocks, p, added, update, moveToEnd))
  {
    var at := LastIndex(blocks, p, |blocks|);
    if at.None? {
      if added.Tool? {
        NoToolNoCount(blocks, added.id);
      }
      StoreAppend(blocks, added);
    } else {
      assert blocks[at.value] in blocks;
      StoreReplace(blocks, at.value, update(blocks[at.value]));
    }
  }

  /** Capping the block list: the newest stay, in order, and whatever left is the
      next stretch of the history of evicted blocks. */
  lemma CappedIsSuffix(s: RunState, blocks: seq<Block>)
    ensures var t := WithCappedBlocks(s, blocks);
            && |t.blocks| <= MAX_BLOCKS
            && s.evicted <= t.evicted
            && t.evicted + t.blocks == s.evicted + blocks
            && (t.evicted != s.evicted ==> |t.blocks| == MAX_BLOCKS)
  {
  }

  lemma BoundedCapped(s: RunState, blocks: seq<Block>)
    requires Bounded(s) && Store(blocks)
    ensures Bounded(WithCappedBlocks(s, blocks))
  {
    CappedIsSuffix(s, blocks);
    assert blocks == blocks[..Excess(blocks)] + KeepLatest(blocks);
    StoreSplit(blocks[..Excess(blocks)], KeepLatest(blocks));
  }

  // ---- every reducer keeps the store bounded ----

  lemma ContentKeepsBounds(s: RunState, c: Content)
    requires Bounded(s)
    ensures Bounded(ReduceContent(s, c))
  {
    hide ReduceContent;
    match c
    case ThinkingPart(itemId, text) => ThinkingKeepsBounds(s, itemId, text);
    case TextPart(text) => TextKeepsBounds(s, text);
    case ToolUse(id, name) => ToolUseKeepsBounds(s, id, name);
  }

  lemma ThinkingKeepsBounds(s: RunState, itemId: Option<string>, text: Text)
    requires Bounded(s)
    ensures Bounded(ReduceContent(s, ThinkingPart(itemId, text)))
  {
    hide Window, Overlong;
    StoreInactive(s.blocks);
    var n := |s.blocks|;
    var last := LastBlock(s);
    if last.Some? && last.value.Thinking? && last.value.itemId == itemId {
      WindowKept(last.value.content + text, MAX_REASONING_CHARS);
      var b := Thinking(itemId, Window(last.value.content + text, MAX_REASONING_CHARS), true);
      StoreReplace(s.blocks, n - 1, b);
      assert s.blocks[n - 1 := b] == s.blocks[..n - 1] + [b];
      BoundedCapped(s, s.blocks[..n - 1] + [b]);
    } else {
      WindowKept(text, MAX_REASONING_CHARS);
      var b := Thinking(itemId, Window(text, MAX_REASONING_CHARS), true);
      StoreAppend(MarkThinkingInactive(s.blocks), b);
      BoundedCapped(s, MarkThinkingInactive(s.blocks) + [b]);
    }
  }

  lemma TextKeepsBounds(s: RunState, text: Text)
    requires Bounded(s)
    ensures Bounded(ReduceContent(s, TextPart(text)))
  {
    StoreInactive(s.blocks);
    var n := |s.blocks|;
    var blocks := MarkThinkingInactive(s.blocks);
    if n > 0 && blocks[n - 1].TextBlock? {
      var b := TextBlock(None, blocks[n - 1].content + text);
      StoreReplace(blocks, n - 1, b);
      assert blocks[n - 1 := b] == blocks[..n - 1] + [b];
      BoundedCapped(s, blocks[..n - 1] + [b]);
    } else {
      StoreAppend(blocks, TextBlock(None, text));
      BoundedCapped(s, blocks + [TextBlock(None, text)]);
    }
  }

  lemma ToolUseKeepsBounds(s: RunState, id: string, name: string)
    requires Bounded(s)
    ensures Bounded(ReduceContent(s, ToolUse(id, name)))
  {
    StoreInactive(s.blocks);
    var blocks := MarkThinkingInactive(s.blocks);
    var at := FirstIndex(blocks, (b: Block) => b.Tool? && b.id == id, 0);
    if at.Some? {
      var tool := blocks[at.value];
      var b := Tool(id, if tool.name != "" then tool.name else name, tool.output, tool.status);
      StoreReplace(blocks, at.value, b);
      assert KeepLatest(blocks[at.value := b]) == blocks[at.value := b];
    } else {
      NoToolNoCount(blocks, id);
      StoreAppend(blocks, Tool(id, name, None, ToolRunning));
      BoundedCapped(s, blocks + [Tool(id, name, None, ToolRunning)]);
    }
  }

  lemma {:induction false} ContentsKeepBounds(s: RunState, contents: seq<Content>)
    requires Bounded(s)
    ensures Bounded(ReduceContents(s, contents))
  {
    if contents != [] {
      ContentsKeepBounds(s, contents[..|contents| - 1]);
      ContentKeepsBounds(ReduceContents(s, contents[..|contents| - 1]), contents[|contents| - 1]);
    }
  }

  lemma {:induction false} ToolResultsKeepBounds(s: RunState, results: seq<ToolResult>)
    requires Bounded(s)
    ensures Bounded(ReduceToolResults(s, results))
  {
    if results != [] {
      var t := ReduceToolResults(s, results[..|results| - 1]);
      var r := results[|results| - 1];
      ToolResultsKeepBounds(s, results[..|results| - 1]);
      var at := FirstIndex(t.blocks, (b: Block) => b.Tool? && b.id == r.id, 0);
      if at.Some? {
        StoreReplace(t.blocks, at.value, ReduceToolResult(t, r).blocks[at.value]);
      }
    }
  }

  lemma PlanKeepsBounds(s: RunState, text: Text)
    requires Bounded(s)
    ensures Bounded(ReducePlan(s, text))
  {
    var plan := Window(s.plan + [10] + text, MAX_PLAN_CHARS);
    WindowKept(s.plan + [10] + text, MAX_PLAN_CHARS);
    hide Window, Overlong;
    var rest := Without(s.blocks, (b: Block) => b.Plan?);
    StoreWithout(s.blocks, (b: Block) => b.Plan?);
    StoreAppend(rest, Plan(None, plan, true));
    BoundedCapped(s.(plan := plan), rest + [Plan(None, plan, true)]);
  }

  lemma TextDiffKeepsBounds(s: RunState, d: Diff)
    requires Bounded(s)
    ensures Bounded(ApplyTextDiff(s, d))
  {
    if d.text.Some? {
      StoreInactive(s.blocks);
      var p := (b: Block) => b.TextBlock? && b.itemId == Some(d.itemId);
      var update := (b: Block) => if b.TextBlock? then TextBlock(b.itemId, d.text.value) else b;
      StoreUpsert(MarkThinkingInactive(s.blocks), p, TextBlock(Some(d.itemId), d.text.value), update, !d.complete);
      BoundedCapped(s, Upsert(MarkThinkingInactive(s.blocks), p, TextBlock(Some(d.itemId), d.text.value), update, !d.complete));
    }
  }

  lemma ReasoningDiffKeepsBounds(s: RunState, d: Diff)
    requires Bounded(s)
    ensures Bounded(ApplyReasoningDiff(s, d))
  {
    if d.reasoning.Some? {
      var content := Window(d.reasoning.value, MAX_REASONING_CHARS);
      WindowKept(d.reasoning.value, MAX_REASONING_CHARS);
      var p := (b: Block) => b.Thinking? && b.itemId == Some(d.itemId);
      var added := Thinking(Some(d.itemId), content, !d.complete);
      var update := (b: Block) => if b.Thinking? then Thinking(b.itemId, content, !d.complete) else b;
      StoreUpsert(s.blocks, p, added, update, !d.complete);
      BoundedCapped(s, Upsert(s.blocks, p, added, update, !d.complete));
    }
  }

  lemma ToolDiffKeepsBounds(s: RunState, d: Diff)
    requires Bounded(s)
    ensures Bounded(ApplyToolDiff(s, d))
  {
    if d.toolOutput.Some? {
      var output := Some(KeepTail(d.toolOutput.value, MAX_TOOL_DETAIL_CHARS));
      var name := if d.toolName.Some? then d.toolName.value else "command";
      var p := (b: Block) => b.Tool? && b.id == d.itemId;
      var added := Tool(d.itemId, name, output, DiffStatus(d, ToolRunning));
      var update := (b: Block) => if b.Tool? then Tool(b.id, b.name, output, DiffStatus(d, b.status)) else b;
      StoreUpsert(s.blocks, p, added, update, !d.complete);
      BoundedCapped(s, Upsert(s.blocks, p, added, update, !d.complete));
    }
  }

  lemma PlanDiffKeepsBounds(s: RunState, d: Diff)
    requires Bounded(s)
    ensures Bounded(ApplyPlanDiff(s, d))
  {
    if d.plan.Some? {
      var plan := Window(d.plan.value, MAX_PLAN_CHARS);
      WindowKept(d.plan.value, MAX_PLAN_CHARS);
      var p := (b: Block) => b.Plan? && b.itemId == Some(d.itemId);
      var added := Plan(Some(d.itemId), plan, !d.complete);
      var update := (b: Block) => if b.Plan? then Plan(b.itemId, plan, !d.complete) else b;
      StoreUpsert(s.blocks, p, added, update, !d.complete);
      BoundedCapped(s.(plan := plan), Upsert(s.blocks, p, added, update, !d.complete));
    }
  }

  lemma {:induction false} FilesKeepStore(blocks: seq<Block>, d: Diff, files: seq<string>)
    requires Store(blocks)
    ensures Store(UpsertFiles(blocks, d, files))
  {
    if files != [] {
      FilesKeepStore(blocks, d, files[..|files| - 1]);
      var path := files[|files| - 1];
      var file := FileChange(Some(d.itemId), path);
      StoreUpsert(UpsertFiles(blocks, d, files[..|files| - 1]),
                  (b: Block) => b.FileChange? && b.itemId == Some(d.itemId) && b.path == path,
                  file, (b: Block) => file, !d.complete);
    }
  }

  lemma TurnDiffKeepsBounds(s: RunState, d: Diff)
    requires Bounded(s)
    ensures Bounded(ReduceTurnDiff(s, d))
  {
    hide ApplyTextDiff, ApplyReasoningDiff, ApplyToolDiff, ApplyPlanDiff;
    TextDiffKeepsBounds(s, d);
    var s1 := ApplyTextDiff(s, d);
    ReasoningDiffKeepsBounds(s1, d);
    var s2 := ApplyReasoningDiff(s1, d);
    ToolDiffKeepsBounds(s2, d);
    var s3 := ApplyToolDiff(s2, d);
    PlanDiffKeepsBounds(s3, d);
    var s4 := ApplyPlanDiff(s3, d);
    if d.fileChanges.Some? {
      FilesKeepStore(s4.blocks, d, d.fileChanges.value);
      BoundedCapped(s4, UpsertFiles(s4.blocks, d, d.fileChanges.value));
    }
  }

  lemma PromoteKeepsBounds(s: RunState, fullText: Option<Text>)
    requires Bounded(s)
    ensures Bounded(PromoteFinalAnswer(s, fullText))
    ensures StaleTextsWindowed(s.blocks) ==> StaleTextsWindowed(PromoteFinalAnswer(s, fullText).blocks)
  {
    hide Window, Overlong;
    var at := LastIndex(s.blocks, (b: Block) => b.TextBlock? && HasText(b.content), |s.blocks|);
    if s.finalAnswer.None? && at.Some? {
      StoreRemove(s.blocks, at.value);
    }
  }

  lemma InnerKeepsBounds(s: RunState, e: Event)
    requires Bounded(s)
    ensures Bounded(ReduceInner(s, e))
  {
    hide Bounded, ReduceContents, ReduceToolResults, ReducePlan, ReduceTurnDiff, PromoteFinalAnswer, WithCappedBlocks;
    match e
    case Result(info) => ResultKeepsBounds(s, info);
    case FinalAnswerText(itemId, text, complete) => FinalAnswerKeepsBounds(s, itemId, text, complete);
    case Assistant(contents) => ContentsKeepBounds(s, contents);
    case ToolResults(results) => ToolResultsKeepBounds(s, results);
    case PlanText(text) => PlanKeepsBounds(s, text);
    case FileChanged(path) => FileKeepsBounds(s, path);
    case TurnDiff(diff) => TurnDiffKeepsBounds(s, diff);
    case _ => OthersKeepBounds(s, e);
  }

  lemma OthersKeepBounds(s: RunState, e: Event)
    requires Bounded(s) && (e.Init? || e.TurnStarted? || e.ApprovalExpired? || e.Elsewhere?)
    ensures Bounded(ReduceInner(s, e))
  {
  }

  lemma FileKeepsBounds(s: RunState, path: string)
    requires Bounded(s)
    ensures Bounded(WithCappedBlocks(s, s.blocks + [FileChange(None, path)]))
  {
    StoreAppend(s.blocks, FileChange(None, path));
    BoundedCapped(s, s.blocks + [FileChange(None, path)]);
  }

  lemma ResultKeepsBounds(s: RunState, info: ResultInfo)
    requires Bounded(s)
    ensures Bounded(ReduceResult(s, info))
  {
    hide PromoteFinalAnswer;
    PromoteKeepsBounds(s, info.answer);
    StoreInactive(PromoteFinalAnswer(s, info.answer).blocks);
  }

  lemma FinalAnswerKeepsBounds(s: RunState, itemId: Option<string>, text: Text, complete: Option<bool>)
    requires Bounded(s)
    ensures Bounded(ReduceFinalAnswer(s, itemId, text, complete))
  {
    StoreWithout(s.blocks, (b: Block) => b.TextBlock? && b.itemId == itemId);
  }

  /** After the cap, only the newest text can exceed the progress window. */
  lemma CapWindowsStaleTexts(blocks: seq<Block>)
    ensures StaleTextsWindowed(CapStaleTexts(blocks))
  {
    var r := CapStaleTexts(blocks);
    forall i, j | 0 <= i < j < |r| && r[i].TextBlock? && r[j].TextBlock?
      ensures Kept(r[i].content, MAX_TEXT_CHARS)
    {
      assert blocks[i].TextBlock? && blocks[j].TextBlock?;
      assert NewestText(blocks) != Some(i);
      WindowKept(blocks[i].content, MAX_TEXT_CHARS);
    }
  }

  lemma ActKeepsBounds(s: RunState, a: Act)
    requires Bounded(s) && StaleTextsWindowed(s.blocks)
    ensures Bounded(Do(s, a)) && StaleTextsWindowed(Do(s, a).blocks)
  {
    hide ReduceInner, PromoteFinalAnswer, CapStaleTexts, StaleTextsWindowed, MarkThinkingInactive;
    match a
    case Happens(e) =>
      InnerKeepsBounds(s, e);
      var next := ReduceInner(s, e);
      StoreCapped(next.blocks);
      CapWindowsStaleTexts(next.blocks);
    case Finish(kind, meta, now) =>
      PromoteKeepsBounds(s, None);
      var p := PromoteFinalAnswer(s, None);
      StoreInactive(p.blocks);
      InactiveKeepsStale(p.blocks);
  }

  lemma InactiveKeepsStale(blocks: seq<Block>)
    requires StaleTextsWindowed(blocks)
    ensures StaleTextsWindowed(MarkThinkingInactive(blocks))
  {
  }

  /** In every reachable state: at most 24 blocks, no tool twice, thinking, plan and
      superseded text within their windows, and the omitted count exact. */
  lemma {:induction false} StoreStaysBounded(acts: seq<Act>)
    ensures Bounded(DoAll(INITIAL, acts)) && StaleTextsWindowed(DoAll(INITIAL, acts).blocks)
  {
    if acts != [] {
      StoreStaysBounded(acts[..|acts| - 1]);
      ActKeepsBounds(DoAll(INITIAL, acts[..|acts| - 1]), acts[|acts| - 1]);
    }
  }
}
