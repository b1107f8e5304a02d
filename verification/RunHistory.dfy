/** Where blocks go: a block leaves the store through the window, into the history of
    evicted blocks, or because a plan or an answer took its place. */
module RunHistory {
  import opened Texts
  import opened TailMark
  import opened RunState
  import opened RunStateLaws

  /** What an update of a block never changes. */
  datatype BlockKey =
    | ThinkingKey(itemId: Option<string>)
    | TextKey
    | ToolKey(id: string)
    | PlanKey
    | FileKey(itemId: Option<string>, path: string)

  function KeyOf(b: Block): BlockKey {
    match b
    case Thinking(itemId, _, _) => ThinkingKey(itemId)
    case TextBlock(_, _) => TextKey
    case Tool(id, _, _, _) => ToolKey(id)
    case Plan(_, _, _) => PlanKey
    case FileChange(itemId, path) => FileKey(itemId, path)
  }

  function KeyCount(blocks: seq<Block>, key: BlockKey): nat {
    if blocks == [] then 0
    else KeyCount(blocks[..|blocks| - 1], key) + if KeyOf(blocks[|blocks| - 1]) == key then 1 else 0
  }

  /** Blocks with this key in the store or ever evicted from it. */
  function EverCount(s: RunState, key: BlockKey): nat {
    KeyCount(s.evicted, key) + KeyCount(s.blocks, key)
  }

  lemma {:induction false} KeySplit(a: seq<Block>, b: seq<Block>, key: BlockKey)
    ensures KeyCount(a + b, key) == KeyCount(a, key) + KeyCount(b, key)
  {
    if b == [] {
      assert a + b == a;
    } else {
      assert (a + b)[..|a + b| - 1] == a + b[..|b| - 1];
      KeySplit(a, b[..|b| - 1], key);
    }
  }

  lemma KeyOne(b: Block, key: BlockKey)
    ensures KeyCount([b], key) == if KeyOf(b) == key then 1 else 0
  {
    assert [b][..0] == [];
  }

  lemma {:induction false} SameKeys(a: seq<Block>, b: seq<Block>, key: BlockKey)
    requires |a| == |b| && forall i | 0 <= i < |a| :: KeyOf(a[i]) == KeyOf(b[i])
    ensures KeyCount(a, key) == KeyCount(b, key)
  {
    if a != [] {
      SameKeys(a[..|a| - 1], b[..|b| - 1], key);
    }
  }

  /** Taking one block out takes out one key. */
  lemma KeyRemoved(blocks: seq<Block>, i: nat, key: BlockKey)
    requires i < |blocks|
    ensures KeyCount(blocks, key) == KeyCount(RemoveAt(blocks, i), key) + if KeyOf(blocks[i]) == key then 1 else 0
  {
    hide KeyOf;
    KeySplit(blocks[..i], blocks[i + 1..], key);
    KeySplit(blocks[..i], [blocks[i]] + blocks[i + 1..], key);
    KeySplit([blocks[i]], blocks[i + 1..], key);
    KeyOne(blocks[i], key);
    assert blocks == blocks[..i] + ([blocks[i]] + blocks[i + 1..]);
  }

  lemma KeyAppended(blocks: seq<Block>, b: Block, key: BlockKey)
    ensures KeyCount(blocks + [b], key) == KeyCount(blocks, key) + if KeyOf(b) == key then 1 else 0
  {
    KeySplit(blocks, [b], key);
    KeyOne(b, key);
  }

  lemma CappedCount(s: RunState, blocks: seq<Block>, key: BlockKey)
    ensures EverCount(WithCappedBlocks(s, blocks), key) == KeyCount(s.evicted, key) + KeyCount(blocks, key)
  {
    hide KeyCount;
    KeySplit(s.evicted, blocks[..Excess(blocks)], key);
    KeySplit(blocks[..Excess(blocks)], KeepLatest(blocks), key);
    assert blocks == blocks[..Excess(blocks)] + KeepLatest(blocks);
  }

  /** An update keeps every key: in place, moved to the end, or with one more. */
  lemma UpsertCount(blocks: seq<Block>, p: Block -> bool, added: Block, update: Block -> Block, moveToEnd: bool, key: BlockKey)
    requires forall b: Block | p(b) :: KeyOf(update(b)) == KeyOf(b)
    ensures KeyCount(Upsert(blocks, p, added, update, moveToEnd), key) >= KeyCount(blocks, key)
  {
    hide KeyOf;
    var at := LastIndex(blocks, p, |blocks|);
    if at.None? {
      KeyAppended(blocks, added, key);
    } else {
      var i := at.value;
      var b := update(blocks[i]);
      KeyRemoved(blocks, i, key);
      KeyAppended(RemoveAt(blocks, i), b, key);
      SameKeys(blocks[i := b], blocks, key);
    }
  }

  lemma InactiveCount(blocks: seq<Block>, key: BlockKey)
    ensures KeyCount(MarkThinkingInactive(blocks), key) == KeyCount(blocks, key)
  {
    SameKeys(MarkThinkingInactive(blocks), blocks, key);
  }

  lemma StaleCount(blocks: seq<Block>, key: BlockKey)
    ensures KeyCount(CapStaleTexts(blocks), key) == KeyCount(blocks, key)
  {
    hide Window;
    SameKeys(CapStaleTexts(blocks), blocks, key);
  }

  lemma {:induction false} WithoutCount(blocks: seq<Block>, p: Block -> bool, key: BlockKey)
    requires forall b: Block | p(b) :: KeyOf(b) != key
    ensures KeyCount(Without(blocks, p), key) == KeyCount(blocks, key)
  {
    if blocks != [] {
      var init, b := blocks[..|blocks| - 1], blocks[|blocks| - 1];
      WithoutCount(init, p, key);
      KeyAppended(Without(init, p), b, key);
      assert Without(blocks, p) == if p(b) then Without(init, p) else Without(init, p) + [b];
    }
  }

  /** No block with this key was lost, and the evicted history only grows. */
  predicate Keeps(s: RunState, t: RunState, key: BlockKey) {
    EverCount(s, key) <= EverCount(t, key) && s.evicted <= t.evicted
  }

  lemma CappedKeeps(s: RunState, s1: RunState, blocks: seq<Block>, key: BlockKey)
    requires s1.evicted == s.evicted && KeyCount(s.blocks, key) <= KeyCount(blocks, key)
    ensures Keeps(s, WithCappedBlocks(s1, blocks), key)
  {
    CappedCount(s1, blocks, key);
  }

  lemma ContentKeeps(s: RunState, c: Content, key: BlockKey)
    requires |s.blocks| <= MAX_BLOCKS
    ensures Keeps(s, ReduceContent(s, c), key)
  {
    hide *;
    match c
    case ThinkingPart(itemId, text) => ThinkingPartKeeps(s, itemId, text, key);
    case TextPart(text) => TextPartKeeps(s, text, key);
    case ToolUse(id, name) => ToolUseKeeps(s, id, name, key);
  }

  lemma TextPartKeeps(s: RunState, text: Text, key: BlockKey)
    ensures Keeps(s, ReduceContent(s, TextPart(text)), key)
  {
    hide KeyCount, WithCappedBlocks;
    InactiveCount(s.blocks, key);
    var n := |s.blocks|;
    var inactive := MarkThinkingInactive(s.blocks);
    if n > 0 && inactive[n - 1].TextBlock? {
      var b := TextBlock(None, inactive[n - 1].content + text);
      KeyAppended(inactive[..n - 1], b, key);
      KeyAppended(inactive[..n - 1], inactive[n - 1], key);
      assert inactive == inactive[..n - 1] + [inactive[n - 1]];
      CappedKeeps(s, s, inactive[..n - 1] + [b], key);
    } else {
      KeyAppended(inactive, TextBlock(None, text), key);
      CappedKeeps(s, s, inactive + [TextBlock(None, text)], key);
    }
  }

  lemma ToolUseKeeps(s: RunState, id: string, name: string, key: BlockKey)
    requires |s.blocks| <= MAX_BLOCKS
    ensures Keeps(s, ReduceContent(s, ToolUse(id, name)), key)
  {
    hide KeyCount, WithCappedBlocks;
    InactiveCount(s.blocks, key);
    var inactive := MarkThinkingInactive(s.blocks);
    var at := FirstIndex(inactive, (b: Block) => b.Tool? && b.id == id, 0);
    if at.Some? {
      SameKeys(ReduceContent(s, ToolUse(id, name)).blocks, inactive, key);
    } else {
      KeyAppended(inactive, Tool(id, name, None, ToolRunning), key);
      CappedKeeps(s, s, inactive + [Tool(id, name, None, ToolRunning)], key);
    }
  }

  lemma ThinkingPartKeeps(s: RunState, itemId: Option<string>, text: Text, key: BlockKey)
    ensures Keeps(s, ReduceContent(s, ThinkingPart(itemId, text)), key)
  {
    hide Window, KeyCount;
    InactiveCount(s.blocks, key);
    var n := |s.blocks|;
    var last := LastBlock(s);
    if last.Some? && last.value.Thinking? && last.value.itemId == itemId {
      var b := Thinking(itemId, Window(last.value.content + text, MAX_REASONING_CHARS), true);
      KeyAppended(s.blocks[..n - 1], b, key);
      KeyAppended(s.blocks[..n - 1], last.value, key);
      assert s.blocks == s.blocks[..n - 1] + [last.value];
      CappedKeeps(s, s, s.blocks[..n - 1] + [b], key);
    } else {
      var b := Thinking(itemId, Window(text, MAX_REASONING_CHARS), true);
      KeyAppended(MarkThinkingInactive(s.blocks), b, key);
      CappedKeeps(s, s, MarkThinkingInactive(s.blocks) + [b], key);
    }
  }

  lemma {:induction false} ContentsKeep(s: RunState, contents: seq<Content>, key: BlockKey)
    requires Bounded(s)
    ensures Keeps(s, ReduceContents(s, contents), key)
  {
    hide ReduceContent;
    if contents != [] {
      var earlier := contents[..|contents| - 1];
      ContentsKeepBounds(s, earlier);
      ContentsKeep(s, earlier, key);
      ContentKeeps(ReduceContents(s, earlier), contents[|contents| - 1], key);
    }
  }

  lemma {:induction false} ToolResultsKeep(s: RunState, results: seq<ToolResult>, key: BlockKey)
    ensures Keeps(s, ReduceToolResults(s, results), key)
  {
    hide KeyCount;
    if results != [] {
      var t := ReduceToolResults(s, results[..|results| - 1]);
      ToolResultsKeep(s, results[..|results| - 1], key);
      SameKeys(ReduceToolResult(t, results[|results| - 1]).blocks, t.blocks, key);
    }
  }

  /** A plan takes the place of the plans before it. */
  lemma PlanKeeps(s: RunState, text: Text, key: BlockKey)
    ensures var t := ReducePlan(s, text);
            && (key != PlanKey ==> Keeps(s, t, key))
            && s.evicted <= t.evicted && t.blocks != [] && t.blocks[|t.blocks| - 1].Plan?
  {
    hide KeyCount;
    var plan := Window(s.plan + [10] + text, MAX_PLAN_CHARS);
    hide Window;
    var rest := Without(s.blocks, (b: Block) => b.Plan?);
    if key != PlanKey {
      WithoutCount(s.blocks, (b: Block) => b.Plan?, key);
      KeyAppended(rest, Plan(None, plan, true), key);
      CappedKeeps(s, s.(plan := plan), rest + [Plan(None, plan, true)], key);
    }
  }

  lemma TextDiffKeeps(s: RunState, d: Diff, key: BlockKey)
    ensures Keeps(s, ApplyTextDiff(s, d), key)
  {
    hide KeyCount;
    if d.text.Some? {
      var p := (b: Block) => b.TextBlock? && b.itemId == Some(d.itemId);
      var added := TextBlock(Some(d.itemId), d.text.value);
      var update := (b: Block) => if b.TextBlock? then TextBlock(b.itemId, d.text.value) else b;
      InactiveCount(s.blocks, key);
      UpsertCount(MarkThinkingInactive(s.blocks), p, added, update, !d.complete, key);
      hide Upsert;
      CappedKeeps(s, s, Upsert(MarkThinkingInactive(s.blocks), p, added, update, !d.complete), key);
    }
  }

  lemma ReasoningDiffKeeps(s: RunState, d: Diff, key: BlockKey)
    ensures Keeps(s, ApplyReasoningDiff(s, d), key)
  {
    hide KeyCount, Window;
    if d.reasoning.Some? {
      var content := Window(d.reasoning.value, MAX_REASONING_CHARS);
      var p := (b: Block) => b.Thinking? && b.itemId == Some(d.itemId);
      var added := Thinking(Some(d.itemId), content, !d.complete);
      var update := (b: Block) => if b.Thinking? then Thinking(b.itemId, content, !d.complete) else b;
      UpsertCount(s.blocks, p, added, update, !d.complete, key);
      hide Upsert;
      CappedKeeps(s, s, Upsert(s.blocks, p, added, update, !d.complete), key);
    }
  }

  lemma ToolDiffKeeps(s: RunState, d: Diff, key: BlockKey)
    ensures Keeps(s, ApplyToolDiff(s, d), key)
  {
    hide KeyCount;
    if d.toolOutput.Some? {
      var output := Some(KeepTail(d.toolOutput.value, MAX_TOOL_DETAIL_CHARS));
      var name := if d.toolName.Some? then d.toolName.value else "command";
      var p := (b: Block) => b.Tool? && b.id == d.itemId;
      var added := Tool(d.itemId, name, output, DiffStatus(d, ToolRunning));
      var update := (b: Block) => if b.Tool? then Tool(b.id, b.name, output, DiffStatus(d, b.status)) else b;
      UpsertCount(s.blocks, p, added, update, !d.complete, key);
      hide Upsert;
      CappedKeeps(s, s, Upsert(s.blocks, p, added, update, !d.complete), key);
    }
  }

  lemma PlanDiffKeeps(s: RunState, d: Diff, key: BlockKey)
    ensures Keeps(s, ApplyPlanDiff(s, d), key)
  {
    hide KeyCount, Window;
    if d.plan.Some? {
      var plan := Window(d.plan.value, MAX_PLAN_CHARS);
      var p := (b: Block) => b.Plan? && b.itemId == Some(d.itemId);
      var added := Plan(Some(d.itemId), plan, !d.complete);
      var update := (b: Block) => if b.Plan? then Plan(b.itemId, plan, !d.complete) else b;
      UpsertCount(s.blocks, p, added, update, !d.complete, key);
      hide Upsert;
      CappedKeeps(s, s.(plan := plan), Upsert(s.blocks, p, added, update, !d.complete), key);
    }
  }

  lemma {:induction false} FilesKeep(blocks: seq<Block>, d: Diff, files: seq<string>, key: BlockKey)
    ensures KeyCount(UpsertFiles(blocks, d, files), key) >= KeyCount(blocks, key)
  {
    hide KeyCount;
    if files != [] {
      FilesKeep(blocks, d, files[..|files| - 1], key);
      var path := files[|files| - 1];
      var file := FileChange(Some(d.itemId), path);
      UpsertCount(UpsertFiles(blocks, d, files[..|files| - 1]),
                  (b: Block) => b.FileChange? && b.itemId == Some(d.itemId) && b.path == path,
                  file, (b: Block) => file, !d.complete, key);
    }
  }

  lemma TurnDiffKeeps(s: RunState, d: Diff, key: BlockKey)
    ensures Keeps(s, ReduceTurnDiff(s, d), key)
  {
    hide ApplyTextDiff, ApplyReasoningDiff, ApplyToolDiff, ApplyPlanDiff, KeyCount;
    TextDiffKeeps(s, d, key);
    var s1 := ApplyTextDiff(s, d);
    ReasoningDiffKeeps(s1, d, key);
    var s2 := ApplyReasoningDiff(s1, d);
    ToolDiffKeeps(s2, d, key);
    var s3 := ApplyToolDiff(s2, d);
    PlanDiffKeeps(s3, d, key);
    var s4 := ApplyPlanDiff(s3, d);
    if d.fileChanges.Some? {
      FilesKeep(s4.blocks, d, d.fileChanges.value, key);
      CappedKeeps(s4, s4, UpsertFiles(s4.blocks, d, d.fileChanges.value), key);
    }
  }

  /** Promotion takes one text out at most, and then it is the answer. */
  lemma PromotionKeeps(s: RunState, fullText: Option<Text>, key: BlockKey)
    ensures var t := PromoteFinalAnswer(s, fullText);
            && t.evicted == s.evicted
            && (|| EverCount(s, key) <= EverCount(t, key)
                || (key == TextKey && s.finalAnswer.None? && t.finalAnswer.Some? && EverCount(s, key) == EverCount(t, key) + 1))
  {
    hide KeyCount, HasText;
    var at := LastIndex(s.blocks, (b: Block) => b.TextBlock? && HasText(b.content), |s.blocks|);
    if s.finalAnswer.None? && at.Some? {
      KeyRemoved(s.blocks, at.value, key);
    }
  }

  lemma FinalAnswerKeeps(s: RunState, itemId: Option<string>, text: Text, complete: Option<bool>, key: BlockKey)
    ensures var t := ReduceFinalAnswer(s, itemId, text, complete);
            && t.evicted == s.evicted
            && (EverCount(s, key) <= EverCount(t, key) || (key == TextKey && t.finalAnswer.Some?))
  {
    hide KeyCount, HasText;
    if key != TextKey && itemId.Some? && itemId.value != "" {
      WithoutCount(s.blocks, (b: Block) => b.TextBlock? && b.itemId == itemId, key);
    }
  }

  /** A text that went became the answer; a plan that went has a successor. */
  predicate Accounted(s: RunState, a: Act, t: RunState, key: BlockKey) {
    || EverCount(s, key) <= EverCount(t, key)
    || (key == PlanKey && a.Happens? && a.event.PlanText? && t.blocks != [] && t.blocks[|t.blocks| - 1].Plan?)
    || (key == TextKey && a.Happens? && a.event.FinalAnswerText? && t.finalAnswer.Some?)
    || (key == TextKey && s.finalAnswer.None? && t.finalAnswer.Some? && EverCount(s, key) == EverCount(t, key) + 1)
  }

  lemma InnerAccounts(s: RunState, e: Event, key: BlockKey)
    requires Bounded(s)
    ensures Accounted(s, Happens(e), ReduceInner(s, e), key) && s.evicted <= ReduceInner(s, e).evicted
  {
    hide KeyCount, ReduceContents, ReduceToolResults, ReducePlan, ReduceTurnDiff, PromoteFinalAnswer, ReduceFinalAnswer, WithCappedBlocks, Bounded;
    match e
    case Result(info) =>
      PromotionKeeps(s, info.answer, key);
      InactiveCount(PromoteFinalAnswer(s, info.answer).blocks, key);
    case FinalAnswerText(itemId, text, complete) => FinalAnswerKeeps(s, itemId, text, complete, key);
    case Assistant(contents) => ContentsKeep(s, contents, key);
    case ToolResults(results) => ToolResultsKeep(s, results, key);
    case PlanText(text) => PlanKeeps(s, text, key);
    case FileChanged(path) =>
      KeyAppended(s.blocks, FileChange(None, path), key);
      CappedKeeps(s, s, s.blocks + [FileChange(None, path)], key);
    case TurnDiff(diff) => TurnDiffKeeps(s, diff, key);
    case _ =>
  }

  lemma AccountedThrough(s: RunState, a: Act, t: RunState, u: RunState, key: BlockKey)
    requires Accounted(s, a, t, key) && u.finalAnswer == t.finalAnswer && u.evicted == t.evicted
    requires KeyCount(u.blocks, key) == KeyCount(t.blocks, key) && |u.blocks| == |t.blocks|
    requires forall i | 0 <= i < |u.blocks| :: u.blocks[i].Plan? <==> t.blocks[i].Plan?
    ensures Accounted(s, a, u, key)
  {
  }

  /** No block is lost: in every bounded state and for every act, the blocks of a key in
      the store or evicted never become fewer, but for plans that a newer plan replaces
      and texts that an answer replaces; and what was evicted stays evicted. So the
      omitted count counts every block that left the store in any other way. */
  lemma NoBlockIsLost(s: RunState, a: Act, key: BlockKey)
    requires Bounded(s)
    ensures Accounted(s, a, Do(s, a), key) && s.evicted <= Do(s, a).evicted
  {
    hide ReduceInner, PromoteFinalAnswer, CapStaleTexts, MarkThinkingInactive, KeyCount, Bounded;
    match a
    case Happens(e) =>
      InnerAccounts(s, e, key);
      var next := ReduceInner(s, e);
      StaleCount(next.blocks, key);
      if next != s {
        AccountedThrough(s, a, next, Do(s, a), key);
      }
    case Finish(kind, meta, now) =>
      PromotionKeeps(s, None, key);
      var p := PromoteFinalAnswer(s, None);
      InactiveCount(p.blocks, key);
  }
}
