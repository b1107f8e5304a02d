/** The windows of the block store for runs in which no streamed text begins like a
    marker: there every bound holds strictly. */
module RunWindows {
  import opened Texts
  import opened TailMark
  import opened RunState
  import opened RunStateLaws

  // ---- one text ----

  /** It does not begin with the unit a marker begins with. */
  predicate Plain(t: Text) {
    t == [] || t[0] != MARK_HEAD[0]
  }

  /** A stored text: plain, or cut before, and made of no more than `units` streamed. */
  predicate Tame(t: Text, units: nat) {
    (Plain(t) || (HeadMark(t).Some? && Prior(t) > 0)) && Total(t) <= units
  }

  lemma PlainIsTame(t: Text)
    requires Plain(t)
    ensures Tame(t, |t|)
  {
  }

  lemma AppendIsTame(t: Text, more: Text, units: nat)
    requires Tame(t, units) && Plain(more)
    ensures Tame(t + more, units + |more|)
  {
    if HeadMark(t).Some? {
      HeadMarkOfAppend(t, more);
    }
    hide ParseDecimal, DigitsEnd, HasTailAt;
    assert t == [] ==> t + more == more;
  }

  lemma TameLater(t: Text, units: nat, later: nat)
    requires Tame(t, units) && units <= later
    ensures Tame(t, later)
  {
  }

  /** A tame text is windowed strictly, and stays tame. */
  lemma WindowIsTame(t: Text, maxChars: nat, units: nat)
    requires Tame(t, units) && Room(units, maxChars)
    ensures |Window(t, maxChars)| <= maxChars && Tame(Window(t, maxChars), units)
  {
    DigitsMonotone(Total(t), units);
    WindowFitsIff(t, maxChars);
    if !Fits(t, maxChars) {
      TruncationIsExact(t, maxChars);
      CutIsMarked(Prior(t), Body(t), maxChars);
    }
    hide HeadMark, Cut, DropCount;
  }

  lemma CutIsMarked(prior: nat, body: Text, maxChars: nat)
    requires prior > 0 || |body| > maxChars
    ensures HeadMark(Cut(prior, body, maxChars)).Some? && Prior(Cut(prior, body, maxChars)) > 0
  {
    hide HeadMark, Decimal;
    var n := DropCount(prior, |body|, maxChars);
    MarkerParsesBack(n, Drop(body, n - prior));
  }

  // ---- the store ----

  predicate TameBlock(b: Block, units: nat) {
    match b
    case Thinking(_, content, _) => Tame(content, units) && |content| <= MAX_REASONING_CHARS
    case Plan(_, content, _) => Tame(content, units) && |content| <= MAX_PLAN_CHARS
    case TextBlock(_, content) => Tame(content, units)
    case _ => true
  }

  predicate TameBlocks(blocks: seq<Block>, units: nat) {
    forall b | b in blocks :: TameBlock(b, units)
  }

  /** Thinking and plans are strictly within their windows. */
  predicate TameState(s: RunState, units: nat) {
    TameBlocks(s.blocks, units) && Tame(s.plan, units) && |s.plan| <= MAX_PLAN_CHARS
  }

  lemma BlocksLater(blocks: seq<Block>, units: nat, later: nat)
    requires TameBlocks(blocks, units) && units <= later
    ensures TameBlocks(blocks, later)
  {
    hide Tame;
    forall t | Tame(t, units)
      ensures Tame(t, later)
    {
      TameLater(t, units, later);
    }
  }

  lemma StateLater(s: RunState, units: nat, later: nat)
    requires TameState(s, units) && units <= later
    ensures TameState(s, later)
  {
    hide Tame, TameBlocks;
    BlocksLater(s.blocks, units, later);
    TameLater(s.plan, units, later);
  }

  lemma InactiveIsTame(blocks: seq<Block>, units: nat)
    requires TameBlocks(blocks, units)
    ensures TameBlocks(MarkThinkingInactive(blocks), units)
  {
    hide Tame;
    forall b | b in MarkThinkingInactive(blocks)
      ensures TameBlock(b, units)
    {
      var i :| 0 <= i < |blocks| && b == Deactivated(blocks[i]);
      assert blocks[i] in blocks;
    }
  }

  lemma {:induction false} WithoutIsTame(blocks: seq<Block>, p: Block -> bool, units: nat)
    requires TameBlocks(blocks, units)
    ensures TameBlocks(Without(blocks, p), units)
  {
    hide TameBlock;
    if blocks != [] {
      assert blocks[|blocks| - 1] in blocks;
      assert forall b | b in blocks[..|blocks| - 1] :: b in blocks;
      WithoutIsTame(blocks[..|blocks| - 1], p, units);
    }
  }

  lemma UpsertIsTame(blocks: seq<Block>, p: Block -> bool, added: Block, update: Block -> Block, moveToEnd: bool, units: nat)
    requires TameBlocks(blocks, units) && TameBlock(added, units)
    requires forall b: Block | p(b) && TameBlock(b, units) :: TameBlock(update(b), units)
    ensures TameBlocks(Upsert(blocks, p, added, update, moveToEnd), units)
  {
    hide TameBlock;
    var at := LastIndex(blocks, p, |blocks|);
    if at.Some? {
      assert blocks[at.value] in blocks;
    }
  }

  lemma JoinIsTame(blocks: seq<Block>, b: Block, units: nat)
    requires TameBlocks(blocks, units) && TameBlock(b, units)
    ensures TameBlocks(blocks + [b], units)
    ensures blocks != [] ==> TameBlocks(blocks[..|blocks| - 1] + [b], units) && TameBlock(blocks[|blocks| - 1], units)
  {
    hide TameBlock;
    assert blocks != [] ==> blocks[|blocks| - 1] in blocks;
  }

  lemma CappedIsTame(s: RunState, blocks: seq<Block>, units: nat)
    requires TameBlocks(blocks, units) && Tame(s.plan, units) && |s.plan| <= MAX_PLAN_CHARS
    ensures TameState(WithCappedBlocks(s, blocks), units)
  {
    hide Tame, TameBlock;
  }

  // ---- what an event streams ----

  function Length(t: Option<Text>): nat {
    if t.Some? then |t.value| else 0
  }

  predicate PlainIfAny(t: Option<Text>) {
    t.Some? ==> Plain(t.value)
  }

  function ContentUnits(c: Content): nat {
    match c
    case ThinkingPart(_, text) => |text|
    case TextPart(text) => |text|
    case ToolUse(_, _) => 0
  }

  function ContentsUnits(contents: seq<Content>): nat {
    if contents == [] then 0 else ContentsUnits(contents[..|contents| - 1]) + ContentUnits(contents[|contents| - 1])
  }

  predicate PlainContent(c: Content) {
    match c
    case ThinkingPart(_, text) => Plain(text)
    case TextPart(text) => Plain(text)
    case ToolUse(_, _) => true
  }

  /** A plan is joined to the one before by a line break. */
  function Units(e: Event): nat {
    match e
    case Assistant(contents) => ContentsUnits(contents)
    case PlanText(text) => 1 + |text|
    case TurnDiff(d) => Length(d.text) + Length(d.reasoning) + Length(d.plan)
    case _ => 0
  }

  predicate PlainEvent(e: Event) {
    match e
    case Assistant(contents) => forall i | 0 <= i < |contents| :: PlainContent(contents[i])
    case TurnDiff(d) => PlainIfAny(d.text) && PlainIfAny(d.reasoning) && PlainIfAny(d.plan)
    case _ => true
  }

  function AllUnits(acts: seq<Act>): nat {
    if acts == [] then 0
    else AllUnits(acts[..|acts| - 1]) + if acts[|acts| - 1].Happens? then Units(acts[|acts| - 1].event) else 0
  }

  // ---- every reducer keeps the texts tame ----

  lemma ContentIsTame(s: RunState, c: Content, units: nat)
    requires TameState(s, units) && PlainContent(c) && Room(units + ContentUnits(c), MAX_REASONING_CHARS)
    ensures TameState(ReduceContent(s, c), units + ContentUnits(c))
  {
    StateLater(s, units, units + ContentUnits(c));
    match c
    case ThinkingPart(itemId, text) => ThinkingIsTame(s, itemId, text, units);
    case TextPart(text) => TextIsTame(s, text, units);
    case ToolUse(id, name) => ToolUseIsTame(s, id, name, units);
  }

  lemma ThinkingIsTame(s: RunState, itemId: Option<string>, text: Text, units: nat)
    requires TameState(s, units) && Plain(text) && Room(units + |text|, MAX_REASONING_CHARS)
    ensures TameState(ReduceContent(s, ThinkingPart(itemId, text)), units + |text|)
  {
    var all := units + |text|;
    var last := LastBlock(s);
    var grown := last.Some? && last.value.Thinking? && last.value.itemId == itemId;
    var was := if grown then last.value.content else [];
    assert grown ==> last.value in s.blocks;
    assert Tame(was, units);
    AppendIsTame(was, text, units);
    WindowIsTame(was + text, MAX_REASONING_CHARS, all);
    StateLater(s, units, all);
    assert grown || was + text == text;
    hide Window, Tame, Plain, Room;
    var b := Thinking(itemId, Window(was + text, MAX_REASONING_CHARS), true);
    var blocks := MarkThinkingInactive(s.blocks);
    InactiveIsTame(s.blocks, all);
    JoinIsTame(s.blocks, b, all);
    JoinIsTame(blocks, b, all);
    hide TameBlocks, TameBlock, WithCappedBlocks;
    CappedIsTame(s, if grown then s.blocks[..|s.blocks| - 1] + [b] else blocks + [b], all);
  }

  lemma TextIsTame(s: RunState, text: Text, units: nat)
    requires TameState(s, units) && Plain(text)
    ensures TameState(ReduceContent(s, TextPart(text)), units + |text|)
  {
    var all := units + |text|;
    var blocks := MarkThinkingInactive(s.blocks);
    var n := |blocks|;
    InactiveIsTame(s.blocks, units);
    BlocksLater(blocks, units, all);
    TameLater(s.plan, units, all);
    hide TameBlocks, TameBlock, WithCappedBlocks, MarkThinkingInactive, Tame, Plain;
    if n > 0 && blocks[n - 1].TextBlock? {
      GrownIsTame(blocks, text, units);
      CappedIsTame(s, blocks[..n - 1] + [TextBlock(None, blocks[n - 1].content + text)], all);
    } else {
      NewTextIsTame(blocks, text, all);
      CappedIsTame(s, blocks + [TextBlock(None, text)], all);
    }
  }

  lemma GrownIsTame(blocks: seq<Block>, text: Text, units: nat)
    requires TameBlocks(blocks, units) && Plain(text)
    requires blocks != [] && blocks[|blocks| - 1].TextBlock?
    ensures TameBlocks(blocks[..|blocks| - 1] + [TextBlock(None, blocks[|blocks| - 1].content + text)], units + |text|)
  {
    var last := blocks[|blocks| - 1];
    assert last in blocks;
    AppendIsTame(last.content, text, units);
    BlocksLater(blocks, units, units + |text|);
    hide Tame, Plain;
    JoinIsTame(blocks, TextBlock(None, last.content + text), units + |text|);
  }

  lemma NewTextIsTame(blocks: seq<Block>, text: Text, units: nat)
    requires TameBlocks(blocks, units) && Plain(text) && |text| <= units
    ensures TameBlocks(blocks + [TextBlock(None, text)], units)
  {
    PlainIsTame(text);
    TameLater(text, |text|, units);
    hide Tame, Plain;
    JoinIsTame(blocks, TextBlock(None, text), units);
  }

  lemma ToolUseIsTame(s: RunState, id: string, name: string, units: nat)
    requires TameState(s, units)
    ensures TameState(ReduceContent(s, ToolUse(id, name)), units)
  {
    hide Tame;
    InactiveIsTame(s.blocks, units);
    var blocks := MarkThinkingInactive(s.blocks);
    var at := FirstIndex(blocks, (b: Block) => b.Tool? && b.id == id, 0);
    if at.None? {
      CappedIsTame(s, blocks + [Tool(id, name, None, ToolRunning)], units);
    }
  }

  lemma {:induction false} ContentsAreTame(s: RunState, contents: seq<Content>, units: nat)
    requires TameState(s, units) && Room(units + ContentsUnits(contents), MAX_REASONING_CHARS)
    requires forall i | 0 <= i < |contents| :: PlainContent(contents[i])
    ensures TameState(ReduceContents(s, contents), units + ContentsUnits(contents))
  {
    hide TameState, ReduceContent, PlainContent;
    if contents != [] {
      var earlier := contents[..|contents| - 1];
      DigitsMonotone(units + ContentsUnits(earlier), units + ContentsUnits(contents));
      ContentsAreTame(s, earlier, units);
      ContentIsTame(ReduceContents(s, earlier), contents[|contents| - 1], units + ContentsUnits(earlier));
    }
  }

  lemma {:induction false} ToolResultsAreTame(s: RunState, results: seq<ToolResult>, units: nat)
    requires TameState(s, units)
    ensures TameState(ReduceToolResults(s, results), units)
  {
    hide Tame;
    if results != [] {
      ToolResultsAreTame(s, results[..|results| - 1], units);
    }
  }

  lemma PlanIsTame(s: RunState, text: Text, units: nat)
    requires TameState(s, units) && Room(units + 1 + |text|, MAX_PLAN_CHARS)
    ensures TameState(ReducePlan(s, text), units + 1 + |text|)
  {
    var all := units + 1 + |text|;
    var more := [10] + text;
    AppendIsTame(s.plan, more, units);
    assert s.plan + [10] + text == s.plan + more;
    WindowIsTame(s.plan + more, MAX_PLAN_CHARS, all);
    StateLater(s, units, all);
    hide Window, Tame, Plain, Room;
    WithoutIsTame(s.blocks, (b: Block) => b.Plan?, all);
    var plan := Window(s.plan + more, MAX_PLAN_CHARS);
    CappedIsTame(s.(plan := plan), Without(s.blocks, (b: Block) => b.Plan?) + [Plan(None, plan, true)], all);
  }

  lemma TextDiffIsTame(s: RunState, d: Diff, units: nat)
    requires TameState(s, units) && PlainIfAny(d.text) && Length(d.text) <= units
    ensures TameState(ApplyTextDiff(s, d), units)
  {
    if d.text.Some? {
      PlainIsTame(d.text.value);
      TameLater(d.text.value, |d.text.value|, units);
      hide Tame, Plain;
      InactiveIsTame(s.blocks, units);
      var p := (b: Block) => b.TextBlock? && b.itemId == Some(d.itemId);
      var update := (b: Block) => if b.TextBlock? then TextBlock(b.itemId, d.text.value) else b;
      UpsertIsTame(MarkThinkingInactive(s.blocks), p, TextBlock(Some(d.itemId), d.text.value), update, !d.complete, units);
      CappedIsTame(s, Upsert(MarkThinkingInactive(s.blocks), p, TextBlock(Some(d.itemId), d.text.value), update, !d.complete), units);
    }
  }

  lemma ReasoningDiffIsTame(s: RunState, d: Diff, units: nat)
    requires TameState(s, units) && PlainIfAny(d.reasoning) && Length(d.reasoning) <= units && Room(units, MAX_REASONING_CHARS)
    ensures TameState(ApplyReasoningDiff(s, d), units)
  {
    if d.reasoning.Some? {
      PlainIsTame(d.reasoning.value);
      TameLater(d.reasoning.value, |d.reasoning.value|, units);
      WindowIsTame(d.reasoning.value, MAX_REASONING_CHARS, units);
      hide Tame, Plain, Window, Room;
      var content := Window(d.reasoning.value, MAX_REASONING_CHARS);
      var p := (b: Block) => b.Thinking? && b.itemId == Some(d.itemId);
      var added := Thinking(Some(d.itemId), content, !d.complete);
      var update := (b: Block) => if b.Thinking? then Thinking(b.itemId, content, !d.complete) else b;
      UpsertIsTame(s.blocks, p, added, update, !d.complete, units);
      CappedIsTame(s, Upsert(s.blocks, p, added, update, !d.complete), units);
    }
  }

  lemma ToolDiffIsTame(s: RunState, d: Diff, units: nat)
    requires TameState(s, units)
    ensures TameState(ApplyToolDiff(s, d), units)
  {
    if d.toolOutput.Some? {
      hide Tame;
      var output := Some(KeepTail(d.toolOutput.value, MAX_TOOL_DETAIL_CHARS));
      var name := if d.toolName.Some? then d.toolName.value else "command";
      var p := (b: Block) => b.Tool? && b.id == d.itemId;
      var added := Tool(d.itemId, name, output, DiffStatus(d, ToolRunning));
      var update := (b: Block) => if b.Tool? then Tool(b.id, b.name, output, DiffStatus(d, b.status)) else b;
      UpsertIsTame(s.blocks, p, added, update, !d.complete, units);
      CappedIsTame(s, Upsert(s.blocks, p, added, update, !d.complete), units);
    }
  }

  lemma PlanDiffIsTame(s: RunState, d: Diff, units: nat)
    requires TameState(s, units) && PlainIfAny(d.plan) && Length(d.plan) <= units && Room(units, MAX_PLAN_CHARS)
    ensures TameState(ApplyPlanDiff(s, d), units)
  {
    if d.plan.Some? {
      PlainIsTame(d.plan.value);
      TameLater(d.plan.value, |d.plan.value|, units);
      WindowIsTame(d.plan.value, MAX_PLAN_CHARS, units);
      hide Tame, Plain, Window, Room;
      var plan := Window(d.plan.value, MAX_PLAN_CHARS);
      var p := (b: Block) => b.Plan? && b.itemId == Some(d.itemId);
      var added := Plan(Some(d.itemId), plan, !d.complete);
      var update := (b: Block) => if b.Plan? then Plan(b.itemId, plan, !d.complete) else b;
      UpsertIsTame(s.blocks, p, added, update, !d.complete, units);
      CappedIsTame(s.(plan := plan), Upsert(s.blocks, p, added, update, !d.complete), units);
    }
  }

  lemma {:induction false} FilesAreTame(blocks: seq<Block>, d: Diff, files: seq<string>, units: nat)
    requires TameBlocks(blocks, units)
    ensures TameBlocks(UpsertFiles(blocks, d, files), units)
  {
    if files != [] {
      FilesAreTame(blocks, d, files[..|files| - 1], units);
      var path := files[|files| - 1];
      var file := FileChange(Some(d.itemId), path);
      UpsertIsTame(UpsertFiles(blocks, d, files[..|files| - 1]),
                   (b: Block) => b.FileChange? && b.itemId == Some(d.itemId) && b.path == path,
                   file, (b: Block) => file, !d.complete, units);
    }
  }

  lemma TurnDiffIsTame(s: RunState, d: Diff, units: nat)
    requires TameState(s, units) && Length(d.text) <= units && Length(d.reasoning) <= units && Length(d.plan) <= units
    requires PlainIfAny(d.text) && PlainIfAny(d.reasoning) && PlainIfAny(d.plan)
    requires Room(units, MAX_REASONING_CHARS)
    ensures TameState(ReduceTurnDiff(s, d), units)
  {
    hide ApplyTextDiff, ApplyReasoningDiff, ApplyToolDiff, ApplyPlanDiff, Tame, TameBlock;
    TextDiffIsTame(s, d, units);
    var s1 := ApplyTextDiff(s, d);
    ReasoningDiffIsTame(s1, d, units);
    var s2 := ApplyReasoningDiff(s1, d);
    ToolDiffIsTame(s2, d, units);
    var s3 := ApplyToolDiff(s2, d);
    PlanDiffIsTame(s3, d, units);
    var s4 := ApplyPlanDiff(s3, d);
    if d.fileChanges.Some? {
      FilesAreTame(s4.blocks, d, d.fileChanges.value, units);
      CappedIsTame(s4, UpsertFiles(s4.blocks, d, d.fileChanges.value), units);
    }
  }

  lemma PromoteIsTame(s: RunState, fullText: Option<Text>, units: nat)
    requires TameState(s, units)
    ensures TameState(PromoteFinalAnswer(s, fullText), units)
  {
    hide Tame, TameBlock, HasText;
  }

  lemma ResultIsTame(s: RunState, info: ResultInfo, units: nat)
    requires TameState(s, units)
    ensures TameState(ReduceResult(s, info), units)
  {
    hide PromoteFinalAnswer, Tame, TameBlock;
    PromoteIsTame(s, info.answer, units);
    InactiveIsTame(PromoteFinalAnswer(s, info.answer).blocks, units);
  }

  lemma FinalAnswerIsTame(s: RunState, itemId: Option<string>, text: Text, complete: Option<bool>, units: nat)
    requires TameState(s, units)
    ensures TameState(ReduceFinalAnswer(s, itemId, text, complete), units)
  {
    hide Tame, TameBlock, HasText;
    WithoutIsTame(s.blocks, (b: Block) => b.TextBlock? && b.itemId == itemId, units);
  }

  lemma FileIsTame(s: RunState, path: string, units: nat)
    requires TameState(s, units)
    ensures TameState(WithCappedBlocks(s, s.blocks + [FileChange(None, path)]), units)
  {
    hide Tame;
    CappedIsTame(s, s.blocks + [FileChange(None, path)], units);
  }

  lemma InnerIsTame(s: RunState, e: Event, units: nat)
    requires TameState(s, units) && PlainEvent(e) && Room(units + Units(e), MAX_REASONING_CHARS)
    ensures TameState(ReduceInner(s, e), units + Units(e))
  {
    StateLater(s, units, units + Units(e));
    hide TameState, ReduceContents, ReduceToolResults, ReducePlan, ReduceTurnDiff, WithCappedBlocks, ReduceResult, ReduceFinalAnswer;
    hide ContentsUnits, PlainContent, PlainIfAny;
    match e
    case Result(info) => ResultIsTame(s, info, units);
    case FinalAnswerText(itemId, text, complete) => FinalAnswerIsTame(s, itemId, text, complete, units);
    case Assistant(contents) => ContentsAreTame(s, contents, units);
    case ToolResults(results) => ToolResultsAreTame(s, results, units);
    case PlanText(text) => PlanIsTame(s, text, units);
    case FileChanged(path) => FileIsTame(s, path, units);
    case TurnDiff(diff) => TurnDiffIsTame(s, diff, units + Units(e));
    case _ => OthersAreTame(s, e, units);
  }

  lemma OthersAreTame(s: RunState, e: Event, units: nat)
    requires TameState(s, units) && (e.Init? || e.TurnStarted? || e.ApprovalExpired? || e.Elsewhere?)
    ensures TameState(ReduceInner(s, e), units)
  {
    hide Tame, TameBlock;
  }

  /** A text block that a later one has superseded is strictly within the window. */
  predicate StaleTextsShort(blocks: seq<Block>) {
    forall i, j | 0 <= i < j < |blocks| && blocks[i].TextBlock? && blocks[j].TextBlock? ::
      |blocks[i].content| <= MAX_TEXT_CHARS
  }

  lemma CapIsTame(blocks: seq<Block>, units: nat)
    requires TameBlocks(blocks, units) && Room(units, MAX_TEXT_CHARS)
    ensures TameBlocks(CapStaleTexts(blocks), units) && StaleTextsShort(CapStaleTexts(blocks))
  {
    hide Tame, Window, Room, NewestText;
    var r := CapStaleTexts(blocks);
    forall i | 0 <= i < |r|
      ensures TameBlock(r[i], units) && r[i].TextBlock? == blocks[i].TextBlock?
      ensures blocks[i].TextBlock? && NewestText(blocks) != Some(i) ==> |r[i].content| <= MAX_TEXT_CHARS
    {
      assert blocks[i] in blocks;
      if blocks[i].TextBlock? {
        WindowIsTame(blocks[i].content, MAX_TEXT_CHARS, units);
      }
    }
    forall i, j | 0 <= i < j < |r| && r[i].TextBlock? && r[j].TextBlock?
      ensures |r[i].content| <= MAX_TEXT_CHARS
    {
      NewestIsLast(blocks, i, j);
    }
  }

  lemma NewestIsLast(blocks: seq<Block>, i: nat, j: nat)
    requires i < j < |blocks| && blocks[j].TextBlock?
    ensures NewestText(blocks) != Some(i)
  {
  }

  lemma ActIsTame(s: RunState, a: Act, units: nat)
    requires TameState(s, units) && StaleTextsShort(s.blocks)
    requires a.Happens? ==> PlainEvent(a.event)
    requires Room(units + (if a.Happens? then Units(a.event) else 0), MAX_REASONING_CHARS)
    ensures var t := Do(s, a);
            TameState(t, units + if a.Happens? then Units(a.event) else 0) && StaleTextsShort(t.blocks)
  {
    hide ReduceInner, PromoteFinalAnswer, CapStaleTexts, MarkThinkingInactive, TameBlock, Tame;
    match a
    case Happens(e) =>
      InnerIsTame(s, e, units);
      CapIsTame(ReduceInner(s, e).blocks, units + Units(e));
    case Finish(kind, meta, now) =>
      PromoteIsTame(s, None, units);
      PromoteKeepsShort(s);
      InactiveIsTame(PromoteFinalAnswer(s, None).blocks, units);
      InactiveKeepsShort(PromoteFinalAnswer(s, None).blocks);
  }

  lemma PromoteKeepsShort(s: RunState)
    requires StaleTextsShort(s.blocks)
    ensures StaleTextsShort(PromoteFinalAnswer(s, None).blocks)
  {
    hide HasText;
  }

  lemma InactiveKeepsShort(blocks: seq<Block>)
    requires StaleTextsShort(blocks)
    ensures StaleTextsShort(MarkThinkingInactive(blocks))
  {
  }

  /** In every run whose streamed texts never begin like a marker, as long as their total
      length is short enough to be told in one: thinking, plan and superseded texts are
      within their windows, and no text is made of more than was streamed. */
  lemma {:induction false} WindowsHold(acts: seq<Act>)
    requires forall i | 0 <= i < |acts| && acts[i].Happens? :: PlainEvent(acts[i].event)
    requires Room(AllUnits(acts), MAX_REASONING_CHARS)
    ensures var s := DoAll(INITIAL, acts);
            TameState(s, AllUnits(acts)) && StaleTextsShort(s.blocks)
  {
    if acts != [] {
      var earlier := acts[..|acts| - 1];
      DigitsMonotone(AllUnits(earlier), AllUnits(acts));
      WindowsHold(earlier);
      hide TameState, StaleTextsShort, Do;
      ActIsTame(DoAll(INITIAL, earlier), acts[|acts| - 1], AllUnits(earlier));
    }
  }
}
