/** What streams and snapshots store: thinking and plans window as a whole however they
    are chunked, tool results reach their tool, and a snapshot shows what it tells. */
module RunStreams {
  import opened Texts
  import opened TailMark
  import opened RunState
  import opened RunStateLaws
  import opened RunOutcome

  // ---- thinking ----

  /** Thinking of one item, and nothing else. */
  predicate Thinks(contents: seq<Content>, itemId: Option<string>) {
    forall i | 0 <= i < |contents| :: contents[i].ThinkingPart? && contents[i].itemId == itemId
  }

  function ThoughtsIn(contents: seq<Content>): seq<Text> {
    if contents == [] then []
    else
      var last := contents[|contents| - 1];
      ThoughtsIn(contents[..|contents| - 1]) + if last.ThinkingPart? then [last.text] else []
  }

  /** The thinking of a stretch of events, chunk by chunk. */
  function Thoughts(events: seq<Event>): seq<Text> {
    if events == [] then []
    else
      var last := events[|events| - 1];
      Thoughts(events[..|events| - 1]) + if last.Assistant? then ThoughtsIn(last.contents) else []
  }

  /** The newest block is thinking of this item. */
  predicate LastThinks(s: RunState, itemId: Option<string>) {
    s.blocks != [] && s.blocks[|s.blocks| - 1].Thinking? && s.blocks[|s.blocks| - 1].itemId == itemId
  }

  /** After these chunks of thinking, the newest block holds them as streamed. */
  predicate HoldsThoughts(s: RunState, itemId: Option<string>, chunks: seq<Text>) {
    && IsActive(s.terminal)
    && LastThinks(s, itemId) == (chunks != [])
    && (chunks != [] ==> s.blocks[|s.blocks| - 1] == Thinking(itemId, Stream(chunks, MAX_REASONING_CHARS), true))
  }

  lemma StreamGrows(chunks: seq<Text>, chunk: Text, maxChars: nat)
    ensures Stream(chunks + [chunk], maxChars) == Window(Stream(chunks, maxChars) + chunk, maxChars)
    ensures chunks == [] ==> Stream(chunks + [chunk], maxChars) == Window(chunk, maxChars)
  {
    hide Window;
    assert (chunks + [chunk])[..|chunks|] == chunks;
    assert [] + chunk == chunk;
  }

  lemma ThoughtIsHeld(s: RunState, itemId: Option<string>, chunks: seq<Text>, chunk: Text)
    requires HoldsThoughts(s, itemId, chunks)
    ensures HoldsThoughts(ReduceContent(s, ThinkingPart(itemId, chunk)), itemId, chunks + [chunk])
  {
    hide Window, Stream;
    StreamGrows(chunks, chunk, MAX_REASONING_CHARS);
  }

  lemma {:induction false} ThoughtsAreHeld(s: RunState, itemId: Option<string>, chunks: seq<Text>, contents: seq<Content>)
    requires HoldsThoughts(s, itemId, chunks) && Thinks(contents, itemId)
    ensures HoldsThoughts(ReduceContents(s, contents), itemId, chunks + ThoughtsIn(contents))
  {
    hide HoldsThoughts, ReduceContent;
    if contents == [] {
      assert chunks + [] == chunks;
    } else {
      var earlier, last := contents[..|contents| - 1], contents[|contents| - 1];
      ThoughtsAreHeld(s, itemId, chunks, earlier);
      ThoughtIsHeld(ReduceContents(s, earlier), itemId, chunks + ThoughtsIn(earlier), last.text);
      assert chunks + ThoughtsIn(contents) == chunks + ThoughtsIn(earlier) + [last.text];
    }
  }

  lemma CapHoldsThoughts(s: RunState, itemId: Option<string>, chunks: seq<Text>)
    requires HoldsThoughts(s, itemId, chunks)
    ensures HoldsThoughts(s.(blocks := CapStaleTexts(s.blocks)), itemId, chunks)
  {
    hide Window, Stream, NewestText;
  }

  lemma {:induction false} StreamIsHeld(s: RunState, itemId: Option<string>, events: seq<Event>)
    requires HoldsThoughts(s, itemId, [])
    requires forall i | 0 <= i < |events| :: events[i].Assistant? && Thinks(events[i].contents, itemId)
    ensures HoldsThoughts(DoAll(s, Events(events)), itemId, Thoughts(events))
  {
    hide HoldsThoughts, Reduce, Thinks;
    if events == [] {
      assert Events(events) == [];
    } else {
      var earlier, e := events[..|events| - 1], events[|events| - 1];
      StreamIsHeld(s, itemId, earlier);
      assert Events(events)[..|events| - 1] == Events(earlier);
      EventIsHeld(DoAll(s, Events(earlier)), itemId, Thoughts(earlier), e.contents);
    }
  }

  lemma EventIsHeld(s: RunState, itemId: Option<string>, chunks: seq<Text>, contents: seq<Content>)
    requires HoldsThoughts(s, itemId, chunks) && Thinks(contents, itemId)
    ensures HoldsThoughts(Reduce(s, Assistant(contents)), itemId, chunks + ThoughtsIn(contents))
  {
    hide *;
    ThoughtsAreHeld(s, itemId, chunks, contents);
    var next := ReduceContents(s, contents);
    CapHoldsThoughts(next, itemId, chunks + ThoughtsIn(contents));
    HoldsActive(s, itemId, chunks);
    ActiveReduces(s, contents);
  }

  lemma HoldsActive(s: RunState, itemId: Option<string>, chunks: seq<Text>)
    requires HoldsThoughts(s, itemId, chunks)
    ensures IsActive(s.terminal)
  {
  }

  /** An active run takes the contents, then the window on stale texts. */
  lemma ActiveReduces(s: RunState, contents: seq<Content>)
    requires IsActive(s.terminal)
    ensures var next := ReduceContents(s, contents);
            Reduce(s, Assistant(contents)) == next || Reduce(s, Assistant(contents)) == next.(blocks := CapStaleTexts(next.blocks))
  {
    hide ReduceContents, CapStaleTexts;
  }

  /** Thinking of one item, streamed in any chunks and any number of events, is stored as
      the window of the whole. */
  lemma StreamedThinkingIsWindowed(s: RunState, itemId: Option<string>, events: seq<Event>)
    requires IsActive(s.terminal) && !LastThinks(s, itemId)
    requires forall i | 0 <= i < |events| :: events[i].Assistant? && Thinks(events[i].contents, itemId)
    requires Thoughts(events) != []
    requires forall i | 0 <= i <= |Thoughts(events)| :: HeadMark(Concat(Thoughts(events)[..i])).None?
    requires |Concat(Thoughts(events))| <= MAX_REASONING_CHARS || Room(|Concat(Thoughts(events))|, MAX_REASONING_CHARS)
    ensures var t := DoAll(s, Events(events));
            t.blocks != [] && t.blocks[|t.blocks| - 1] == Thinking(itemId, Window(Concat(Thoughts(events)), MAX_REASONING_CHARS), true)
  {
    hide HeadMark, Room, Window, DoAll, Concat;
    StreamIsHeld(s, itemId, events);
    ChunkingDoesNotMatter(Thoughts(events), MAX_REASONING_CHARS);
  }

  // ---- plans ----

  /** An event that tells of a plan. */
  predicate TellsPlan(e: Event) {
    e.PlanText? || (e.TurnDiff? && e.diff.plan.Some?)
  }

  lemma {:induction false} ContentsKeepPlan(s: RunState, contents: seq<Content>)
    ensures ReduceContents(s, contents).plan == s.plan
  {
    if contents != [] {
      ContentsKeepPlan(s, contents[..|contents| - 1]);
      hide Window, FirstIndex;
    }
  }

  lemma {:induction false} ToolResultsKeepPlan(s: RunState, results: seq<ToolResult>)
    ensures ReduceToolResults(s, results).plan == s.plan
  {
    if results != [] {
      ToolResultsKeepPlan(s, results[..|results| - 1]);
    }
  }

  lemma EventKeepsPlan(s: RunState, e: Event)
    requires !TellsPlan(e)
    ensures Reduce(s, e).plan == s.plan
  {
    hide CapStaleTexts, ReduceContents, ReduceToolResults, PromoteFinalAnswer, HasText, Upsert, UpsertFiles, Window;
    match e
    case Assistant(contents) => ContentsKeepPlan(s, contents);
    case ToolResults(results) => ToolResultsKeepPlan(s, results);
    case Result(info) => PromotionKeepsPlan(s, info.answer);
    case _ =>
  }

  lemma PromotionKeepsPlan(s: RunState, fullText: Option<Text>)
    ensures PromoteFinalAnswer(s, fullText).plan == s.plan
  {
    hide HasText, LastIndex;
  }

  /** The plan texts told, a line break before each. */
  function PlanLines(events: seq<Event>): seq<Text> {
    if events == [] then []
    else
      var last := events[|events| - 1];
      PlanLines(events[..|events| - 1]) + if last.PlanText? then [[10] + last.text] else []
  }

  lemma {:induction false} PlanIsStreamed(s: RunState, events: seq<Event>)
    requires IsActive(s.terminal) && s.plan == []
    requires forall i | 0 <= i < |events| :: events[i].PlanText? || !TellsPlan(events[i])
    ensures var t := DoAll(s, Events(events));
            IsActive(t.terminal) && t.plan == Stream(PlanLines(events), MAX_PLAN_CHARS)
  {
    hide Reduce, Stream, Window;
    if events == [] {
      assert Events(events) == [] && Stream([], MAX_PLAN_CHARS) == [] by {
        StreamOfNothing();
      }
    } else {
      var earlier, e := events[..|events| - 1], events[|events| - 1];
      PlanIsStreamed(s, earlier);
      assert Events(events)[..|events| - 1] == Events(earlier);
      var t := DoAll(s, Events(earlier));
      StaysActive(t, e);
      if e.PlanText? {
        PlanGrows(t, e.text);
        StreamGrows(PlanLines(earlier), [10] + e.text, MAX_PLAN_CHARS);
      } else {
        EventKeepsPlan(t, e);
        assert PlanLines(events) == PlanLines(earlier) + [] == PlanLines(earlier);
      }
    }
  }

  lemma StreamOfNothing()
    ensures Stream([], MAX_PLAN_CHARS) == []
  {
  }

  lemma StaysActive(s: RunState, e: Event)
    requires IsActive(s.terminal)
    ensures IsActive(Reduce(s, e).terminal)
  {
    hide Reduce;
    match e
    case Result(info) => ResultCounts(s, info);
    case Init(sessionId) => InitAnnounces(s, sessionId);
    case _ => EventsAreQuiet(s, e);
  }

  /** The plan block is the newest, and the only one. */
  lemma PlanGrows(s: RunState, text: Text)
    requires IsActive(s.terminal)
    ensures var t := Reduce(s, PlanText(text));
            && t.plan == Window(s.plan + ([10] + text), MAX_PLAN_CHARS)
            && t.blocks != [] && t.blocks[|t.blocks| - 1] == Plan(None, t.plan, true)
            && forall i | 0 <= i < |t.blocks| - 1 :: !t.blocks[i].Plan?
  {
    hide Window, Without, NewestText;
    assert s.plan + [10] + text == s.plan + ([10] + text);
    var next := ReduceInner(s, PlanText(text));
    var rest := Without(s.blocks, (b: Block) => b.Plan?);
    WithoutHasNone(s.blocks, (b: Block) => b.Plan?);
    assert next.blocks == KeepLatest(rest + [Plan(None, next.plan, true)]);
  }

  lemma {:induction false} WithoutHasNone(blocks: seq<Block>, p: Block -> bool)
    ensures forall i | 0 <= i < |Without(blocks, p)| :: !p(Without(blocks, p)[i])
  {
    if blocks != [] {
      WithoutHasNone(blocks[..|blocks| - 1], p);
    }
  }

  /** A plan told in any number of pieces, among whatever else, is stored as the window of
      the whole, each piece on lines of its own. */
  lemma StreamedPlanIsWindowed(s: RunState, events: seq<Event>)
    requires IsActive(s.terminal) && s.plan == []
    requires forall i | 0 <= i < |events| :: events[i].PlanText? || !TellsPlan(events[i])
    requires |Concat(PlanLines(events))| <= MAX_PLAN_CHARS || Room(|Concat(PlanLines(events))|, MAX_PLAN_CHARS)
    ensures DoAll(s, Events(events)).plan == Window(Concat(PlanLines(events)), MAX_PLAN_CHARS)
  {
    hide Room, Window, DoAll, Concat, HeadMark, PlanLines;
    PlanIsStreamed(s, events);
    var lines := PlanLines(events);
    LinesBreakFirst(events);
    forall i | 0 <= i <= |lines|
      ensures HeadMark(Concat(lines[..i])).None?
    {
      NoMarkBeforeABreak(lines[..i]);
    }
    ChunkingDoesNotMatter(lines, MAX_PLAN_CHARS);
  }

  lemma {:induction false} LinesBreakFirst(events: seq<Event>)
    ensures forall i | 0 <= i < |PlanLines(events)| :: PlanLines(events)[i] != [] && PlanLines(events)[i][0] == 10
  {
    if events != [] {
      LinesBreakFirst(events[..|events| - 1]);
    }
  }

  lemma {:induction false} NoMarkBeforeABreak(lines: seq<Text>)
    requires forall i | 0 <= i < |lines| :: lines[i] != [] && lines[i][0] == 10
    ensures HeadMark(Concat(lines)).None? && (lines != [] ==> Concat(lines) != [] && Concat(lines)[0] == 10)
  {
    if lines != [] {
      NoMarkBeforeABreak(lines[..|lines| - 1]);
    }
  }

  // ---- tools ----

  /** The last result for a tool. */
  function LastResult(results: seq<ToolResult>, id: string): Option<ToolResult> {
    if results == [] then None
    else OrElse(if results[|results| - 1].id == id then Some(results[|results| - 1]) else None,
                LastResult(results[..|results| - 1], id))
  }

  /** A tool with the result that reached it. */
  function Resulted(b: Block, results: seq<ToolResult>): Block {
    if b.Tool? && LastResult(results, b.id).Some? then
      var r := LastResult(results, b.id).value;
      Tool(b.id, b.name, Some(TruncateDetail(r.output)), if r.isError then ToolError else ToolOk)
    else b
  }

  /** Each tool takes the last result told for it, and no other block changes. */
  lemma {:induction false} ResultsReachTheirTools(s: RunState, results: seq<ToolResult>)
    requires Store(s.blocks)
    ensures var t := ReduceToolResults(s, results);
            |t.blocks| == |s.blocks| && forall i | 0 <= i < |s.blocks| :: t.blocks[i] == Resulted(s.blocks[i], results)
  {
    hide TruncateDetail, Store;
    if results != [] {
      var earlier, r := results[..|results| - 1], results[|results| - 1];
      ResultsReachTheirTools(s, earlier);
      var u, t := ReduceToolResults(s, earlier), ReduceToolResults(s, results);
      forall i | 0 <= i < |s.blocks|
        ensures t.blocks[i] == Resulted(s.blocks[i], results)
      {
        var at := FirstIndex(u.blocks, (b: Block) => b.Tool? && b.id == r.id, 0);
        if at.Some? && at.value != i && s.blocks[i].Tool? && s.blocks[i].id == r.id {
          OneToolEach(s.blocks, at.value, i);
        }
      }
    }
  }

  lemma OneToolEach(blocks: seq<Block>, i: nat, j: nat)
    requires Store(blocks) && i < |blocks| && j < |blocks| && i != j && blocks[i].Tool? && blocks[j].Tool?
    ensures blocks[i].id != blocks[j].id
  {
    var a, b := Min(i, j), Max(i, j);
    assert blocks == blocks[..a] + (blocks[a..b] + blocks[b..]);
    StoreSplit(blocks[..a], blocks[a..b] + blocks[b..]);
    OneToolInEach(blocks[a..b], blocks[b..]);
  }

  lemma OneToolInEach(a: seq<Block>, b: seq<Block>)
    requires Store(a + b) && a != [] && b != [] && a[0].Tool? && b[0].Tool?
    ensures a[0].id != b[0].id
  {
    hide ToolCount, WindowedBlock;
    CountSplit(a, b, a[0].id);
    FirstCounts(a, a[0].id);
    FirstCounts(b, a[0].id);
  }

  lemma FirstCounts(blocks: seq<Block>, id: string)
    requires blocks != []
    ensures blocks[0].Tool? && blocks[0].id == id ==> ToolCount(blocks, id) >= 1
  {
    CountSplit([blocks[0]], blocks[1..], id);
    CountOne(blocks[0], id);
    assert blocks == [blocks[0]] + blocks[1..];
  }

  /** A call of a tool already shown keeps its place, result and name, if it has one. */
  lemma ToolUseMerges(s: RunState, id: string, name: string, at: nat)
    requires Store(s.blocks) && |s.blocks| <= MAX_BLOCKS
    requires at < |s.blocks| && s.blocks[at].Tool? && s.blocks[at].id == id
    ensures var t := ReduceContent(s, ToolUse(id, name));
            && |t.blocks| == |s.blocks|
            && t.blocks[at] == (if s.blocks[at].name == "" then s.blocks[at].(name := name) else s.blocks[at])
            && forall i | 0 <= i < |s.blocks| && i != at :: t.blocks[i] == Deactivated(s.blocks[i])
  {
    hide Store;
    var blocks := MarkThinkingInactive(s.blocks);
    var found := FirstIndex(blocks, (b: Block) => b.Tool? && b.id == id, 0);
    assert blocks[at] == s.blocks[at];
    assert found.Some?;
    if found.value != at {
      OneToolEach(s.blocks, found.value, at);
    }
  }

  /** Any other call adds the tool, running and without a result. */
  lemma ToolUseAdds(s: RunState, id: string, name: string)
    requires forall i | 0 <= i < |s.blocks| :: !(s.blocks[i].Tool? && s.blocks[i].id == id)
    ensures ReduceContent(s, ToolUse(id, name))
            == WithCappedBlocks(s, MarkThinkingInactive(s.blocks) + [Tool(id, name, None, ToolRunning)]).(footer := ToolFooter)
  {
    hide WithCappedBlocks;
    var blocks := MarkThinkingInactive(s.blocks);
    assert FirstIndex(blocks, (b: Block) => b.Tool? && b.id == id, 0).None?;
  }

  // ---- file changes ----

  /** A changed file is the newest block, and the newest of the others stay as they are. */
  lemma FileIsShown(s: RunState, path: string)
    requires IsActive(s.terminal)
    ensures var t := ReduceInner(s, FileChanged(path));
            && t.blocks != [] && t.blocks[|t.blocks| - 1] == FileChange(None, path)
            && |t.blocks| == Min(|s.blocks| + 1, MAX_BLOCKS)
            && t.blocks[..|t.blocks| - 1] == s.blocks[|s.blocks| - (|t.blocks| - 1)..]
  {
    var all := s.blocks + [FileChange(None, path)];
    assert all[|all| - 1] == FileChange(None, path);
  }

  // ---- snapshots ----

  /** Without a match an upsert appends. */
  lemma UpsertAppends(blocks: seq<Block>, p: Block -> bool, added: Block, update: Block -> Block, moveToEnd: bool)
    requires forall i | 0 <= i < |blocks| :: !p(blocks[i])
    ensures Upsert(blocks, p, added, update, moveToEnd) == blocks + [added]
  {
  }

  /** It replaces the last match, at its place or, while it streams, at the end; all other
      blocks keep their order. */
  lemma UpsertReplacesTheLast(before: seq<Block>, was: Block, after: seq<Block>,
                              p: Block -> bool, added: Block, update: Block -> Block, moveToEnd: bool)
    requires p(was) && forall i | 0 <= i < |after| :: !p(after[i])
    ensures Upsert(before + [was] + after, p, added, update, moveToEnd)
            == if moveToEnd then before + after + [update(was)] else before + [update(was)] + after
  {
    var blocks := before + [was] + after;
    LastAt(before, was, after, p);
    assert blocks[..|before|] == before && blocks[|before| + 1..] == after;
    assert blocks[|before| := update(was)] == before + [update(was)] + after;
    assert RemoveAt(blocks, |before|) == before + after;
    assert after == [] ==> before + after + [update(was)] == before + [update(was)] + after;
    hide LastIndex, RemoveAt;
  }

  lemma LastAt(before: seq<Block>, was: Block, after: seq<Block>, p: Block -> bool)
    requires p(was) && forall i | 0 <= i < |after| :: !p(after[i])
    ensures var blocks := before + [was] + after;
            blocks[|before|] == was && LastIndex(blocks, p, |blocks|) == Some(|before|)
  {
    hide LastIndex;
    var blocks := before + [was] + after;
    forall j | |before| < j < |blocks|
      ensures !p(blocks[j])
    {
      assert blocks[j] == after[j - |before| - 1];
    }
  }

  /** Where the new version of a block goes: to its place once complete, to the end till then. */
  function Placed(before: seq<Block>, b: Block, after: seq<Block>, complete: bool): (r: seq<Block>)
    ensures |r| == |before| + 1 + |after|
  {
    if complete then before + [b] + after else before + after + [b]
  }

  lemma NothingEvicted(s: RunState, blocks: seq<Block>)
    requires |blocks| <= MAX_BLOCKS
    ensures WithCappedBlocks(s, blocks).blocks == blocks
  {
  }

  /** A later snapshot of an item's thinking takes the place of the earlier. */
  lemma ReasoningTakesItsPlace(s: RunState, d: Diff, before: seq<Block>, was: Block, after: seq<Block>)
    requires d.reasoning.Some? && s.blocks == before + [was] + after && |s.blocks| <= MAX_BLOCKS
    requires was.Thinking? && was.itemId == Some(d.itemId)
    requires forall i | 0 <= i < |after| :: !(after[i].Thinking? && after[i].itemId == Some(d.itemId))
    ensures ApplyReasoningDiff(s, d).blocks
            == Placed(before, Thinking(Some(d.itemId), Window(d.reasoning.value, MAX_REASONING_CHARS), !d.complete), after, d.complete)
  {
    hide Upsert, Window, WithCappedBlocks;
    var content := Window(d.reasoning.value, MAX_REASONING_CHARS);
    var p := (b: Block) => b.Thinking? && b.itemId == Some(d.itemId);
    var added := Thinking(Some(d.itemId), content, !d.complete);
    var update := (b: Block) => if b.Thinking? then Thinking(b.itemId, content, !d.complete) else b;
    UpsertReplacesTheLast(before, was, after, p, added, update, !d.complete);
    NothingEvicted(s, Placed(before, added, after, d.complete));
  }

  /** So does one of its plan. */
  lemma PlanTakesItsPlace(s: RunState, d: Diff, before: seq<Block>, was: Block, after: seq<Block>)
    requires d.plan.Some? && s.blocks == before + [was] + after && |s.blocks| <= MAX_BLOCKS
    requires was.Plan? && was.itemId == Some(d.itemId)
    requires forall i | 0 <= i < |after| :: !(after[i].Plan? && after[i].itemId == Some(d.itemId))
    ensures ApplyPlanDiff(s, d).blocks
            == Placed(before, Plan(Some(d.itemId), Window(d.plan.value, MAX_PLAN_CHARS), !d.complete), after, d.complete)
  {
    hide Upsert, Window, WithCappedBlocks;
    var plan := Window(d.plan.value, MAX_PLAN_CHARS);
    var p := (b: Block) => b.Plan? && b.itemId == Some(d.itemId);
    var added := Plan(Some(d.itemId), plan, !d.complete);
    var update := (b: Block) => if b.Plan? then Plan(b.itemId, plan, !d.complete) else b;
    UpsertReplacesTheLast(before, was, after, p, added, update, !d.complete);
    NothingEvicted(s.(plan := plan), Placed(before, added, after, d.complete));
  }

  /** So does one of its tool, which keeps its name. */
  lemma ToolTakesItsPlace(s: RunState, d: Diff, before: seq<Block>, was: Block, after: seq<Block>)
    requires d.toolOutput.Some? && s.blocks == before + [was] + after && |s.blocks| <= MAX_BLOCKS
    requires was.Tool? && was.id == d.itemId && forall i | 0 <= i < |after| :: !(after[i].Tool? && after[i].id == d.itemId)
    ensures var status := if !d.complete then was.status else if d.toolStatus.Some? then d.toolStatus.value else ToolOk;
            ApplyToolDiff(s, d).blocks
            == Placed(before, Tool(d.itemId, was.name, Some(KeepTail(d.toolOutput.value, MAX_TOOL_DETAIL_CHARS)), status), after, d.complete)
  {
    hide Upsert, KeepTail, WithCappedBlocks;
    var output := Some(KeepTail(d.toolOutput.value, MAX_TOOL_DETAIL_CHARS));
    var name := if d.toolName.Some? then d.toolName.value else "command";
    var p := (b: Block) => b.Tool? && b.id == d.itemId;
    var added := Tool(d.itemId, name, output, DiffStatus(d, ToolRunning));
    var update := (b: Block) => if b.Tool? then Tool(b.id, b.name, output, DiffStatus(d, b.status)) else b;
    UpsertReplacesTheLast(before, was, after, p, added, update, !d.complete);
    NothingEvicted(s, Placed(before, update(was), after, d.complete));
  }

  /** So does one of its text, which also ends the thinking. */
  lemma TextTakesItsPlace(s: RunState, d: Diff, before: seq<Block>, was: Block, after: seq<Block>)
    requires d.text.Some? && s.blocks == before + [was] + after && |s.blocks| <= MAX_BLOCKS
    requires was.TextBlock? && was.itemId == Some(d.itemId)
    requires forall i | 0 <= i < |after| :: !(after[i].TextBlock? && after[i].itemId == Some(d.itemId))
    ensures ApplyTextDiff(s, d).blocks
            == Placed(MarkThinkingInactive(before), TextBlock(Some(d.itemId), d.text.value), MarkThinkingInactive(after), d.complete)
  {
    hide Upsert, WithCappedBlocks;
    var p := (b: Block) => b.TextBlock? && b.itemId == Some(d.itemId);
    var added := TextBlock(Some(d.itemId), d.text.value);
    var update := (b: Block) => if b.TextBlock? then TextBlock(b.itemId, d.text.value) else b;
    var first, rest := MarkThinkingInactive(before), MarkThinkingInactive(after);
    assert MarkThinkingInactive(s.blocks) == first + [was] + rest;
    UpsertReplacesTheLast(first, was, rest, p, added, update, !d.complete);
    NothingEvicted(s, Placed(first, added, rest, d.complete));
  }

  /** The block is in the store, or has just left it. */
  predicate Shown(s: RunState, t: RunState, b: Block) {
    s.evicted <= t.evicted && (b in t.blocks || b in t.evicted[|s.evicted|..])
  }

  lemma CappedShows(s: RunState, s1: RunState, blocks: seq<Block>, b: Block)
    requires s1.evicted == s.evicted && b in blocks
    ensures Shown(s, WithCappedBlocks(s1, blocks), b)
  {
    var n := Excess(blocks);
    assert blocks == blocks[..n] + blocks[n..];
    assert (s.evicted + blocks[..n])[|s.evicted|..] == blocks[..n];
  }

  /** What was shown stays shown through an update of other blocks. */
  lemma StaysShown(s: RunState, t: RunState, t1: RunState, blocks: seq<Block>, b: Block)
    requires Shown(s, t, b) && t1.evicted == t.evicted && (b in t.blocks ==> b in blocks)
    ensures Shown(s, WithCappedBlocks(t1, blocks), b)
  {
    var u := WithCappedBlocks(t1, blocks);
    if b in t.blocks {
      CappedShows(t, t1, blocks, b);
      if b in u.evicted[|t.evicted|..] {
        var k :| 0 <= k < |u.evicted[|t.evicted|..]| && u.evicted[|t.evicted|..][k] == b;
        assert u.evicted[|s.evicted|..][k + |t.evicted| - |s.evicted|] == b;
      }
    } else {
      var k :| 0 <= k < |t.evicted[|s.evicted|..]| && t.evicted[|s.evicted|..][k] == b;
      assert u.evicted[|s.evicted|..][k] == b;
    }
  }

  lemma UpsertShows(blocks: seq<Block>, p: Block -> bool, added: Block, update: Block -> Block, moveToEnd: bool)
    ensures var r := Upsert(blocks, p, added, update, moveToEnd);
            && (added in r || exists b :: b in blocks && p(b) && update(b) in r)
            && (forall b | b in blocks && !p(b) :: b in r)
            && (moveToEnd ==> r[|r| - 1] == added || exists b :: b in blocks && p(b) && r[|r| - 1] == update(b))
  {
    var r := Upsert(blocks, p, added, update, moveToEnd);
    var at := LastIndex(blocks, p, |blocks|);
    if at.Some? {
      var i := at.value;
      assert blocks[i] in blocks;
      assert update(blocks[i]) == if moveToEnd && i < |blocks| - 1 then r[|blocks| - 1] else r[i];
      forall b | b in blocks && !p(b)
        ensures b in r
      {
        var k :| 0 <= k < |blocks| && blocks[k] == b;
        assert b == r[if moveToEnd && i < k then k - 1 else k];
      }
    }
  }

  // Which block a field of a diff leaves.

  lemma TextIsShown(s: RunState, d: Diff)
    requires d.text.Some?
    ensures Shown(s, ApplyTextDiff(s, d), TextBlock(Some(d.itemId), d.text.value))
  {
    hide Upsert, WithCappedBlocks;
    var p := (b: Block) => b.TextBlock? && b.itemId == Some(d.itemId);
    var update := (b: Block) => if b.TextBlock? then TextBlock(b.itemId, d.text.value) else b;
    var added := TextBlock(Some(d.itemId), d.text.value);
    var blocks := Upsert(MarkThinkingInactive(s.blocks), p, added, update, !d.complete);
    UpsertShows(MarkThinkingInactive(s.blocks), p, added, update, !d.complete);
    CappedShows(s, s, blocks, added);
  }

  lemma ReasoningIsShown(s: RunState, d: Diff)
    requires d.reasoning.Some?
    ensures Shown(s, ApplyReasoningDiff(s, d), Thinking(Some(d.itemId), Window(d.reasoning.value, MAX_REASONING_CHARS), !d.complete))
  {
    hide Upsert, WithCappedBlocks, Window;
    var content := Window(d.reasoning.value, MAX_REASONING_CHARS);
    var p := (b: Block) => b.Thinking? && b.itemId == Some(d.itemId);
    var added := Thinking(Some(d.itemId), content, !d.complete);
    var update := (b: Block) => if b.Thinking? then Thinking(b.itemId, content, !d.complete) else b;
    UpsertShows(s.blocks, p, added, update, !d.complete);
    CappedShows(s, s, Upsert(s.blocks, p, added, update, !d.complete), added);
  }

  lemma PlanIsShown(s: RunState, d: Diff)
    requires d.plan.Some?
    ensures var plan := Window(d.plan.value, MAX_PLAN_CHARS);
            ApplyPlanDiff(s, d).plan == plan && Shown(s, ApplyPlanDiff(s, d), Plan(Some(d.itemId), plan, !d.complete))
  {
    hide Upsert, Window;
    var plan := Window(d.plan.value, MAX_PLAN_CHARS);
    var p := (b: Block) => b.Plan? && b.itemId == Some(d.itemId);
    var added := Plan(Some(d.itemId), plan, !d.complete);
    var update := (b: Block) => if b.Plan? then Plan(b.itemId, plan, !d.complete) else b;
    UpsertShows(s.blocks, p, added, update, !d.complete);
    CappedShows(s, s.(plan := plan), Upsert(s.blocks, p, added, update, !d.complete), added);
  }

  /** What a diff tells of a tool: the newest part of its output; once complete, how it
      ended; until then a tool shown before keeps its status. */
  predicate ToolAsTold(b: Block, s: RunState, d: Diff)
    requires d.toolOutput.Some?
  {
    && b.Tool? && b.id == d.itemId && b.output == Some(KeepTail(d.toolOutput.value, MAX_TOOL_DETAIL_CHARS))
    && (d.complete ==> b.status == if d.toolStatus.Some? then d.toolStatus.value else ToolOk)
    && (|| (exists was :: was in s.blocks && was.Tool? && was.id == b.id && was.name == b.name
                          && (!d.complete ==> b.status == was.status))
        || (b.name == (if d.toolName.Some? then d.toolName.value else "command") && (!d.complete ==> b.status == ToolRunning)))
  }

  lemma ToolIsShown(s: RunState, d: Diff) returns (b: Block)
    requires d.toolOutput.Some?
    ensures ToolAsTold(b, s, d) && Shown(s, ApplyToolDiff(s, d), b)
  {
    hide Upsert, WithCappedBlocks, KeepTail, ToolAsTold, DiffStatus;
    var output := Some(KeepTail(d.toolOutput.value, MAX_TOOL_DETAIL_CHARS));
    var name := if d.toolName.Some? then d.toolName.value else "command";
    var p := (b: Block) => b.Tool? && b.id == d.itemId;
    var added := Tool(d.itemId, name, output, DiffStatus(d, ToolRunning));
    var update := (b: Block) => if b.Tool? then Tool(b.id, b.name, output, DiffStatus(d, b.status)) else b;
    var r := Upsert(s.blocks, p, added, update, !d.complete);
    UpsertShows(s.blocks, p, added, update, !d.complete);
    b := added;
    if added in r {
      NewToolAsTold(s, d);
    } else {
      var was :| was in s.blocks && p(was) && update(was) in r;
      b := update(was);
      OldToolAsTold(s, d, was);
    }
    CappedShows(s, s, r, b);
  }

  lemma NewToolAsTold(s: RunState, d: Diff)
    requires d.toolOutput.Some?
    ensures ToolAsTold(Tool(d.itemId, if d.toolName.Some? then d.toolName.value else "command",
                            Some(KeepTail(d.toolOutput.value, MAX_TOOL_DETAIL_CHARS)), DiffStatus(d, ToolRunning)), s, d)
  {
    hide KeepTail;
  }

  lemma OldToolAsTold(s: RunState, d: Diff, was: Block)
    requires d.toolOutput.Some? && was in s.blocks && was.Tool? && was.id == d.itemId
    ensures ToolAsTold(Tool(was.id, was.name, Some(KeepTail(d.toolOutput.value, MAX_TOOL_DETAIL_CHARS)), DiffStatus(d, was.status)), s, d)
  {
    hide KeepTail;
  }

  lemma {:induction false} FilesAreShown(blocks: seq<Block>, d: Diff, files: seq<string>)
    ensures forall path | path in files :: FileChange(Some(d.itemId), path) in UpsertFiles(blocks, d, files)
    ensures forall b | b in blocks && !b.FileChange? :: b in UpsertFiles(blocks, d, files)
  {
    hide Upsert;
    if files != [] {
      var earlier, path := files[..|files| - 1], files[|files| - 1];
      FilesAreShown(blocks, d, earlier);
      var file := FileChange(Some(d.itemId), path);
      UpsertShows(UpsertFiles(blocks, d, earlier), (b: Block) => b.FileChange? && b.itemId == Some(d.itemId) && b.path == path,
                  file, (b: Block) => file, !d.complete);
    }
  }

  /** A later field leaves a block of another kind where it is or sees it off. */
  lemma ReasoningKeepsShown(s: RunState, t: RunState, d: Diff, b: Block)
    requires Shown(s, t, b) && !b.Thinking?
    ensures Shown(s, ApplyReasoningDiff(t, d), b)
  {
    hide Upsert, WithCappedBlocks, Window;
    if d.reasoning.Some? {
      var content := Window(d.reasoning.value, MAX_REASONING_CHARS);
      var p := (b: Block) => b.Thinking? && b.itemId == Some(d.itemId);
      var added := Thinking(Some(d.itemId), content, !d.complete);
      var update := (b: Block) => if b.Thinking? then Thinking(b.itemId, content, !d.complete) else b;
      UpsertShows(t.blocks, p, added, update, !d.complete);
      StaysShown(s, t, t, Upsert(t.blocks, p, added, update, !d.complete), b);
    }
  }

  lemma ToolKeepsShown(s: RunState, t: RunState, d: Diff, b: Block)
    requires Shown(s, t, b) && !b.Tool?
    ensures Shown(s, ApplyToolDiff(t, d), b)
  {
    hide Upsert, WithCappedBlocks, KeepTail;
    if d.toolOutput.Some? {
      var output := Some(KeepTail(d.toolOutput.value, MAX_TOOL_DETAIL_CHARS));
      var name := if d.toolName.Some? then d.toolName.value else "command";
      var p := (b: Block) => b.Tool? && b.id == d.itemId;
      var added := Tool(d.itemId, name, output, DiffStatus(d, ToolRunning));
      var update := (b: Block) => if b.Tool? then Tool(b.id, b.name, output, DiffStatus(d, b.status)) else b;
      UpsertShows(t.blocks, p, added, update, !d.complete);
      StaysShown(s, t, t, Upsert(t.blocks, p, added, update, !d.complete), b);
    }
  }

  lemma PlanKeepsShown(s: RunState, t: RunState, d: Diff, b: Block)
    requires Shown(s, t, b) && !b.Plan?
    ensures Shown(s, ApplyPlanDiff(t, d), b)
  {
    hide Upsert, WithCappedBlocks, Window;
    if d.plan.Some? {
      var plan := Window(d.plan.value, MAX_PLAN_CHARS);
      var p := (b: Block) => b.Plan? && b.itemId == Some(d.itemId);
      var added := Plan(Some(d.itemId), plan, !d.complete);
      var update := (b: Block) => if b.Plan? then Plan(b.itemId, plan, !d.complete) else b;
      UpsertShows(t.blocks, p, added, update, !d.complete);
      StaysShown(s, t, t.(plan := plan), Upsert(t.blocks, p, added, update, !d.complete), b);
    }
  }

  lemma FilesKeepShown(s: RunState, t: RunState, d: Diff, b: Block)
    requires Shown(s, t, b) && !b.FileChange?
    ensures Shown(s, ApplyFilesDiff(t, d), b)
  {
    hide UpsertFiles, WithCappedBlocks;
    if d.fileChanges.Some? {
      FilesAreShown(t.blocks, d, d.fileChanges.value);
      StaysShown(s, t, t, UpsertFiles(t.blocks, d, d.fileChanges.value), b);
    }
  }

  lemma ShownSince(s: RunState, s1: RunState, t: RunState, b: Block)
    requires s.evicted <= s1.evicted && Shown(s1, t, b)
    ensures Shown(s, t, b)
  {
    if b !in t.blocks {
      var k :| 0 <= k < |t.evicted[|s1.evicted|..]| && t.evicted[|s1.evicted|..][k] == b;
      assert t.evicted[|s.evicted|..][k + |s1.evicted| - |s.evicted|] == b;
    }
  }

  lemma FieldsGrow(s: RunState, d: Diff)
    ensures s.evicted <= ApplyTextDiff(s, d).evicted && s.evicted <= ApplyReasoningDiff(s, d).evicted
    ensures s.evicted <= ApplyToolDiff(s, d).evicted && s.evicted <= ApplyPlanDiff(s, d).evicted
    ensures s.evicted <= ApplyFilesDiff(s, d).evicted && ApplyFilesDiff(s, d).plan == s.plan
  {
    hide Upsert, UpsertFiles, Window, KeepTail;
  }

  /** Each field of a snapshot is shown as told, or has been, and left for newer blocks. */
  lemma SnapshotIsShown(s: RunState, d: Diff) returns (tool: Block)
    ensures var t := ReduceTurnDiff(s, d);
            && (d.text.Some? ==> Shown(s, t, TextBlock(Some(d.itemId), d.text.value)))
            && (d.reasoning.Some? ==> Shown(s, t, Thinking(Some(d.itemId), Window(d.reasoning.value, MAX_REASONING_CHARS), !d.complete)))
            && (d.toolOutput.Some? ==> ToolAsTold(tool, ApplyReasoningDiff(ApplyTextDiff(s, d), d), d) && Shown(s, t, tool))
            && (d.plan.Some? ==> Shown(s, t, Plan(Some(d.itemId), Window(d.plan.value, MAX_PLAN_CHARS), !d.complete)))
            && (d.plan.Some? ==> t.plan == Window(d.plan.value, MAX_PLAN_CHARS))
            && (d.fileChanges.Some? ==> forall path | path in d.fileChanges.value :: Shown(s, t, FileChange(Some(d.itemId), path)))
  {
    hide *;
    var s1 := ApplyTextDiff(s, d);
    var s2 := ApplyReasoningDiff(s1, d);
    var s3 := ApplyToolDiff(s2, d);
    var s4 := ApplyPlanDiff(s3, d);
    FieldsGrow(s, d);
    FieldsGrow(s1, d);
    FieldsGrow(s2, d);
    FieldsGrow(s3, d);
    FieldsGrow(s4, d);
    DiffInOrder(s, d);
    tool := FileChange(None, "");
    if d.text.Some? {
      TextIsShown(s, d);
      ShownFromText(s, s1, d, TextBlock(Some(d.itemId), d.text.value));
    }
    if d.reasoning.Some? {
      var b := Thinking(Some(d.itemId), Window(d.reasoning.value, MAX_REASONING_CHARS), !d.complete);
      ReasoningIsShown(s1, d);
      ShownSince(s, s1, s2, b);
      ShownFromReasoning(s, s2, d, b);
    }
    if d.toolOutput.Some? {
      tool := ToolIsShown(s2, d);
      ToolIsTool(tool, s2, d);
      ShownSince(s, s2, s3, tool);
      ShownFromTool(s, s3, d, tool);
    }
    if d.plan.Some? {
      var b := Plan(Some(d.itemId), Window(d.plan.value, MAX_PLAN_CHARS), !d.complete);
      PlanIsShown(s3, d);
      ShownSince(s, s3, s4, b);
      FilesKeepShown(s, s4, d, b);
    }
    if d.fileChanges.Some? {
      FilesTold(s, s4, d);
    }
  }

  lemma ToolIsTool(b: Block, s: RunState, d: Diff)
    requires d.toolOutput.Some? && ToolAsTold(b, s, d)
    ensures b.Tool?
  {
  }

  lemma DiffInOrder(s: RunState, d: Diff)
    ensures ReduceTurnDiff(s, d) == ApplyFilesDiff(ApplyPlanDiff(ApplyToolDiff(ApplyReasoningDiff(ApplyTextDiff(s, d), d), d), d), d)
  {
    hide ApplyFilesDiff, ApplyPlanDiff, ApplyToolDiff, ApplyReasoningDiff, ApplyTextDiff;
  }

  lemma ShownFromTool(s: RunState, t: RunState, d: Diff, b: Block)
    requires Shown(s, t, b) && !b.Plan? && !b.FileChange?
    ensures Shown(s, ApplyFilesDiff(ApplyPlanDiff(t, d), d), b)
  {
    hide *;
    PlanKeepsShown(s, t, d, b);
    FilesKeepShown(s, ApplyPlanDiff(t, d), d, b);
  }

  lemma ShownFromReasoning(s: RunState, t: RunState, d: Diff, b: Block)
    requires Shown(s, t, b) && !b.Tool? && !b.Plan? && !b.FileChange?
    ensures Shown(s, ApplyFilesDiff(ApplyPlanDiff(ApplyToolDiff(t, d), d), d), b)
  {
    hide *;
    ToolKeepsShown(s, t, d, b);
    ShownFromTool(s, ApplyToolDiff(t, d), d, b);
  }

  lemma ShownFromText(s: RunState, t: RunState, d: Diff, b: Block)
    requires Shown(s, t, b) && b.TextBlock?
    ensures Shown(s, ApplyFilesDiff(ApplyPlanDiff(ApplyToolDiff(ApplyReasoningDiff(t, d), d), d), d), b)
  {
    hide *;
    ReasoningKeepsShown(s, t, d, b);
    ShownFromReasoning(s, ApplyReasoningDiff(t, d), d, b);
  }

  lemma FilesTold(s: RunState, t: RunState, d: Diff)
    requires s.evicted <= t.evicted && d.fileChanges.Some?
    ensures forall path | path in d.fileChanges.value :: Shown(s, ApplyFilesDiff(t, d), FileChange(Some(d.itemId), path))
  {
    hide UpsertFiles, WithCappedBlocks, Shown;
    FilesAreShown(t.blocks, d, d.fileChanges.value);
    forall path | path in d.fileChanges.value
      ensures Shown(s, ApplyFilesDiff(t, d), FileChange(Some(d.itemId), path))
    {
      CappedShows(t, t, UpsertFiles(t.blocks, d, d.fileChanges.value), FileChange(Some(d.itemId), path));
      ShownSince(s, t, ApplyFilesDiff(t, d), FileChange(Some(d.itemId), path));
    }
  }
}
