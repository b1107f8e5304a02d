/** The run-state reducer: events and finishes folded into one bounded card state. */
module RunState {
  import opened Texts
  import opened TailMark

  const MAX_REASONING_CHARS: nat := 4_000
  const MAX_PLAN_CHARS: nat := 8_000
  const MAX_TEXT_CHARS: nat := 12_000
  const MAX_TOOL_DETAIL_CHARS: nat := 3_000
  const MAX_BLOCKS: nat := 24

  datatype FinalKind = Completed | Failed | Interrupted | IdleTimeout | GoalContinuing

  datatype Terminal = Running | Finalizing | Final(kind: FinalKind)

  datatype Footer = NoFooter | ThinkingFooter | ToolFooter | StreamingFooter

  datatype ResultSubtype = Success | InterruptedResult | ErrorResult

  datatype InterruptedReason = ApprovalTimeout | UserStop | ApprovalCancelled

  datatype ToolStatus = ToolRunning | ToolOk | ToolError

  datatype Block =
    | Thinking(itemId: Option<string>, content: Text, active: bool)
    | TextBlock(itemId: Option<string>, content: Text)
    | Tool(id: string, name: string, output: Option<Text>, status: ToolStatus)
    | Plan(itemId: Option<string>, content: Text, active: bool)
    | FileChange(itemId: Option<string>, path: string)

  datatype FinalAnswer = FinalAnswer(content: Text, complete: bool, fromProtocol: bool)

  /** `evicted` is a history of the blocks the window dropped, oldest first; the
      source keeps only their number. */
  datatype RunState = RunState(
    terminal: Terminal,
    footer: Footer,
    blocks: seq<Block>,
    omittedBlocks: nat,
    evicted: seq<Block>,
    finalAnswer: Option<FinalAnswer>,
    sessionId: Option<string>,
    resultSubtype: Option<ResultSubtype>,
    errorMsg: Option<string>,
    interruptedReason: Option<InterruptedReason>,
    approvalExpired: bool,
    finishedAt: Option<nat>,
    plan: Text)

  const INITIAL := RunState(Running, ThinkingFooter, [], 0, [], None, None, None, None, None, false, None, [])

  datatype Content =
    | ThinkingPart(itemId: Option<string>, text: Text)
    | TextPart(text: Text)
    | ToolUse(id: string, name: string)

  datatype ToolResult = ToolResult(id: string, output: Text, isError: bool)

  datatype Diff = Diff(
    itemId: string,
    text: Option<Text>,
    reasoning: Option<Text>,
    toolOutput: Option<Text>,
    toolName: Option<string>,
    toolStatus: Option<ToolStatus>,
    plan: Option<Text>,
    fileChanges: Option<seq<string>>,
    complete: bool)

  datatype ResultInfo = ResultInfo(subtype: ResultSubtype, errorMessage: Option<string>, answer: Option<Text>)

  datatype Event =
    | Init(sessionId: string)
    | Result(info: ResultInfo)
    | FinalAnswerText(itemId: Option<string>, text: Text, complete: Option<bool>)
    | Assistant(contents: seq<Content>)
    | ToolResults(results: seq<ToolResult>)
    | PlanText(text: Text)
    | FileChanged(path: string)
    | TurnStarted
    | TurnDiff(diff: Diff)
    | ApprovalExpired
    | Elsewhere   // events that touch none of these fields

  /** What `finishRun` is told; `more` stands for the usage fields. */
  datatype FinishMeta = FinishMeta(
    resultSubtype: Option<ResultSubtype>,
    interruptedReason: Option<InterruptedReason>,
    errorMsg: Option<string>,
    more: bool)

  predicate IsFinal(t: Terminal) {
    t.Final?
  }

  predicate IsActive(t: Terminal) {
    t.Running? || t.Finalizing?
  }

  function OrElse<T>(a: Option<T>, b: Option<T>): Option<T> {
    if a.Some? then a else b
  }

  // ---- text ----

  function KeepTail(s: Text, maxChars: nat): (r: Text)
    ensures |r| == Min(|s|, maxChars) && r == s[|s| - |r|..]
  {
    if |s| <= maxChars then s else s[|s| - maxChars..]
  }

  /** The suffix of a truncated detail. */
  const DETAIL_SUFFIX: Text := [0x2026, 0xFF08, 0x5DF2, 0x622A, 0x65AD, 0xFF09]

  function TruncateDetail(s: Text): (r: Text)
    ensures |r| <= MAX_TOOL_DETAIL_CHARS + |DETAIL_SUFFIX|
    ensures |s| <= MAX_TOOL_DETAIL_CHARS ==> r == s
    ensures |s| > MAX_TOOL_DETAIL_CHARS ==> |r| == MAX_TOOL_DETAIL_CHARS + |DETAIL_SUFFIX| && s[..MAX_TOOL_DETAIL_CHARS] <= r && DETAIL_SUFFIX == r[MAX_TOOL_DETAIL_CHARS..]
  {
    if |s| <= MAX_TOOL_DETAIL_CHARS then s else s[..MAX_TOOL_DETAIL_CHARS] + DETAIL_SUFFIX
  }

  // ---- the block store ----

  function Deactivated(b: Block): Block {
    if b.Thinking? then Thinking(b.itemId, b.content, false) else b
  }

  function MarkThinkingInactive(blocks: seq<Block>): (r: seq<Block>)
    ensures |r| == |blocks| && forall i | 0 <= i < |r| :: r[i] == Deactivated(blocks[i])
  {
    seq(|blocks|, i requires 0 <= i < |blocks| => Deactivated(blocks[i]))
  }

  /** The blocks beyond the newest `MAX_BLOCKS`. */
  function Excess(blocks: seq<Block>): nat {
    Max(0, |blocks| - MAX_BLOCKS)
  }

  function KeepLatest(blocks: seq<Block>): seq<Block> {
    blocks[Excess(blocks)..]
  }

  function WithCappedBlocks(s: RunState, blocks: seq<Block>): RunState {
    s.(blocks := KeepLatest(blocks),
       omittedBlocks := s.omittedBlocks + Excess(blocks),
       evicted := s.evicted + blocks[..Excess(blocks)])
  }

  /** The last block that satisfies `p`, among the first `n`. */
  function LastIndex(blocks: seq<Block>, p: Block -> bool, n: nat): (r: Option<nat>)
    requires n <= |blocks|
    ensures r.Some? ==> r.value < n && p(blocks[r.value]) && forall j | r.value < j < n :: !p(blocks[j])
    ensures r.None? ==> forall j | 0 <= j < n :: !p(blocks[j])
  {
    if n == 0 then None
    else if p(blocks[n - 1]) then Some(n - 1)
    else LastIndex(blocks, p, n - 1)
  }

  function FirstIndex(blocks: seq<Block>, p: Block -> bool, from: nat): (r: Option<nat>)
    requires from <= |blocks|
    ensures r.Some? ==> from <= r.value < |blocks| && p(blocks[r.value]) && forall j | from <= j < r.value :: !p(blocks[j])
    ensures r.None? ==> forall j | from <= j < |blocks| :: !p(blocks[j])
    decreases |blocks| - from
  {
    if from == |blocks| then None
    else if p(blocks[from]) then Some(from)
    else FirstIndex(blocks, p, from + 1)
  }

  function RemoveAt(blocks: seq<Block>, i: nat): seq<Block>
    requires i < |blocks|
  {
    blocks[..i] + blocks[i + 1..]
  }

  /** Replace the last match, at its place or, while it streams, at the end; append
      a fresh block when nothing matches. */
  function Upsert(blocks: seq<Block>, p: Block -> bool, added: Block, update: Block -> Block, moveToEnd: bool): seq<Block> {
    var at := LastIndex(blocks, p, |blocks|);
    if at.None? then blocks + [added]
    else
      var i := at.value;
      if moveToEnd && i < |blocks| - 1 then RemoveAt(blocks, i) + [update(blocks[i])]
      else blocks[i := update(blocks[i])]
  }

  /** The source's backward search with an early return. */
  method UpsertSnapshotBlock(blocks: seq<Block>, p: Block -> bool, added: Block, update: Block -> Block, moveToEnd: bool)
    returns (r: seq<Block>)
    ensures r == Upsert(blocks, p, added, update, moveToEnd)
  {
    var i := |blocks| - 1;
    while i >= 0
      invariant -1 <= i < |blocks|
      invariant LastIndex(blocks, p, |blocks|) == LastIndex(blocks, p, i + 1)
    {
      if p(blocks[i]) {
        r := blocks[i := update(blocks[i])];
        if moveToEnd && i < |r| - 1 {
          var moved := r[i];
          r := r[..i] + r[i + 1..];
          r := r + [moved];
        }
        return;
      }
      i := i - 1;
    }
    return blocks + [added];
  }

  /** The newest text block, the one that may become the answer. */
  function NewestText(blocks: seq<Block>): Option<nat> {
    LastIndex(blocks, (b: Block) => b.TextBlock?, |blocks|)
  }

  function CapStale(b: Block, newest: bool): Block {
    if b.TextBlock? && !newest then TextBlock(b.itemId, Window(b.content, MAX_TEXT_CHARS)) else b
  }

  /** Every text block but the newest falls back to the progress window. */
  function CapStaleTexts(blocks: seq<Block>): (r: seq<Block>)
    ensures |r| == |blocks|
    ensures forall i | 0 <= i < |r| :: r[i] == CapStale(blocks[i], NewestText(blocks) == Some(i))
  {
    seq(|blocks|, i requires 0 <= i < |blocks| => CapStale(blocks[i], NewestText(blocks) == Some(i)))
  }

  method CapStaleTextBlocks(blocks: seq<Block>) returns (r: seq<Block>)
    ensures r == CapStaleTexts(blocks)
  {
    var newestText := -1;
    var i := |blocks| - 1;
    while i >= 0
      invariant -1 <= i < |blocks| && newestText == -1
      invariant NewestText(blocks) == LastIndex(blocks, (b: Block) => b.TextBlock?, i + 1)
    {
      if blocks[i].TextBlock? {
        newestText := i;
        break;
      }
      i := i - 1;
    }
    if newestText < 0 {
      assert forall j | 0 <= j < |blocks| :: blocks[j] == CapStale(blocks[j], NewestText(blocks) == Some(j));
      return blocks;
    }
    r := [];
    for index := 0 to |blocks|
      invariant |r| == index
      invariant forall j | 0 <= j < index :: r[j] == CapStale(blocks[j], newestText == j)
    {
      var block := blocks[index];
      if index != newestText && block.TextBlock? {
        var windowed := KeepTailMarked(block.content, MAX_TEXT_CHARS);
        block := TextBlock(block.itemId, windowed);
      }
      r := r + [block];
    }
  }

  // ---- reducers ----

  function LastBlock(s: RunState): Option<Block> {
    if s.blocks == [] then None else Some(s.blocks[|s.blocks| - 1])
  }

  function ReduceContent(s: RunState, c: Content): RunState {
    match c
    case ThinkingPart(itemId, text) =>
      var last := LastBlock(s);
      var blocks :=
        if last.Some? && last.value.Thinking? && last.value.itemId == itemId
        then s.blocks[..|s.blocks| - 1]
             + [Thinking(itemId, Window(last.value.content + text, MAX_REASONING_CHARS), true)]
        else MarkThinkingInactive(s.blocks) + [Thinking(itemId, Window(text, MAX_REASONING_CHARS), true)];
      WithCappedBlocks(s, blocks).(footer := ThinkingFooter)
    case TextPart(text) =>
      var blocks := MarkThinkingInactive(s.blocks);
      var n := |blocks|;
      var next :=
        if n > 0 && blocks[n - 1].TextBlock?
        then blocks[..n - 1] + [TextBlock(None, blocks[n - 1].content + text)]
        else blocks + [TextBlock(None, text)];
      WithCappedBlocks(s, next).(footer := StreamingFooter)
    case ToolUse(id, name) =>
      var blocks := MarkThinkingInactive(s.blocks);
      var at := FirstIndex(blocks, (b: Block) => b.Tool? && b.id == id, 0);
      if at.Some? then
        var tool := blocks[at.value];
        var merged := blocks[at.value := Tool(id, if tool.name != "" then tool.name else name, tool.output, tool.status)];
        s.(blocks := KeepLatest(merged), footer := ToolFooter)
      else WithCappedBlocks(s, blocks + [Tool(id, name, None, ToolRunning)]).(footer := ToolFooter)
  }

  function ReduceContents(s: RunState, contents: seq<Content>): RunState {
    if contents == [] then s
    else ReduceContent(ReduceContents(s, contents[..|contents| - 1]), contents[|contents| - 1])
  }

  function ReduceToolResult(s: RunState, r: ToolResult): RunState {
    var at := FirstIndex(s.blocks, (b: Block) => b.Tool? && b.id == r.id, 0);
    if at.None? then s.(footer := StreamingFooter)
    else
      var done := Tool(r.id, s.blocks[at.value].name, Some(TruncateDetail(r.output)),
                       if r.isError then ToolError else ToolOk);
      s.(blocks := s.blocks[at.value := done], footer := StreamingFooter)
  }

  function ReduceToolResults(s: RunState, results: seq<ToolResult>): RunState {
    if results == [] then s
    else ReduceToolResult(ReduceToolResults(s, results[..|results| - 1]), results[|results| - 1])
  }

  function ReducePlan(s: RunState, text: Text): RunState {
    var plan := Window(s.plan + [10] + text, MAX_PLAN_CHARS);
    WithCappedBlocks(s.(plan := plan), Without(s.blocks, (b: Block) => b.Plan?) + [Plan(None, plan, true)])
  }

  /** The blocks that do not satisfy `p`, in order. */
  function Without(blocks: seq<Block>, p: Block -> bool): (r: seq<Block>)
    ensures |r| <= |blocks|
  {
    if blocks == [] then []
    else
      var b := blocks[|blocks| - 1];
      Without(blocks[..|blocks| - 1], p) + if p(b) then [] else [b]
  }

  function ApplyTextDiff(s: RunState, d: Diff): RunState {
    if d.text.None? then s
    else
      var blocks := Upsert(MarkThinkingInactive(s.blocks),
                           (b: Block) => b.TextBlock? && b.itemId == Some(d.itemId),
                           TextBlock(Some(d.itemId), d.text.value),
                           (b: Block) => if b.TextBlock? then TextBlock(b.itemId, d.text.value) else b,
                           !d.complete);
      WithCappedBlocks(s, blocks).(footer := StreamingFooter)
  }

  function ApplyReasoningDiff(s: RunState, d: Diff): RunState {
    if d.reasoning.None? then s
    else
      var content := Window(d.reasoning.value, MAX_REASONING_CHARS);
      var blocks := Upsert(s.blocks,
                           (b: Block) => b.Thinking? && b.itemId == Some(d.itemId),
                           Thinking(Some(d.itemId), content, !d.complete),
                           (b: Block) => if b.Thinking? then Thinking(b.itemId, content, !d.complete) else b,
                           !d.complete);
      WithCappedBlocks(s, blocks).(footer := ThinkingFooter)
  }

  function DiffStatus(d: Diff, before: ToolStatus): ToolStatus {
    if d.complete then (if d.toolStatus.Some? then d.toolStatus.value else ToolOk) else before
  }

  function ApplyToolDiff(s: RunState, d: Diff): RunState {
    if d.toolOutput.None? then s
    else
      var output := Some(KeepTail(d.toolOutput.value, MAX_TOOL_DETAIL_CHARS));
      var name := if d.toolName.Some? then d.toolName.value else "command";
      var blocks := Upsert(s.blocks,
                           (b: Block) => b.Tool? && b.id == d.itemId,
                           Tool(d.itemId, name, output, DiffStatus(d, ToolRunning)),
                           (b: Block) => if b.Tool? then Tool(b.id, b.name, output, DiffStatus(d, b.status)) else b,
                           !d.complete);
      WithCappedBlocks(s, blocks).(footer := ToolFooter)
  }

  function ApplyPlanDiff(s: RunState, d: Diff): RunState {
    if d.plan.None? then s
    else
      var plan := Window(d.plan.value, MAX_PLAN_CHARS);
      var blocks := Upsert(s.blocks,
                           (b: Block) => b.Plan? && b.itemId == Some(d.itemId),
                           Plan(Some(d.itemId), plan, !d.complete),
                           (b: Block) => if b.Plan? then Plan(b.itemId, plan, !d.complete) else b,
                           !d.complete);
      WithCappedBlocks(s.(plan := plan), blocks)
  }

  function UpsertFiles(blocks: seq<Block>, d: Diff, files: seq<string>): seq<Block> {
    if files == [] then blocks
    else
      var path := files[|files| - 1];
      var file := FileChange(Some(d.itemId), path);
      Upsert(UpsertFiles(blocks, d, files[..|files| - 1]),
             (b: Block) => b.FileChange? && b.itemId == Some(d.itemId) && b.path == path,
             file, (b: Block) => file, !d.complete)
  }

  function ApplyFilesDiff(s: RunState, d: Diff): RunState {
    if d.fileChanges.None? then s
    else WithCappedBlocks(s, UpsertFiles(s.blocks, d, d.fileChanges.value))
  }

  /** The five fields of a diff, always in this order. */
  function ReduceTurnDiff(s: RunState, d: Diff): RunState {
    ApplyFilesDiff(ApplyPlanDiff(ApplyToolDiff(ApplyReasoningDiff(ApplyTextDiff(s, d), d), d), d), d)
  }

  /** Move the last non-blank text block out of the store and make it the answer;
      the runner's own full text is preferred when it is given. */
  function PromoteFinalAnswer(s: RunState, fullText: Option<Text>): RunState {
    if s.finalAnswer.Some? then s.(finalAnswer := Some(s.finalAnswer.value.(complete := true)))
    else
      var full := if fullText.Some? && HasText(fullText.value) then fullText else None;
      var at := LastIndex(s.blocks, (b: Block) => b.TextBlock? && HasText(b.content), |s.blocks|);
      if at.Some? then
        var content := if full.Some? then full.value else s.blocks[at.value].content;
        s.(blocks := RemoveAt(s.blocks, at.value), finalAnswer := Some(FinalAnswer(content, true, false)))
      else if full.Some? then s.(finalAnswer := Some(FinalAnswer(full.value, true, false)))
      else s
  }

  /** Error wins over interrupted, interrupted over success. */
  function Join(a: Option<ResultSubtype>, b: ResultSubtype): ResultSubtype {
    if a == Some(ErrorResult) || b == ErrorResult then ErrorResult
    else if a == Some(InterruptedResult) || b == InterruptedResult then InterruptedResult
    else Success
  }

  const DEFAULT_ERROR := "the agent returned an error result"

  function ErrorOf(info: ResultInfo): Option<string> {
    if info.subtype != ErrorResult then None
    else if info.errorMessage.Some? then info.errorMessage else Some(DEFAULT_ERROR)
  }

  /** A result before `init` belongs to the previous turn and is ignored. */
  function ReduceResult(s: RunState, info: ResultInfo): RunState {
    if s.sessionId.None? then s
    else
      var p := PromoteFinalAnswer(s, info.answer);
      p.(terminal := Finalizing,
         footer := NoFooter,
         blocks := MarkThinkingInactive(p.blocks),
         resultSubtype := Some(Join(p.resultSubtype, info.subtype)),
         errorMsg := OrElse(p.errorMsg, ErrorOf(info)))
  }

  function ReduceFinalAnswer(s: RunState, itemId: Option<string>, text: Text, complete: Option<bool>): RunState {
    if !HasText(text) && s.finalAnswer.None? then s
    else
      var blocks := if itemId.Some? && itemId.value != ""
                    then Without(s.blocks, (b: Block) => b.TextBlock? && b.itemId == itemId)
                    else s.blocks;
      var content := if HasText(text) then text else s.finalAnswer.value.content;
      var was := if s.finalAnswer.Some? then s.finalAnswer.value.complete else false;
      s.(blocks := blocks,
         finalAnswer := Some(FinalAnswer(content, if complete.Some? then complete.value else was, true)),
         footer := StreamingFooter)
  }

  function ReduceInner(s: RunState, e: Event): RunState {
    if IsFinal(s.terminal) then s
    else
      match e
      case Init(sessionId) => s.(sessionId := Some(sessionId), footer := ThinkingFooter)
      case Result(info) => ReduceResult(s, info)
      case FinalAnswerText(itemId, text, complete) => ReduceFinalAnswer(s, itemId, text, complete)
      case Assistant(contents) => ReduceContents(s, contents)
      case ToolResults(results) => ReduceToolResults(s, results)
      case PlanText(text) => ReducePlan(s, text)
      case FileChanged(path) => WithCappedBlocks(s, s.blocks + [FileChange(None, path)])
      case TurnStarted => s.(footer := if s.footer.NoFooter? then ThinkingFooter else s.footer)
      case TurnDiff(diff) => ReduceTurnDiff(s, diff)
      case ApprovalExpired => s.(approvalExpired := true)
      case Elsewhere => s
  }

  /** One event: the transition, then the window on stale text. */
  function Reduce(s: RunState, e: Event): RunState {
    var next := ReduceInner(s, e);
    if next == s then s else next.(blocks := CapStaleTexts(next.blocks))
  }

  function ApplyMeta(s: RunState, meta: FinishMeta): RunState {
    s.(resultSubtype := OrElse(meta.resultSubtype, s.resultSubtype),
       interruptedReason := OrElse(meta.interruptedReason, s.interruptedReason),
       errorMsg := OrElse(meta.errorMsg, s.errorMsg))
  }

  /** A finish settles an active run; a run that has already finished only takes the
      meta fields. */
  function FinishRun(s: RunState, kind: FinalKind, meta: FinishMeta, now: nat): RunState {
    var p := PromoteFinalAnswer(s, None);
    if IsFinal(p.terminal) then ApplyMeta(p, meta)
    else
      var reason := if meta.interruptedReason.Some? then meta.interruptedReason
                    else if kind == Interrupted && p.approvalExpired then Some(ApprovalTimeout)
                    else None;
      var done := ApplyMeta(p, meta);
      done.(terminal := Final(kind),
            footer := NoFooter,
            finishedAt := if p.finishedAt.Some? then p.finishedAt else Some(now),
            blocks := MarkThinkingInactive(p.blocks),
            interruptedReason := OrElse(reason, done.interruptedReason))
  }
}
