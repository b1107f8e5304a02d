/** How a run ends, read off its events alone: the terminal state, the outcome with its
    reason, and the whole answer. */
module RunOutcome {
  import opened Texts
  import opened TailMark
  import opened RunState
  import opened RunStateLaws

  // ---- terminal states, read off the acts alone ----

  /** The first finish decides. */
  function FirstFinish(acts: seq<Act>): Option<(FinalKind, nat)> {
    if acts == [] then None
    else
      var last := acts[|acts| - 1];
      OrElse(FirstFinish(acts[..|acts| - 1]), if last.Finish? then Some((last.kind, last.now)) else None)
  }

  /** The session was announced while the run was still active. */
  predicate Announced(acts: seq<Act>) {
    exists i :: 0 <= i < |acts| && acts[i].Happens? && acts[i].event.Init? && forall j | 0 <= j < i :: acts[j].Happens?
  }

  /** The results that count: after the announcement, before the first finish. */
  function Results(acts: seq<Act>): seq<ResultInfo> {
    if acts == [] then []
    else
      var earlier, last := acts[..|acts| - 1], acts[|acts| - 1];
      Results(earlier) +
      if FirstFinish(earlier).None? && Announced(earlier) && last.Happens? && last.event.Result? then [last.event.info] else []
  }

  predicate AnyWith(results: seq<ResultInfo>, subtype: ResultSubtype) {
    exists i :: 0 <= i < |results| && results[i].subtype == subtype
  }

  /** The worst of all results. */
  function Worst(results: seq<ResultInfo>): Option<ResultSubtype> {
    if results == [] then None
    else if AnyWith(results, ErrorResult) then Some(ErrorResult)
    else if AnyWith(results, InterruptedResult) then Some(InterruptedResult)
    else Some(Success)
  }

  function FirstError(results: seq<ResultInfo>): Option<string> {
    if results == [] then None
    else OrElse(FirstError(results[..|results| - 1]), ErrorOf(results[|results| - 1]))
  }

  /** An approval expired while the run was still active. */
  predicate Expired(acts: seq<Act>) {
    acts != [] &&
    (Expired(acts[..|acts| - 1])
     || (FirstFinish(acts[..|acts| - 1]).None? && acts[|acts| - 1].Happens? && acts[|acts| - 1].event.ApprovalExpired?))
  }

  /** What the finishes told, of each field the last that told it. */
  function Told(acts: seq<Act>): FinishMeta {
    if acts == [] then FinishMeta(None, None, None, false)
    else
      var earlier, last := Told(acts[..|acts| - 1]), acts[|acts| - 1];
      if last.Happens? then earlier
      else FinishMeta(OrElse(last.meta.resultSubtype, earlier.resultSubtype),
                      OrElse(last.meta.interruptedReason, earlier.interruptedReason),
                      OrElse(last.meta.errorMsg, earlier.errorMsg), false)
  }

  /** An interrupted run of which an approval had expired timed out, if not told otherwise. */
  function TimedOut(acts: seq<Act>): Option<InterruptedReason> {
    if FirstFinish(acts).Some? && FirstFinish(acts).value.0 == Interrupted && Expired(acts) then Some(ApprovalTimeout) else None
  }

  lemma WorstJoins(results: seq<ResultInfo>, info: ResultInfo)
    ensures Worst(results + [info]) == Some(Join(Worst(results), info.subtype))
  {
    var all := results + [info];
    assert all[|results|] == info;
    assert forall i | 0 <= i < |results| :: all[i] == results[i];
    assert forall k :: AnyWith(all, k) <==> AnyWith(results, k) || info.subtype == k;
  }

  /** Same terminal, session, outcome with its reason, and end time. */
  predicate SameOutcome(s: RunState, t: RunState) {
    && t.terminal == s.terminal && t.sessionId == s.sessionId && t.finishedAt == s.finishedAt
    && t.resultSubtype == s.resultSubtype && t.errorMsg == s.errorMsg
    && t.interruptedReason == s.interruptedReason && t.approvalExpired == s.approvalExpired
  }

  /** Nor has the answer changed. */
  predicate Quiet(s: RunState, t: RunState) {
    SameOutcome(s, t) && t.finalAnswer == s.finalAnswer
  }

  lemma ContentIsQuiet(s: RunState, c: Content)
    ensures Quiet(s, ReduceContent(s, c))
  {
    hide Window, FirstIndex;
  }

  lemma {:induction false} ContentsAreQuiet(s: RunState, contents: seq<Content>)
    ensures Quiet(s, ReduceContents(s, contents))
  {
    hide ReduceContent;
    if contents != [] {
      ContentsAreQuiet(s, contents[..|contents| - 1]);
      ContentIsQuiet(ReduceContents(s, contents[..|contents| - 1]), contents[|contents| - 1]);
    }
  }

  lemma {:induction false} ToolResultsAreQuiet(s: RunState, results: seq<ToolResult>)
    ensures Quiet(s, ReduceToolResults(s, results))
  {
    if results != [] {
      ToolResultsAreQuiet(s, results[..|results| - 1]);
    }
  }

  lemma EventsAreQuiet(s: RunState, e: Event)
    requires !e.Result? && !e.Init?
    ensures var expired := s.approvalExpired || (e.ApprovalExpired? && !IsFinal(s.terminal));
            SameOutcome(s.(approvalExpired := expired), Reduce(s, e))
    ensures !e.FinalAnswerText? ==> Reduce(s, e).finalAnswer == s.finalAnswer
  {
    hide CapStaleTexts, ReduceContents, ReduceToolResults, ReduceTurnDiff, ReducePlan, HasText;
    match e
    case Assistant(contents) => ContentsAreQuiet(s, contents);
    case ToolResults(results) => ToolResultsAreQuiet(s, results);
    case TurnDiff(diff) => TurnDiffIsQuiet(s, diff);
    case PlanText(text) => PlanIsQuiet(s, text);
    case _ =>
  }

  lemma PlanIsQuiet(s: RunState, text: Text)
    ensures Quiet(s, ReducePlan(s, text))
  {
    hide Window, Without;
  }

  lemma TurnDiffIsQuiet(s: RunState, d: Diff)
    ensures Quiet(s, ReduceTurnDiff(s, d))
  {
    hide Window, Upsert, UpsertFiles, MarkThinkingInactive;
    var s1 := ApplyTextDiff(s, d);
    var s2 := ApplyReasoningDiff(s1, d);
    var s3 := ApplyToolDiff(s2, d);
    var s4 := ApplyPlanDiff(s3, d);
    assert Quiet(s, s1) && Quiet(s1, s2) && Quiet(s2, s3) && Quiet(s3, s4);
    hide ApplyTextDiff, ApplyReasoningDiff, ApplyToolDiff, ApplyPlanDiff;
  }

  lemma FinishSettles(s: RunState, kind: FinalKind, meta: FinishMeta, now: nat)
    ensures var t := FinishRun(s, kind, meta, now);
            && t.sessionId == s.sessionId
            && t.terminal == (if IsFinal(s.terminal) then s.terminal else Final(kind))
            && t.finishedAt == (if IsFinal(s.terminal) then s.finishedAt else OrElse(s.finishedAt, Some(now)))
            && t.approvalExpired == s.approvalExpired
            && t.resultSubtype == OrElse(meta.resultSubtype, s.resultSubtype)
            && t.errorMsg == OrElse(meta.errorMsg, s.errorMsg)
            && t.interruptedReason ==
               if meta.interruptedReason.Some? then meta.interruptedReason
               else if !IsFinal(s.terminal) && kind == Interrupted && s.approvalExpired then Some(ApprovalTimeout)
               else s.interruptedReason
  {
    hide HasText;
  }

  lemma InitAnnounces(s: RunState, sessionId: string)
    ensures var t := Reduce(s, Init(sessionId));
            && (IsFinal(s.terminal) ==> t == s)
            && (!IsFinal(s.terminal) ==> SameOutcome(s.(sessionId := Some(sessionId)), t))
  {
    hide CapStaleTexts;
  }

  lemma ResultCounts(s: RunState, info: ResultInfo)
    ensures var t := Reduce(s, Result(info));
            && (IsFinal(s.terminal) || s.sessionId.None? ==> t == s)
            && (!IsFinal(s.terminal) && s.sessionId.Some? ==>
                  SameOutcome(s.(terminal := Finalizing,
                                 resultSubtype := Some(Join(s.resultSubtype, info.subtype)),
                                 errorMsg := OrElse(s.errorMsg, ErrorOf(info))), t))
  {
    hide CapStaleTexts, PromoteFinalAnswer;
    PromotionIsQuiet(s, info.answer);
  }

  lemma PromotionIsQuiet(s: RunState, fullText: Option<Text>)
    ensures SameOutcome(s, PromoteFinalAnswer(s, fullText))
  {
    hide HasText, LastIndex;
  }

  ghost predicate Outcome(s: RunState, acts: seq<Act>) {
    var first, results := FirstFinish(acts), Results(acts);
    && (s.sessionId.Some? <==> Announced(acts))
    && s.finishedAt == (if first.Some? then Some(first.value.1) else None)
    && s.terminal == (if first.Some? then Final(first.value.0) else if results == [] then Running else Finalizing)
    && s.resultSubtype == OrElse(Told(acts).resultSubtype, Worst(results))
    && s.errorMsg == OrElse(Told(acts).errorMsg, FirstError(results))
    && s.approvalExpired == Expired(acts)
    && s.interruptedReason == OrElse(Told(acts).interruptedReason, TimedOut(acts))
  }

  lemma AnnouncedOneMore(acts: seq<Act>, a: Act)
    ensures Announced(acts + [a]) <==>
            Announced(acts) || (FirstFinish(acts).None? && a.Happens? && a.event.Init?)
  {
    NoFinishMeansEvents(acts);
    var all := acts + [a];
    assert forall i | 0 <= i < |acts| :: all[i] == acts[i];
    if FirstFinish(acts).None? && a.Happens? && a.event.Init? {
      assert all[|acts|] == a;
    }
  }

  lemma {:induction false} NoFinishMeansEvents(acts: seq<Act>)
    ensures FirstFinish(acts).None? <==> forall j | 0 <= j < |acts| :: acts[j].Happens?
    ensures FirstFinish(acts).None? ==> Told(acts) == FinishMeta(None, None, None, false)
  {
    if acts != [] {
      NoFinishMeansEvents(acts[..|acts| - 1]);
    }
  }

  lemma OutcomeOneMore(s: RunState, acts: seq<Act>, a: Act)
    requires Outcome(s, acts)
    ensures Outcome(Do(s, a), acts + [a])
  {
    hide Outcome, Reduce, FinishRun;
    match a
    case Finish(kind, meta, now) => FinishOneMore(s, acts, kind, meta, now);
    case Happens(e) =>
      if e.Result? {
        ResultOneMore(s, acts, e.info);
      } else {
        EventOneMore(s, acts, e);
      }
  }

  /** What the recursive readings of a run make of one more act. */
  lemma ReadOneMore(acts: seq<Act>, a: Act)
    ensures var all := acts + [a];
            && FirstFinish(all) == OrElse(FirstFinish(acts), if a.Finish? then Some((a.kind, a.now)) else None)
            && Results(all) == (if FirstFinish(acts).None? && Announced(acts) && a.Happens? && a.event.Result?
                                then Results(acts) + [a.event.info] else Results(acts))
            && Expired(all) == (Expired(acts) || (FirstFinish(acts).None? && a.Happens? && a.event.ApprovalExpired?))
            && (a.Happens? ==> Told(all) == Told(acts))
            && (a.Finish? ==> Told(all) == FinishMeta(OrElse(a.meta.resultSubtype, Told(acts).resultSubtype),
                                                      OrElse(a.meta.interruptedReason, Told(acts).interruptedReason),
                                                      OrElse(a.meta.errorMsg, Told(acts).errorMsg), false))
  {
    hide Announced;
    assert (acts + [a])[..|acts + [a]| - 1] == acts;
  }

  lemma FinishOneMore(s: RunState, acts: seq<Act>, kind: FinalKind, meta: FinishMeta, now: nat)
    requires Outcome(s, acts)
    ensures Outcome(FinishRun(s, kind, meta, now), acts + [Finish(kind, meta, now)])
  {
    FinishSettles(s, kind, meta, now);
    ReadOneMore(acts, Finish(kind, meta, now));
    AnnouncedOneMore(acts, Finish(kind, meta, now));
    NoFinishMeansEvents(acts);
    hide Announced, Worst, FirstError, FinishRun, FirstFinish, Results, Expired, Told;
  }

  lemma ResultOneMore(s: RunState, acts: seq<Act>, info: ResultInfo)
    requires Outcome(s, acts)
    ensures Outcome(Reduce(s, Result(info)), acts + [Happens(Result(info))])
  {
    ResultCounts(s, info);
    ReadOneMore(acts, Happens(Result(info)));
    AnnouncedOneMore(acts, Happens(Result(info)));
    NoFinishMeansEvents(acts);
    WorstJoins(Results(acts), info);
    var all := Results(acts) + [info];
    assert all[..|all| - 1] == Results(acts);
    assert FirstError(all) == OrElse(FirstError(Results(acts)), ErrorOf(info));
    hide Announced, Worst, FirstError, Reduce, FirstFinish, Results, Expired, Told, ErrorOf;
  }

  lemma EventOneMore(s: RunState, acts: seq<Act>, e: Event)
    requires Outcome(s, acts) && !e.Result?
    ensures Outcome(Reduce(s, e), acts + [Happens(e)])
  {
    ReadOneMore(acts, Happens(e));
    AnnouncedOneMore(acts, Happens(e));
    NoFinishMeansEvents(acts);
    hide Announced, Worst, FirstError, Reduce, FirstFinish, Results, Expired, Told;
    if e.Init? {
      InitAnnounces(s, e.sessionId);
    } else {
      EventsAreQuiet(s, e);
    }
  }

  lemma NothingYet()
    ensures Outcome(INITIAL, [])
  {
  }

  /** Over any mix of events and finishes: running, then finalizing once a result
      counts, then final for good with the kind and time of the first finish; the
      subtype is the worst of the results that count, the message the first error's and
      the reason an expired approval of an interrupted run, each unless a finish tells. */
  lemma {:induction false} OutcomeFollowsActs(acts: seq<Act>)
    ensures Outcome(DoAll(INITIAL, acts), acts)
  {
    hide Outcome, Do, Announced, Worst;
    if acts == [] {
      NothingYet();
    } else {
      var earlier, a := acts[..|acts| - 1], acts[|acts| - 1];
      OutcomeFollowsActs(earlier);
      OutcomeOneMore(DoAll(INITIAL, earlier), earlier, a);
      assert acts == earlier + [a];
    }
  }

  /** After the first finish, events change nothing and a further finish only the
      meta fields and the completion of the answer. */
  lemma {:induction false} FinalIsFinal(s: RunState, acts: seq<Act>)
    requires IsFinal(s.terminal)
    ensures var t := DoAll(s, acts);
            && t.terminal == s.terminal && t.finishedAt == s.finishedAt && t.sessionId == s.sessionId
            && t.plan == s.plan && t.omittedBlocks == s.omittedBlocks
            && (s.finalAnswer.Some? ==> t.finalAnswer.Some? && t.finalAnswer.value.content == s.finalAnswer.value.content)
            && ((forall i | 0 <= i < |acts| :: acts[i].Happens?) ==> t == s)
  {
    if acts != [] {
      FinalIsFinal(s, acts[..|acts| - 1]);
    }
  }

  // ---- the answer is never truncated ----

  /** The newest text, whole, with `later` blocks after it, none of them text. */
  predicate Answering(s: RunState, text: Text, later: nat) {
    && IsActive(s.terminal) && s.finalAnswer.None? && |s.blocks| <= MAX_BLOCKS
    && later < |s.blocks|
    && s.blocks[|s.blocks| - 1 - later].TextBlock? && s.blocks[|s.blocks| - 1 - later].content == text
    && forall i | |s.blocks| - later <= i < |s.blocks| :: !s.blocks[i].TextBlock?
  }

  ghost predicate AnsweringWithin(s: RunState, text: Text, n: nat) {
    exists later :: 0 <= later <= n && Answering(s, text, later)
  }

  lemma CapKeepsAnswer(s: RunState, text: Text, n: nat)
    requires AnsweringWithin(s, text, n)
    ensures AnsweringWithin(s.(blocks := CapStaleTexts(s.blocks)), text, n)
  {
    var later :| 0 <= later <= n && Answering(s, text, later);
    hide Window;
    var newest := |s.blocks| - 1 - later;
    assert NewestText(s.blocks) == Some(newest);
    hide NewestText, LastIndex;
    assert CapStaleTexts(s.blocks)[newest] == s.blocks[newest];
    hide CapStaleTexts;
    assert Answering(s.(blocks := CapStaleTexts(s.blocks)), text, later);
  }

  /** Appending one block that is not text leaves the answer in the window while
      fewer than 24 have come after it. */
  lemma AppendKeepsAnswer(s: RunState, blocks: seq<Block>, b: Block, text: Text, n: nat, footer: Footer)
    requires AnsweringWithin(s, text, n) && n + 1 < MAX_BLOCKS && !b.TextBlock?
    requires |blocks| == |s.blocks| && forall i | 0 <= i < |blocks| :: blocks[i] == Deactivated(s.blocks[i]) || blocks[i] == s.blocks[i]
    ensures AnsweringWithin(WithCappedBlocks(s, blocks + [b]).(footer := footer), text, n + 1)
  {
    var later :| 0 <= later <= n && Answering(s, text, later);
    var t := WithCappedBlocks(s, blocks + [b]).(footer := footer);
    assert forall i | 0 <= i < |t.blocks| - 1 :: t.blocks[i] == blocks[i + |blocks| + 1 - |t.blocks|];
    assert Answering(t, text, later + 1);
  }

  /** Replacing a block that is not text by another leaves the answer where it is. */
  lemma ReplaceKeepsAnswer(s: RunState, t: RunState, text: Text, n: nat)
    requires AnsweringWithin(s, text, n)
    requires t.terminal == s.terminal && t.finalAnswer == s.finalAnswer && |t.blocks| == |s.blocks|
    requires forall i | 0 <= i < |s.blocks| ::
      if s.blocks[i].TextBlock? then t.blocks[i] == s.blocks[i] else !t.blocks[i].TextBlock?
    ensures AnsweringWithin(t, text, n)
  {
    var later :| 0 <= later <= n && Answering(s, text, later);
    assert Answering(t, text, later);
  }

  lemma ContentKeepsAnswer(s: RunState, c: Content, text: Text, n: nat)
    requires AnsweringWithin(s, text, n) && n + 1 < MAX_BLOCKS && !c.TextPart?
    ensures AnsweringWithin(ReduceContent(s, c), text, n + 1)
  {
    hide Window;
    var t := ReduceContent(s, c);
    match c
    case ThinkingPart(itemId, added) =>
      var last := LastBlock(s);
      if last.Some? && last.value.Thinking? && last.value.itemId == itemId {
        ReplaceKeepsAnswer(s, t, text, n);
      } else {
        AppendKeepsAnswer(s, MarkThinkingInactive(s.blocks), Thinking(itemId, Window(added, MAX_REASONING_CHARS), true), text, n, ThinkingFooter);
      }
    case ToolUse(id, name) =>
      var blocks := MarkThinkingInactive(s.blocks);
      var at := FirstIndex(blocks, (b: Block) => b.Tool? && b.id == id, 0);
      if at.Some? {
        ReplaceKeepsAnswer(s, t, text, n);
      } else {
        AppendKeepsAnswer(s, blocks, Tool(id, name, None, ToolRunning), text, n, ToolFooter);
      }
  }

  lemma {:induction false} ContentsKeepAnswer(s: RunState, contents: seq<Content>, text: Text, n: nat)
    requires AnsweringWithin(s, text, n) && n + |contents| < MAX_BLOCKS
    requires forall i | 0 <= i < |contents| :: !contents[i].TextPart?
    ensures AnsweringWithin(ReduceContents(s, contents), text, n + |contents|)
  {
    if contents != [] {
      var earlier := contents[..|contents| - 1];
      ContentsKeepAnswer(s, earlier, text, n);
      ContentKeepsAnswer(ReduceContents(s, earlier), contents[|contents| - 1], text, n + |earlier|);
    }
  }

  lemma {:induction false} ToolResultsKeepAnswer(s: RunState, results: seq<ToolResult>, text: Text, n: nat)
    requires AnsweringWithin(s, text, n)
    ensures AnsweringWithin(ReduceToolResults(s, results), text, n)
  {
    if results != [] {
      var earlier := results[..|results| - 1];
      ToolResultsKeepAnswer(s, earlier, text, n);
      ReplaceKeepsAnswer(ReduceToolResults(s, earlier), ReduceToolResults(s, results), text, n);
    }
  }

  /** An event that streams no text, settles nothing and removes no block. */
  predicate Sidelong(e: Event) {
    match e
    case Assistant(contents) => forall i | 0 <= i < |contents| :: !contents[i].TextPart?
    case Init(_) | ToolResults(_) | FileChanged(_) | TurnStarted | ApprovalExpired | Elsewhere => true
    case _ => false
  }

  /** How many blocks it may add. */
  function Adds(e: Event): nat {
    match e
    case Assistant(contents) => |contents|
    case FileChanged(_) => 1
    case _ => 0
  }

  function AddsAll(events: seq<Event>): nat {
    if events == [] then 0 else AddsAll(events[..|events| - 1]) + Adds(events[|events| - 1])
  }

  function Events(events: seq<Event>): (r: seq<Act>)
    ensures |r| == |events| && forall i | 0 <= i < |r| :: r[i] == Happens(events[i])
  {
    seq(|events|, i requires 0 <= i < |events| => Happens(events[i]))
  }

  lemma EventKeepsAnswer(s: RunState, e: Event, text: Text, n: nat)
    requires AnsweringWithin(s, text, n) && Sidelong(e) && n + Adds(e) < MAX_BLOCKS
    ensures AnsweringWithin(Reduce(s, e), text, n + Adds(e))
  {
    hide CapStaleTexts, ReduceContents, ReduceToolResults, ReducePlan, ReduceTurnDiff, ReduceResult, ReduceFinalAnswer;
    match e {
      case Assistant(contents) => ContentsKeepAnswer(s, contents, text, n);
      case ToolResults(results) => ToolResultsKeepAnswer(s, results, text, n);
      case FileChanged(path) => AppendKeepsAnswer(s, s.blocks, FileChange(None, path), text, n, s.footer);
      case _ => ReplaceKeepsAnswer(s, ReduceInner(s, e), text, n);
    }
    CapKeepsAnswer(ReduceInner(s, e), text, n + Adds(e));
  }

  lemma {:induction false} EventsKeepAnswer(s: RunState, events: seq<Event>, text: Text)
    requires AnsweringWithin(s, text, 0) && AddsAll(events) < MAX_BLOCKS
    requires forall i | 0 <= i < |events| :: Sidelong(events[i])
    ensures AnsweringWithin(DoAll(s, Events(events)), text, AddsAll(events))
  {
    if events == [] {
      assert Events(events) == [];
    } else {
      var earlier, e := events[..|events| - 1], events[|events| - 1];
      EventsKeepAnswer(s, earlier, text);
      assert Events(events)[..|events| - 1] == Events(earlier);
      EventKeepsAnswer(DoAll(s, Events(earlier)), e, text, AddsAll(earlier));
    }
  }

  /** A chunk starts a new text block, or grows the newest one. */
  lemma ChunkGrows(s: RunState, before: Text, chunk: Text)
    requires IsActive(s.terminal) && s.finalAnswer.None? && |s.blocks| <= MAX_BLOCKS
    requires if s.blocks != [] && s.blocks[|s.blocks| - 1].TextBlock? then s.blocks[|s.blocks| - 1].content == before else before == []
    ensures Answering(Reduce(s, Assistant([TextPart(chunk)])), before + chunk, 0)
  {
    hide ReduceContents, ReduceContent, ReduceInner, CapStaleTexts, Answering;
    var next := ReduceContent(s, TextPart(chunk));
    OneContent(s, TextPart(chunk));
    ChunkStored(s, before, chunk);
    CapKeepsAnswer(next, before + chunk, 0);
  }

  /** An active run takes an assistant event with one content. */
  lemma OneContent(s: RunState, c: Content)
    requires IsActive(s.terminal)
    ensures ReduceInner(s, Assistant([c])) == ReduceContent(s, c)
  {
    hide ReduceContent;
    assert [c][..0] == [];
    assert ReduceContents(s, []) == s;
  }

  lemma ChunkStored(s: RunState, before: Text, chunk: Text)
    requires IsActive(s.terminal) && s.finalAnswer.None? && |s.blocks| <= MAX_BLOCKS
    requires if s.blocks != [] && s.blocks[|s.blocks| - 1].TextBlock? then s.blocks[|s.blocks| - 1].content == before else before == []
    ensures Answering(ReduceContent(s, TextPart(chunk)), before + chunk, 0)
  {
    var n := |s.blocks|;
    var blocks := MarkThinkingInactive(s.blocks);
    if n > 0 && s.blocks[n - 1].TextBlock? {
      assert blocks[n - 1] == s.blocks[n - 1];
    }
  }

  function Chunks(chunks: seq<Text>): (r: seq<Event>)
    ensures |r| == |chunks| && forall i | 0 <= i < |r| :: r[i] == Assistant([TextPart(chunks[i])])
  {
    seq(|chunks|, i requires 0 <= i < |chunks| => Assistant([TextPart(chunks[i])]))
  }

  lemma {:induction false} ChunksAccumulate(s: RunState, chunks: seq<Text>)
    requires chunks != [] && IsActive(s.terminal) && s.finalAnswer.None? && |s.blocks| <= MAX_BLOCKS
    requires s.blocks == [] || !s.blocks[|s.blocks| - 1].TextBlock?
    ensures Answering(DoAll(s, Events(Chunks(chunks))), Concat(chunks), 0)
  {
    var earlier, chunk := chunks[..|chunks| - 1], chunks[|chunks| - 1];
    assert Events(Chunks(chunks))[..|chunks| - 1] == Events(Chunks(earlier));
    if earlier == [] {
      assert Events(Chunks(earlier)) == [];
      ChunkGrows(s, [], chunk);
    } else {
      ChunksAccumulate(s, earlier);
      ChunkGrows(DoAll(s, Events(Chunks(earlier))), Concat(earlier), chunk);
    }
  }

  /** What settles the answer: a finish, or a result that counts. */
  predicate Settles(s: RunState, a: Act) {
    a.Finish? || (a.event.Result? && s.sessionId.Some?)
  }

  /** The full text a result may bring along. */
  function Brought(a: Act): Option<Text> {
    if a.Happens? && a.event.Result? && a.event.info.answer.Some? && HasText(a.event.info.answer.value) then a.event.info.answer else None
  }

  /** A complete answer is touched by nothing but another final answer of the protocol. */
  lemma {:induction false} AnswerStands(s: RunState, acts: seq<Act>)
    requires s.finalAnswer.Some? && s.finalAnswer.value.complete
    requires forall i | 0 <= i < |acts| :: acts[i].Happens? ==> !acts[i].event.FinalAnswerText?
    ensures DoAll(s, acts).finalAnswer == s.finalAnswer
  {
    if acts != [] {
      AnswerStands(s, acts[..|acts| - 1]);
      ActKeepsAnswer(DoAll(s, acts[..|acts| - 1]), acts[|acts| - 1]);
    }
  }

  lemma ActKeepsAnswer(s: RunState, a: Act)
    requires s.finalAnswer.Some? && s.finalAnswer.value.complete
    requires a.Happens? ==> !a.event.FinalAnswerText?
    ensures Do(s, a).finalAnswer == s.finalAnswer
  {
    hide CapStaleTexts, ReduceContents, ReduceToolResults, ReduceTurnDiff, ReducePlan, HasText;
    if a.Happens? && !a.event.Result? && !a.event.Init? {
      EventsAreQuiet(s, a.event);
    }
  }

  /** An answer streamed in any chunks, however long, and followed by fewer than 24
      thinking, tool or file blocks, is the final answer, whole, once a result or a finish
      settles it, unless the result brings its own text. Whatever follows leaves it so,
      but for another final answer of the protocol. */
  lemma StreamedAnswerIsWhole(s: RunState, chunks: seq<Text>, events: seq<Event>, last: Act, acts: seq<Act>)
    requires chunks != [] && HasText(Concat(chunks))
    requires IsActive(s.terminal) && s.finalAnswer.None? && |s.blocks| <= MAX_BLOCKS
    requires s.blocks == [] || !s.blocks[|s.blocks| - 1].TextBlock?
    requires AddsAll(events) < MAX_BLOCKS && forall i | 0 <= i < |events| :: Sidelong(events[i])
    requires Settles(DoAll(DoAll(s, Events(Chunks(chunks))), Events(events)), last)
    requires forall i | 0 <= i < |acts| :: acts[i].Happens? ==> !acts[i].event.FinalAnswerText?
    ensures var t := DoAll(DoAll(s, Events(Chunks(chunks))), Events(events));
            DoAll(Do(t, last), acts).finalAnswer
              == Some(FinalAnswer(if Brought(last).Some? then Brought(last).value else Concat(chunks), true, false))
  {
    hide HasText, Concat, Do, DoAll, Answering;
    ChunksAccumulate(s, chunks);
    EventsKeepAnswer(DoAll(s, Events(Chunks(chunks))), events, Concat(chunks));
    var t := DoAll(DoAll(s, Events(Chunks(chunks))), Events(events));
    AnswerIsPromoted(t, Concat(chunks), AddsAll(events), last);
    AnswerStands(Do(t, last), acts);
  }

  lemma AnswerIsPromoted(t: RunState, text: Text, n: nat, last: Act)
    requires AnsweringWithin(t, text, n) && HasText(text) && Settles(t, last)
    ensures Do(t, last).finalAnswer
            == Some(FinalAnswer(if Brought(last).Some? then Brought(last).value else text, true, false))
  {
    match last
    case Finish(_, _, _) => Promoted(t, text, n, None);
    case Happens(e) => Promoted(t, text, n, e.info.answer);
    hide AnsweringWithin, PromoteFinalAnswer, HasText, CapStaleTexts;
  }

  lemma Promoted(t: RunState, text: Text, n: nat, fullText: Option<Text>)
    requires AnsweringWithin(t, text, n) && HasText(text)
    ensures IsActive(t.terminal)
    ensures var content := if fullText.Some? && HasText(fullText.value) then fullText.value else text;
            PromoteFinalAnswer(t, fullText).finalAnswer == Some(FinalAnswer(content, true, false))
  {
    hide HasText, RemoveAt;
    var later :| 0 <= later <= n && Answering(t, text, later);
    assert LastIndex(t.blocks, (b: Block) => b.TextBlock? && HasText(b.content), |t.blocks|) == Some(|t.blocks| - 1 - later);
  }
}
