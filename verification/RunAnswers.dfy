/** The final answer: which text it is, where it is taken from, and what else a run shows
    at its end. */
module RunAnswers {
  import opened Texts
  import opened TailMark
  import opened RunState
  import opened RunStateLaws
  import opened RunOutcome

  // ---- the protocol's answer ----

  /** The last final answer with text that the protocol told before the first finish. */
  function LastProtocol(acts: seq<Act>): Option<Text> {
    if acts == [] then None
    else
      var earlier, last := acts[..|acts| - 1], acts[|acts| - 1];
      if FirstFinish(earlier).None? && last.Happens? && last.event.FinalAnswerText? && HasText(last.event.text)
      then Some(last.event.text) else LastProtocol(earlier)
  }

  predicate AnswersWith(s: RunState, text: Option<Text>) {
    text.Some? ==> s.finalAnswer.Some? && s.finalAnswer.value.content == text.value && s.finalAnswer.value.fromProtocol
  }

  lemma PromotionKeepsAnswer(s: RunState, fullText: Option<Text>)
    requires s.finalAnswer.Some?
    ensures PromoteFinalAnswer(s, fullText).finalAnswer == Some(s.finalAnswer.value.(complete := true))
  {
  }

  /** A blank final answer leaves the text of the answer. */
  lemma EventKeepsText(s: RunState, e: Event)
    requires s.finalAnswer.Some? && !(e.FinalAnswerText? && HasText(e.text))
    ensures var t := Reduce(s, e);
            && t.finalAnswer.Some? && t.finalAnswer.value.content == s.finalAnswer.value.content
            && (s.finalAnswer.value.fromProtocol ==> t.finalAnswer.value.fromProtocol)
  {
    hide CapStaleTexts, PromoteFinalAnswer, HasText, ReduceContents, ReduceToolResults, ReducePlan, ReduceTurnDiff, Without;
    match e
    case Result(info) => PromotionKeepsAnswer(s, info.answer);
    case FinalAnswerText(itemId, text, complete) =>
    case Init(sessionId) =>
    case _ => EventsAreQuiet(s, e);
  }

  lemma AnswerOneMore(s: RunState, acts: seq<Act>, a: Act)
    requires Outcome(s, acts) && AnswersWith(s, LastProtocol(acts))
    ensures AnswersWith(Do(s, a), LastProtocol(acts + [a]))
  {
    assert (acts + [a])[..|acts + [a]| - 1] == acts;
    hide Outcome, LastProtocol, HasText, Reduce, PromoteFinalAnswer, FirstFinish;
    FinalMeansFinished(s, acts);
    ProtocolOneMore(acts, a);
    match a
    case Finish(kind, meta, now) =>
      if s.finalAnswer.Some? {
        PromotionKeepsAnswer(s, None);
      }
    case Happens(e) =>
      if IsFinal(s.terminal) {
        FinalIgnores(s, e);
      } else if e.FinalAnswerText? && HasText(e.text) {
        ProtocolAnswers(s, e);
      } else if s.finalAnswer.Some? {
        EventKeepsText(s, e);
      }
  }

  lemma ProtocolOneMore(acts: seq<Act>, a: Act)
    ensures LastProtocol(acts + [a]) ==
            if FirstFinish(acts).None? && a.Happens? && a.event.FinalAnswerText? && HasText(a.event.text)
            then Some(a.event.text) else LastProtocol(acts)
  {
    hide HasText, FirstFinish;
    assert (acts + [a])[..|acts + [a]| - 1] == acts;
  }

  lemma FinalMeansFinished(s: RunState, acts: seq<Act>)
    requires Outcome(s, acts)
    ensures FirstFinish(acts).Some? <==> IsFinal(s.terminal)
  {
    hide FirstFinish, Results, Expired, Told, Worst, Announced;
  }

  lemma FinalIgnores(s: RunState, e: Event)
    requires IsFinal(s.terminal)
    ensures Reduce(s, e) == s
  {
  }

  lemma ProtocolAnswers(s: RunState, e: Event)
    requires !IsFinal(s.terminal) && e.FinalAnswerText? && HasText(e.text)
    ensures var t := Reduce(s, e);
            t.finalAnswer.Some? && t.finalAnswer.value.content == e.text && t.finalAnswer.value.fromProtocol
  {
    hide HasText, Without, CapStaleTexts;
  }

  /** Over any mix of events and finishes: once the protocol has told a final answer, the
      answer is the last it told before the first finish, whole, whatever was streamed,
      promoted or told by results. */
  lemma {:induction false} ProtocolAnswerWins(acts: seq<Act>)
    ensures AnswersWith(DoAll(INITIAL, acts), LastProtocol(acts))
  {
    hide AnswersWith, Do;
    if acts == [] {
      NoProtocolYet();
    } else {
      var earlier := acts[..|acts| - 1];
      OutcomeFollowsActs(earlier);
      ProtocolAnswerWins(earlier);
      AnswerOneMore(DoAll(INITIAL, earlier), earlier, acts[|acts| - 1]);
      assert acts == earlier + [acts[|acts| - 1]];
    }
  }

  lemma NoProtocolYet()
    ensures AnswersWith(INITIAL, LastProtocol([]))
  {
  }

  /** Told for an item, the answer takes the place of the item's texts, and of no other. */
  lemma CopiesGo(s: RunState, itemId: string, text: Text, complete: Option<bool>)
    requires HasText(text) && itemId != ""
    ensures var t := ReduceFinalAnswer(s, Some(itemId), text, complete);
            forall b :: b in t.blocks <==> b in s.blocks && !(b.TextBlock? && b.itemId == Some(itemId))
    ensures var t := ReduceFinalAnswer(s, Some(itemId), text, complete);
            t.finalAnswer == Some(FinalAnswer(text, if complete.Some? then complete.value
                                                    else s.finalAnswer.Some? && s.finalAnswer.value.complete, true))
  {
    hide HasText;
    WithoutSifts(s.blocks, (b: Block) => b.TextBlock? && b.itemId == Some(itemId));
  }

  lemma {:induction false} WithoutSifts(blocks: seq<Block>, p: Block -> bool)
    ensures forall b :: b in Without(blocks, p) <==> b in blocks && !p(b)
  {
    if blocks != [] {
      WithoutSifts(blocks[..|blocks| - 1], p);
      assert blocks == blocks[..|blocks| - 1] + [blocks[|blocks| - 1]];
    }
  }

  // ---- the promoted answer ----

  predicate MayAnswer(b: Block) {
    b.TextBlock? && HasText(b.content)
  }

  /** Without an answer so far, the newest text that is not blank leaves the store and
      becomes the answer, unless the runner brings the full text; all others stay. */
  lemma PromotionTakesTheNewest(s: RunState, fullText: Option<Text>, before: seq<Block>, was: Block, after: seq<Block>)
    requires s.finalAnswer.None? && s.blocks == before + [was] + after
    requires MayAnswer(was) && forall i | 0 <= i < |after| :: !MayAnswer(after[i])
    ensures PromoteFinalAnswer(s, fullText)
            == s.(blocks := before + after,
                  finalAnswer := Some(FinalAnswer(if fullText.Some? && HasText(fullText.value) then fullText.value else was.content, true, false)))
  {
    hide HasText, LastIndex;
    assert s.blocks[|before|] == was;
    forall j | |before| < j < |s.blocks|
      ensures !MayAnswer(s.blocks[j])
    {
      assert s.blocks[j] == after[j - |before| - 1];
    }
    assert LastIndex(s.blocks, (b: Block) => b.TextBlock? && HasText(b.content), |s.blocks|) == Some(|before|);
    assert RemoveAt(s.blocks, |before|) == before + after;
  }

  /** With nothing but blank texts, only the full text can be the answer. */
  lemma NothingToPromote(s: RunState, fullText: Option<Text>)
    requires s.finalAnswer.None? && forall i | 0 <= i < |s.blocks| :: !MayAnswer(s.blocks[i])
    ensures PromoteFinalAnswer(s, fullText)
            == if fullText.Some? && HasText(fullText.value) then s.(finalAnswer := Some(FinalAnswer(fullText.value, true, false))) else s
  {
    hide HasText;
  }

  // ---- what a run shows at its end ----

  predicate NothingThinks(blocks: seq<Block>) {
    forall i | 0 <= i < |blocks| :: blocks[i].Thinking? ==> !blocks[i].active
  }

  /** Text and tool calls end the thinking before them. */
  lemma ThinkingEnds(s: RunState, c: Content)
    requires !c.ThinkingPart? && |s.blocks| <= MAX_BLOCKS
    ensures NothingThinks(ReduceContent(s, c).blocks)
  {
  }

  /** New thinking ends the thinking before it. */
  lemma NewThinkingAlone(s: RunState, itemId: Option<string>, text: Text)
    requires s.blocks == [] || !(s.blocks[|s.blocks| - 1].Thinking? && s.blocks[|s.blocks| - 1].itemId == itemId)
    ensures var t := ReduceContent(s, ThinkingPart(itemId, text));
            && t.blocks != [] && t.blocks[|t.blocks| - 1].Thinking? && t.blocks[|t.blocks| - 1].active
            && NothingThinks(t.blocks[..|t.blocks| - 1])
  {
    hide Window;
  }

  /** So do a result that counts and the first finish, which also clear the footer and
      complete the answer. */
  lemma ResultEnds(s: RunState, info: ResultInfo)
    requires IsActive(s.terminal) && s.sessionId.Some?
    ensures var t := Reduce(s, Result(info));
            && NothingThinks(t.blocks) && t.footer == NoFooter
            && (t.finalAnswer.Some? ==> t.finalAnswer.value.complete)
  {
    hide HasText, Window, NewestText;
    var next := ReduceInner(s, Result(info));
    assert NothingThinks(next.blocks);
    PromotionCompletes(s, info.answer);
    hide ReduceInner, PromoteFinalAnswer;
  }

  lemma PromotionCompletes(s: RunState, fullText: Option<Text>)
    ensures var t := PromoteFinalAnswer(s, fullText); t.finalAnswer.Some? ==> t.finalAnswer.value.complete
  {
    hide HasText, LastIndex, RemoveAt;
  }

  lemma FinishEnds(s: RunState, kind: FinalKind, meta: FinishMeta, now: nat)
    requires IsActive(s.terminal)
    ensures var t := FinishRun(s, kind, meta, now);
            && NothingThinks(t.blocks) && t.footer == NoFooter
            && (t.finalAnswer.Some? ==> t.finalAnswer.value.complete)
  {
    PromotionCompletes(s, None);
    PromotionIsQuiet(s, None);
    hide PromoteFinalAnswer;
  }

  // ---- the footer ----

  /** The footer tells the last activity: thinking, a tool, or text. */
  function ActivityOf(c: Content): Footer {
    match c
    case ThinkingPart(_, _) => ThinkingFooter
    case TextPart(_) => StreamingFooter
    case ToolUse(_, _) => ToolFooter
  }

  lemma ContentFooter(s: RunState, contents: seq<Content>)
    requires contents != []
    ensures ReduceContents(s, contents).footer == ActivityOf(contents[|contents| - 1])
  {
    hide Window, FirstIndex, WithCappedBlocks;
  }

  /** Of a diff, the tool speaks before the reasoning and the reasoning before the text. */
  lemma DiffFooter(s: RunState, d: Diff)
    ensures ReduceTurnDiff(s, d).footer ==
            if d.toolOutput.Some? then ToolFooter
            else if d.reasoning.Some? then ThinkingFooter
            else if d.text.Some? then StreamingFooter
            else s.footer
  {
    hide Window, Upsert, UpsertFiles, KeepTail, MarkThinkingInactive;
  }

  /** A new session thinks, a tool result and an answer of the protocol are followed by
      text, a new turn thinks unless something is shown, and nothing else has a say. */
  lemma EventFooter(s: RunState, e: Event)
    requires IsActive(s.terminal)
    ensures var footer := Reduce(s, e).footer;
            && (e.Init? ==> footer == ThinkingFooter)
            && (e.ToolResults? && e.results != [] ==> footer == StreamingFooter)
            && (e.FinalAnswerText? ==> footer == if HasText(e.text) || s.finalAnswer.Some? then StreamingFooter else s.footer)
            && (e.TurnStarted? ==> footer == if s.footer == NoFooter then ThinkingFooter else s.footer)
            && (e.PlanText? || e.FileChanged? || e.ApprovalExpired? || e.Elsewhere? ==> footer == s.footer)
  {
    hide CapStaleTexts, HasText, Without, Window, FirstIndex, ReduceContents, ReduceTurnDiff, PromoteFinalAnswer;
  }
}
