/** What the user's clicks come to: which answers are recorded, when they are sent and with
    what, what the buttons show, and which events change the status of a request. */
module ApprovalEffects {
  import opened Texts
  import opened Approvals
  import opened ApprovalLaws

  // ---- answers ----

  /** The question an event is about is there, pending, and this one. */
  predicate Asks(s: Coordinator, id: Id, index: nat) {
    && id in s.approvals && s.approvals[id].kind.QuestionKind? && s.approvals[id].state.Pending?
    && index < |s.approvals[id].view.questions|
  }

  /** The answer an event gives to question `index` of request `id`: the option clicked, the
      options selected, or the user's own text. */
  function Gives(s: Coordinator, e: Event, id: Id, index: nat): Option<seq<string>> {
    if !Asks(s, id, index) then None
    else
      var q := s.approvals[id].view.questions[index];
      match e
      case ToggleAnswer(i, n, option, _) =>
        if i == id && n == index && !q.multiSelect && option in q.options then Some([option]) else None
      case SubmitAnswers(i, n, _) =>
        if i == id && n == index && q.multiSelect && q.selected != [] then Some(q.selected) else None
      case AnswerCustom(i, n, text, _) =>
        if i == id && n == index && !q.multiSelect && text != "" then Some([text]) else None
      case _ => None
  }

  function RecordedFor(s: Coordinator, id: Id, index: nat): seq<string> {
    if id in s.approvals then Recorded(s.approvals[id], index) else []
  }

  lemma SendOutShape(s: Coordinator, id: Id, t: Tracked, nonce: Option<Nonce>, payload: Payload)
    ensures var r := SendOut(s, id, t, nonce, payload);
            && r.approvals == s.approvals[id := t.(state := Submitting, timer := None, view := t.view.(deliveryError := false))]
            && r.calls == s.calls + [Call(id, nonce, payload, false, InFlight)]
            && r.interrupts == s.interrupts && r.consumed == s.consumed
  {
  }

  lemma AnswerKeeps(s: Coordinator, id: Id, t: Tracked, nonce: Option<Nonce>)
    ensures var r := AnswerRecorded(s, id, t, nonce);
            && id in r.approvals && r.approvals[id].answers == t.answers && r.approvals[id].kind == t.kind
            && r.approvals[id].view.questions == t.view.questions
            && forall k | k in s.approvals && k != id :: k in r.approvals && r.approvals[k] == s.approvals[k]
    ensures forall k | k in AnswerRecorded(s, id, t, nonce).approvals && k != id :: k in s.approvals
  {
    SendOutShape(s, id, t, nonce, Answers(AnswersOf(t)));
    hide AllAnswered, AnswersOf, IsDuplicate, SendOut;
  }

  /** The answers on record stay, and a new request has none. */
  predicate SameAnswers(s: Coordinator, t: Coordinator, id: Id) {
    RecordedIn(t, id) == RecordedIn(s, id)
  }

  function RecordedIn(s: Coordinator, id: Id): map<nat, seq<string>> {
    if id in s.approvals then s.approvals[id].answers else map[]
  }

  lemma OtherEventsKeepAnswers(s: Coordinator, e: Event, id: Id)
    requires Enabled(s, e) && AnswerClick(e).None?
    ensures SameAnswers(s, Step(s, e), id)
  {
    hide SubmitVerdict, FeedbackVerdict, Reapply, OwnedByPending, WithoutTimer, Used;
    match e
    case Submit(i, decision, text, nonce) => SubmitKeepsAnswers(s, i, decision, text, nonce, id);
    case PlanFeedback(i, text, nonce) => FeedbackKeepsAnswers(s, i, text, nonce, id);
    case CallSucceeds(c) => SuccessKeepsAnswers(s, c, id);
    case CallFails(c) => FailureKeepsAnswers(s, c, id);
    case TimerFires(timer) => TimerKeepsAnswers(s, timer, id);
    case _ =>
  }

  lemma SubmitKeepsAnswers(s: Coordinator, i: Id, decision: Decision, text: string, nonce: Option<Nonce>, id: Id)
    ensures SameAnswers(s, SubmitStep(s, i, decision, text, nonce), id)
  {
    hide IsDuplicate, Offered, FeedbackText;
  }

  lemma FeedbackKeepsAnswers(s: Coordinator, i: Id, text: string, nonce: Option<Nonce>, id: Id)
    ensures SameAnswers(s, FeedbackStep(s, i, text, nonce), id)
  {
    hide IsDuplicate;
  }

  lemma SuccessKeepsAnswers(s: Coordinator, c: nat, id: Id)
    requires c < |s.calls|
    ensures SameAnswers(s, SucceedStep(s, c), id)
  {
  }

  lemma FailureKeepsAnswers(s: Coordinator, c: nat, id: Id)
    requires c < |s.calls|
    ensures SameAnswers(s, FailStep(s, c), id)
  {
  }

  lemma TimerKeepsAnswers(s: Coordinator, timer: nat, id: Id)
    requires timer in s.timers
    ensures SameAnswers(s, TimerStep(s, timer), id)
  {
  }

  lemma ToggleRecords(s: Coordinator, i: Id, n: nat, option: string, nonce: Option<Nonce>, id: Id, index: nat)
    ensures var given := Gives(s, ToggleAnswer(i, n, option, nonce), id, index);
            RecordedFor(ToggleStep(s, i, n, option, nonce), id, index) == if given.Some? then given.value else RecordedFor(s, id, index)
  {
    hide IsDuplicate, AnswerRecorded, Toggle;
    if i in s.approvals && n < |s.approvals[i].view.questions| {
      AnswerKeeps(s, i, Answered(Select(s.approvals[i], n, [option]), n, [option]), nonce);
    }
  }

  lemma SubmitAnswersRecords(s: Coordinator, i: Id, n: nat, nonce: Option<Nonce>, id: Id, index: nat)
    ensures var given := Gives(s, SubmitAnswers(i, n, nonce), id, index);
            RecordedFor(SubmitAnswersStep(s, i, n, nonce), id, index) == if given.Some? then given.value else RecordedFor(s, id, index)
  {
    hide AnswerRecorded;
    if i in s.approvals && n < |s.approvals[i].view.questions| {
      AnswerKeeps(s, i, Answered(s.approvals[i], n, s.approvals[i].view.questions[n].selected), nonce);
    }
  }

  lemma CustomRecords(s: Coordinator, i: Id, n: nat, text: string, nonce: Option<Nonce>, id: Id, index: nat)
    ensures var given := Gives(s, AnswerCustom(i, n, text, nonce), id, index);
            RecordedFor(CustomStep(s, i, n, text, nonce), id, index) == if given.Some? then given.value else RecordedFor(s, id, index)
  {
    hide AnswerRecorded;
    if i in s.approvals && n < |s.approvals[i].view.questions| {
      AnswerKeeps(s, i, Answered(Select(s.approvals[i], n, [text]), n, [text]), nonce);
    }
  }

  /** Each question holds the last answer given to it, and nothing else touches it. */
  lemma StepRecords(s: Coordinator, e: Event, id: Id, index: nat)
    requires Enabled(s, e)
    ensures RecordedFor(Step(s, e), id, index)
            == if Gives(s, e, id, index).Some? then Gives(s, e, id, index).value else RecordedFor(s, id, index)
  {
    if AnswerClick(e).None? {
      OtherEventsKeepAnswers(s, e, id);
      hide Step;
    } else {
      match e
      case ToggleAnswer(i, n, option, nonce) => ToggleRecords(s, i, n, option, nonce, id, index);
      case SubmitAnswers(i, n, nonce) => SubmitAnswersRecords(s, i, n, nonce, id, index);
      case AnswerCustom(i, n, text, nonce) => CustomRecords(s, i, n, text, nonce, id, index);
      hide ToggleStep, SubmitAnswersStep, CustomStep, Gives, RecordedFor;
    }
  }

  /** The last answer given to a question in a run. */
  function LastGiven(s: Coordinator, events: seq<Event>, id: Id, index: nat, before: seq<string>): seq<string>
    requires IsRun(s, events)
    decreases |events|
  {
    if events == [] then before
    else
      var given := Gives(s, events[0], id, index);
      LastGiven(Step(s, events[0]), events[1..], id, index, if given.Some? then given.value else before)
  }

  /** In every run a question holds the last answer given to it. */
  lemma {:induction false} RunRecords(s: Coordinator, events: seq<Event>, id: Id, index: nat)
    requires IsRun(s, events)
    ensures RecordedFor(After(s, events), id, index) == LastGiven(s, events, id, index, RecordedFor(s, id, index))
    decreases |events|
  {
    hide Step, Enabled, Gives, RecordedFor;
    if events != [] {
      StepRecords(s, events[0], id, index);
      RunRecords(Step(s, events[0]), events[1..], id, index);
    }
  }

  // ---- calls ----

  /** What an event of the user's sends for its request, when it sends anything. */
  ghost predicate SendsAnswers(s: Coordinator, t: Coordinator, id: Id, nonce: Option<Nonce>) {
    && id in t.approvals && t.approvals[id].state.Submitting? && t.approvals[id].timer.None?
    && !t.approvals[id].view.deliveryError
    && exists answers ::
         && t.calls == s.calls + [Call(id, nonce, Answers(answers), false, InFlight)]
         && |answers| == |t.approvals[id].view.questions|
         && forall i | 0 <= i < |answers| :: answers[i] == Recorded(t.approvals[id], i)
  }

  /** All questions of a request hold an answer, and there is one. */
  predicate Complete(t: Tracked) {
    t.view.questions != [] && forall i | 0 <= i < |t.view.questions| :: Recorded(t, i) != []
  }

  /** The event, its request, its question and its button. */
  function AnswerClick(e: Event): Option<(Id, nat, Option<Nonce>)> {
    match e
    case ToggleAnswer(id, index, _, nonce) => Some((id, index, nonce))
    case SubmitAnswers(id, index, nonce) => Some((id, index, nonce))
    case AnswerCustom(id, index, _, nonce) => Some((id, index, nonce))
    case _ => None
  }

  /** An answer goes on record; when none is missing then, and the button is fresh, exactly
      the answers on record are sent, one for each question, and otherwise nothing is. */
  lemma AnswersAreSentWhenComplete(s: Coordinator, e: Event)
    requires AnswerClick(e).Some?
    requires Gives(s, e, AnswerClick(e).value.0, AnswerClick(e).value.1).Some?
    ensures var (id, index, nonce) := AnswerClick(e).value;
            var t := Step(s, e);
            && id in t.approvals
            && if Complete(t.approvals[id]) && !IsDuplicate(s, id, nonce) then SendsAnswers(s, t, id, nonce)
               else t.calls == s.calls && t.approvals[id].state.Pending?
  {
    var (id, index, nonce) := AnswerClick(e).value;
    var t := s.approvals[id];
    match e
    case ToggleAnswer(_, _, option, _) => AnswerSends(s, id, Answered(Select(t, index, [option]), index, [option]), nonce);
    case SubmitAnswers(_, _, _) => AnswerSends(s, id, Answered(t, index, t.view.questions[index].selected), nonce);
    case AnswerCustom(_, _, text, _) => AnswerSends(s, id, Answered(Select(t, index, [text]), index, [text]), nonce);
    hide AnswerRecorded, IsDuplicate, Complete, SendsAnswers;
  }

  lemma CompleteAsAnswered(t: Tracked, u: Tracked)
    requires u.view.questions == t.view.questions && u.answers == t.answers
    ensures AllAnswered(t) == Complete(u)
    ensures forall i :: Recorded(u, i) == Recorded(t, i)
  {
    assert forall i :: Recorded(u, i) == Recorded(t, i);
    hide Recorded;
  }

  lemma AnswerSends(s: Coordinator, id: Id, t: Tracked, nonce: Option<Nonce>)
    requires t.state.Pending?
    ensures var r := AnswerRecorded(s, id, t, nonce);
            && id in r.approvals
            && if Complete(r.approvals[id]) && !IsDuplicate(s, id, nonce) then SendsAnswers(s, r, id, nonce)
               else r.calls == s.calls && r.approvals[id].state.Pending?
  {
    SendOutShape(s, id, t, nonce, Answers(AnswersOf(t)));
    hide IsDuplicate, SendOut;
    var r := AnswerRecorded(s, id, t, nonce);
    CompleteAsAnswered(t, r.approvals[id]);
    hide AllAnswered, Complete, Recorded;
    if AllAnswered(t) && !IsDuplicate(s, id, nonce) {
      assert r.calls == s.calls + [Call(id, nonce, Answers(AnswersOf(t)), false, InFlight)];
    }
  }

  /** A decision is sent exactly when the request is tracked and pending, the button is
      fresh, the decision is offered or declines or cancels, and feedback, if it is one
      that needs it, is given or was given before; and it is sent as it is. */
  lemma DecisionIsSentIff(s: Coordinator, id: Id, decision: Decision, text: string, nonce: Option<Nonce>)
    ensures var t := Step(s, Submit(id, decision, text, nonce));
            var needs := decision == DECLINE_WITH_FEEDBACK || decision == ACCEPT_WITH_FEEDBACK;
            if && id in s.approvals && s.approvals[id].state.Pending? && !IsDuplicate(s, id, nonce)
               && (decision in s.approvals[id].view.decisions || decision == DECLINE || decision == CANCEL)
               && (needs ==> text != "" || s.approvals[id].feedback != "")
            then
              && t.calls == s.calls + [Call(id, nonce, Decide(decision, if !needs then "" else if text != "" then text else s.approvals[id].feedback),
                                            false, InFlight)]
              && t.approvals[id].state.Submitting? && t.approvals[id].timer.None? && !t.approvals[id].view.deliveryError
            else t == s
  {
    hide IsDuplicate;
  }

  /** Feedback on a plan is kept for the decision that needs it, and uses its button up. */
  lemma FeedbackIsKept(s: Coordinator, id: Id, text: string, nonce: Option<Nonce>)
    ensures var t := Step(s, PlanFeedback(id, text, nonce));
            if && id in s.approvals && s.approvals[id].state.Pending? && s.approvals[id].kind.ToolKind?
               && s.approvals[id].view.exitsPlanMode && text != "" && !IsDuplicate(s, id, nonce)
            then
              && t.approvals == s.approvals[id := s.approvals[id].(feedback := text)]
              && (nonce.Some? ==> IsDuplicate(t, id, nonce)) && t.calls == s.calls && t.timers == s.timers
            else t == s
  {
  }

  // ---- what the buttons show ----

  /** A click on an option of a multiple choice takes it in or out, and leaves the order of
      the others. */
  lemma ToggleTurnsOne(s: Coordinator, id: Id, index: nat, option: string, nonce: Option<Nonce>)
    requires Asks(s, id, index) && s.approvals[id].view.questions[index].multiSelect
    requires option in s.approvals[id].view.questions[index].options && !IsDuplicate(s, id, nonce)
    ensures var t := Step(s, ToggleAnswer(id, index, option, nonce));
            && Asks(t, id, index) && t.calls == s.calls && (nonce.Some? ==> IsDuplicate(t, id, nonce))
            && var was := s.approvals[id].view.questions[index].selected;
               var now := t.approvals[id].view.questions[index].selected;
               && (option in now <==> option !in was)
               && Others(now, option) == Others(was, option)
  {
    var was := s.approvals[id].view.questions[index].selected;
    ToggleOne(was, option);
    hide Toggle, Removed, Others;
  }

  /** The labels but this one, in order. */
  function Others(labels: seq<string>, option: string): seq<string> {
    if labels == [] then []
    else Others(labels[..|labels| - 1], option) + if labels[|labels| - 1] == option then [] else [labels[|labels| - 1]]
  }

  lemma ToggleOne(selected: seq<string>, option: string)
    ensures var now := Toggle(selected, option);
            (option in now <==> option !in selected) && Others(now, option) == Others(selected, option)
  {
    if option in selected {
      RemovedIsOut(selected, option);
    } else {
      assert (selected + [option])[..|selected|] == selected;
    }
  }

  lemma {:induction false} RemovedIsOut(selected: seq<string>, option: string)
    ensures option !in Removed(selected, option) && Others(Removed(selected, option), option) == Others(selected, option)
  {
    if selected != [] {
      var rest, last := selected[..|selected| - 1], selected[|selected| - 1];
      RemovedIsOut(rest, option);
      if last != option {
        assert (Removed(rest, option) + [last])[..|Removed(rest, option)|] == Removed(rest, option);
      } else {
        assert Removed(selected, option) == Removed(rest, option);
      }
    }
  }

  /** A single answer is shown as the choice. */
  lemma AnswerIsShown(s: Coordinator, e: Event, id: Id, index: nat)
    requires Gives(s, e, id, index).Some?
    ensures var t := Step(s, e);
            && id in t.approvals && index < |t.approvals[id].view.questions|
            && t.approvals[id].view.questions[index].selected == Gives(s, e, id, index).value
  {
    hide AnswerRecorded, Toggle, IsDuplicate;
    var t := s.approvals[id];
    match e
    case ToggleAnswer(_, _, option, nonce) => AnswerKeeps(s, id, Answered(Select(t, index, [option]), index, [option]), nonce);
    case SubmitAnswers(_, _, nonce) => AnswerKeeps(s, id, Answered(t, index, t.view.questions[index].selected), nonce);
    case AnswerCustom(_, _, text, nonce) => AnswerKeeps(s, id, Answered(Select(t, index, [text]), index, [text]), nonce);
    case _ =>
  }

  /** A request delivered again is pending on a timer of its own, keeps what was recorded,
      and shows it; a new one begins with nothing recorded. */
  lemma RequestIsShown(s: Coordinator, id: Id, view: View)
    ensures var t := Step(s, Requested(id, view));
            && id in t.approvals && t.approvals[id].state.Pending? && t.approvals[id].timer == Some(s.minted)
            && s.minted in t.timers && t.timers[s.minted] == id
            && |t.approvals[id].view.questions| == |view.questions|
            && (id in s.approvals ==> t.approvals[id].answers == s.approvals[id].answers && t.approvals[id].feedback == s.approvals[id].feedback)
            && (id !in s.approvals ==> t.approvals[id] == Tracked(view.kind, Pending, view, Some(s.minted), map[], ""))
            && (forall i | 0 <= i < |view.questions| ::
                  t.approvals[id].view.questions[i].selected
                  == if id in s.approvals && view.kind.QuestionKind? && s.approvals[id].kind.QuestionKind? && i in s.approvals[id].answers
                     then s.approvals[id].answers[i] else view.questions[i].selected)
  {
  }

  // ---- what changes a status ----

  /** The status that the end of a call gives its request. */
  function Ended(call: Call, delivered: bool): Option<Status> {
    if delivered then (if call.expiry then None else Some(Resolved))
    else Some(if call.expiry then Failed else Pending)
  }

  /** The status of a tracked request stays what it was, or is this. */
  predicate Turns(s: Coordinator, t: Coordinator, id: Id, status: Option<Status>) {
    id in s.approvals && id in t.approvals && t.approvals[id].state == if status.Some? then status.value else s.approvals[id].state
  }

  /** A click changes a status only by sending. */
  predicate SendingTurns(s: Coordinator, t: Coordinator, id: Id) {
    Turns(s, t, id, if |t.calls| > |s.calls| && t.calls[|s.calls|].id == id then Some(Submitting) else None)
  }

  lemma AnswerTurns(s: Coordinator, i: Id, u: Tracked, nonce: Option<Nonce>, id: Id)
    requires id in s.approvals && i in s.approvals && u.state == s.approvals[i].state
    ensures SendingTurns(s, AnswerRecorded(s, i, u, nonce), id)
  {
    hide AllAnswered, AnswersOf, IsDuplicate;
  }

  lemma ToggleTurns(s: Coordinator, i: Id, n: nat, option: string, nonce: Option<Nonce>, id: Id)
    requires id in s.approvals
    ensures SendingTurns(s, ToggleStep(s, i, n, option, nonce), id)
  {
    hide IsDuplicate, AnswerRecorded, Toggle;
    if i in s.approvals && n < |s.approvals[i].view.questions| {
      AnswerTurns(s, i, Answered(Select(s.approvals[i], n, [option]), n, [option]), nonce, id);
    }
  }

  lemma SubmitAnswersTurns(s: Coordinator, i: Id, n: nat, nonce: Option<Nonce>, id: Id)
    requires id in s.approvals
    ensures SendingTurns(s, SubmitAnswersStep(s, i, n, nonce), id)
  {
    hide AnswerRecorded;
    if i in s.approvals && n < |s.approvals[i].view.questions| {
      AnswerTurns(s, i, Answered(s.approvals[i], n, s.approvals[i].view.questions[n].selected), nonce, id);
    }
  }

  lemma CustomTurns(s: Coordinator, i: Id, n: nat, text: string, nonce: Option<Nonce>, id: Id)
    requires id in s.approvals
    ensures SendingTurns(s, CustomStep(s, i, n, text, nonce), id)
  {
    hide AnswerRecorded;
    if i in s.approvals && n < |s.approvals[i].view.questions| {
      AnswerTurns(s, i, Answered(Select(s.approvals[i], n, [text]), n, [text]), nonce, id);
    }
  }

  lemma DecisionTurns(s: Coordinator, i: Id, decision: Decision, text: string, nonce: Option<Nonce>, id: Id)
    requires id in s.approvals
    ensures SendingTurns(s, SubmitStep(s, i, decision, text, nonce), id)
  {
    hide IsDuplicate, Offered, FeedbackText;
  }

  lemma FeedbackTurns(s: Coordinator, i: Id, text: string, nonce: Option<Nonce>, id: Id)
    requires id in s.approvals
    ensures SendingTurns(s, FeedbackStep(s, i, text, nonce), id)
  {
    hide IsDuplicate;
  }

  lemma TimerTurns(s: Coordinator, timer: nat, id: Id)
    requires TimerInv(s) && timer in s.timers && id in s.approvals
    ensures Turns(s, TimerStep(s, timer), id,
                  if s.approvals[id].timer == Some(timer) && s.approvals[id].state.Pending? then Some(Expired) else None)
  {
  }

  lemma SuccessTurns(s: Coordinator, c: nat, id: Id)
    requires c < |s.calls| && id in s.approvals
    ensures Turns(s, SucceedStep(s, c), id, if s.calls[c].id == id then Ended(s.calls[c], true) else None)
  {
  }

  lemma FailureTurns(s: Coordinator, c: nat, id: Id)
    requires c < |s.calls| && id in s.approvals
    ensures Turns(s, FailStep(s, c), id, if s.calls[c].id == id then Ended(s.calls[c], false) else None)
  {
  }

  /** Which events change the status of a tracked request, and to what: a resolution from
      elsewhere, another delivery, the end of the turn or its timer while it is pending, the
      end of a call, and a click that sends. */
  lemma StatusChangesOnlyBy(s: Coordinator, e: Event, id: Id)
    requires TimerInv(s) && Enabled(s, e) && id in s.approvals
    ensures var t := Step(s, e);
            match e
            case Requested(i, _) => Turns(s, t, id, if i == id then Some(Pending) else None)
            case ResolvedElsewhere(i) => Turns(s, t, id, if i == id then Some(Resolved) else None)
            case TurnEnded => Turns(s, t, id, if s.approvals[id].state.Pending? then Some(Expired) else None)
            case TimerFires(timer) =>
              Turns(s, t, id, if s.approvals[id].timer == Some(timer) && s.approvals[id].state.Pending? then Some(Expired) else None)
            case CallSucceeds(c) => Turns(s, t, id, if s.calls[c].id == id then Ended(s.calls[c], true) else None)
            case CallFails(c) => Turns(s, t, id, if s.calls[c].id == id then Ended(s.calls[c], false) else None)
            case _ => SendingTurns(s, t, id)
  {
    hide SubmitStep, ToggleStep, SubmitAnswersStep, CustomStep, FeedbackStep, TimerStep, SucceedStep, FailStep, TimerInv;
    match e
    case Submit(i, decision, text, nonce) => DecisionTurns(s, i, decision, text, nonce, id);
    case ToggleAnswer(i, n, option, nonce) => ToggleTurns(s, i, n, option, nonce, id);
    case SubmitAnswers(i, n, nonce) => SubmitAnswersTurns(s, i, n, nonce, id);
    case AnswerCustom(i, n, text, nonce) => CustomTurns(s, i, n, text, nonce, id);
    case PlanFeedback(i, text, nonce) => FeedbackTurns(s, i, text, nonce, id);
    case TimerFires(timer) => TimerTurns(s, timer, id);
    case CallSucceeds(c) => SuccessTurns(s, c, id);
    case CallFails(c) => FailureTurns(s, c, id);
    case _ =>
  }

  lemma AnswerInterruptsNothing(s: Coordinator, id: Id, t: Tracked, nonce: Option<Nonce>)
    ensures AnswerRecorded(s, id, t, nonce).interrupts == s.interrupts
  {
    SendOutShape(s, id, t, nonce, Answers(AnswersOf(t)));
    hide AllAnswered, AnswersOf, IsDuplicate, SendOut;
  }

  lemma ClickInterruptsNothing(s: Coordinator, e: Event)
    requires AnswerClick(e).Some?
    ensures Step(s, e).interrupts == s.interrupts
  {
    forall id, t, nonce
      ensures AnswerRecorded(s, id, t, nonce).interrupts == s.interrupts
    {
      AnswerInterruptsNothing(s, id, t, nonce);
    }
    hide AnswerRecorded, IsDuplicate, Toggle, Select, Answered, QuestionVerdict;
  }

  /** An expired request whose cancel fails interrupts the run; nothing else does. */
  lemma InterruptsIff(s: Coordinator, e: Event)
    requires Enabled(s, e)
    ensures Step(s, e).interrupts == s.interrupts +
            if e.CallFails? && s.calls[e.call].expiry && s.calls[e.call].id in s.approvals then 1 else 0
  {
    if AnswerClick(e).Some? {
      ClickInterruptsNothing(s, e);
    } else {
      hide IsDuplicate, Reapply, Offered, FeedbackText, WithoutTimer, OwnedByPending, Used, ToggleStep, SubmitAnswersStep, CustomStep;
    }
  }

  /** The view of a pending request follows what is delivered for it. */
  lemma ViewFollows(s: Coordinator, id: Id, view: View)
    ensures var t := Step(s, UpdateView(id, view));
            if id in s.approvals && s.approvals[id].state.Pending?
            then t.approvals == s.approvals[id := s.approvals[id].(view := view)] && t.calls == s.calls && t.timers == s.timers
            else t == s
  {
  }

  /** A button is used up exactly by a click that was taken in for later or by a call of it
      that was delivered. */
  lemma UsedUpIff(s: Coordinator, e: Event, id: Id, nonce: Nonce)
    requires Enabled(s, e) && !IsDuplicate(s, id, Some(nonce))
    ensures IsDuplicate(Step(s, e), id, Some(nonce)) <==>
            match e
            case ToggleAnswer(i, index, option, n) =>
              i == id && n == Some(nonce) && Asks(s, id, index) && option in s.approvals[id].view.questions[index].options
              && s.approvals[id].view.questions[index].multiSelect
            case PlanFeedback(i, text, n) =>
              i == id && n == Some(nonce) && text != "" && id in s.approvals && s.approvals[id].state.Pending?
              && s.approvals[id].kind.ToolKind? && s.approvals[id].view.exitsPlanMode
            case CallSucceeds(c) =>
              s.calls[c].id == id && s.calls[c].nonce == Some(nonce) && !s.calls[c].expiry && id in s.approvals
            case _ => false
  {
    hide AllAnswered, AnswersOf, Toggle, Reapply;
  }
}
