/** While requests are delivered only as long as all their calls were refused: one
    responder call in flight for each request, one success at most, and a failed
    delivery that can be tried again. */
module ApprovalDelivery {
  import opened Texts
  import opened Approvals
  import opened ApprovalLaws

  /** The user could send this payload again, were the request pending. */
  predicate CanSend(t: Tracked, payload: Payload) {
    match payload
    case Decide(decision, text) => Offered(t, decision) && (IsFeedback(decision) <==> text != "")
    case Answers(answers) => t.kind.QuestionKind? && AllAnswered(t) && answers == AnswersOf(t)
  }

  /** A call for a request goes out only after all earlier ones were refused. */
  ghost predicate OneAtATime(s: Coordinator) {
    && (forall i, j | 0 <= i < j < |s.calls| && s.calls[i].id == s.calls[j].id :: s.calls[i].progress.Refused?)
    && (forall c | 0 <= c < |s.calls| && s.calls[c].id in s.approvals && s.approvals[s.calls[c].id].state.Pending? ::
          s.calls[c].progress.Refused?)
  }

  ghost predicate TimersPending(s: Coordinator) {
    forall t | t in s.timers && s.timers[t] in s.approvals :: s.approvals[s.timers[t]].state.Pending?
  }

  /** What is in flight for the user could go out again. */
  ghost predicate Repeatable(s: Coordinator) {
    forall c | 0 <= c < |s.calls| && s.calls[c].progress.InFlight? && !s.calls[c].expiry && s.calls[c].id in s.approvals ::
      !IsDuplicate(s, s.calls[c].id, s.calls[c].nonce) && CanSend(s.approvals[s.calls[c].id], s.calls[c].payload)
  }

  ghost predicate Lone(s: Coordinator) {
    OneAtATime(s) && TimersPending(s) && Repeatable(s)
  }

  /** Changing a pending request touches no call in flight. */
  lemma PutLone(s: Coordinator, id: Id, t: Tracked)
    requires Inv(s) && Lone(s) && id in s.approvals && s.approvals[id].state.Pending? && t.state.Pending?
    ensures Lone(Put(s, id, t))
  {
    hide CanSend, NonceInv, TimersDistinct, PendingTimed;
    var r := Put(s, id, t);
    assert forall a, n :: IsDuplicate(r, a, n) == IsDuplicate(s, a, n);
  }

  lemma ConsumeLone(s: Coordinator, id: Id, nonce: Option<Nonce>)
    requires Inv(s) && Lone(s) && id in s.approvals && s.approvals[id].state.Pending?
    ensures Lone(Consume(s, id, nonce))
  {
    hide CanSend, NonceInv, TimersDistinct, PendingTimed;
    var r := Consume(s, id, nonce);
    assert forall a, n | a != id :: IsDuplicate(r, a, n) == IsDuplicate(s, a, n);
  }

  /** Stopping a request's timer as it stops pending, its view unchanged. */
  lemma DisarmedLone(s: Coordinator, id: Id, state: Status)
    requires Inv(s) && Lone(s) && id in s.approvals && !state.Pending?
    ensures Lone(Disarmed(s, id, s.approvals[id].(state := state)))
  {
    hide NonceInv, TimersDistinct, PendingTimed, AllAnswered, AnswersOf;
    var r := Disarmed(s, id, s.approvals[id].(state := state));
    assert forall a, n :: IsDuplicate(r, a, n) == IsDuplicate(s, a, n);
    forall c | 0 <= c < |s.calls| && s.calls[c].id == id && CanSend(s.approvals[id], s.calls[c].payload)
      ensures CanSend(r.approvals[id], s.calls[c].payload)
    {
      SameViewCanSend(s.approvals[id], r.approvals[id], s.calls[c].payload);
    }
  }

  lemma SameViewCanSend(t: Tracked, u: Tracked, payload: Payload)
    requires CanSend(t, payload) && u.kind == t.kind && u.answers == t.answers
    requires u.view == t.view || u.view == t.view.(deliveryError := u.view.deliveryError)
    ensures CanSend(u, payload)
  {
    if payload.Answers? {
      assert forall i | 0 <= i < |t.view.questions| :: Recorded(t, i) == Recorded(u, i);
      assert AnswersOf(t) == AnswersOf(u);
    }
  }

  lemma SendOutLone(s: Coordinator, id: Id, t: Tracked, nonce: Option<Nonce>, payload: Payload)
    requires Inv(s) && Lone(s) && id in s.approvals && s.approvals[id].state.Pending?
    requires t.state.Pending? && t.timer == s.approvals[id].timer
    requires !IsDuplicate(s, id, nonce) && CanSend(t, payload)
    ensures Lone(SendOut(s, id, t, nonce, payload))
  {
    hide NonceInv, TimersDistinct, PendingTimed, CanSend;
    var r := SendOut(s, id, t, nonce, payload);
    assert forall a, n :: IsDuplicate(r, a, n) == IsDuplicate(s, a, n);
    SameViewCanSend(t, r.approvals[id], payload);
  }

  lemma AnswerLone(s: Coordinator, id: Id, t: Tracked, nonce: Option<Nonce>)
    requires Inv(s) && Lone(s) && id in s.approvals && s.approvals[id].state.Pending?
    requires t.kind.QuestionKind? && t.state.Pending? && t.timer == s.approvals[id].timer
    ensures Lone(AnswerRecorded(s, id, t, nonce))
  {
    hide Inv, Lone, SendOut;
    if AllAnswered(t) && !IsDuplicate(s, id, nonce) {
      SendOutLone(s, id, t, nonce, Answers(AnswersOf(t)));
    } else {
      PutLone(s, id, t);
    }
  }

  lemma RequestLone(s: Coordinator, id: Id, view: View)
    requires Inv(s) && Lone(s) && AllRefused(s, id)
    ensures Lone(RequestStep(s, id, view))
  {
    hide NonceInv, TimersDistinct, PendingTimed, CanSend;
    var r := RequestStep(s, id, view);
    assert forall a, n :: IsDuplicate(r, a, n) == IsDuplicate(s, a, n);
  }

  lemma TurnEndLone(s: Coordinator)
    requires Inv(s) && Lone(s)
    ensures Lone(TurnEndStep(s))
  {
    hide NonceInv, TimersDistinct, CanSend;
    var r := TurnEndStep(s);
    assert forall a, n :: IsDuplicate(r, a, n) == IsDuplicate(s, a, n);
    forall t | t in s.timers
      ensures OwnedByPending(s, t)
    {
      assert s.approvals[s.timers[t]].state.Pending? && s.approvals[s.timers[t]].timer == Some(t);
    }
    assert r.timers == map[];
  }

  lemma TimerLone(s: Coordinator, timer: nat)
    requires Inv(s) && Lone(s) && timer in s.timers
    ensures Lone(TimerStep(s, timer))
  {
    var id := s.timers[timer];
    assert s.approvals[id].state.Pending? && s.approvals[id].timer == Some(timer);
    DisarmedLone(s, id, Expired);
    var u := Disarmed(s, id, s.approvals[id].(state := Expired));
    assert Disarmed(s.(timers := s.timers - {timer}), id, s.approvals[id].(state := Expired)) == u by {
      assert s.timers - {timer} - {timer} == s.timers - {timer};
    }
    assert OneAtATime(s) && Lone(u) && u.calls == s.calls;
    assert u.approvals[id].state.Expired?;
    assert forall c | 0 <= c < |u.calls| && u.calls[c].id == id :: u.calls[c].progress.Refused?;
    hide Inv, Disarmed, CanSend;
    StartLone(u, id);
  }

  lemma StartLone(s: Coordinator, id: Id)
    requires Lone(s) && id in s.approvals && s.approvals[id].state.Expired?
    requires forall c | 0 <= c < |s.calls| && s.calls[c].id == id :: s.calls[c].progress.Refused?
    ensures Lone(StartCall(s, id, None, Decide(CANCEL, ""), true))
  {
    hide CanSend;
    var r := StartCall(s, id, None, Decide(CANCEL, ""), true);
    assert forall a, n :: IsDuplicate(r, a, n) == IsDuplicate(s, a, n);
  }

  /** The call that returns is the only one of its request not yet refused. */
  lemma OthersRefused(s: Coordinator, c: nat)
    requires OneAtATime(s) && c < |s.calls| && s.calls[c].progress.InFlight?
    ensures forall k | 0 <= k < |s.calls| && k != c && s.calls[k].id == s.calls[c].id :: s.calls[k].progress.Refused?
    ensures s.calls[c].id in s.approvals ==> !s.approvals[s.calls[c].id].state.Pending?
  {
  }

  /** A call ends and its request does not become pending. */
  lemma EndedLone(s: Coordinator, c: nat, r: Coordinator, progress: Progress, t: Tracked)
    requires Inv(s) && Lone(s) && c < |s.calls| && s.calls[c].progress.InFlight? && !progress.InFlight?
    requires r.calls == s.calls[c := s.calls[c].(progress := progress)] && r.timers == s.timers
    requires r.approvals == s.approvals[s.calls[c].id := t] && !t.state.Pending?
    requires forall a, n | a != s.calls[c].id :: IsDuplicate(r, a, n) == IsDuplicate(s, a, n)
    ensures Lone(r)
  {
    OthersRefused(s, c);
    hide NonceInv, TimersDistinct, PendingTimed, CanSend, IsDuplicate;
    assert s.calls[c].id in s.approvals;
    assert forall t | t in s.timers :: s.timers[t] != s.calls[c].id;
    hide TimersOwned;
    assert forall k | 0 <= k < |r.calls| && k != c :: r.calls[k] == s.calls[k];
  }

  lemma SucceedLone(s: Coordinator, c: nat)
    requires Inv(s) && Lone(s) && c < |s.calls| && s.calls[c].progress.InFlight?
    ensures Lone(SucceedStep(s, c))
  {
    OthersRefused(s, c);
    var id := s.calls[c].id;
    assert id in s.approvals;
    hide Inv, Lone;
    var r := SucceedStep(s, c);
    assert forall a, n | a != id :: IsDuplicate(r, a, n) == IsDuplicate(s, a, n);
    EndedLone(s, c, r, Delivered, if s.calls[c].expiry then s.approvals[id] else s.approvals[id].(state := Resolved));
  }

  lemma FailLone(s: Coordinator, c: nat)
    requires Inv(s) && Lone(s) && c < |s.calls| && s.calls[c].progress.InFlight?
    ensures Lone(FailStep(s, c))
  {
    OthersRefused(s, c);
    assert s.calls[c].id in s.approvals;
    var r := FailStep(s, c);
    assert forall a, n :: IsDuplicate(r, a, n) == IsDuplicate(s, a, n);
    hide Inv, Lone;
    if s.calls[c].expiry {
      EndedLone(s, c, r, Refused, s.approvals[s.calls[c].id].(state := Failed));
    } else {
      RefusedLone(s, c, r);
    }
  }

  /** A refused call leaves its request pending, with no other call out. */
  lemma RefusedLone(s: Coordinator, c: nat, r: Coordinator)
    requires Inv(s) && Lone(s) && c < |s.calls| && s.calls[c].progress.InFlight? && s.calls[c].id in s.approvals
    requires r.calls == s.calls[c := s.calls[c].(progress := Refused)]
    requires var t := s.approvals[s.calls[c].id];
             var u := Armed(s, s.calls[c].id, t.(state := Pending, view := t.view.(deliveryError := true)));
             r.approvals == u.approvals && r.timers == u.timers
    requires forall a, n :: IsDuplicate(r, a, n) == IsDuplicate(s, a, n)
    ensures Lone(r)
  {
    OthersRefused(s, c);
    hide NonceInv, TimersDistinct, PendingTimed, CanSend, IsDuplicate, TimersOwned;
    assert forall k | 0 <= k < |r.calls| && k != c :: r.calls[k] == s.calls[k];
  }

  lemma StepKeepsLone(s: Coordinator, e: Event)
    requires Inv(s) && Lone(s) && Enabled(s, e)
    requires e.Requested? ==> AllRefused(s, e.id)
    ensures Lone(Step(s, e))
  {
    hide Inv, Lone, Put, Consume, SendOut, AnswerRecorded, SucceedStep, FailStep, TimerStep, TurnEndStep, RequestStep, Disarmed, CanSend;
    match e
    case Requested(id, view) => RequestLone(s, id, view);
    case ResolvedElsewhere(id) =>
      if id in s.approvals {
        DisarmedLone(s, id, Resolved);
      }
    case TurnEnded => TurnEndLone(s);
    case Submit(id, decision, text, nonce) => SubmitLone(s, id, decision, text, nonce);
    case ToggleAnswer(id, index, option, nonce) => ToggleLone(s, id, index, option, nonce);
    case SubmitAnswers(id, index, nonce) =>
      if QuestionVerdict(s, id, index) == Accepted {
        AnswerLone(s, id, Answered(s.approvals[id], index, s.approvals[id].view.questions[index].selected), nonce);
      }
    case AnswerCustom(id, index, text, nonce) =>
      if QuestionVerdict(s, id, index) == Accepted {
        AnswerLone(s, id, Answered(Select(s.approvals[id], index, [text]), index, [text]), nonce);
      }
    case PlanFeedback(id, text, nonce) => FeedbackLone(s, id, text, nonce);
    case UpdateView(id, view) =>
      if id in s.approvals && s.approvals[id].state.Pending? {
        PutLone(s, id, s.approvals[id].(view := view));
      }
    case TimerFires(timer) => TimerLone(s, timer);
    case CallSucceeds(c) => SucceedLone(s, c);
    case CallFails(c) => FailLone(s, c);
  }

  lemma SubmitLone(s: Coordinator, id: Id, decision: Decision, text: string, nonce: Option<Nonce>)
    requires Inv(s) && Lone(s)
    ensures Lone(SubmitStep(s, id, decision, text, nonce))
  {
    hide Inv, Lone, SendOut;
    if SubmitVerdict(s, id, decision, text, nonce) == Accepted {
      var t := s.approvals[id];
      SendOutLone(s, id, t, nonce, Decide(decision, if IsFeedback(decision) then FeedbackText(t, text) else ""));
    }
  }

  lemma ConsumeAndPut(s: Coordinator, id: Id, t: Tracked, nonce: Option<Nonce>)
    requires Inv(s) && Lone(s) && id in s.approvals && s.approvals[id].state.Pending?
    requires t.state.Pending?
    ensures Lone(Put(Consume(s, id, nonce), id, t))
  {
    hide TimerInv, NonceInv, CallInv, Lone, Consume, Put;
    ConsumeLone(s, id, nonce);
    ConsumeTimer(s, id, nonce);
    ConsumeRecord(s, id, nonce);
    ConsumeFrame(s, id, nonce);
    PutLone(Consume(s, id, nonce), id, t);
  }

  lemma ToggleLone(s: Coordinator, id: Id, index: nat, option: string, nonce: Option<Nonce>)
    requires Inv(s) && Lone(s)
    ensures Lone(ToggleStep(s, id, index, option, nonce))
  {
    hide Inv, Lone, Put, Consume, AnswerRecorded;
    if QuestionVerdict(s, id, index) == Accepted {
      var t := s.approvals[id];
      ConsumeAndPut(s, id, Select(t, index, Toggle(t.view.questions[index].selected, option)), nonce);
      AnswerLone(s, id, Answered(Select(t, index, [option]), index, [option]), nonce);
    }
  }

  lemma FeedbackLone(s: Coordinator, id: Id, text: string, nonce: Option<Nonce>)
    requires Inv(s) && Lone(s)
    ensures Lone(FeedbackStep(s, id, text, nonce))
  {
    hide Inv, Lone, Put, Consume;
    if FeedbackVerdict(s, id, text, nonce) == Accepted {
      ConsumeAndPut(s, id, s.approvals[id].(feedback := text), nonce);
    }
  }

  lemma {:induction false} RunKeepsLone(s: Coordinator, events: seq<Event>)
    requires Inv(s) && Lone(s) && IsRun(s, events) && Orderly(s, events)
    ensures Inv(After(s, events)) && Lone(After(s, events))
    decreases |events|
  {
    hide Inv, Lone, Step, Enabled;
    if events != [] {
      StepKeepsInv(s, events[0]);
      StepKeepsLone(s, events[0]);
      RunKeepsLone(Step(s, events[0]), events[1..]);
    }
  }

  /** Of the calls ever made for a request at most one is in flight or was delivered. */
  predicate Single(s: Coordinator, id: Id) {
    forall i, j | 0 <= i < |s.calls| && 0 <= j < |s.calls| && i != j && s.calls[i].id == id == s.calls[j].id ::
      s.calls[i].progress.Refused? || s.calls[j].progress.Refused?
  }

  /** In every run whose deliveries and redeliveries find all calls of the request
      refused: at most one call of each request is in flight or was delivered, and the
      requests with a live timer are exactly the pending ones. */
  lemma SingleDelivery(events: seq<Event>)
    requires IsRun(NEW, events) && Orderly(NEW, events)
    ensures var s := After(NEW, events);
            && (forall id :: Single(s, id))
            && (forall id | id in s.approvals :: s.approvals[id].state.Pending? <==> LiveFor(s, id))
  {
    assert Inv(NEW) && Lone(NEW);
    RunKeepsLone(NEW, events);
    var s := After(NEW, events);
    forall id
      ensures Single(s, id)
    {
      OneAtATimeIsSingle(s, id);
    }
  }

  lemma OneAtATimeIsSingle(s: Coordinator, id: Id)
    requires OneAtATime(s)
    ensures Single(s, id)
  {
    forall i, j | 0 <= i < |s.calls| && 0 <= j < |s.calls| && i != j && s.calls[i].id == id == s.calls[j].id
      ensures s.calls[i].progress.Refused? || s.calls[j].progress.Refused?
    {
      var first := if i < j then i else j;
      assert s.calls[first].progress.Refused?;
    }
  }

  /** The user's click, made again with what it sent. */
  function Again(call: Call): Event
    requires call.payload.Decide?
  {
    Submit(call.id, call.payload.decision, call.payload.text, call.nonce)
  }

  /** A delivery that fails leaves its request pending, on a new timer, and the same
      click is accepted again and sends the same. */
  lemma FailedDeliveryIsRetryable(s: Coordinator, c: nat)
    requires Inv(s) && Lone(s) && Enabled(s, CallFails(c)) && !s.calls[c].expiry
    ensures var t := Step(s, CallFails(c));
            var call := s.calls[c];
            && call.id in t.approvals && t.approvals[call.id].state.Pending? && LiveFor(t, call.id)
            && t.approvals[call.id].view.deliveryError
            && CanSend(t.approvals[call.id], call.payload) && !IsDuplicate(t, call.id, call.nonce)
            && (call.payload.Decide? ==>
                  && SubmitVerdict(t, call.id, call.payload.decision, call.payload.text, call.nonce) == Accepted
                  && Step(t, Again(call)).calls == t.calls + [call])
  {
    var id := s.calls[c].id;
    assert id in s.approvals;
    var t := Step(s, CallFails(c));
    assert !IsDuplicate(s, id, s.calls[c].nonce) && CanSend(s.approvals[id], s.calls[c].payload);
    assert IsDuplicate(t, id, s.calls[c].nonce) == IsDuplicate(s, id, s.calls[c].nonce);
    SameViewCanSend(s.approvals[id], t.approvals[id], s.calls[c].payload);
  }

  /** The click that completed the answers, made again: it records what is recorded. */
  predicate RepeatsAnswer(t: Tracked, e: Event, call: Call) {
    match e
    case ToggleAnswer(id, index, option, nonce) =>
      && id == call.id && nonce == call.nonce && index < |t.view.questions|
      && !t.view.questions[index].multiSelect && option in t.view.questions[index].options && Recorded(t, index) == [option]
    case SubmitAnswers(id, index, nonce) =>
      && id == call.id && nonce == call.nonce && index < |t.view.questions|
      && t.view.questions[index].multiSelect && t.view.questions[index].selected != []
      && Recorded(t, index) == t.view.questions[index].selected
    case AnswerCustom(id, index, text, nonce) =>
      && id == call.id && nonce == call.nonce && index < |t.view.questions|
      && !t.view.questions[index].multiSelect && text != "" && Recorded(t, index) == [text]
    case _ => false
  }

  lemma SameAnswersAgain(t: Tracked, index: nat, values: seq<string>, u: Tracked)
    requires index < |t.view.questions| && AllAnswered(t) && Recorded(t, index) == values
    requires u == Answered(t, index, values) || u == Answered(Select(t, index, values), index, values)
    ensures AllAnswered(u) && AnswersOf(u) == AnswersOf(t)
  {
    assert forall i | 0 <= i < |t.view.questions| :: Recorded(u, i) == Recorded(t, i);
  }

  lemma RecordedAgain(s: Coordinator, id: Id, index: nat, values: seq<string>, u: Tracked, nonce: Option<Nonce>)
    requires id in s.approvals && index < |s.approvals[id].view.questions| && AllAnswered(s.approvals[id])
    requires Recorded(s.approvals[id], index) == values && !IsDuplicate(s, id, nonce)
    requires var t := s.approvals[id]; u == Answered(t, index, values) || u == Answered(Select(t, index, values), index, values)
    ensures AnswerRecorded(s, id, u, nonce).calls == s.calls + [Call(id, nonce, Answers(AnswersOf(s.approvals[id])), false, InFlight)]
  {
    SameAnswersAgain(s.approvals[id], index, values, u);
    hide AllAnswered, AnswersOf;
  }

  /** A pending question whose answers are all recorded sends them at any such click. */
  lemma ClickSendsAnswers(s: Coordinator, e: Event, call: Call)
    requires call.id in s.approvals && s.approvals[call.id].state.Pending? && CanSend(s.approvals[call.id], call.payload)
    requires call.payload.Answers? && !call.expiry && call.progress.InFlight? && !IsDuplicate(s, call.id, call.nonce)
    requires RepeatsAnswer(s.approvals[call.id], e, call)
    ensures Enabled(s, e) && Step(s, e).calls == s.calls + [call]
  {
    hide AnswerRecorded, AllAnswered, AnswersOf, Consume;
    var t := s.approvals[call.id];
    assert call == Call(call.id, call.nonce, Answers(AnswersOf(t)), false, InFlight);
    match e
    case ToggleAnswer(id, index, option, nonce) =>
      RecordedAgain(s, id, index, [option], Answered(Select(t, index, [option]), index, [option]), nonce);
    case SubmitAnswers(id, index, nonce) =>
      RecordedAgain(s, id, index, t.view.questions[index].selected, Answered(t, index, t.view.questions[index].selected), nonce);
    case AnswerCustom(id, index, text, nonce) =>
      RecordedAgain(s, id, index, [text], Answered(Select(t, index, [text]), index, [text]), nonce);
    case _ =>
  }

  /** A question whose answers were refused sends them again at any click that repeats a
      recorded answer. */
  lemma FailedAnswersAreRetryable(s: Coordinator, c: nat, e: Event)
    requires Inv(s) && Lone(s) && Enabled(s, CallFails(c)) && !s.calls[c].expiry && s.calls[c].payload.Answers?
    requires s.calls[c].id in s.approvals && RepeatsAnswer(s.approvals[s.calls[c].id], e, s.calls[c])
    ensures Enabled(Step(s, CallFails(c)), e)
    ensures Step(Step(s, CallFails(c)), e).calls == Step(s, CallFails(c)).calls + [s.calls[c]]
  {
    FailedDeliveryIsRetryable(s, c);
    var t := Step(s, CallFails(c));
    assert RepeatsAnswer(t.approvals[s.calls[c].id], e, s.calls[c]) by {
      var was, now := s.approvals[s.calls[c].id], t.approvals[s.calls[c].id];
      assert now.view.questions == was.view.questions && now.answers == was.answers;
    }
    hide Inv, Lone, Step, Enabled, RepeatsAnswer, CanSend, IsDuplicate;
    ClickSendsAnswers(t, e, s.calls[c]);
  }

  /** Whatever the user does or omits, a pending request ends: its timer is live, and
      when it fires the request has expired and its cancel is on its way. */
  lemma PendingAlwaysEnds(s: Coordinator, id: Id)
    requires Inv(s) && id in s.approvals && s.approvals[id].state.Pending?
    ensures var timer := s.approvals[id].timer;
            && timer.Some? && Enabled(s, TimerFires(timer.value))
            && var t := Step(s, TimerFires(timer.value));
               && t.approvals[id].state.Expired? && !LiveFor(t, id)
               && t.calls == s.calls + [Call(id, None, Decide(CANCEL, ""), true, InFlight)]
  {
    assert LiveFor(s, id);
  }
}
