/** The coordinator with its tracked requests, one object each, updated in place. Each
    method is one stretch of the source between two awaits and makes exactly one
    step of the machine in `Approvals`. */
module ApprovalCoordinator {
  import opened Texts
  import opened Approvals
  import opened ApprovalLaws

  class TrackedApproval {
    const requestId: Id
    const kind: Kind
    var state: Status
    var view: View
    var timeoutTimer: Option<nat>
    var answers: map<nat, seq<string>>
    var feedback: string

    constructor (requestId: Id, view: View)
      ensures this.requestId == requestId && Value() == Tracked(view.kind, Pending, view, None, map[], "")
    {
      this.requestId, kind := requestId, view.kind;
      state, this.view, timeoutTimer, answers, feedback := Pending, view, None, map[], "";
    }

    function Value(): Tracked
      reads this
    {
      Tracked(kind, state, view, timeoutTimer, answers, feedback)
    }

    /** Replace the choice of one question of the view. */
    method SelectOptions(index: nat, selected: seq<string>)
      requires index < |view.questions|
      modifies this
      ensures Value() == Select(old(Value()), index, selected)
    {
      var question := view.questions[index].(selected := selected);
      view := view.(questions := view.questions[index := question]);
    }

    method RecordAnswer(index: nat, values: seq<string>)
      modifies this
      ensures Value() == Answered(old(Value()), index, values)
    {
      answers := answers[index := values];
    }

    method AllQuestionsAnswered() returns (all: bool)
      ensures all <==> AllAnswered(Value())
    {
      if |view.questions| == 0 {
        return false;
      }
      for i := 0 to |view.questions|
        invariant forall j | 0 <= j < i :: Recorded(Value(), j) != []
      {
        if i !in answers || |answers[i]| == 0 {
          assert Recorded(Value(), i) == [];
          return false;
        }
      }
      return true;
    }

    method CollectAnswers() returns (collected: seq<seq<string>>)
      ensures collected == AnswersOf(Value())
    {
      collected := [];
      for i := 0 to |view.questions|
        invariant |collected| == i && forall j | 0 <= j < i :: collected[j] == Recorded(Value(), j)
      {
        collected := collected + [if i in answers then answers[i] else []];
      }
    }
  }

  class Coordinator {
    var approvals: map<Id, TrackedApproval>
    var submittedNonces: map<Id, set<Nonce>>
    var userCancelled: bool
    var timers: map<nat, Id>        // the runtime's live timers
    var nextTimer: nat
    ghost var s: Approvals.Coordinator

    /** The objects are the machine's requests, each request with its own object. */
    ghost predicate Mirrors()
      reads this, approvals.Values
    {
      && approvals.Keys == s.approvals.Keys
      && (forall id | id in approvals :: approvals[id].requestId == id && approvals[id].Value() == s.approvals[id])
      && submittedNonces == s.consumed && userCancelled == s.userCancelled
      && timers == s.timers && nextTimer == s.minted
    }

    ghost predicate Valid()
      reads this, approvals.Values
    {
      Mirrors() && Inv(s)
    }

    constructor ()
      ensures Valid() && s == NEW
    {
      approvals, submittedNonces, userCancelled, timers, nextTimer := map[], map[], false, map[], 0;
      s := NEW;
    }

    /** Only the request `id` changed, and the machine in the same way. */
    twostate lemma OneChanged(id: Id)
      requires old(Mirrors()) && approvals == old(approvals) && id in approvals
      requires forall a | a in approvals && a != id :: unchanged(approvals[a])
      requires s.approvals == old(s.approvals)[id := approvals[id].Value()]
      requires submittedNonces == s.consumed && userCancelled == s.userCancelled
      requires timers == s.timers && nextTimer == s.minted
      ensures Mirrors()
    {
    }

    method ClearTimer(tracked: TrackedApproval)
      modifies this`timers, tracked`timeoutTimer
      ensures tracked.timeoutTimer == None && timers == WithoutTimer(old(timers), old(tracked.timeoutTimer))
    {
      if tracked.timeoutTimer.Some? {
        timers := timers - {tracked.timeoutTimer.value};
        tracked.timeoutTimer := None;
      }
    }

    method ArmTimeout(tracked: TrackedApproval)
      modifies this`timers, this`nextTimer, tracked`timeoutTimer
      ensures tracked.timeoutTimer == Some(old(nextTimer)) && nextTimer == old(nextTimer) + 1
      ensures timers == WithoutTimer(old(timers), old(tracked.timeoutTimer))[old(nextTimer) := tracked.requestId]
    {
      ClearTimer(tracked);
      tracked.timeoutTimer := Some(nextTimer);
      timers := timers[nextTimer := tracked.requestId];
      nextTimer := nextTimer + 1;
    }

    /** A request delivered again is pending again, shows the answers recorded so
        far and gets a new timer. */
    method Redeliver(id: Id, view: View)
      requires Mirrors() && id in approvals
      modifies this, approvals[id]
      ensures Mirrors() && s == RequestStep(old(s), id, view)
    {
      hide Reapply;
      var existing := approvals[id];
      existing.view := Reapply(existing.Value(), view);
      existing.state := Pending;
      ArmTimeout(existing);
      s := RequestStep(s, id, view);
      OneChanged(id);
    }

    method Track(id: Id, view: View)
      requires Mirrors() && id !in approvals
      modifies this
      ensures Mirrors() && s == RequestStep(old(s), id, view)
    {
      var tracked := new TrackedApproval(id, view);
      ArmTimeout(tracked);
      approvals := approvals[id := tracked];
      s := RequestStep(s, id, view);
    }

    method OnRequested(id: Id, view: View)
      requires Valid()
      modifies this, approvals.Values
      ensures Valid() && s == Step(old(s), Requested(id, view))
    {
      StepKeepsInv(s, Requested(id, view));
      assert Step(s, Requested(id, view)) == RequestStep(s, id, view);
      hide Inv, Step, RequestStep;
      if id in approvals {
        Redeliver(id, view);
      } else {
        Track(id, view);
      }
    }

    method OnResolved(id: Id)
      requires Valid()
      modifies this, approvals.Values
      ensures Valid() && s == Step(old(s), ResolvedElsewhere(id))
    {
      StepKeepsInv(s, ResolvedElsewhere(id));
      hide Inv;
      if id !in approvals {
        return;
      }
      var tracked := approvals[id];
      tracked.state := Resolved;
      ClearTimer(tracked);
      s := ResolveStep(s, id);
      OneChanged(id);
    }

    method AssertFreshNonce(id: Id, nonce: Option<Nonce>) returns (ok: bool)
      requires submittedNonces == s.consumed
      ensures ok <==> !IsDuplicate(s, id, nonce)
    {
      ok := nonce.None? || id !in submittedNonces || nonce.value !in submittedNonces[id];
    }

    method ConsumeNonce(id: Id, nonce: Option<Nonce>)
      requires Mirrors()
      modifies this`submittedNonces, this`s
      ensures Mirrors() && s == Consume(old(s), id, nonce)
    {
      if nonce.None? {
        return;
      }
      var seen := if id in submittedNonces then submittedNonces[id] else {};
      submittedNonces := submittedNonces[id := seen + {nonce.value}];
      s := Consume(s, id, nonce);
    }

    /** The request leaves `pending` and its payload goes to the responder; the call
        is now in flight. */
    method Send(tracked: TrackedApproval, nonce: Option<Nonce>, payload: Payload)
      requires Mirrors() && tracked.requestId in approvals && approvals[tracked.requestId] == tracked
      modifies this, tracked
      ensures Mirrors() && approvals == old(approvals)
      ensures s == SendOut(old(s), tracked.requestId, old(s).approvals[tracked.requestId], nonce, payload)
    {
      tracked.state := Submitting;
      ClearTimer(tracked);
      tracked.view := tracked.view.(deliveryError := false);
      s := SendOut(s, tracked.requestId, s.approvals[tracked.requestId], nonce, payload);
      OneChanged(tracked.requestId);
    }

    method Submit(id: Id, decision: Decision, text: string, nonce: Option<Nonce>) returns (verdict: Verdict)
      requires Valid()
      modifies this, approvals.Values
      ensures Valid() && s == Step(old(s), Event.Submit(id, decision, text, nonce))
      ensures verdict == SubmitVerdict(old(s), id, decision, text, nonce)
    {
      StepKeepsInv(s, Event.Submit(id, decision, text, nonce));
      hide Inv, SendOut;
      if id !in approvals {
        return NotFound;
      }
      var tracked := approvals[id];
      var ok := AssertFreshNonce(id, nonce);
      if !ok {
        return DuplicateNonce;
      }
      if tracked.state != Pending {
        return NotPending;
      }
      var safetyOverride := decision == DECLINE || decision == CANCEL;
      if decision !in tracked.view.decisions && !safetyOverride {
        return DecisionUnavailable;
      }
      var payload := Decide(decision, "");
      if decision == DECLINE_WITH_FEEDBACK || decision == ACCEPT_WITH_FEEDBACK {
        var feedback := if text != "" then text else tracked.feedback;
        if feedback == "" {
          return FeedbackMissing;
        }
        payload := Decide(decision, feedback);
      }
      Send(tracked, nonce, payload);
      return Accepted;
    }

    /** An answer has just been recorded: send them all once none is missing. */
    method RespondIfComplete(tracked: TrackedApproval, nonce: Option<Nonce>) returns (verdict: Verdict)
      requires Mirrors() && tracked.requestId in approvals && approvals[tracked.requestId] == tracked
      modifies this, tracked
      ensures Mirrors() && approvals == old(approvals)
      ensures verdict == AnswerVerdict(old(s), tracked.requestId, old(tracked.Value()), nonce)
      ensures s == AnswerRecorded(old(s), tracked.requestId, old(tracked.Value()), nonce)
    {
      hide SendOut, AllAnswered;
      assert Put(s, tracked.requestId, tracked.Value()) == s;
      var all := tracked.AllQuestionsAnswered();
      if !all {
        return Accepted;
      }
      var ok := AssertFreshNonce(tracked.requestId, nonce);
      if !ok {
        return DuplicateNonce;
      }
      var answers := tracked.CollectAnswers();
      Send(tracked, nonce, Answers(answers));
      return Accepted;
    }

    /** Record an answer, shown as chosen or not, and respond if it was the last. */
    method RecordAndRespond(id: Id, index: nat, values: seq<string>, shown: bool, nonce: Option<Nonce>) returns (verdict: Verdict)
      requires Mirrors() && id in approvals && index < |approvals[id].view.questions|
      modifies this, approvals[id]
      ensures Mirrors()
      ensures var was := old(s).approvals[id];
              var t := Answered(if shown then Select(was, index, values) else was, index, values);
              s == AnswerRecorded(old(s), id, t, nonce) && verdict == AnswerVerdict(old(s), id, t, nonce)
    {
      hide AnswerRecorded, AnswerVerdict, IsDuplicate;
      var tracked := approvals[id];
      if shown {
        tracked.SelectOptions(index, values);
      }
      tracked.RecordAnswer(index, values);
      s := Put(s, id, tracked.Value());
      OneChanged(id);
      PutThenAnswer(old(s), id, tracked.Value(), nonce);
      verdict := RespondIfComplete(tracked, nonce);
    }

    /** A multiple choice is toggled once for each button shown. */
    method ToggleOption(id: Id, index: nat, option: string, nonce: Option<Nonce>) returns (verdict: Verdict)
      requires Mirrors() && id in approvals && index < |approvals[id].view.questions|
      modifies this, approvals[id]
      ensures Mirrors()
      ensures verdict == if IsDuplicate(old(s), id, nonce) then DuplicateNonce else Accepted
      ensures s == if IsDuplicate(old(s), id, nonce) then old(s)
                   else var was := old(s).approvals[id];
                        Put(Consume(old(s), id, nonce), id, Select(was, index, Toggle(was.view.questions[index].selected, option)))
    {
      hide IsDuplicate, Toggle;
      var ok := AssertFreshNonce(id, nonce);
      if !ok {
        return DuplicateNonce;
      }
      ConsumeNonce(id, nonce);
      ConsumeFrame(old(s), id, nonce);
      hide Consume;
      label consumed:
      var tracked := approvals[id];
      tracked.SelectOptions(index, Toggle(tracked.view.questions[index].selected, option));
      s := Put(s, id, tracked.Value());
      OneChanged@consumed(id);
      return Accepted;
    }

    method ToggleAnswer(id: Id, index: nat, option: string, nonce: Option<Nonce>) returns (verdict: Verdict)
      requires Valid()
      modifies this, approvals.Values
      ensures Valid() && s == Step(old(s), Event.ToggleAnswer(id, index, option, nonce))
      ensures verdict == ToggleVerdict(old(s), id, index, option, nonce)
    {
      StepKeepsInv(s, Event.ToggleAnswer(id, index, option, nonce));
      assert Step(s, Event.ToggleAnswer(id, index, option, nonce)) == ToggleStep(s, id, index, option, nonce);
      hide Inv, Step, AnswerRecorded, AnswerVerdict, Consume, IsDuplicate, QuestionVerdict;
      verdict := GetPendingQuestionAt(id, index);
      if verdict != Accepted {
        return;
      }
      QuestionIsThere(s, id, index);
      var question := approvals[id].view.questions[index];
      if option !in question.options {
        return NoSuchOption;
      }
      if question.multiSelect {
        verdict := ToggleOption(id, index, option, nonce);
      } else {
        verdict := RecordAndRespond(id, index, [option], true, nonce);
      }
    }

    method SubmitAnswers(id: Id, index: nat, nonce: Option<Nonce>) returns (verdict: Verdict)
      requires Valid()
      modifies this, approvals.Values
      ensures Valid() && s == Step(old(s), Event.SubmitAnswers(id, index, nonce))
      ensures verdict == SubmitAnswersVerdict(old(s), id, index, nonce)
    {
      StepKeepsInv(s, Event.SubmitAnswers(id, index, nonce));
      assert Step(s, Event.SubmitAnswers(id, index, nonce)) == SubmitAnswersStep(s, id, index, nonce);
      hide Inv, Step, AnswerRecorded, AnswerVerdict, QuestionVerdict;
      verdict := GetPendingQuestionAt(id, index);
      if verdict != Accepted {
        return;
      }
      QuestionIsThere(s, id, index);
      var question := approvals[id].view.questions[index];
      if !question.multiSelect {
        return WrongSelection;
      }
      if question.selected == [] {
        return NothingSelected;
      }
      verdict := RecordAndRespond(id, index, question.selected, false, nonce);
    }

    method AnswerCustom(id: Id, index: nat, text: string, nonce: Option<Nonce>) returns (verdict: Verdict)
      requires Valid()
      modifies this, approvals.Values
      ensures Valid() && s == Step(old(s), Event.AnswerCustom(id, index, text, nonce))
      ensures verdict == CustomVerdict(old(s), id, index, text, nonce)
    {
      StepKeepsInv(s, Event.AnswerCustom(id, index, text, nonce));
      assert Step(s, Event.AnswerCustom(id, index, text, nonce)) == CustomStep(s, id, index, text, nonce);
      hide Inv, Step, AnswerRecorded, AnswerVerdict, QuestionVerdict;
      verdict := GetPendingQuestionAt(id, index);
      if verdict != Accepted {
        return;
      }
      QuestionIsThere(s, id, index);
      if approvals[id].view.questions[index].multiSelect {
        return WrongSelection;
      }
      if text == "" {
        return TextMissing;
      }
      verdict := RecordAndRespond(id, index, [text], true, nonce);
    }

    method PlanFeedback(id: Id, text: string, nonce: Option<Nonce>) returns (verdict: Verdict)
      requires Valid()
      modifies this, approvals.Values
      ensures Valid() && s == Step(old(s), Event.PlanFeedback(id, text, nonce))
      ensures verdict == FeedbackVerdict(old(s), id, text, nonce)
    {
      StepKeepsInv(s, Event.PlanFeedback(id, text, nonce));
      assert Step(s, Event.PlanFeedback(id, text, nonce)) == FeedbackStep(s, id, text, nonce);
      hide Inv, Step, Consume, IsDuplicate;
      if id !in approvals {
        return NotFound;
      }
      var tracked := approvals[id];
      if tracked.state != Pending {
        return NotPending;
      }
      if tracked.kind != ToolKind || !tracked.view.exitsPlanMode {
        return NotAPlan;
      }
      if text == "" {
        return FeedbackMissing;
      }
      var ok := AssertFreshNonce(id, nonce);
      if !ok {
        return DuplicateNonce;
      }
      RecordFeedback(tracked, text, nonce);
      return Accepted;
    }

    method RecordFeedback(tracked: TrackedApproval, text: string, nonce: Option<Nonce>)
      requires Mirrors() && tracked.requestId in approvals && approvals[tracked.requestId] == tracked
      modifies this, tracked
      ensures Mirrors()
      ensures var id := tracked.requestId;
              s == Put(Consume(old(s), id, nonce), id, old(s).approvals[id].(feedback := text))
    {
      var id := tracked.requestId;
      ConsumeNonce(id, nonce);
      ConsumeFrame(old(s), id, nonce);
      hide Consume;
      label consumed:
      tracked.feedback := text;
      s := Put(s, id, tracked.Value());
      OneChanged@consumed(id);
    }

    method GetPendingQuestionAt(id: Id, index: nat) returns (verdict: Verdict)
      requires Mirrors()
      ensures verdict == QuestionVerdict(s, id, index)
    {
      if id !in approvals {
        return NotFound;
      }
      var tracked := approvals[id];
      if tracked.kind != QuestionKind {
        return NotAQuestion;
      }
      if tracked.state != Pending {
        return NotPending;
      }
      if index >= |tracked.view.questions| {
        return NoSuchQuestion;
      }
      return Accepted;
    }

    /** A timer goes off, and the request it was armed for expires if it is pending. */
    method TimeoutFired(timer: nat)
      requires Valid() && timer in s.timers
      modifies this, approvals.Values
      ensures Valid() && s == Step(old(s), TimerFires(timer))
    {
      StepKeepsInv(s, TimerFires(timer));
      assert Step(s, TimerFires(timer)) == TimerStep(s, timer);
      hide Inv, Step, TimerStep;
      var id := timers[timer];
      if id !in approvals || approvals[id].state != Pending {
        ForgetTimer(timer);
      } else {
        ExpireApproval(timer, id);
      }
    }

    /** The request has moved on: only the timer is gone. */
    method ForgetTimer(timer: nat)
      requires Mirrors() && timer in timers
      requires timers[timer] !in approvals || approvals[timers[timer]].state != Pending
      modifies this
      ensures Mirrors() && s == TimerStep(old(s), timer) && approvals == old(approvals)
    {
      timers := timers - {timer};
      s := TimerStep(s, timer);
    }

    method ExpireApproval(timer: nat, id: Id)
      requires Mirrors() && timer in timers && timers[timer] == id && id in approvals && approvals[id].state == Pending
      modifies this, approvals[id]
      ensures Mirrors() && s == TimerStep(old(s), timer)
    {
      timers := timers - {timer};
      var tracked := approvals[id];
      tracked.state := Expired;
      ClearTimer(tracked);
      s := TimerStep(s, timer);
      OneChanged(id);
    }

    method MarkResolved(ghost c: nat, tracked: TrackedApproval, isCancel: bool)
      requires Mirrors() && tracked.requestId in approvals && approvals[tracked.requestId] == tracked && c < |s.calls|
      modifies this, tracked
      ensures Mirrors() && approvals == old(approvals)
      ensures var id := tracked.requestId;
              s == Put(EndCall(old(s), c, Delivered), id, old(s).approvals[id].(state := Resolved))
                     .(userCancelled := old(userCancelled) || isCancel)
    {
      ghost var id := tracked.requestId;
      tracked.state := Resolved;
      if isCancel {
        userCancelled := true;
      }
      s := Put(EndCall(s, c, Delivered), id, s.approvals[id].(state := Resolved)).(userCancelled := userCancelled);
      OneChanged(id);
    }

    /** The responder took a call of the user's; `tracked` is what the call captured. */
    method SubmissionDelivered(ghost c: nat, tracked: TrackedApproval, nonce: Option<Nonce>, isCancel: bool)
      requires Valid() && Enabled(s, CallSucceeds(c)) && !s.calls[c].expiry
      requires s.calls[c].id in approvals && approvals[s.calls[c].id] == tracked && s.calls[c].nonce == nonce
      requires isCancel <==> s.calls[c].payload.Decide? && s.calls[c].payload.decision == CANCEL
      modifies this, tracked
      ensures Valid() && s == Step(old(s), CallSucceeds(c))
    {
      StepKeepsInv(s, CallSucceeds(c));
      DeliveredViews(s, c);
      hide Inv, Step, Put, EndCall, Consume;
      MarkResolved(c, tracked, isCancel);
      ConsumeNonce(tracked.requestId, nonce);
    }

    method Rearm(ghost c: nat, tracked: TrackedApproval)
      requires Mirrors() && tracked.requestId in approvals && approvals[tracked.requestId] == tracked && c < |s.calls|
      modifies this, tracked
      ensures Mirrors()
      ensures var t := old(s).approvals[tracked.requestId];
              s == Armed(EndCall(old(s), c, Refused), tracked.requestId,
                         t.(state := Pending, view := t.view.(deliveryError := true)))
    {
      ghost var t := s.approvals[tracked.requestId];
      tracked.state := Pending;
      tracked.view := tracked.view.(deliveryError := true);
      ArmTimeout(tracked);
      s := Armed(EndCall(s, c, Refused), tracked.requestId, t.(state := Pending, view := t.view.(deliveryError := true)));
      OneChanged(tracked.requestId);
    }

    /** The responder refused it: the request is pending again, with the failure shown
        and a new timer. */
    method FailSubmission(ghost c: nat, tracked: TrackedApproval)
      requires Valid() && Enabled(s, CallFails(c)) && !s.calls[c].expiry
      requires s.calls[c].id in approvals && approvals[s.calls[c].id] == tracked
      modifies this, tracked
      ensures Valid() && s == Step(old(s), CallFails(c))
    {
      StepKeepsInv(s, CallFails(c));
      RefusedViews(s, c);
      hide Inv, Step, Armed, EndCall;
      Rearm(c, tracked);
    }

    method ExpireOne(id: Id)
      requires Mirrors() && id in approvals
      modifies this, approvals[id]
      ensures Mirrors() && approvals == old(approvals) && s == ExpireStep(old(s), id)
    {
      var tracked := approvals[id];
      if tracked.state == Pending {
        tracked.state := Expired;
        ClearTimer(tracked);
        s := ExpireStep(s, id);
        OneChanged(id);
      }
    }

    method ExpireAll()
      requires Mirrors()
      modifies this, approvals.Values
      ensures Mirrors() && s == ExpireSome(old(s), old(s).approvals.Keys)
    {
      ghost var was := s;
      var rest := approvals.Keys;
      ExpireNone(s);
      hide ExpireSome, ExpireStep;
      while rest != {}
        invariant approvals == old(approvals) && rest <= approvals.Keys && s.approvals.Keys == approvals.Keys
        invariant Mirrors() && s == ExpireSome(was, approvals.Keys - rest)
      {
        var id :| id in rest;
        ExpireSomeMore(was, approvals.Keys - rest, id);
        assert approvals.Keys - (rest - {id}) == approvals.Keys - rest + {id};
        ExpireOne(id);
        rest := rest - {id};
      }
      assert approvals.Keys - rest == approvals.Keys;
    }

    /** The turn is over: what is pending expires, in whatever order. */
    method OnTurnEnded()
      requires Valid()
      modifies this, approvals.Values
      ensures Valid() && s == Step(old(s), TurnEnded)
    {
      StepKeepsInv(s, TurnEnded);
      TurnEndIsExpireAll(s);
      hide Inv, Step, ExpireSome;
      ExpireAll();
    }
  }

  lemma DeliveredViews(s: Approvals.Coordinator, c: nat)
    requires Enabled(s, CallSucceeds(c)) && !s.calls[c].expiry && s.calls[c].id in s.approvals
    ensures var call := s.calls[c];
            var cancels := call.payload.Decide? && call.payload.decision == CANCEL;
            Step(s, CallSucceeds(c)) ==
            Consume(Put(EndCall(s, c, Delivered), call.id, s.approvals[call.id].(state := Resolved))
                      .(userCancelled := s.userCancelled || cancels), call.id, call.nonce)
  {
  }

  lemma RefusedViews(s: Approvals.Coordinator, c: nat)
    requires Enabled(s, CallFails(c)) && !s.calls[c].expiry && s.calls[c].id in s.approvals
    ensures var id := s.calls[c].id;
            var t := s.approvals[id];
            Step(s, CallFails(c)) ==
            Armed(EndCall(s, c, Refused), id, t.(state := Pending, view := t.view.(deliveryError := true)))
  {
  }

  lemma QuestionIsThere(s: Approvals.Coordinator, id: Id, index: nat)
    requires QuestionVerdict(s, id, index) == Accepted
    ensures id in s.approvals && index < |s.approvals[id].view.questions|
  {
  }

  lemma PutThenAnswer(s: Approvals.Coordinator, id: Id, t: Tracked, nonce: Option<Nonce>)
    requires id in s.approvals && t.timer == s.approvals[id].timer
    ensures AnswerRecorded(Put(s, id, t), id, t, nonce) == AnswerRecorded(s, id, t, nonce)
    ensures AnswerVerdict(Put(s, id, t), id, t, nonce) == AnswerVerdict(s, id, t, nonce)
  {
    hide AllAnswered;
    assert IsDuplicate(Put(s, id, t), id, nonce) == IsDuplicate(s, id, nonce);
    assert forall u: Tracked :: Put(Put(s, id, t), id, u) == Put(s, id, u) by {
      forall u: Tracked
        ensures Put(Put(s, id, t), id, u) == Put(s, id, u)
      {
        assert s.approvals[id := t][id := u] == s.approvals[id := u];
      }
    }
  }

  /** One request expires if it is pending. */
  function ExpireStep(s: Approvals.Coordinator, id: Id): Approvals.Coordinator
    requires id in s.approvals
  {
    if s.approvals[id].state.Pending? then Disarmed(s, id, s.approvals[id].(state := Expired)) else s
  }

  predicate OwnedBySome(s: Approvals.Coordinator, done: set<Id>, timer: nat) {
    exists id :: id in done && id in s.approvals && s.approvals[id].state.Pending? && s.approvals[id].timer == Some(timer)
  }

  function ExpireSome(s: Approvals.Coordinator, done: set<Id>): Approvals.Coordinator {
    s.(approvals := map id | id in s.approvals ::
         (if id in done && s.approvals[id].state.Pending? then s.approvals[id].(state := Expired, timer := None)
          else s.approvals[id]),
       timers := map t | t in s.timers && !OwnedBySome(s, done, t) :: s.timers[t])
  }

  lemma ExpireNone(s: Approvals.Coordinator)
    ensures ExpireSome(s, s.approvals.Keys - s.approvals.Keys) == s
  {
    var r := ExpireSome(s, s.approvals.Keys - s.approvals.Keys);
    assert forall t :: !OwnedBySome(s, s.approvals.Keys - s.approvals.Keys, t);
    assert r.approvals == s.approvals && r.timers == s.timers;
  }

  lemma TurnEndIsExpireAll(s: Approvals.Coordinator)
    ensures Step(s, TurnEnded) == ExpireSome(s, s.approvals.Keys)
  {
    var r := ExpireSome(s, s.approvals.Keys);
    assert forall t :: OwnedBySome(s, s.approvals.Keys, t) <==> OwnedByPending(s, t);
    assert r.timers == TurnEndStep(s).timers && r.approvals == TurnEndStep(s).approvals;
  }

  lemma OwnedByMore(s: Approvals.Coordinator, done: set<Id>, id: Id, t: nat)
    requires id in s.approvals
    ensures OwnedBySome(s, done + {id}, t) <==>
            OwnedBySome(s, done, t) || (s.approvals[id].state.Pending? && s.approvals[id].timer == Some(t))
  {
    if s.approvals[id].state.Pending? && s.approvals[id].timer == Some(t) {
      assert id in done + {id};
    }
    if a :| a in done && a in s.approvals && s.approvals[a].state.Pending? && s.approvals[a].timer == Some(t) {
      assert a in done + {id};
    }
  }

  lemma ExpireSomeMore(s: Approvals.Coordinator, done: set<Id>, id: Id)
    requires id in s.approvals && id !in done
    ensures id in ExpireSome(s, done).approvals
    ensures ExpireStep(ExpireSome(s, done), id) == ExpireSome(s, done + {id})
  {
    var part, more := ExpireSome(s, done), ExpireSome(s, done + {id});
    var r := ExpireStep(part, id);
    assert part.approvals[id] == s.approvals[id];
    forall t: nat
      ensures OwnedBySome(s, done + {id}, t) <==>
              OwnedBySome(s, done, t) || (s.approvals[id].state.Pending? && s.approvals[id].timer == Some(t))
    {
      OwnedByMore(s, done, id, t);
    }
    hide OwnedBySome;
    assert r.approvals == more.approvals;
    assert r.timers == more.timers;
  }
}
