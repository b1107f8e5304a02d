/** What every run of the approval coordinator keeps. */
module ApprovalLaws {
  import opened Texts
  import opened Approvals

  // ---- one live timer for each pending request ----

  predicate LiveFor(s: Coordinator, id: Id) {
    id in s.approvals && s.approvals[id].timer.Some?
    && s.approvals[id].timer.value in s.timers && s.timers[s.approvals[id].timer.value] == id
  }

  ghost predicate TimersOwned(s: Coordinator) {
    forall t | t in s.timers :: t < s.minted && s.timers[t] in s.approvals && s.approvals[s.timers[t]].timer == Some(t)
  }

  ghost predicate TimersDistinct(s: Coordinator) {
    && (forall id | id in s.approvals && s.approvals[id].timer.Some? :: s.approvals[id].timer.value < s.minted)
    && (forall a, b | a in s.approvals && b in s.approvals && a != b && s.approvals[a].timer.Some? ::
          s.approvals[a].timer != s.approvals[b].timer)
  }

  ghost predicate PendingTimed(s: Coordinator) {
    forall id | id in s.approvals && s.approvals[id].state.Pending? :: LiveFor(s, id)
  }

  /** A live timer is its request's own timer, and a pending request has one. */
  ghost predicate TimerInv(s: Coordinator) {
    TimersOwned(s) && TimersDistinct(s) && PendingTimed(s)
  }

  function TimerOf(s: Coordinator, id: Id): Option<nat> {
    if id in s.approvals then s.approvals[id].timer else None
  }

  lemma DisarmedTimer(s: Coordinator, id: Id, t: Tracked)
    requires TimerInv(s) && t.timer == TimerOf(s, id) && !t.state.Pending?
    ensures TimerInv(Disarmed(s, id, t))
  {
  }

  lemma FirstTimerPends(s: Coordinator, id: Id, t: Tracked)
    requires TimerInv(s) && t.timer == None == TimerOf(s, id)
    ensures PendingTimed(Armed(s, id, t))
  {
    hide TimersDistinct;
    var r := Armed(s, id, t);
    assert s.minted !in s.timers;
    hide TimersOwned;
    forall a | a in r.approvals && r.approvals[a].state.Pending?
      ensures LiveFor(r, a)
    {
      assert a != id ==> LiveFor(s, a);
    }
  }

  lemma FirstTimer(s: Coordinator, id: Id, t: Tracked)
    requires TimerInv(s) && t.timer == None == TimerOf(s, id)
    ensures TimerInv(Armed(s, id, t))
  {
    FirstTimerPends(s, id, t);
    hide PendingTimed;
    var r := Armed(s, id, t);
    assert TimersOwned(r) by {
      hide TimersDistinct;
      assert forall u | u in s.timers :: s.timers[u] != id;
    }
    assert TimersDistinct(r) by {
      hide TimersOwned;
    }
  }

  lemma ArmedTimer(s: Coordinator, id: Id, t: Tracked)
    requires TimerInv(s) && t.timer == TimerOf(s, id)
    ensures TimerInv(Armed(s, id, t))
  {
    hide TimerInv;
    var stopped := Disarmed(s, id, t.(state := Expired));
    DisarmedTimer(s, id, t.(state := Expired));
    FirstTimer(stopped, id, t.(timer := None));
    assert stopped.approvals[id := t.(timer := Some(s.minted))] == s.approvals[id := t.(timer := Some(s.minted))];
    assert Armed(stopped, id, t.(timer := None)) == Armed(s, id, t);
  }

  lemma PutTimer(s: Coordinator, id: Id, t: Tracked)
    requires TimerInv(s) && id in s.approvals && t.timer == s.approvals[id].timer
    requires t.state.Pending? ==> s.approvals[id].state.Pending?
    ensures TimerInv(Put(s, id, t))
  {
  }

  /** Only the approvals and the timers matter to it. */
  lemma TimerFrame(s: Coordinator, t: Coordinator)
    requires TimerInv(s) && t.approvals == s.approvals && t.timers == s.timers && t.minted == s.minted
    ensures TimerInv(t)
  {
  }

  lemma SendOutTimer(s: Coordinator, id: Id, t: Tracked, nonce: Option<Nonce>, payload: Payload)
    requires TimerInv(s) && id in s.approvals && t.timer == s.approvals[id].timer
    ensures TimerInv(SendOut(s, id, t, nonce, payload))
  {
    var sending := t.(state := Submitting, view := t.view.(deliveryError := false));
    DisarmedTimer(s, id, sending);
    TimerFrame(Disarmed(s, id, sending), SendOut(s, id, t, nonce, payload));
  }

  lemma AnswerTimer(s: Coordinator, id: Id, t: Tracked, nonce: Option<Nonce>)
    requires TimerInv(s) && id in s.approvals && t.timer == s.approvals[id].timer && t.state == s.approvals[id].state
    ensures TimerInv(AnswerRecorded(s, id, t, nonce))
  {
    hide TimerInv;
    SendOutTimer(s, id, t, nonce, Answers(AnswersOf(t)));
    PutTimer(s, id, t);
  }

  lemma ConsumeTimer(s: Coordinator, id: Id, nonce: Option<Nonce>)
    requires TimerInv(s)
    ensures TimerInv(Consume(s, id, nonce))
  {
  }

  lemma FireTimer(s: Coordinator, timer: nat)
    requires TimerInv(s) && timer in s.timers
    ensures TimerInv(TimerStep(s, timer))
  {
    var id := s.timers[timer];
    if s.approvals[id].state.Pending? {
      assert s.approvals[id].timer == Some(timer);
      hide TimerInv;
      var t := s.approvals[id].(state := Expired);
      DisarmedTimer(s, id, t);
      assert Disarmed(s.(timers := s.timers - {timer}), id, t) == Disarmed(s, id, t) by {
        assert s.timers - {timer} - {timer} == s.timers - {timer};
      }
      hide Disarmed;
      TimerFrame(Disarmed(s, id, t), TimerStep(s, timer));
    }
  }

  lemma TurnEndTimer(s: Coordinator)
    requires TimerInv(s)
    ensures TimerInv(TurnEndStep(s))
  {
    var r := TurnEndStep(s);
    forall t | t in r.timers
      ensures t < r.minted && r.timers[t] in r.approvals && r.approvals[r.timers[t]].timer == Some(t)
    {
      assert !OwnedByPending(s, t);
    }
  }

  lemma StepKeepsTimers(s: Coordinator, e: Event)
    requires TimerInv(s) && Enabled(s, e)
    ensures TimerInv(Step(s, e))
  {
    hide TimerInv, Armed, Disarmed, Put, Consume, SendOut, AnswerRecorded, TurnEndStep, TimerStep;
    match e
    case Requested(id, view) =>
      if id in s.approvals {
        ArmedTimer(s, id, s.approvals[id].(state := Pending, view := Reapply(s.approvals[id], view)));
      } else {
        ArmedTimer(s, id, Tracked(view.kind, Pending, view, None, map[], ""));
      }
    case ResolvedElsewhere(id) =>
      if id in s.approvals {
        DisarmedTimer(s, id, s.approvals[id].(state := Resolved));
      }
    case TurnEnded => TurnEndTimer(s);
    case Submit(id, decision, text, nonce) =>
      if SubmitVerdict(s, id, decision, text, nonce) == Accepted {
        var t := s.approvals[id];
        SendOutTimer(s, id, t, nonce, Decide(decision, if IsFeedback(decision) then FeedbackText(t, text) else ""));
      }
    case ToggleAnswer(id, index, option, nonce) => ToggleTimer(s, id, index, option, nonce);
    case SubmitAnswers(id, index, nonce) =>
      if QuestionVerdict(s, id, index) == Accepted {
        AnswerTimer(s, id, Answered(s.approvals[id], index, s.approvals[id].view.questions[index].selected), nonce);
      }
    case AnswerCustom(id, index, text, nonce) =>
      if QuestionVerdict(s, id, index) == Accepted {
        AnswerTimer(s, id, Answered(Select(s.approvals[id], index, [text]), index, [text]), nonce);
      }
    case PlanFeedback(id, text, nonce) =>
      if FeedbackVerdict(s, id, text, nonce) == Accepted {
        ConsumeTimer(s, id, nonce);
        ConsumeFrame(s, id, nonce);
        PutTimer(Consume(s, id, nonce), id, s.approvals[id].(feedback := text));
      }
    case UpdateView(id, view) =>
      if id in s.approvals && s.approvals[id].state.Pending? {
        PutTimer(s, id, s.approvals[id].(view := view));
      }
    case TimerFires(timer) => FireTimer(s, timer);
    case CallSucceeds(c) => SucceedTimer(s, c);
    case CallFails(c) => FailTimer(s, c);
  }

  lemma ConsumeFrame(s: Coordinator, id: Id, nonce: Option<Nonce>)
    ensures var r := Consume(s, id, nonce);
            r.approvals == s.approvals && r.timers == s.timers && r.minted == s.minted && r.calls == s.calls
            && r.userCancelled == s.userCancelled && r.interrupts == s.interrupts
  {
  }

  lemma ToggleTimer(s: Coordinator, id: Id, index: nat, option: string, nonce: Option<Nonce>)
    requires TimerInv(s)
    ensures TimerInv(ToggleStep(s, id, index, option, nonce))
  {
    hide TimerInv, Put, Consume, AnswerRecorded;
    if QuestionVerdict(s, id, index) == Accepted {
      var t := s.approvals[id];
      ConsumeTimer(s, id, nonce);
      ConsumeFrame(s, id, nonce);
      PutTimer(Consume(s, id, nonce), id, Select(t, index, Toggle(t.view.questions[index].selected, option)));
      AnswerTimer(s, id, Answered(Select(t, index, [option]), index, [option]), nonce);
    }
  }

  lemma SucceedTimer(s: Coordinator, c: nat)
    requires TimerInv(s) && c < |s.calls|
    ensures TimerInv(SucceedStep(s, c))
  {
    hide Consume;
    var call := s.calls[c];
    var ended := EndCall(s, c, Delivered);
    TimerFrame(s, ended);
    if !call.expiry && call.id in s.approvals {
      var t := s.approvals[call.id].(state := Resolved);
      PutTimer(ended, call.id, t);
      var u := Put(ended, call.id, t)
        .(userCancelled := s.userCancelled || (call.payload.Decide? && call.payload.decision == CANCEL));
      TimerFrame(Put(ended, call.id, t), u);
      ConsumeTimer(u, call.id, call.nonce);
    }
  }

  lemma FailTimer(s: Coordinator, c: nat)
    requires TimerInv(s) && c < |s.calls|
    ensures TimerInv(FailStep(s, c))
  {
    hide TimerInv;
    var call := s.calls[c];
    var ended := EndCall(s, c, Refused);
    TimerFrame(s, ended);
    if call.id in s.approvals {
      var t := s.approvals[call.id];
      if call.expiry {
        PutTimer(ended, call.id, t.(state := Failed));
        TimerFrame(Put(ended, call.id, t.(state := Failed)), FailStep(s, c));
      } else {
        hide Armed;
        ArmedTimer(ended, call.id, t.(state := Pending, view := t.view.(deliveryError := true)));
      }
    }
  }

  // ---- nonces, the cancelled flag, the answers ----

  /** A nonce that was used up never reaches the responder again. */
  ghost predicate NonceInv(s: Coordinator) {
    && (forall i, j | 0 <= i < j < |s.log| && s.log[i].Consumed? && s.log[j].Sent? ::
          s.log[i].id != s.log[j].id || s.log[i].nonce != s.log[j].nonce)
    && (forall i | 0 <= i < |s.log| && s.log[i].Consumed? :: IsDuplicate(s, s.log[i].id, s.log[i].nonce))
  }

  predicate UserCancel(c: Call) {
    c.progress.Delivered? && !c.expiry && c.payload.Decide? && c.payload.decision == CANCEL
  }

  /** Every call is about a tracked request; the run counts as cancelled exactly when
      a cancel of the user's was delivered; answers are never blank. */
  ghost predicate CallInv(s: Coordinator) {
    && (forall c | 0 <= c < |s.calls| :: s.calls[c].id in s.approvals)
    && (s.userCancelled <==> exists c :: 0 <= c < |s.calls| && UserCancel(s.calls[c]))
    && (forall c | 0 <= c < |s.calls| && s.calls[c].payload.Answers? :: NoBlank(s.calls[c].payload.answers))
  }

  predicate NoBlank(answers: seq<seq<string>>) {
    answers != [] && forall i | 0 <= i < |answers| :: answers[i] != []
  }

  /** Neither the nonces nor the calls move. */
  predicate SameRecord(s: Coordinator, t: Coordinator) {
    t.consumed == s.consumed && t.log == s.log && t.calls == s.calls && t.userCancelled == s.userCancelled
    && s.approvals.Keys <= t.approvals.Keys
  }

  lemma RecordFrame(s: Coordinator, t: Coordinator)
    requires NonceInv(s) && CallInv(s) && SameRecord(s, t)
    ensures NonceInv(t) && CallInv(t)
  {
  }

  lemma ConsumeRecord(s: Coordinator, id: Id, nonce: Option<Nonce>)
    requires NonceInv(s) && CallInv(s)
    ensures NonceInv(Consume(s, id, nonce)) && CallInv(Consume(s, id, nonce))
  {
    var r := Consume(s, id, nonce);
    assert forall a, n | IsDuplicate(s, a, n) :: IsDuplicate(r, a, n);
    if nonce.Some? {
      assert IsDuplicate(r, id, nonce);
    }
  }

  lemma StartRecord(s: Coordinator, id: Id, nonce: Option<Nonce>, payload: Payload, expiry: bool)
    requires NonceInv(s) && CallInv(s) && id in s.approvals && !IsDuplicate(s, id, nonce)
    requires payload.Answers? ==> NoBlank(payload.answers)
    ensures NonceInv(StartCall(s, id, nonce, payload, expiry)) && CallInv(StartCall(s, id, nonce, payload, expiry))
  {
    var r := StartCall(s, id, nonce, payload, expiry);
    assert forall a, n :: IsDuplicate(r, a, n) <==> IsDuplicate(s, a, n);
    if c :| 0 <= c < |s.calls| && UserCancel(s.calls[c]) {
      assert UserCancel(r.calls[c]);
    }
  }

  lemma SendOutRecord(s: Coordinator, id: Id, t: Tracked, nonce: Option<Nonce>, payload: Payload)
    requires NonceInv(s) && CallInv(s) && id in s.approvals && !IsDuplicate(s, id, nonce)
    requires payload.Answers? ==> NoBlank(payload.answers)
    ensures NonceInv(SendOut(s, id, t, nonce, payload)) && CallInv(SendOut(s, id, t, nonce, payload))
  {
    hide NonceInv, CallInv;
    var sending := t.(state := Submitting, view := t.view.(deliveryError := false));
    RecordFrame(s, Disarmed(s, id, sending));
    StartRecord(Disarmed(s, id, sending), id, nonce, payload, false);
  }

  lemma AnswerRecord(s: Coordinator, id: Id, t: Tracked, nonce: Option<Nonce>)
    requires NonceInv(s) && CallInv(s) && id in s.approvals
    ensures NonceInv(AnswerRecorded(s, id, t, nonce)) && CallInv(AnswerRecorded(s, id, t, nonce))
  {
    hide NonceInv, CallInv, SendOut;
    if AllAnswered(t) && !IsDuplicate(s, id, nonce) {
      SendOutRecord(s, id, t, nonce, Answers(AnswersOf(t)));
    } else {
      RecordFrame(s, Put(s, id, t));
    }
  }

  lemma EndRecord(s: Coordinator, c: nat, progress: Progress, flag: bool)
    requires NonceInv(s) && CallInv(s) && c < |s.calls| && s.calls[c].progress.InFlight?
    requires flag <==> s.userCancelled || UserCancel(s.calls[c].(progress := progress))
    ensures NonceInv(EndCall(s, c, progress).(userCancelled := flag))
    ensures CallInv(EndCall(s, c, progress).(userCancelled := flag))
  {
    var r := EndCall(s, c, progress).(userCancelled := flag);
    assert forall a, n :: IsDuplicate(r, a, n) <==> IsDuplicate(s, a, n);
    if k :| 0 <= k < |s.calls| && UserCancel(s.calls[k]) {
      assert UserCancel(r.calls[k]);
    }
    assert UserCancel(s.calls[c].(progress := progress)) ==> UserCancel(r.calls[c]);
  }

  lemma SucceedRecord(s: Coordinator, c: nat)
    requires NonceInv(s) && CallInv(s) && c < |s.calls| && s.calls[c].progress.InFlight?
    ensures NonceInv(SucceedStep(s, c)) && CallInv(SucceedStep(s, c))
  {
    var call := s.calls[c];
    assert call.id in s.approvals;
    hide NonceInv, CallInv, Consume;
    var cancels := !call.expiry && call.payload.Decide? && call.payload.decision == CANCEL;
    EndRecord(s, c, Delivered, s.userCancelled || cancels);
    if !call.expiry {
      var u := EndCall(s, c, Delivered).(userCancelled := s.userCancelled || cancels);
      var t := Put(u, call.id, s.approvals[call.id].(state := Resolved));
      RecordFrame(u, t);
      ConsumeRecord(t, call.id, call.nonce);
    }
  }

  lemma StepKeepsRecord(s: Coordinator, e: Event)
    requires NonceInv(s) && CallInv(s) && Enabled(s, e)
    ensures NonceInv(Step(s, e)) && CallInv(Step(s, e))
  {
    hide NonceInv, CallInv, Consume, SendOut, AnswerRecorded, SucceedStep;
    match e
    case Submit(id, decision, text, nonce) =>
      if SubmitVerdict(s, id, decision, text, nonce) == Accepted {
        var t := s.approvals[id];
        SendOutRecord(s, id, t, nonce, Decide(decision, if IsFeedback(decision) then FeedbackText(t, text) else ""));
      }
    case ToggleAnswer(id, index, option, nonce) =>
      if QuestionVerdict(s, id, index) == Accepted {
        var t := s.approvals[id];
        AnswerRecord(s, id, Answered(Select(t, index, [option]), index, [option]), nonce);
        ConsumeRecord(s, id, nonce);
        ConsumeFrame(s, id, nonce);
        RecordFrame(Consume(s, id, nonce),
                    Put(Consume(s, id, nonce), id, Select(t, index, Toggle(t.view.questions[index].selected, option))));
      }
    case SubmitAnswers(id, index, nonce) =>
      if QuestionVerdict(s, id, index) == Accepted {
        AnswerRecord(s, id, Answered(s.approvals[id], index, s.approvals[id].view.questions[index].selected), nonce);
      }
    case AnswerCustom(id, index, text, nonce) =>
      if QuestionVerdict(s, id, index) == Accepted {
        AnswerRecord(s, id, Answered(Select(s.approvals[id], index, [text]), index, [text]), nonce);
      }
    case PlanFeedback(id, text, nonce) =>
      if FeedbackVerdict(s, id, text, nonce) == Accepted {
        ConsumeRecord(s, id, nonce);
        ConsumeFrame(s, id, nonce);
        RecordFrame(Consume(s, id, nonce), Put(Consume(s, id, nonce), id, s.approvals[id].(feedback := text)));
      }
    case TimerFires(timer) => TimerRecord(s, timer);
    case CallSucceeds(c) => SucceedRecord(s, c);
    case CallFails(c) =>
      EndRecord(s, c, Refused, s.userCancelled);
      RecordFrame(EndCall(s, c, Refused), FailStep(s, c));
    case _ => RecordFrame(s, Step(s, e));
  }

  lemma TimerRecord(s: Coordinator, timer: nat)
    requires NonceInv(s) && CallInv(s) && timer in s.timers
    ensures NonceInv(TimerStep(s, timer)) && CallInv(TimerStep(s, timer))
  {
    hide NonceInv, CallInv;
    var id := s.timers[timer];
    var fired := s.(timers := s.timers - {timer});
    RecordFrame(s, fired);
    if id in s.approvals && s.approvals[id].state.Pending? {
      var u := Disarmed(fired, id, s.approvals[id].(state := Expired));
      RecordFrame(s, u);
      StartRecord(u, id, None, Decide(CANCEL, ""), true);
    }
  }

  ghost predicate Inv(s: Coordinator) {
    TimerInv(s) && NonceInv(s) && CallInv(s)
  }

  lemma StepKeepsInv(s: Coordinator, e: Event)
    requires Inv(s) && Enabled(s, e)
    ensures Inv(Step(s, e))
  {
    hide TimerInv, NonceInv, CallInv, Step;
    StepKeepsTimers(s, e);
    StepKeepsRecord(s, e);
  }

  lemma {:induction false} RunKeepsInv(s: Coordinator, events: seq<Event>)
    requires Inv(s) && IsRun(s, events)
    ensures Inv(After(s, events))
    decreases |events|
  {
    hide Inv, Step, Enabled;
    if events != [] {
      StepKeepsInv(s, events[0]);
      RunKeepsInv(Step(s, events[0]), events[1..]);
    }
  }

  /** In every run, redelivery included: a pending request has its own live timer,
      no request has two, a used nonce never reaches the responder again, and the
      run counts as cancelled exactly when a cancel of the user's got through. */
  lemma EveryRunKeepsItsPromises(events: seq<Event>)
    requires IsRun(NEW, events)
    ensures var s := After(NEW, events);
            && (forall id | id in s.approvals && s.approvals[id].state.Pending? :: LiveFor(s, id))
            && (forall t, u | t in s.timers && u in s.timers && s.timers[t] == s.timers[u] :: t == u)
            && NonceInv(s)
            && (s.userCancelled <==> exists c :: 0 <= c < |s.calls| && UserCancel(s.calls[c]))
  {
    assert Inv(NEW);
    RunKeepsInv(NEW, events);
  }
}
