/** When a request may be delivered again: request by request, exactly while no call
    made for it is in flight or was delivered. */
module ApprovalRedelivery {
  import opened Texts
  import opened Approvals
  import opened ApprovalLaws
  import opened ApprovalDelivery

  /** The calls of one request, one after another; while it is pending all were refused. */
  ghost predicate OneFor(s: Coordinator, id: Id) {
    && (forall i, j | 0 <= i < j < |s.calls| && s.calls[i].id == id == s.calls[j].id :: s.calls[i].progress.Refused?)
    && (id in s.approvals && s.approvals[id].state.Pending? ==> AllRefused(s, id))
  }

  predicate IsPending(s: Coordinator, id: Id) {
    id in s.approvals && s.approvals[id].state.Pending?
  }

  /** Later deliveries of this one request are safe; those of others need not be. */
  predicate OrderlyFor(s: Coordinator, id: Id, events: seq<Event>)
    requires IsRun(s, events)
    decreases |events|
  {
    events == []
    || ((events[0].Requested? && events[0].id == id ==> AllRefused(s, id)) && OrderlyFor(Step(s, events[0]), id, events[1..]))
  }

  lemma OneFrame(s: Coordinator, t: Coordinator, id: Id)
    requires OneFor(s, id) && t.calls == s.calls && (IsPending(t, id) ==> IsPending(s, id))
    ensures OneFor(t, id)
  {
  }

  /** A call goes out for a request that was pending and no longer is. */
  lemma StartOne(s: Coordinator, t: Coordinator, id: Id, x: Id, call: Call)
    requires OneFor(s, id) && IsPending(s, x) && !IsPending(t, x)
    requires call.id == x && t.calls == s.calls + [call]
    requires x != id ==> (IsPending(t, id) ==> IsPending(s, id))
    ensures OneFor(t, id)
  {
  }

  lemma SendOutOne(s: Coordinator, x: Id, t: Tracked, nonce: Option<Nonce>, payload: Payload, id: Id)
    requires OneFor(s, id) && IsPending(s, x)
    ensures OneFor(SendOut(s, x, t, nonce, payload), id)
  {
    hide OneFor;
    StartOne(s, SendOut(s, x, t, nonce, payload), id, x, Call(x, nonce, payload, false, InFlight));
  }

  lemma AnswerOne(s: Coordinator, x: Id, t: Tracked, nonce: Option<Nonce>, id: Id)
    requires OneFor(s, id) && IsPending(s, x)
    ensures OneFor(AnswerRecorded(s, x, t, nonce), id)
  {
    hide OneFor, SendOut, AllAnswered;
    if AllAnswered(t) && !IsDuplicate(s, x, nonce) {
      SendOutOne(s, x, t, nonce, Answers(AnswersOf(t)), id);
    } else {
      OneFrame(s, Put(s, x, t), id);
    }
  }

  lemma TimerOne(s: Coordinator, timer: nat, id: Id)
    requires OneFor(s, id) && timer in s.timers
    ensures OneFor(TimerStep(s, timer), id)
  {
    hide OneFor;
    var x := s.timers[timer];
    if IsPending(s, x) {
      StartOne(s, TimerStep(s, timer), id, x, Call(x, None, Decide(CANCEL, ""), true, InFlight));
    } else {
      OneFrame(s, TimerStep(s, timer), id);
    }
  }

  /** A call returns: it was the only one of its request not refused. */
  lemma ReturnOne(s: Coordinator, c: nat, t: Coordinator, progress: Progress, id: Id)
    requires OneFor(s, id) && c < |s.calls| && s.calls[c].progress.InFlight?
    requires t.calls == s.calls[c := s.calls[c].(progress := progress)]
    requires s.calls[c].id != id || !progress.Refused? ==> (IsPending(t, id) ==> IsPending(s, id))
    ensures OneFor(t, id)
  {
    assert forall k | 0 <= k < |t.calls| && k != c :: t.calls[k] == s.calls[k];
    assert t.calls[c].id == s.calls[c].id;
    if s.calls[c].id == id {
      assert forall k | 0 <= k < |s.calls| && k != c && s.calls[k].id == id :: s.calls[k].progress.Refused?;
    }
  }

  lemma RequestOne(s: Coordinator, x: Id, view: View, id: Id)
    requires OneFor(s, id) && (x == id ==> AllRefused(s, id))
    ensures OneFor(RequestStep(s, x, view), id)
  {
    if x != id {
      OneFrame(s, RequestStep(s, x, view), id);
    }
  }

  lemma StepKeepsOne(s: Coordinator, e: Event, id: Id)
    requires OneFor(s, id) && Enabled(s, e)
    requires e.Requested? && e.id == id ==> AllRefused(s, id)
    ensures OneFor(Step(s, e), id)
  {
    hide OneFor, AllRefused, SendOut, AnswerRecorded, TimerStep, RequestStep, Single;
    match e
    case Requested(x, view) => RequestOne(s, x, view, id);
    case Submit(x, decision, text, nonce) =>
      if SubmitVerdict(s, x, decision, text, nonce) == Accepted {
        var t := s.approvals[x];
        SendOutOne(s, x, t, nonce, Decide(decision, if IsFeedback(decision) then FeedbackText(t, text) else ""), id);
      }
    case ToggleAnswer(x, index, option, nonce) =>
      if QuestionVerdict(s, x, index) == Accepted {
        var t := s.approvals[x];
        AnswerOne(s, x, Answered(Select(t, index, [option]), index, [option]), nonce, id);
        ConsumeFrame(s, x, nonce);
        OneFrame(s, Put(Consume(s, x, nonce), x, Select(t, index, Toggle(t.view.questions[index].selected, option))), id);
      }
    case SubmitAnswers(x, index, nonce) =>
      if QuestionVerdict(s, x, index) == Accepted {
        AnswerOne(s, x, Answered(s.approvals[x], index, s.approvals[x].view.questions[index].selected), nonce, id);
      }
    case AnswerCustom(x, index, text, nonce) =>
      if QuestionVerdict(s, x, index) == Accepted {
        AnswerOne(s, x, Answered(Select(s.approvals[x], index, [text]), index, [text]), nonce, id);
      }
    case TimerFires(timer) => TimerOne(s, timer, id);
    case CallSucceeds(c) => ReturnOne(s, c, SucceedStep(s, c), Delivered, id);
    case CallFails(c) => ReturnOne(s, c, FailStep(s, c), Refused, id);
    case _ => OneFrame(s, Step(s, e), id);
  }

  lemma {:induction false} RunKeepsOne(s: Coordinator, id: Id, events: seq<Event>)
    requires OneFor(s, id) && IsRun(s, events) && OrderlyFor(s, id, events)
    ensures OneFor(After(s, events), id)
    decreases |events|
  {
    hide OneFor, Step, Enabled, AllRefused;
    if events != [] {
      StepKeepsOne(s, events[0], id);
      RunKeepsOne(Step(s, events[0]), id, events[1..]);
    }
  }

  lemma OneIsSingle(s: Coordinator, id: Id)
    requires OneFor(s, id)
    ensures Single(s, id)
  {
    forall i, j | 0 <= i < |s.calls| && 0 <= j < |s.calls| && i != j && s.calls[i].id == id == s.calls[j].id
      ensures s.calls[i].progress.Refused? || s.calls[j].progress.Refused?
    {
      var first := if i < j then i else j;
      assert s.calls[first].progress.Refused?;
    }
  }

  /** Delivered while a call of its is in flight or delivered, a request takes a second
      answer: declining is always open. */
  lemma UnsafeRedeliveryAnswersTwice(s: Coordinator, id: Id, view: View)
    requires !AllRefused(s, id)
    ensures var t := Step(Step(s, Requested(id, view)), Submit(id, DECLINE, "", None));
            && t.calls == s.calls + [Call(id, None, Decide(DECLINE, ""), false, InFlight)]
            && !Single(t, id)
  {
    var r := Step(s, Requested(id, view));
    assert IsPending(r, id) && r.calls == s.calls;
    hide Armed, Reapply;
    assert SubmitVerdict(r, id, DECLINE, "", None) == Accepted;
    var t := Step(r, Submit(id, DECLINE, "", None));
    var c :| 0 <= c < |s.calls| && s.calls[c].id == id && !s.calls[c].progress.Refused?;
    assert t.calls[c] == s.calls[c] && t.calls[|s.calls|].id == id && t.calls[|s.calls|].progress.InFlight?;
  }

  /** Delivering a request, for the first time or again, leaves at most one call of its in
      flight or delivered in every continuation whose later deliveries of it are safe,
      exactly when all calls made for it so far were refused. */
  lemma DeliveryIsSafeIff(s: Coordinator, id: Id, view: View)
    ensures var t := Step(s, Requested(id, view));
            AllRefused(s, id) <==>
            forall events | IsRun(t, events) && OrderlyFor(t, id, events) :: Single(After(t, events), id)
  {
    var t := Step(s, Requested(id, view));
    if AllRefused(s, id) {
      assert OneFor(t, id);
      hide Step, OneFor, Single, AllRefused;
      forall events | IsRun(t, events) && OrderlyFor(t, id, events)
        ensures Single(After(t, events), id)
      {
        RunKeepsOne(t, id, events);
        OneIsSingle(After(t, events), id);
      }
    } else {
      hide Step, Single, AllRefused;
      var events := SecondAnswer(s, id, view);
      assert !Single(After(t, events), id);
    }
  }

  lemma SecondAnswer(s: Coordinator, id: Id, view: View) returns (events: seq<Event>)
    requires !AllRefused(s, id)
    ensures var t := Step(s, Requested(id, view));
            IsRun(t, events) && OrderlyFor(t, id, events) && !Single(After(t, events), id)
  {
    var t := Step(s, Requested(id, view));
    var e := Submit(id, DECLINE, "", None);
    UnsafeRedeliveryAnswersTwice(s, id, view);
    hide Step, Single, AllRefused;
    assert IsRun(Step(t, e), []) && OrderlyFor(Step(t, e), id, []) && After(Step(t, e), []) == Step(t, e);
    events := [e];
    assert events[1..] == [];
    assert IsRun(t, events) && OrderlyFor(t, id, events) && After(t, events) == After(Step(t, e), []);
  }

  /** Asked, whether for the first time or again, a request takes an answer. */
  lemma AskedIsAnswered(s: Coordinator, view: View, nonce: Nonce)
    requires "accept" in view.decisions && !IsDuplicate(s, 1, Some(nonce))
    ensures var t := Step(Step(s, Requested(1, view)), Submit(1, "accept", "", Some(nonce)));
            && t.calls == s.calls + [Call(1, Some(nonce), Decide("accept", ""), false, InFlight)]
            && t.consumed == s.consumed && 1 in t.approvals
  {
    var r := Step(s, Requested(1, view));
    assert 1 in r.approvals && r.approvals[1].state.Pending? && "accept" in r.approvals[1].view.decisions;
    assert !IsDuplicate(r, 1, Some(nonce)) && r.calls == s.calls && r.consumed == s.consumed;
    hide Armed;
    assert SubmitVerdict(r, 1, "accept", "", Some(nonce)) == Accepted;
  }

  lemma CallIsDelivered(s: Coordinator, c: nat)
    requires Enabled(s, CallSucceeds(c))
    ensures Step(s, CallSucceeds(c)).calls == s.calls[c := s.calls[c].(progress := Delivered)]
  {
  }

  /** Delivered again while its answer is out, a request can be answered twice, and
      both answers can get through. */
  lemma RedeliveryCanAnswerTwice(view: View)
    requires "accept" in view.decisions
    ensures var events := [Requested(1, view), Submit(1, "accept", "", Some("a")), Requested(1, view),
                           Submit(1, "accept", "", Some("b")), CallSucceeds(0), CallSucceeds(1)];
            && IsRun(NEW, events)
            && var s := After(NEW, events);
               |s.calls| == 2 && forall c | 0 <= c < 2 :: s.calls[c].id == 1 && s.calls[c].progress.Delivered?
  {
    hide Step;
    var e1, e2, e3, e4, e5, e6 := Requested(1, view), Submit(1, "accept", "", Some("a")), Requested(1, view),
      Submit(1, "accept", "", Some("b")), CallSucceeds(0), CallSucceeds(1);
    AskedIsAnswered(NEW, view, "a");
    var s1 := Step(NEW, e1);
    var s2 := Step(s1, e2);
    AskedIsAnswered(s2, view, "b");
    var s3 := Step(s2, e3);
    var s4 := Step(s3, e4);
    CallIsDelivered(s4, 0);
    var s5 := Step(s4, e5);
    CallIsDelivered(s5, 1);
    assert Enabled(NEW, e1) && Enabled(s1, e2) && Enabled(s2, e3) && Enabled(s3, e4) && Enabled(s4, e5) && Enabled(s5, e6);
    hide Enabled;
    var s6 := Step(s5, e6);
    assert IsRun(s6, []) && After(s6, []) == s6;
    assert [e6][1..] == [];
    assert IsRun(s5, [e6]) && After(s5, [e6]) == After(s6, []);
    assert [e5, e6][1..] == [e6];
    assert IsRun(s4, [e5, e6]) && After(s4, [e5, e6]) == After(s5, [e6]);
    assert [e4, e5, e6][1..] == [e5, e6];
    assert IsRun(s3, [e4, e5, e6]) && After(s3, [e4, e5, e6]) == After(s4, [e5, e6]);
    assert [e3, e4, e5, e6][1..] == [e4, e5, e6];
    assert IsRun(s2, [e3, e4, e5, e6]) && After(s2, [e3, e4, e5, e6]) == After(s3, [e4, e5, e6]);
    assert [e2, e3, e4, e5, e6][1..] == [e3, e4, e5, e6];
    assert IsRun(s1, [e2, e3, e4, e5, e6]) && After(s1, [e2, e3, e4, e5, e6]) == After(s2, [e3, e4, e5, e6]);
    assert [e1, e2, e3, e4, e5, e6][1..] == [e2, e3, e4, e5, e6];
    assert IsRun(NEW, [e1, e2, e3, e4, e5, e6]) && After(NEW, [e1, e2, e3, e4, e5, e6]) == After(s1, [e2, e3, e4, e5, e6]);
  }
}
