/** The approval requests of one run, as a state machine: what is asked of the user,
    the timer that ends each request, the button nonces already used up, and the
    calls to the responder whose answer is still out. */
module Approvals {
  import opened Texts

  type Id = nat
  type Nonce = string
  type Decision = string

  const DECLINE := "decline"
  const CANCEL := "cancel"
  const DECLINE_WITH_FEEDBACK := "declineWithFeedback"
  const ACCEPT_WITH_FEEDBACK := "acceptWithFeedback"

  datatype Kind = CommandKind | FileKind | PermissionsKind | QuestionKind | ToolKind

  datatype Status = Pending | Submitting | Resolved | Failed | Expired

  datatype Question = Question(multiSelect: bool, options: set<string>, selected: seq<string>)

  datatype View = View(
    kind: Kind,
    decisions: set<Decision>,
    exitsPlanMode: bool,
    questions: seq<Question>,
    deliveryError: bool)

  datatype Tracked = Tracked(
    kind: Kind,
    state: Status,
    view: View,
    timer: Option<nat>,
    answers: map<nat, seq<string>>,
    feedback: string)

  /** What the responder is told. */
  datatype Payload = Decide(decision: Decision, text: string) | Answers(answers: seq<seq<string>>)

  datatype Progress = InFlight | Delivered | Refused

  datatype Call = Call(id: Id, nonce: Option<Nonce>, payload: Payload, expiry: bool, progress: Progress)

  /** A history of nonces: when one went to the responder, and when it was used up. */
  datatype Mark = Sent(id: Id, nonce: Option<Nonce>) | Consumed(id: Id, nonce: Option<Nonce>)

  /** `timers` are the live ones; `calls` is every responder call ever made. */
  datatype Coordinator = Coordinator(
    approvals: map<Id, Tracked>,
    consumed: map<Id, set<Nonce>>,
    userCancelled: bool,
    timers: map<nat, Id>,
    minted: nat,
    calls: seq<Call>,
    interrupts: nat,
    log: seq<Mark>)

  const NEW := Coordinator(map[], map[], false, map[], 0, [], 0, [])

  datatype Verdict =
    | Accepted
    | NotFound
    | DuplicateNonce
    | NotPending
    | DecisionUnavailable
    | FeedbackMissing
    | NotAQuestion
    | NoSuchQuestion
    | NoSuchOption
    | WrongSelection
    | NothingSelected
    | TextMissing
    | NotAPlan

  datatype Event =
    | Requested(id: Id, view: View)
    | ResolvedElsewhere(id: Id)
    | TurnEnded
    | Submit(id: Id, decision: Decision, text: string, nonce: Option<Nonce>)
    | ToggleAnswer(id: Id, index: nat, option: string, nonce: Option<Nonce>)
    | SubmitAnswers(id: Id, index: nat, nonce: Option<Nonce>)
    | AnswerCustom(id: Id, index: nat, text: string, nonce: Option<Nonce>)
    | PlanFeedback(id: Id, text: string, nonce: Option<Nonce>)
    | UpdateView(id: Id, view: View)
    | TimerFires(timer: nat)
    | CallSucceeds(call: nat)
    | CallFails(call: nat)

  predicate Enabled(s: Coordinator, e: Event) {
    match e
    case TimerFires(t) => t in s.timers
    case CallSucceeds(c) => c < |s.calls| && s.calls[c].progress.InFlight?
    case CallFails(c) => c < |s.calls| && s.calls[c].progress.InFlight?
    case _ => true
  }

  // ---- timers and nonces ----

  function Put(s: Coordinator, id: Id, t: Tracked): Coordinator {
    s.(approvals := s.approvals[id := t])
  }

  function WithoutTimer(timers: map<nat, Id>, timer: Option<nat>): map<nat, Id> {
    if timer.Some? then timers - {timer.value} else timers
  }

  /** Store `t` under `id` with its timer stopped. */
  function Disarmed(s: Coordinator, id: Id, t: Tracked): Coordinator {
    Put(s, id, t.(timer := None)).(timers := WithoutTimer(s.timers, t.timer))
  }

  /** Store `t` under `id` with a new timer in place of its old one. */
  function Armed(s: Coordinator, id: Id, t: Tracked): Coordinator {
    Put(s, id, t.(timer := Some(s.minted)))
      .(timers := WithoutTimer(s.timers, t.timer)[s.minted := id], minted := s.minted + 1)
  }

  function Used(s: Coordinator, id: Id): set<Nonce> {
    if id in s.consumed then s.consumed[id] else {}
  }

  predicate IsDuplicate(s: Coordinator, id: Id, nonce: Option<Nonce>) {
    nonce.Some? && nonce.value in Used(s, id)
  }

  function Consume(s: Coordinator, id: Id, nonce: Option<Nonce>): Coordinator {
    if nonce.None? then s
    else s.(consumed := s.consumed[id := Used(s, id) + {nonce.value}], log := s.log + [Consumed(id, nonce)])
  }

  // ---- calls ----

  function StartCall(s: Coordinator, id: Id, nonce: Option<Nonce>, payload: Payload, expiry: bool): Coordinator {
    s.(calls := s.calls + [Call(id, nonce, payload, expiry, InFlight)], log := s.log + [Sent(id, nonce)])
  }

  function EndCall(s: Coordinator, c: nat, progress: Progress): Coordinator
    requires c < |s.calls|
  {
    s.(calls := s.calls[c := s.calls[c].(progress := progress)])
  }

  /** Pending becomes submitting: the timer stops and the call goes out. */
  function SendOut(s: Coordinator, id: Id, t: Tracked, nonce: Option<Nonce>, payload: Payload): Coordinator {
    var sending := t.(state := Submitting, view := t.view.(deliveryError := false));
    StartCall(Disarmed(s, id, sending), id, nonce, payload, false)
  }

  // ---- decisions ----

  predicate IsFeedback(decision: Decision) {
    decision == DECLINE_WITH_FEEDBACK || decision == ACCEPT_WITH_FEEDBACK
  }

  /** Declining and cancelling are always open to the user. */
  predicate Offered(t: Tracked, decision: Decision) {
    decision in t.view.decisions || decision == DECLINE || decision == CANCEL
  }

  /** The text of the action itself, else the feedback recorded before. */
  function FeedbackText(t: Tracked, text: string): string {
    if text != "" then text else t.feedback
  }

  function SubmitVerdict(s: Coordinator, id: Id, decision: Decision, text: string, nonce: Option<Nonce>): Verdict {
    if id !in s.approvals then NotFound
    else if IsDuplicate(s, id, nonce) then DuplicateNonce
    else if !s.approvals[id].state.Pending? then NotPending
    else if !Offered(s.approvals[id], decision) then DecisionUnavailable
    else if IsFeedback(decision) && FeedbackText(s.approvals[id], text) == "" then FeedbackMissing
    else Accepted
  }

  function SubmitStep(s: Coordinator, id: Id, decision: Decision, text: string, nonce: Option<Nonce>): Coordinator {
    if SubmitVerdict(s, id, decision, text, nonce) != Accepted then s
    else
      var t := s.approvals[id];
      SendOut(s, id, t, nonce, Decide(decision, if IsFeedback(decision) then FeedbackText(t, text) else ""))
  }

  // ---- questions ----

  function QuestionVerdict(s: Coordinator, id: Id, index: nat): Verdict {
    if id !in s.approvals then NotFound
    else if !s.approvals[id].kind.QuestionKind? then NotAQuestion
    else if !s.approvals[id].state.Pending? then NotPending
    else if index >= |s.approvals[id].view.questions| then NoSuchQuestion
    else Accepted
  }

  function Recorded(t: Tracked, index: nat): seq<string> {
    if index in t.answers then t.answers[index] else []
  }

  predicate AllAnswered(t: Tracked) {
    t.view.questions != [] && forall i | 0 <= i < |t.view.questions| :: Recorded(t, i) != []
  }

  function AnswersOf(t: Tracked): (r: seq<seq<string>>)
    ensures |r| == |t.view.questions| && forall i | 0 <= i < |r| :: r[i] == Recorded(t, i)
  {
    seq(|t.view.questions|, i requires 0 <= i < |t.view.questions| => Recorded(t, i))
  }

  function Select(t: Tracked, index: nat, selected: seq<string>): Tracked
    requires index < |t.view.questions|
  {
    t.(view := t.view.(questions := t.view.questions[index := t.view.questions[index].(selected := selected)]))
  }

  /** Take the label out when it is in, put it last when it is not. */
  function Toggle(selected: seq<string>, option: string): seq<string> {
    if option in selected then Removed(selected, option) else selected + [option]
  }

  function Removed(selected: seq<string>, option: string): seq<string> {
    if selected == [] then []
    else Removed(selected[..|selected| - 1], option)
         + if selected[|selected| - 1] == option then [] else [selected[|selected| - 1]]
  }

  /** An answer has been recorded in `t`; when it was the last one missing, all the
      answers go out, unless this button has been used already. */
  function AnswerRecorded(s: Coordinator, id: Id, t: Tracked, nonce: Option<Nonce>): Coordinator {
    if AllAnswered(t) && !IsDuplicate(s, id, nonce) then SendOut(s, id, t, nonce, Answers(AnswersOf(t)))
    else Put(s, id, t)
  }

  function AnswerVerdict(s: Coordinator, id: Id, t: Tracked, nonce: Option<Nonce>): Verdict {
    if AllAnswered(t) && IsDuplicate(s, id, nonce) then DuplicateNonce else Accepted
  }

  function Answered(t: Tracked, index: nat, values: seq<string>): Tracked {
    t.(answers := t.answers[index := values])
  }

  function ToggleVerdict(s: Coordinator, id: Id, index: nat, option: string, nonce: Option<Nonce>): Verdict {
    var v := QuestionVerdict(s, id, index);
    if v != Accepted then v
    else
      var t := s.approvals[id];
      var q := t.view.questions[index];
      if option !in q.options then NoSuchOption
      else if q.multiSelect then (if IsDuplicate(s, id, nonce) then DuplicateNonce else Accepted)
      else AnswerVerdict(s, id, Answered(Select(t, index, [option]), index, [option]), nonce)
  }

  function ToggleStep(s: Coordinator, id: Id, index: nat, option: string, nonce: Option<Nonce>): Coordinator {
    if QuestionVerdict(s, id, index) != Accepted then s
    else
      var t := s.approvals[id];
      var q := t.view.questions[index];
      if option !in q.options then s
      else if q.multiSelect then
        if IsDuplicate(s, id, nonce) then s
        else Put(Consume(s, id, nonce), id, Select(t, index, Toggle(q.selected, option)))
      else AnswerRecorded(s, id, Answered(Select(t, index, [option]), index, [option]), nonce)
  }

  function SubmitAnswersVerdict(s: Coordinator, id: Id, index: nat, nonce: Option<Nonce>): Verdict {
    var v := QuestionVerdict(s, id, index);
    if v != Accepted then v
    else
      var t := s.approvals[id];
      var q := t.view.questions[index];
      if !q.multiSelect then WrongSelection
      else if q.selected == [] then NothingSelected
      else AnswerVerdict(s, id, Answered(t, index, q.selected), nonce)
  }

  function SubmitAnswersStep(s: Coordinator, id: Id, index: nat, nonce: Option<Nonce>): Coordinator {
    if QuestionVerdict(s, id, index) != Accepted then s
    else
      var t := s.approvals[id];
      var q := t.view.questions[index];
      if !q.multiSelect || q.selected == [] then s
      else AnswerRecorded(s, id, Answered(t, index, q.selected), nonce)
  }

  function CustomVerdict(s: Coordinator, id: Id, index: nat, text: string, nonce: Option<Nonce>): Verdict {
    var v := QuestionVerdict(s, id, index);
    if v != Accepted then v
    else
      var t := s.approvals[id];
      if t.view.questions[index].multiSelect then WrongSelection
      else if text == "" then TextMissing
      else AnswerVerdict(s, id, Answered(Select(t, index, [text]), index, [text]), nonce)
  }

  function CustomStep(s: Coordinator, id: Id, index: nat, text: string, nonce: Option<Nonce>): Coordinator {
    if QuestionVerdict(s, id, index) != Accepted then s
    else
      var t := s.approvals[id];
      if t.view.questions[index].multiSelect || text == "" then s
      else AnswerRecorded(s, id, Answered(Select(t, index, [text]), index, [text]), nonce)
  }

  function FeedbackVerdict(s: Coordinator, id: Id, text: string, nonce: Option<Nonce>): Verdict {
    if id !in s.approvals then NotFound
    else if !s.approvals[id].state.Pending? then NotPending
    else if !s.approvals[id].kind.ToolKind? || !s.approvals[id].view.exitsPlanMode then NotAPlan
    else if text == "" then FeedbackMissing
    else if IsDuplicate(s, id, nonce) then DuplicateNonce
    else Accepted
  }

  function FeedbackStep(s: Coordinator, id: Id, text: string, nonce: Option<Nonce>): Coordinator {
    if FeedbackVerdict(s, id, text, nonce) != Accepted then s
    else Put(Consume(s, id, nonce), id, s.approvals[id].(feedback := text))
  }

  // ---- the life of a request ----

  /** A view delivered again shows the answers already recorded. */
  function Reapply(t: Tracked, view: View): (r: View)
    ensures |r.questions| == |view.questions|
  {
    if !view.kind.QuestionKind? || !t.kind.QuestionKind? then view
    else view.(questions := seq(|view.questions|, i requires 0 <= i < |view.questions| =>
                 if i in t.answers then view.questions[i].(selected := t.answers[i]) else view.questions[i]))
  }

  function RequestStep(s: Coordinator, id: Id, view: View): Coordinator {
    if id in s.approvals then
      var t := s.approvals[id];
      Armed(s, id, t.(state := Pending, view := Reapply(t, view)))
    else Armed(s, id, Tracked(view.kind, Pending, view, None, map[], ""))
  }

  function ResolveStep(s: Coordinator, id: Id): Coordinator {
    if id !in s.approvals then s else Disarmed(s, id, s.approvals[id].(state := Resolved))
  }

  /** Every pending request expires, and its timer stops. */
  function TurnEndStep(s: Coordinator): Coordinator {
    s.(approvals := map id | id in s.approvals ::
         (if s.approvals[id].state.Pending? then s.approvals[id].(state := Expired, timer := None) else s.approvals[id]),
       timers := map t | t in s.timers && !OwnedByPending(s, t) :: s.timers[t])
  }

  predicate OwnedByPending(s: Coordinator, timer: nat) {
    exists id :: id in s.approvals && s.approvals[id].state.Pending? && s.approvals[id].timer == Some(timer)
  }

  /** A timer that fires on a pending request expires it and cancels it upstream. */
  function TimerStep(s: Coordinator, timer: nat): Coordinator
    requires timer in s.timers
  {
    var id := s.timers[timer];
    var fired := s.(timers := s.timers - {timer});
    if id !in s.approvals || !s.approvals[id].state.Pending? then fired
    else
      StartCall(Disarmed(fired, id, s.approvals[id].(state := Expired)), id, None, Decide(CANCEL, ""), true)
  }

  function SucceedStep(s: Coordinator, c: nat): Coordinator
    requires c < |s.calls|
  {
    var call := s.calls[c];
    var ended := EndCall(s, c, Delivered);
    if call.expiry || call.id !in s.approvals then ended
    else
      Consume(Put(ended, call.id, s.approvals[call.id].(state := Resolved))
                .(userCancelled := s.userCancelled || (call.payload.Decide? && call.payload.decision == CANCEL)),
              call.id, call.nonce)
  }

  function FailStep(s: Coordinator, c: nat): Coordinator
    requires c < |s.calls|
  {
    var call := s.calls[c];
    var ended := EndCall(s, c, Refused);
    if call.id !in s.approvals then ended
    else
      var t := s.approvals[call.id];
      if call.expiry then Put(ended, call.id, t.(state := Failed)).(interrupts := s.interrupts + 1)
      else Armed(ended, call.id, t.(state := Pending, view := t.view.(deliveryError := true)))
  }

  function Step(s: Coordinator, e: Event): Coordinator
    requires Enabled(s, e)
  {
    match e
    case Requested(id, view) => RequestStep(s, id, view)
    case ResolvedElsewhere(id) => ResolveStep(s, id)
    case TurnEnded => TurnEndStep(s)
    case Submit(id, decision, text, nonce) => SubmitStep(s, id, decision, text, nonce)
    case ToggleAnswer(id, index, option, nonce) => ToggleStep(s, id, index, option, nonce)
    case SubmitAnswers(id, index, nonce) => SubmitAnswersStep(s, id, index, nonce)
    case AnswerCustom(id, index, text, nonce) => CustomStep(s, id, index, text, nonce)
    case PlanFeedback(id, text, nonce) => FeedbackStep(s, id, text, nonce)
    case UpdateView(id, view) =>
      if id in s.approvals && s.approvals[id].state.Pending? then Put(s, id, s.approvals[id].(view := view)) else s
    case TimerFires(timer) => TimerStep(s, timer)
    case CallSucceeds(c) => SucceedStep(s, c)
    case CallFails(c) => FailStep(s, c)
  }

  predicate IsRun(s: Coordinator, events: seq<Event>)
    decreases |events|
  {
    events == [] || (Enabled(s, events[0]) && IsRun(Step(s, events[0]), events[1..]))
  }

  function After(s: Coordinator, events: seq<Event>): Coordinator
    requires IsRun(s, events)
    decreases |events|
  {
    if events == [] then s else After(Step(s, events[0]), events[1..])
  }

  /** No call made for the request is in flight or was delivered. */
  predicate AllRefused(s: Coordinator, id: Id) {
    forall c | 0 <= c < |s.calls| && s.calls[c].id == id :: s.calls[c].progress.Refused?
  }

  /** A request is delivered, for the first time or again, only while no call made for
      it is in flight or was delivered. */
  predicate Orderly(s: Coordinator, events: seq<Event>)
    requires IsRun(s, events)
    decreases |events|
  {
    events == []
    || ((events[0].Requested? ==> AllRefused(s, events[0].id)) && Orderly(Step(s, events[0]), events[1..]))
  }
}
