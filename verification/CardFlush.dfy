/** A card session after its stream has started, as a state machine: pushes are
    coalesced by a timer, one frame is in flight at a time, and a finish waits for
    it before the terminal frame goes out. One move is one stretch of code
    between two awaits. */
module CardFlush {
  import opened Texts
  import opened RunState
  import opened RunStateLaws
  import opened RunOutcome

  /** A frame handed to the stream; after a failure it is sent once more as a patch. */
  datatype Flight = Flight(frame: RunState, fellBack: bool)

  datatype FinishStage =
    | Waiting(kind: FinalKind, meta: FinishMeta, awaited: Option<nat>)
    | Sending(frame: RunState, fellBack: bool)
    | Confirming
    | Released

  /** `flights` are the flushes whose send has not returned, by number; `flushP`
      names the one the flag `inFlight` stands for; `sent` is every frame ever
      handed over, oldest first. */
  datatype Session = Session(
    run: RunState,
    timer: bool,
    inFlight: bool,
    reschedule: bool,
    flushP: Option<nat>,
    flights: map<nat, Flight>,
    minted: nat,
    finishes: seq<FinishStage>,
    sent: seq<RunState>)

  datatype Move =
    | Push(event: Event)
    | TimerFires
    | FlushFallsBack(flush: nat)
    | FlushSettles(flush: nat)
    | FinishCalled(kind: FinalKind, meta: FinishMeta)
    | FinishResumes(finish: nat, now: nat)
    | FinishFallsBack(finish: nat)
    | FinishDelivered(finish: nat)
    | FinishConfirmed(finish: nat)

  /** A stream that has just started shows the state it was started with. */
  function Started(run: RunState): Session {
    Session(run, false, false, false, None, map[], 0, [], [run])
  }

  /** The flush a finish waits for has settled, or there was none. */
  predicate Ready(s: Session, i: nat) {
    i < |s.finishes| && s.finishes[i].Waiting?
    && (s.finishes[i].awaited.Some? ==> s.finishes[i].awaited.value !in s.flights)
  }

  /** A finish that is ready resumes in a microtask, before any timer can fire. */
  predicate Enabled(s: Session, m: Move) {
    match m
    case TimerFires => s.timer && forall i | 0 <= i < |s.finishes| :: !Ready(s, i)
    case FlushFallsBack(id) => id in s.flights && !s.flights[id].fellBack
    case FlushSettles(id) => id in s.flights
    case FinishResumes(i, _) => Ready(s, i)
    case FinishFallsBack(i) => i < |s.finishes| && s.finishes[i].Sending? && !s.finishes[i].fellBack
    case FinishDelivered(i) => i < |s.finishes| && s.finishes[i].Sending?
    case FinishConfirmed(i) => i < |s.finishes| && s.finishes[i].Confirming?
    case _ => true
  }

  function ScheduleFlush(s: Session): Session {
    if s.timer then s
    else if s.inFlight then s.(reschedule := true)
    else s.(timer := true)
  }

  function Flush(s: Session): Session {
    if s.inFlight || !IsActive(s.run.terminal) then s
    else s.(inFlight := true,
            flushP := Some(s.minted),
            flights := s.flights[s.minted := Flight(s.run, false)],
            minted := s.minted + 1,
            sent := s.sent + [s.run])
  }

  function SettleFlush(s: Session, id: nat): Session {
    var t := s.(flights := s.flights - {id}, inFlight := false, flushP := None);
    if t.reschedule then ScheduleFlush(t.(reschedule := false)) else t
  }

  function Step(s: Session, m: Move): Session
    requires Enabled(s, m)
  {
    match m
    case Push(event) => ScheduleFlush(s.(run := Reduce(s.run, event)))
    case TimerFires => Flush(s.(timer := false))
    case FlushFallsBack(id) =>
      var frame := s.flights[id].frame;
      s.(flights := s.flights[id := Flight(frame, true)], sent := s.sent + [frame])
    case FlushSettles(id) => SettleFlush(s, id)
    case FinishCalled(kind, meta) =>
      s.(timer := false, reschedule := false, finishes := s.finishes + [Waiting(kind, meta, s.flushP)])
    case FinishResumes(i, now) =>
      var run := FinishRun(s.run, s.finishes[i].kind, s.finishes[i].meta, now);
      s.(run := run, finishes := s.finishes[i := Sending(run, false)], sent := s.sent + [run])
    case FinishFallsBack(i) =>
      var frame := s.finishes[i].frame;
      s.(finishes := s.finishes[i := Sending(frame, true)], sent := s.sent + [frame])
    case FinishDelivered(i) =>
      s.(finishes := s.finishes[i := Confirming], sent := s.sent + [s.run])
    case FinishConfirmed(i) =>
      s.(finishes := s.finishes[i := Released])
  }

  predicate IsRun(s: Session, moves: seq<Move>)
    decreases |moves|
  {
    moves == [] || (Enabled(s, moves[0]) && IsRun(Step(s, moves[0]), moves[1..]))
  }

  function After(s: Session, moves: seq<Move>): Session
    requires IsRun(s, moves)
    decreases |moves|
  {
    if moves == [] then s else After(Step(s, moves[0]), moves[1..])
  }

  // ---- the invariant ----

  predicate Done(run: RunState) {
    IsFinal(run.terminal)
  }

  function LastSent(s: Session): RunState
    requires s.sent != []
  {
    s.sent[|s.sent| - 1]
  }

  /** The flags say what is really in flight: at most one flush, and every waiting
      finish waits for that one. */
  ghost predicate FlagsInv(s: Session) {
    && (s.timer ==> !s.inFlight)
    && (s.reschedule ==> s.inFlight)
    && (s.inFlight <==> s.flushP.Some?)
    && s.flights.Keys == (if s.flushP.Some? then {s.flushP.value} else {})
    && (forall id | id in s.flights :: id < s.minted)
    && (forall i | 0 <= i < |s.finishes| && s.finishes[i].Waiting? ::
          && (s.finishes[i].awaited.Some? ==> s.finishes[i].awaited.value < s.minted)
          && (s.flushP.Some? ==> s.finishes[i].awaited == s.flushP))
  }

  /** Terminal frames come last, and nothing older is still in flight. */
  ghost predicate OrderInv(s: Session) {
    && s.sent != []
    && (forall i, j | 0 <= i < j < |s.sent| && Done(s.sent[i]) :: Done(s.sent[j]))
    && (Done(LastSent(s)) ==> Done(s.run))
    && (forall id | id in s.flights :: !Done(s.flights[id].frame))
    && (Done(s.run) ==> s.flights.Keys == {})
    && (forall i | 0 <= i < |s.finishes| && !s.finishes[i].Waiting? :: Done(s.run))
    && (forall i | 0 <= i < |s.finishes| && s.finishes[i].Sending? :: Done(s.finishes[i].frame))
  }

  predicate Finishing(s: Session) {
    exists i :: 0 <= i < |s.finishes| && (s.finishes[i].Waiting? || s.finishes[i].Sending?)
  }

  /** Something already under way will render the present state. */
  predicate Covered(s: Session) {
    s.timer || (s.inFlight && s.reschedule) || Finishing(s)
  }

  ghost predicate CoverInv(s: Session) {
    && s.sent != []
    && (LastSent(s) != s.run ==> if Done(s.run) then Finishing(s) else Covered(s))
    && (forall id | id in s.flights && s.flights[id].frame != s.run :: s.reschedule || Finishing(s))
  }

  ghost predicate Inv(s: Session) {
    FlagsInv(s) && OrderInv(s) && CoverInv(s)
  }

  lemma StartedInv(run: RunState)
    ensures Inv(Started(run))
  {
  }

  /** An event settles no run, and changes no run that has settled. */
  lemma PushSettlesNothing(run: RunState, e: Event)
    ensures Done(Reduce(run, e)) <==> Done(run)
    ensures Done(run) ==> Reduce(run, e) == run
  {
    hide CapStaleTexts, PromoteFinalAnswer, ReduceContents, ReduceToolResults, ReducePlan, ReduceTurnDiff;
    match e
    case Result(info) => ResultCounts(run, info);
    case Init(sessionId) => InitAnnounces(run, sessionId);
    case _ => EventsAreQuiet(run, e);
  }

  lemma FinishSettlesRun(run: RunState, kind: FinalKind, meta: FinishMeta, now: nat)
    ensures Done(FinishRun(run, kind, meta, now))
  {
    FinishSettles(run, kind, meta, now);
  }

  lemma StepKeepsFlags(s: Session, m: Move)
    requires FlagsInv(s) && Enabled(s, m)
    ensures FlagsInv(Step(s, m))
  {
    hide Reduce, FinishRun;
    match m
    case TimerFires =>
      assert forall i | 0 <= i < |s.finishes| :: s.finishes[i].Waiting? ==> Ready(s, i);
    case _ =>
  }

  /** When the terminal frame goes out, no flush is in flight. */
  lemma TerminalFrameSailsAlone(s: Session, i: nat)
    requires FlagsInv(s) && Ready(s, i)
    ensures s.flights.Keys == {} && !s.inFlight
  {
  }

  lemma StepKeepsOrder(s: Session, m: Move)
    requires FlagsInv(s) && OrderInv(s) && Enabled(s, m)
    ensures OrderInv(Step(s, m))
  {
    hide Reduce, FinishRun;
    match m
    case Push(event) => PushSettlesNothing(s.run, event);
    case FinishResumes(i, now) =>
      TerminalFrameSailsAlone(s, i);
      FinishSettlesRun(s.run, s.finishes[i].kind, s.finishes[i].meta, now);
    case _ =>
  }

  lemma FinishingWitness(s: Session, i: nat)
    requires i < |s.finishes| && (s.finishes[i].Waiting? || s.finishes[i].Sending?)
    ensures Finishing(s)
  {
  }

  lemma StepKeepsCover(s: Session, m: Move)
    requires Inv(s) && Enabled(s, m)
    ensures CoverInv(Step(s, m))
  {
    hide Reduce, FinishRun;
    var t := Step(s, m);
    match m
    case FinishCalled(kind, meta) => FinishingWitness(t, |s.finishes|);
    case FinishResumes(i, now) => TerminalFrameSailsAlone(s, i);
    case FinishFallsBack(i) => FinishingWitness(t, i);
    case FinishConfirmed(i) =>
      if Finishing(s) {
        var j :| 0 <= j < |s.finishes| && (s.finishes[j].Waiting? || s.finishes[j].Sending?);
        FinishingWitness(t, j);
      }
    case Push(event) => PushSettlesNothing(s.run, event);
    case _ =>
  }

  lemma StepKeepsInv(s: Session, m: Move)
    requires Inv(s) && Enabled(s, m)
    ensures Inv(Step(s, m))
  {
    hide FlagsInv, OrderInv, CoverInv, Step;
    StepKeepsFlags(s, m);
    StepKeepsOrder(s, m);
    StepKeepsCover(s, m);
  }

  lemma {:induction false} RunKeepsInv(s: Session, moves: seq<Move>)
    requires Inv(s) && IsRun(s, moves)
    ensures Inv(After(s, moves))
    decreases |moves|
  {
    hide Inv, Step, Enabled;
    if moves != [] {
      StepKeepsInv(s, moves[0]);
      RunKeepsInv(Step(s, moves[0]), moves[1..]);
    }
  }

  // ---- what every run promises ----

  /** In every run: at most one flush is in flight, frames after a terminal frame are
      terminal, and nothing older is in flight once one has been sent. */
  lemma TerminalFramesComeLast(run: RunState, moves: seq<Move>)
    requires IsRun(Started(run), moves)
    ensures var s := After(Started(run), moves);
            && |s.flights.Keys| <= 1
            && (forall i, j | 0 <= i < j < |s.sent| && Done(s.sent[i]) :: Done(s.sent[j]))
            && ((exists i :: 0 <= i < |s.sent| && Done(s.sent[i])) ==> s.flights.Keys == {})
  {
    StartedInv(run);
    RunKeepsInv(Started(run), moves);
    var s := After(Started(run), moves);
    if i :| 0 <= i < |s.sent| && Done(s.sent[i]) {
      assert i < |s.sent| - 1 ==> Done(LastSent(s));
    }
  }

  /** In every run: a state not yet shown has a timer, a flush to be followed by
      another, or a finish on its way. */
  lemma EveryChangeIsCovered(run: RunState, moves: seq<Move>)
    requires IsRun(Started(run), moves)
    ensures var s := After(Started(run), moves);
            s.sent != [] && (LastSent(s) != s.run ==> Covered(s))
  {
    StartedInv(run);
    RunKeepsInv(Started(run), moves);
  }

  /** Left alone: no push, no call to finish. */
  predicate Internal(m: Move) {
    !m.Push? && !m.FinishCalled?
  }

  predicate Quiet(s: Session) {
    && !s.timer && s.flights.Keys == {}
    && forall i | 0 <= i < |s.finishes| :: s.finishes[i].Released?
  }

  function StageWork(f: FinishStage): nat {
    match f
    case Waiting(_, _, _) => 4
    case Sending(_, fellBack) => if fellBack then 2 else 3
    case Confirming => 1
    case Released => 0
  }

  function FinishWork(finishes: seq<FinishStage>): nat {
    if finishes == [] then 0 else FinishWork(finishes[..|finishes| - 1]) + StageWork(finishes[|finishes| - 1])
  }

  function FlushWork(s: Session): nat {
    if s.flushP.Some? && s.flushP.value in s.flights then (if s.flights[s.flushP.value].fellBack then 1 else 2) else 0
  }

  /** What is left to do if nothing new arrives. */
  function Work(s: Session): nat {
    FinishWork(s.finishes) + FlushWork(s) + (if s.timer then 3 else 0) + if s.reschedule then 3 else 0
  }

  lemma {:induction false} FinishAdvances(finishes: seq<FinishStage>, i: nat, f: FinishStage)
    requires i < |finishes|
    ensures FinishWork(finishes[i := f]) == FinishWork(finishes) - StageWork(finishes[i]) + StageWork(f)
  {
    var n := |finishes| - 1;
    if i < n {
      FinishAdvances(finishes[..n], i, f);
      assert finishes[i := f][..n] == finishes[..n][i := f];
    } else {
      assert finishes[i := f][..n] == finishes[..n];
    }
  }

  lemma InternalMovesWork(s: Session, m: Move)
    requires Inv(s) && Enabled(s, m) && Internal(m)
    ensures Work(Step(s, m)) < Work(s)
  {
    hide FinishWork, FinishRun, OrderInv, CoverInv;
    match m
    case FinishResumes(i, now) =>
      FinishAdvances(s.finishes, i, Step(s, m).finishes[i]);
    case FinishFallsBack(i) =>
      FinishAdvances(s.finishes, i, Step(s, m).finishes[i]);
    case FinishDelivered(i) =>
      FinishAdvances(s.finishes, i, Step(s, m).finishes[i]);
    case FinishConfirmed(i) =>
      FinishAdvances(s.finishes, i, Step(s, m).finishes[i]);
    case _ =>
  }

  lemma NothingStuck(s: Session)
    requires Inv(s) && !Quiet(s)
    ensures exists m :: Internal(m) && Enabled(s, m)
  {
    if s.flights.Keys != {} {
      assert Enabled(s, FlushSettles(s.flushP.value)) && Internal(FlushSettles(s.flushP.value));
    } else if i :| 0 <= i < |s.finishes| && !s.finishes[i].Released? {
      var m := if s.finishes[i].Waiting? then FinishResumes(i, 0)
               else if s.finishes[i].Sending? then FinishDelivered(i)
               else FinishConfirmed(i);
      assert Enabled(s, m) && Internal(m);
    } else {
      assert Enabled(s, TimerFires) && Internal(TimerFires);
    }
  }

  lemma QuietShowsTheState(s: Session)
    requires Inv(s) && Quiet(s)
    ensures s.sent != [] && LastSent(s) == s.run
  {
  }

  /** Left alone, a session settles within its remaining work, whichever way its
      sends return; when nothing more can move, what was last sent is the state. */
  lemma {:induction false} SettlesOnTheTruth(s: Session, moves: seq<Move>)
    requires Inv(s) && IsRun(s, moves)
    requires forall i | 0 <= i < |moves| :: Internal(moves[i])
    ensures |moves| <= Work(s)
    ensures var t := After(s, moves);
            (forall m | Internal(m) :: !Enabled(t, m)) ==> t.sent != [] && LastSent(t) == t.run
    decreases |moves|
  {
    hide Step, Enabled, Work, FlagsInv, OrderInv;
    if moves == [] {
      if Quiet(s) {
        QuietShowsTheState(s);
      } else {
        NothingStuck(s);
      }
    } else {
      StepKeepsInv(s, moves[0]);
      InternalMovesWork(s, moves[0]);
      SettlesOnTheTruth(Step(s, moves[0]), moves[1..]);
    }
  }

  // ---- what is sent ----

  /** Coalescing: only a timer, a refusal or a finish sends a frame, each one at most. A
      timer sends the state unless the run has settled, a refused frame goes out again as
      it was, and a finish sends the settled state, and once delivered the state as it is
      then. */
  lemma StepSends(s: Session, m: Move)
    requires Inv(s) && Enabled(s, m)
    ensures Step(s, m).sent == s.sent +
            match m
            case TimerFires => if IsActive(s.run.terminal) then [s.run] else []
            case FlushFallsBack(id) => [s.flights[id].frame]
            case FinishResumes(_, _) => [Step(s, m).run]
            case FinishFallsBack(i) => [s.finishes[i].frame]
            case FinishDelivered(_) => [s.run]
            case _ => []
    ensures m.TimerFires? && IsActive(s.run.terminal) ==> Step(s, m).flights == map[s.minted := Flight(s.run, false)]
    ensures m.FinishResumes? ==> Step(s, m).finishes[m.finish] == Sending(Step(s, m).run, false)
    ensures m.FinishCalled? ==> !Step(s, m).timer && !Step(s, m).reschedule
  {
    hide Reduce, FinishRun, OrderInv, CoverInv;
  }

  // ---- the run that is shown ----

  /** What the finishes called so far were asked for, in the order of the calls. */
  function Calls(moves: seq<Move>): seq<(FinalKind, FinishMeta)> {
    if moves == [] then []
    else
      var last := moves[|moves| - 1];
      Calls(moves[..|moves| - 1]) + if last.FinishCalled? then [(last.kind, last.meta)] else []
  }

  /** The acts of the moves on the run: each push is its event, and a finish that resumes
      is the finish that was called. */
  function Acts(moves: seq<Move>): seq<Act> {
    if moves == [] then []
    else
      var earlier, last := moves[..|moves| - 1], moves[|moves| - 1];
      Acts(earlier) +
      match last
      case Push(event) => [Happens(event)]
      case FinishResumes(i, now) =>
        if i < |Calls(earlier)| then [Finish(Calls(earlier)[i].0, Calls(earlier)[i].1, now)] else []
      case _ => []
  }

  lemma {:induction false} RunSnoc(s: Session, moves: seq<Move>)
    requires moves != [] && IsRun(s, moves)
    ensures var earlier, last := moves[..|moves| - 1], moves[|moves| - 1];
            IsRun(s, earlier) && Enabled(After(s, earlier), last) && After(s, moves) == Step(After(s, earlier), last)
    decreases |moves|
  {
    hide Step, Enabled;
    var earlier := moves[..|moves| - 1];
    if |moves| > 1 {
      RunSnoc(Step(s, moves[0]), moves[1..]);
      assert moves[1..][..|moves[1..]| - 1] == earlier[1..];
    } else {
      assert moves[1..] == [] && earlier == [];
      assert After(Step(s, moves[0]), []) == Step(s, moves[0]);
    }
  }

  /** Each finish called is there, and one that waits still knows what it was asked for. */
  predicate Remembers(s: Session, calls: seq<(FinalKind, FinishMeta)>) {
    && |s.finishes| == |calls|
    && forall i | 0 <= i < |calls| && s.finishes[i].Waiting? :: s.finishes[i].kind == calls[i].0 && s.finishes[i].meta == calls[i].1
  }

  lemma StepActs(s: Session, m: Move, calls: seq<(FinalKind, FinishMeta)>)
    requires Enabled(s, m) && Remembers(s, calls)
    ensures Remembers(Step(s, m), calls + if m.FinishCalled? then [(m.kind, m.meta)] else [])
    ensures Step(s, m).run ==
            match m
            case Push(event) => Reduce(s.run, event)
            case FinishResumes(i, now) => FinishRun(s.run, calls[i].0, calls[i].1, now)
            case _ => s.run
  {
    hide Reduce, FinishRun;
  }

  /** In every run of the session the state is exactly what the events pushed and the
      finishes called make of it, each in the order it arrived or resumed. */
  lemma {:induction false} ShowsEveryAct(run: RunState, moves: seq<Move>)
    requires IsRun(Started(run), moves)
    ensures var s := After(Started(run), moves);
            s.run == DoAll(run, Acts(moves)) && Remembers(s, Calls(moves))
    decreases |moves|
  {
    hide Step, Enabled, Remembers, Reduce, FinishRun;
    if moves == [] {
      NothingCalled(run);
    } else {
      var earlier, last := moves[..|moves| - 1], moves[|moves| - 1];
      RunSnoc(Started(run), moves);
      ShowsEveryAct(run, earlier);
      var s := After(Started(run), earlier);
      StepActs(s, last, Calls(earlier));
      assert Calls(moves) == Calls(earlier) + if last.FinishCalled? then [(last.kind, last.meta)] else [];
      ResumesACall(s, last, Calls(earlier));
      match last
      case Push(event) => DoOneMore(run, Acts(earlier), Happens(event));
      case FinishResumes(i, now) => DoOneMore(run, Acts(earlier), Finish(Calls(earlier)[i].0, Calls(earlier)[i].1, now));
      case _ => assert Acts(moves) == Acts(earlier) + [] == Acts(earlier);
    }
  }

  lemma NothingCalled(run: RunState)
    ensures After(Started(run), []) == Started(run) && Remembers(Started(run), Calls([])) && DoAll(run, Acts([])) == run
  {
  }

  lemma ResumesACall(s: Session, m: Move, calls: seq<(FinalKind, FinishMeta)>)
    requires Enabled(s, m) && Remembers(s, calls)
    ensures m.FinishResumes? ==> m.finish < |calls|
  {
  }

  lemma DoOneMore(run: RunState, acts: seq<Act>, a: Act)
    ensures DoAll(run, acts + [a]) == Do(DoAll(run, acts), a)
  {
    assert (acts + [a])[..|acts|] == acts;
  }

  /** How often the finish number `i` has resumed. */
  function Resumed(moves: seq<Move>, i: nat): nat {
    if moves == [] then 0
    else
      var last := moves[|moves| - 1];
      Resumed(moves[..|moves| - 1], i) + if last.FinishResumes? && last.finish == i then 1 else 0
  }

  /** A finish waits until it resumes, and resumes once. */
  lemma {:induction false} ResumesOnce(run: RunState, moves: seq<Move>, i: nat)
    requires IsRun(Started(run), moves) && i < |After(Started(run), moves).finishes|
    ensures Resumed(moves, i) == if After(Started(run), moves).finishes[i].Waiting? then 0 else 1
    decreases |moves|
  {
    if moves != [] {
      var earlier, last := moves[..|moves| - 1], moves[|moves| - 1];
      RunSnoc(Started(run), moves);
      var s := After(Started(run), earlier);
      StepKeepsFinishes(s, last, i);
      hide Step, Enabled;
      if i < |s.finishes| {
        ResumesOnce(run, earlier, i);
      } else {
        NeverResumed(run, earlier, i);
      }
    }
  }

  lemma StepKeepsFinishes(s: Session, m: Move, i: nat)
    requires Enabled(s, m)
    ensures var t := Step(s, m);
            && |s.finishes| <= |t.finishes|
            && (m.FinishResumes? ==> m.finish < |s.finishes| && s.finishes[m.finish].Waiting?)
            && (i < |s.finishes| ==>
                  (t.finishes[i].Waiting? <==> s.finishes[i].Waiting? && !(m.FinishResumes? && m.finish == i)))
            && (|s.finishes| <= i < |t.finishes| ==> t.finishes[i].Waiting?)
  {
    hide Reduce, FinishRun;
  }

  lemma {:induction false} NeverResumed(run: RunState, moves: seq<Move>, i: nat)
    requires IsRun(Started(run), moves) && i >= |After(Started(run), moves).finishes|
    ensures Resumed(moves, i) == 0
    decreases |moves|
  {
    if moves != [] {
      var earlier, last := moves[..|moves| - 1], moves[|moves| - 1];
      RunSnoc(Started(run), moves);
      StepKeepsFinishes(After(Started(run), earlier), last, i);
      hide Step, Enabled;
      NeverResumed(run, earlier, i);
    }
  }

  /** When nothing is left to move, the last frame sent shows every event pushed and every
      finish called: each has resumed exactly once. */
  lemma SettledShowsEveryAct(run: RunState, moves: seq<Move>)
    requires IsRun(Started(run), moves)
    requires forall m | Internal(m) :: !Enabled(After(Started(run), moves), m)
    ensures var s := After(Started(run), moves);
            && s.sent != [] && LastSent(s) == DoAll(run, Acts(moves))
            && forall i | 0 <= i < |Calls(moves)| :: Resumed(moves, i) == 1
  {
    hide Step, Reduce, FinishRun;
    var s := After(Started(run), moves);
    StartedInv(run);
    RunKeepsInv(Started(run), moves);
    ShowsEveryAct(run, moves);
    if !Quiet(s) {
      NothingStuck(s);
    }
    QuietShowsTheState(s);
    forall i | 0 <= i < |Calls(moves)|
      ensures Resumed(moves, i) == 1
    {
      ResumesOnce(run, moves, i);
    }
  }

  /** Once the run has settled, a push shows nothing new. */
  lemma LatePushIsSilent(s: Session, e: Event)
    requires Inv(s) && Done(s.run)
    ensures var t := Step(s, Push(e)); t.run == s.run && t.sent == s.sent && t.finishes == s.finishes
    ensures Step(s, Push(e)).timer && !Finishing(s) ==>
              var t := Step(Step(s, Push(e)), TimerFires); t.sent == s.sent && t.flights.Keys == {}
  {
    PushSettlesNothing(s.run, e);
  }
}
