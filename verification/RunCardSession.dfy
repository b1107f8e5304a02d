/** The card session's own fields and methods, each refining one move of `CardFlush`. */
module RunCardSession {
  import opened Texts
  import opened RunState
  import opened CardFlush

  class CardSession {
    var state: RunState
    var flushTimer: bool
    var flushInFlight: bool
    var pendingReschedule: bool
    var flushP: Option<nat>
    var minted: nat                 // tells one flush promise from another

    // What the session has outstanding: sends not yet returned, finishes not yet
    // through, and every frame handed over.
    ghost var flights: map<nat, Flight>
    ghost var finishes: seq<FinishStage>
    ghost var sent: seq<RunState>

    ghost function View(): Session
      reads this
    {
      Session(state, flushTimer, flushInFlight, pendingReschedule, flushP, flights, minted, finishes, sent)
    }

    ghost predicate Valid()
      reads this
    {
      Inv(View())
    }

    constructor (initial: RunState)
      ensures Valid() && View() == Started(initial)
    {
      state, flushTimer, flushInFlight, pendingReschedule, flushP := initial, false, false, false, None;
      flights, minted, finishes, sent := map[], 0, [], [initial];
      new;
      StartedInv(initial);
    }

    /** One timer serves every push of a window; a push during a flush asks for
        another flush after it. */
    method ScheduleFlush()
      modifies this
      ensures View() == CardFlush.ScheduleFlush(old(View()))
      ensures flushTimer == (old(flushTimer) || !old(flushInFlight))
      ensures pendingReschedule == (old(pendingReschedule) || (old(flushInFlight) && !old(flushTimer)))
      ensures state == old(state) && sent == old(sent)
    {
      if flushTimer {
        return;
      }
      if flushInFlight {
        pendingReschedule := true;
        return;
      }
      flushTimer := true;
    }

    /** `flush` as far as its await: the frame has been handed over. */
    method Flush()
      modifies this
      ensures View() == CardFlush.Flush(old(View()))
      ensures state == old(state)
      ensures sent == old(sent) + if !old(flushInFlight) && IsActive(state.terminal) then [state] else []
    {
      if flushInFlight {
        return;
      }
      if !IsFlushableState() {
        return;
      }
      flushInFlight := true;
      flights := flights[minted := Flight(state, false)];
      sent := sent + [state];
      flushP := Some(minted);
      minted := minted + 1;
    }

    predicate IsFlushableState()
      reads this
    {
      state.terminal.Running? || state.terminal.Finalizing?
    }

    method FireTimer()
      requires Valid() && Enabled(View(), TimerFires)
      modifies this
      ensures Valid() && View() == Step(old(View()), TimerFires)
      ensures !flushTimer && state == old(state) && sent == old(sent) + if IsActive(state.terminal) then [state] else []
    {
      StepKeepsInv(View(), TimerFires);
      flushTimer := false;
      Flush();
    }

    /** The stream refused the frame: the same frame goes out as a patch. */
    method FallBack(flush: nat)
      requires Valid() && Enabled(View(), FlushFallsBack(flush))
      modifies this
      ensures Valid() && View() == Step(old(View()), FlushFallsBack(flush))
      ensures state == old(state) && sent == old(sent) + [old(flights)[flush].frame]
    {
      StepKeepsInv(View(), FlushFallsBack(flush));
      var frame := flights[flush].frame;
      flights := flights[flush := Flight(frame, true)];
      sent := sent + [frame];
    }

    /** The `finally` of a flush. */
    method SettleFlush(flush: nat)
      requires Valid() && Enabled(View(), FlushSettles(flush))
      modifies this
      ensures Valid() && View() == Step(old(View()), FlushSettles(flush))
      ensures !flushInFlight && !pendingReschedule && flushTimer == old(pendingReschedule)
      ensures state == old(state) && sent == old(sent) && flush !in flights
    {
      StepKeepsInv(View(), FlushSettles(flush));
      flights := flights - {flush};
      flushInFlight := false;
      flushP := None;
      if pendingReschedule {
        pendingReschedule := false;
        ScheduleFlush();
      }
    }

    method CancelPendingFlush() returns (cancelled: bool)
      modifies this
      ensures cancelled == old(flushTimer)
      ensures View() == old(View()).(timer := false, reschedule := false)
    {
      pendingReschedule := false;
      if flushTimer {
        flushTimer := false;
        return true;
      }
      return false;
    }

    method Push(event: Event)
      requires Valid()
      modifies this
      ensures Valid() && View() == Step(old(View()), CardFlush.Push(event))
      ensures state == Reduce(old(state), event) && sent == old(sent) && (flushTimer || pendingReschedule)
    {
      hide Reduce;
      StepKeepsInv(View(), CardFlush.Push(event));
      state := Reduce(state, event);
      ScheduleFlush();
    }

    /** `finish` as far as its first await: nothing pending survives, and what is in
        flight is waited for. */
    method Finish(kind: FinalKind, meta: FinishMeta)
      requires Valid()
      modifies this
      ensures Valid() && View() == Step(old(View()), FinishCalled(kind, meta))
      ensures !flushTimer && !pendingReschedule && state == old(state) && sent == old(sent)
      ensures finishes == old(finishes) + [Waiting(kind, meta, old(flushP))]
    {
      StepKeepsInv(View(), FinishCalled(kind, meta));
      var _ := CancelPendingFlush();
      finishes := finishes + [Waiting(kind, meta, flushP)];
    }

    /** `finish` after that await: the terminal frame is handed over, with no older
        frame in flight. */
    method ResumeFinish(finish: nat, kind: FinalKind, meta: FinishMeta, now: nat)
      requires Valid() && Ready(View(), finish)
      requires finishes[finish].kind == kind && finishes[finish].meta == meta
      modifies this
      ensures Valid() && View() == Step(old(View()), FinishResumes(finish, now))
      ensures state == FinishRun(old(state), kind, meta, now) && sent == old(sent) + [state]
      ensures !flushInFlight && flights.Keys == {} && Done(state) && LastSent(View()) == state
    {
      hide FinishRun;
      StepKeepsInv(View(), FinishResumes(finish, now));
      TerminalFrameSailsAlone(View(), finish);
      FinishSettlesRun(state, kind, meta, now);
      state := FinishRun(state, kind, meta, now);
      finishes := finishes[finish := Sending(state, false)];
      sent := sent + [state];
    }

    /** The terminal frame has been delivered: confirm it with the state as it is. */
    method ConfirmTerminalFrame(finish: nat)
      requires Valid() && Enabled(View(), FinishDelivered(finish))
      modifies this
      ensures Valid() && View() == Step(old(View()), FinishDelivered(finish))
      ensures state == old(state) && sent == old(sent) + [state]
    {
      StepKeepsInv(View(), FinishDelivered(finish));
      finishes := finishes[finish := Confirming];
      sent := sent + [state];
    }
  }
}
