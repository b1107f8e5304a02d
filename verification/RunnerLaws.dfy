/** What a run can rely on at its start and its end: when its workspace is taken and freed,
    which instance it begins on, and which instances are disposed of. */
module RunnerLaws {
  import opened Texts
  import opened RunnerOwnership

  // ---- taking and freeing a workspace ----

  /** A registered run leaves the register exactly at its own end or at the return of its
      own interrupt, and then its workspace is free. */
  lemma LeavesExactlyAtItsEnd(s: State, e: Event, cwd: Cwd)
    requires Inv(s) && Enabled(s, e) && cwd in s.active
    ensures var t := Step(s, e);
            if EndsRun(s, e, s.active[cwd]) then cwd !in t.active
            else cwd in t.active && t.active[cwd] == s.active[cwd]
  {
    if EndsRun(s, e, s.active[cwd]) {
      hide CacheInv, FreshInv, Without;
      assert s.active[cwd].slot.cwd == cwd;
    } else {
      RegisteredRunStays(s, e, cwd);
    }
  }

  /** Once a run has ended or was stopped, a message for its workspace starts the next. */
  lemma FreedWorkspaceStarts(s: State, e: Event, cwd: Cwd, kind: Kind)
    requires Inv(s) && Enabled(s, e) && cwd in s.active && EndsRun(s, e, s.active[cwd])
    ensures var t := Step(s, e);
            var u := Step(t, Start(Slot(cwd, kind)));
            && |u.runs| == |t.runs| + 1
            && cwd in u.active && u.active[cwd] == u.runs[|t.runs|] && u.active[cwd].slot == Slot(cwd, kind)
  {
    LeavesExactlyAtItsEnd(s, e, cwd);
    StepKeepsInv(s, e);
    hide Inv, Step, EndsRun;
    StartAddsARun(Step(s, e), Slot(cwd, kind));
  }

  lemma StartAddsARun(s: State, slot: Slot)
    requires Inv(s) && slot.cwd !in s.active
    ensures var t := Step(s, Start(slot));
            && |t.runs| == |s.runs| + 1 && t.runs[..|s.runs|] == s.runs
            && slot.cwd in t.active && t.active[slot.cwd] == t.runs[|s.runs|] && t.active[slot.cwd].slot == slot
            && slot in t.slots && t.runs[|s.runs|].instance == t.slots[slot]
            && t.slots == GetRunner(s, slot, true).slots
  {
    GetRunnerKeeps(s, slot, true);
    GetRunnerKeeps(GetRunner(s, slot, true), slot, false);
    hide Inv, GetRunner;
  }

  /** An interrupt stops the run that was registered when it began, whatever has happened
      until its stop returns. */
  lemma {:induction false} InterruptRemembersItsRun(s: State, id: nat, run: Run, events: seq<Event>)
    requires id in s.interrupts && s.interrupts[id] == run && IsRun(s, events)
    requires forall e | e in events :: e != InterruptResumes(id)
    ensures id in After(s, events).interrupts && After(s, events).interrupts[id] == run
    decreases |events|
  {
    if events != [] {
      assert events[0] in events;
      StepKeepsInterrupt(s, events[0], id);
      hide Step, Enabled;
      assert forall e | e in events[1..] :: e in events;
      InterruptRemembersItsRun(Step(s, events[0]), id, run, events[1..]);
    }
  }

  lemma StepKeepsInterrupt(s: State, e: Event, id: nat)
    requires Enabled(s, e) && id in s.interrupts && e != InterruptResumes(id)
    ensures id in Step(s, e).interrupts && Step(s, e).interrupts[id] == s.interrupts[id]
  {
    hide Workspaces, Instances, Idle;
  }

  /** So a run still registered when the stop returns is off the register then. */
  lemma InterruptFreesTheWorkspace(s: State, id: nat, cwd: Cwd, events: seq<Event>)
    requires Inv(s) && Enabled(s, InterruptStarts(id, cwd))
    requires IsRun(Step(s, InterruptStarts(id, cwd)), events) && forall e | e in events :: e != InterruptResumes(id)
    ensures var t := After(Step(s, InterruptStarts(id, cwd)), events);
            && Enabled(t, InterruptResumes(id))
            && (cwd in t.active && t.active[cwd] == s.active[cwd] ==> cwd !in Step(t, InterruptResumes(id)).active)
  {
    var s1 := Step(s, InterruptStarts(id, cwd));
    StepKeepsInv(s, InterruptStarts(id, cwd));
    InterruptRemembersItsRun(s1, id, s.active[cwd], events);
    RunKeepsInv(s1, events);
    var t := After(s1, events);
    if cwd in t.active && t.active[cwd] == s.active[cwd] {
      LeavesExactlyAtItsEnd(t, InterruptResumes(id), cwd);
    }
  }

  /** A run ends once: after its end it is never live again. */
  lemma {:induction false} EndsOnce(s: State, n: nat, events: seq<Event>)
    requires n < |s.runs| && n !in s.live && IsRun(s, events)
    ensures n !in After(s, events).live
    decreases |events|
  {
    if events != [] {
      StepRevivesNone(s, events[0], n);
      hide Step, Enabled;
      EndsOnce(Step(s, events[0]), n, events[1..]);
    }
  }

  lemma StepRevivesNone(s: State, e: Event, n: nat)
    requires Enabled(s, e) && n < |s.runs| && n !in s.live
    ensures n < |Step(s, e).runs| && n !in Step(s, e).live
  {
    hide Workspaces, Instances, Idle;
  }

  lemma EndIsOnce(s: State, run: Run, events: seq<Event>)
    requires Inv(s) && Enabled(s, Finalize(run)) && IsRun(Step(s, Finalize(run)), events)
    ensures !Enabled(After(Step(s, Finalize(run)), events), Finalize(run))
  {
    var t := Step(s, Finalize(run));
    assert t.runs == s.runs && run.id !in t.live by {
      hide Without, Workspaces;
    }
    hide Step, IsRun, After;
    EndsOnce(t, run.id, events);
  }

  // ---- which instance a run begins on ----

  /** The instance is marked wherever it is cached. */
  ghost predicate Retired(s: State, n: nat) {
    n < s.minted && forall x | x in s.slots && s.slots[x] == n :: x in s.stale
  }

  lemma StepKeepsRetired(s: State, e: Event, n: nat)
    requires Inv(s) && Enabled(s, e) && Retired(s, n)
    ensures Retired(Step(s, e), n)
    ensures e.Start? ==> forall i | |s.runs| <= i < |Step(s, e).runs| :: Step(s, e).runs[i].instance != n
    ensures !e.Start? ==> Step(s, e).runs == s.runs
  {
    hide GetRunner, StartStep, FinalizeStep, InterruptStep, ClearStep, Inv, Retired;
    match e
    case Borrow(slot) => LookKeepsRetired(s, slot, false, n);
    case Start(slot) => StartKeepsRetired(s, slot, n);
    case Finalize(run) => FinalizeKeepsRetired(s, run, n);
    case InterruptResumes(id) => InterruptKeepsRetired(s, id, n);
    case ClearRunners => ClearKeepsRetired(s, n);
    case InterruptStarts(id, cwd) => OthersKeepRetired(s, e, n);
    case Report(running) => OthersKeepRetired(s, e, n);
  }

  lemma OthersKeepRetired(s: State, e: Event, n: nat)
    requires Enabled(s, e) && Retired(s, n) && (e.InterruptStarts? || e.Report?)
    ensures Retired(Step(s, e), n) && Step(s, e).runs == s.runs
  {
  }

  lemma WithoutKeepsRetired(s: State, drop: set<Slot>, n: nat)
    requires Retired(s, n)
    ensures Retired(Without(s, drop), n)
  {
  }

  /** A look before a run never yields a marked instance of a free workspace. */
  lemma LookKeepsRetired(s: State, slot: Slot, replaceStale: bool, n: nat)
    requires Inv(s) && Retired(s, n)
    ensures var t := GetRunner(s, slot, replaceStale);
            && Retired(t, n) && slot in t.slots && t.runs == s.runs
            && (replaceStale && slot.cwd !in s.active ==> t.slots[slot] != n)
  {
    GetRunnerKeeps(s, slot, replaceStale);
    LookShape(s, slot, replaceStale);
    WithoutKeepsRetired(s, Gone(s, slot), n);
    CreateKeepsRetired(Without(s, Gone(s, slot)), slot, n);
    hide Inv, GetRunner, Without, Create, Gone, NoRoom;
  }

  lemma CreateKeepsRetired(s: State, slot: Slot, n: nat)
    requires Retired(s, n)
    ensures Retired(Create(s, slot), n) && Create(s, slot).slots[slot] != n
  {
  }

  lemma StartKeepsRetired(s: State, slot: Slot, n: nat)
    requires Inv(s) && Retired(s, n)
    ensures Retired(StartStep(s, slot), n)
    ensures forall i | |s.runs| <= i < |StartStep(s, slot).runs| :: StartStep(s, slot).runs[i].instance != n
  {
    if slot.cwd !in s.active {
      LookKeepsRetired(s, slot, true, n);
      var t := GetRunner(s, slot, true);
      GetRunnerKeeps(s, slot, true);
      LookKeepsRetired(t, slot, false, n);
    }
    hide Inv, GetRunner;
  }

  lemma FinalizeKeepsRetired(s: State, run: Run, n: nat)
    requires Inv(s) && Retired(s, n)
    ensures Retired(FinalizeStep(s, run), n) && FinalizeStep(s, run).runs == s.runs
  {
    hide Inv;
    assert run.slot in s.slots ==> run.slot.cwd in Workspaces(s.slots);
  }

  lemma InterruptKeepsRetired(s: State, id: nat, n: nat)
    requires Retired(s, n) && id in s.interrupts
    ensures Retired(InterruptStep(s, id), n) && InterruptStep(s, id).runs == s.runs
  {
  }

  lemma ClearKeepsRetired(s: State, n: nat)
    requires Retired(s, n)
    ensures Retired(ClearStep(s), n) && ClearStep(s).runs == s.runs
  {
  }

  lemma {:induction false} RetiredBeginsNoRun(s: State, n: nat, events: seq<Event>)
    requires Inv(s) && Retired(s, n) && IsRun(s, events)
    ensures var t := After(s, events);
            |s.runs| <= |t.runs| && forall i | |s.runs| <= i < |t.runs| :: t.runs[i].instance != n
    ensures forall i | 0 <= i < |s.runs| :: After(s, events).runs[i] == s.runs[i]
    decreases |events|
  {
    if events != [] {
      StepKeepsRetired(s, events[0], n);
      StepKeepsInv(s, events[0]);
      RunsGrow(s, events[0]);
      hide Step, Enabled, Inv, Retired;
      RetiredBeginsNoRun(Step(s, events[0]), n, events[1..]);
    }
  }

  lemma RunsGrow(s: State, e: Event)
    requires Inv(s) && Enabled(s, e)
    ensures |s.runs| <= |Step(s, e).runs| && forall i | 0 <= i < |s.runs| :: Step(s, e).runs[i] == s.runs[i]
  {
    if e.Start? && e.slot.cwd !in s.active {
      StartAddsARun(s, e.slot);
    }
    hide Workspaces, Instances, Idle, Inv;
  }

  /** After the interrupt of a registered run whose runner outlives its runs, the slot is
      marked, and no run ever begins on that instance again. */
  lemma InterruptedInstanceIsRetired(s: State, id: nat, events: seq<Event>)
    requires Inv(s) && Enabled(s, InterruptResumes(id))
    requires var run := s.interrupts[id];
             run.slot.cwd in s.active && s.active[run.slot.cwd] == run && run.slot.kind in s.workspaceKinds
    requires IsRun(Step(s, InterruptResumes(id)), events)
    ensures var run := s.interrupts[id];
            var t := Step(s, InterruptResumes(id));
            && run.slot in t.slots && t.slots[run.slot] == run.instance && run.slot in t.stale
            && forall i | |t.runs| <= i < |After(t, events).runs| :: After(t, events).runs[i].instance != run.instance
  {
    var t := Step(s, InterruptResumes(id));
    StepKeepsInv(s, InterruptResumes(id));
    assert Retired(t, s.interrupts[id].instance);
    hide Step, IsRun, After, Retired;
    RetiredBeginsNoRun(t, s.interrupts[id].instance, events);
  }

  /** What is cached and not marked is used again: no instance is made or disposed of. */
  lemma UnmarkedIsUsedAgain(s: State, slot: Slot)
    requires Inv(s) && slot.cwd !in s.active && slot in s.slots && slot !in s.stale
    ensures var t := Step(s, Start(slot));
            && t.active[slot.cwd].instance == s.slots[slot]
            && t.slots == s.slots && t.minted == s.minted && t.evicted == s.evicted
  {
    GetRunnerKeeps(s, slot, true);
    ReplaceKeeps(s, slot, true);
    GetRunnerKeeps(s, slot, false);
    assert GetRunner(s, slot, true) == s;
    hide Inv, GetRunner;
  }

  // ---- which instances go ----

  /** A look at the cache needs a new instance: none is there, or one to be replaced. */
  predicate Misses(s: State, slot: Slot, replaceStale: bool) {
    slot !in s.slots || (replaceStale && slot in s.stale && slot.cwd !in s.active)
  }

  /** The workspace is new to a cache that is full. */
  predicate NoRoom(s: State, slot: Slot) {
    |Workspaces(s.slots - {slot})| >= MAX_CACHED_RUNNER_WORKSPACES && slot.cwd !in Workspaces(s.slots - {slot})
  }

  /** It takes an instance out of the cache exactly when it is the one to be replaced, or
      is idle while there is no room; otherwise the cache is not touched. */
  lemma LookTakesOutIff(s: State, slot: Slot, replaceStale: bool, x: Slot)
    requires Inv(s) && x in s.slots
    ensures var t := GetRunner(s, slot, replaceStale);
            && (x in t.slots && t.slots[x] == s.slots[x] <==>
                !(Misses(s, slot, replaceStale)
                  && (x == slot || (NoRoom(s, slot) && x.cwd !in s.active && s.slots[x] !in s.running))))
            && (!(x in t.slots && t.slots[x] == s.slots[x]) ==> s.slots[x] in t.evicted && s.slots[x] !in t.handlers)
    ensures !Misses(s, slot, replaceStale) ==> GetRunner(s, slot, replaceStale) == s
  {
    LookShape(s, slot, replaceStale);
    hide GetRunner, Replace, Reclaim, OwnerInv, FreshInv, Workspaces, Idle;
    if Misses(s, slot, replaceStale) {
      assert x in Gone(s, slot) <==> x == slot || (NoRoom(s, slot) && x.cwd !in s.active && s.slots[x] !in s.running) by {
        GoneOf(s, slot, x);
      }
      InstanceOf(s, Gone(s, slot), x);
      hide Gone;
    }
  }

  /** What a look that finds no instance to use takes out. */
  function Gone(s: State, slot: Slot): set<Slot> {
    (if slot in s.slots then {slot} else {}) + if NoRoom(s, slot) then Idle(s) else {}
  }

  lemma GoneOf(s: State, slot: Slot, x: Slot)
    requires x in s.slots
    ensures x in Gone(s, slot) <==> x == slot || (NoRoom(s, slot) && x.cwd !in s.active && s.slots[x] !in s.running)
  {
  }

  lemma InstanceOf(s: State, drop: set<Slot>, x: Slot)
    requires Inv(s) && x in s.slots
    ensures s.slots[x] in Instances(s.slots, drop) <==> x in drop
  {
  }

  /** In one stroke: what goes, and what is made. */
  lemma LookShape(s: State, slot: Slot, replaceStale: bool)
    ensures GetRunner(s, slot, replaceStale) ==
            if Misses(s, slot, replaceStale) then Create(Without(s, Gone(s, slot)), slot) else s
  {
    if Misses(s, slot, replaceStale) {
      if slot in s.slots {
        ReplacedShape(s, slot);
      } else {
        AbsentShape(s, slot);
      }
    }
    hide Create, Without, Idle, Workspaces, Instances, Gone, NoRoom, Reclaim, Evict;
  }

  lemma ReplacedShape(s: State, slot: Slot)
    requires slot in s.slots && slot in s.stale && slot.cwd !in s.active
    ensures Evict(s, slot) == Without(s, {slot}) && slot !in Evict(s, slot).slots
    ensures Reclaim(Evict(s, slot), slot.cwd) == Without(s, Gone(s, slot))
    ensures slot !in Without(s, Gone(s, slot)).slots
  {
    assert slot.cwd in Workspaces(s.slots);
    var t := Without(s, {slot});
    assert {slot} + {} == {slot};
    WithoutTwice(s, {slot}, Idle(t));
    assert Idle(t) == Idle(s) - {slot};
    assert {slot} + Idle(t) == {slot} + Idle(s);
  }

  lemma AbsentShape(s: State, slot: Slot)
    requires slot !in s.slots
    ensures Reclaim(s, slot.cwd) == Without(s, Gone(s, slot))
  {
    assert s.slots - {slot} == s.slots;
    assert {} + Idle(s) == Idle(s);
    var none: set<Slot> := {};
    assert none + none == none;
    WithoutNone(s);
  }

  lemma WithoutNone(s: State)
    ensures Without(s, {}) == s
  {
    assert s.slots - {} == s.slots;
  }

  lemma WithoutTwice(s: State, a: set<Slot>, b: set<Slot>)
    ensures Without(Without(s, a), b) == Without(s, a + b)
  {
    assert s.slots - a - b == s.slots - (a + b);
    assert s.stale - a - b == s.stale - (a + b);
    assert Instances(s.slots, a) + Instances(s.slots - a, b) == Instances(s.slots, a + b);
  }

  /** A runner that ends with its run is disposed of at the run's end, and so is one that
      was marked meanwhile; any other stays for the next run. */
  lemma EndDisposesIff(s: State, run: Run)
    requires Inv(s) && Enabled(s, Finalize(run))
    requires run.slot.cwd in s.active && s.active[run.slot.cwd] == run && HasItsInstance(s, run)
    ensures var t := Step(s, Finalize(run));
            && run.slot !in t.stale && t.slots == (if run.slot in t.slots then s.slots else s.slots - {run.slot})
            && (HasItsInstance(t, run) <==> run.slot.kind in s.workspaceKinds && run.slot !in s.stale)
            && (run.instance in t.evicted <==> !HasItsInstance(t, run))
            && (run.instance in t.handlers <==> HasItsInstance(t, run))
  {
    assert run.slot.cwd in Workspaces(s.slots);
    assert Instances(s.slots, {run.slot}) == {run.instance} by {
      assert run.slot in {run.slot};
    }
    assert run.instance in s.slots.Values;
    hide Workspaces, Instances;
  }

  /** The return of an interrupt disposes of the instance then in the slot of the run it
      stopped, unless such runners outlive their runs. */
  lemma InterruptDisposesIff(s: State, id: nat)
    requires Inv(s) && Enabled(s, InterruptResumes(id)) && s.interrupts[id].slot in s.slots
    ensures var slot := s.interrupts[id].slot;
            var t := Step(s, InterruptResumes(id));
            && (slot in t.slots <==> slot.kind in s.workspaceKinds)
            && (s.slots[slot] in t.evicted <==> slot.kind !in s.workspaceKinds)
            && (slot in t.stale <==> slot.kind in s.workspaceKinds)
            && t.slots - {slot} == s.slots - {slot}
  {
    var slot := s.interrupts[id].slot;
    assert slot.cwd in Workspaces(s.slots);
    assert s.slots[slot] in Instances(s.slots, {slot}) by {
      assert slot in {slot};
    }
  }

  /** A change of configuration leaves the instances of busy workspaces, marked, and
      disposes of all others. */
  lemma ClearLeavesTheBusy(s: State, x: Slot)
    requires Inv(s) && x in s.slots
    ensures var t := Step(s, ClearRunners);
            && (if x.cwd in s.active then x in t.slots && t.slots[x] == s.slots[x] && x in t.stale
                else x !in t.slots && s.slots[x] in t.evicted && s.slots[x] !in t.handlers)
            && t.active == s.active && t.slots.Keys <= s.slots.Keys && t.lastClear == s.minted
  {
    var busy := set slot | slot in s.slots && slot.cwd in s.active;
    assert x in s.slots.Keys - busy <==> x.cwd !in s.active;
    var t := s.(stale := s.stale + busy);
    InstanceOf(s, s.slots.Keys - busy, x);
    hide Inv;
  }

  /** What an instance reports of itself is what reclaiming goes by. */
  lemma ReportedIsSpared(s: State, running: set<nat>, slot: Slot, replaceStale: bool, x: Slot)
    requires Inv(s) && x in s.slots && x != slot && s.slots[x] in running
    ensures var t := GetRunner(Step(s, Report(running)), slot, replaceStale); x in t.slots && t.slots[x] == s.slots[x]
  {
    StepKeepsInv(s, Report(running));
    LookTakesOutIff(Step(s, Report(running)), slot, replaceStale, x);
    hide Inv, GetRunner;
  }
}
