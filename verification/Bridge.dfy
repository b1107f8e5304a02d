/** The bridge's own maps: runners cached by workspace and agent, marks on stale slots
    and the registered runs, updated in place. Each public method makes one step of
    the machine in `RunnerOwnership`. */
module Bridge {
  import opened Texts
  import opened RunnerOwnership

  /** `slots` is the nested cache as one map; a workspace is cached only while it has
      a slot. */
  ghost predicate Mirrors(runners: map<Cwd, map<Kind, nat>>, slots: map<Slot, nat>) {
    && (forall c | c in runners :: runners[c] != map[])
    && (forall x: Slot :: x in slots <==> x.cwd in runners && x.kind in runners[x.cwd])
    && (forall x: Slot | x in slots :: slots[x] == runners[x.cwd][x.kind])
  }

  class Bridge {
    const workspaceKinds: set<Kind>
    var runners: map<Cwd, map<Kind, nat>>
    var staleRunnerSlots: set<Slot>
    var activeRuns: map<Cwd, Run>
    var isRunning: set<nat>         // reported by the instances themselves
    var exitHandlers: set<nat>
    var nextInstance: nat
    var nextRun: nat
    var lastClear: nat              // history: `nextInstance` at the last change of configuration
    ghost var slots: map<Slot, nat>
    ghost var interrupts: map<nat, Run>
    ghost var live: set<nat>
    ghost var runs: seq<Run>
    ghost var evicted: set<nat>

    ghost function View(): State
      reads this
    {
      State(workspaceKinds, slots, staleRunnerSlots, activeRuns, interrupts, live, runs,
            isRunning, exitHandlers, evicted, nextInstance, lastClear)
    }

    ghost predicate Tidy()
      reads this
    {
      Mirrors(runners, slots) && nextRun == |runs|
    }

    ghost predicate Valid()
      reads this
    {
      Tidy() && Inv(View())
    }

    constructor (workspaceKinds: set<Kind>)
      ensures Valid() && View() == Initial(workspaceKinds)
    {
      this.workspaceKinds := workspaceKinds;
      runners, staleRunnerSlots, activeRuns := map[], {}, map[];
      isRunning, exitHandlers, nextInstance, nextRun := {}, {}, 0, 0;
      slots, interrupts, live, runs, evicted, lastClear := map[], map[], {}, [], {}, 0;
      new;
      InitialInv(workspaceKinds);
    }

    method EvictRunnerSlot(cwd: Cwd, kind: Kind)
      requires Tidy()
      modifies this`runners, this`slots, this`staleRunnerSlots, this`exitHandlers, this`evicted
      ensures Tidy() && View() == Evict(old(View()), Slot(cwd, kind))
      ensures slots == old(slots) - {Slot(cwd, kind)}
      ensures Slot(cwd, kind) in old(slots) ==> Slot(cwd, kind) !in staleRunnerSlots && old(slots)[Slot(cwd, kind)] in evicted
    {
      CachedMeansSlot(runners, slots, cwd);
      CachedSlot(runners, slots, cwd, kind);
      EvictOne(View(), Slot(cwd, kind));
      hide Mirrors, Evict, Workspaces;
      if cwd in runners {
        EvictCached(cwd, kind);
      }
    }

    method EvictCached(cwd: Cwd, kind: Kind)
      requires Tidy() && cwd in runners
      modifies this`runners, this`slots, this`staleRunnerSlots, this`exitHandlers, this`evicted
      ensures Tidy() && slots == old(slots) - {Slot(cwd, kind)} && staleRunnerSlots == old(staleRunnerSlots) - {Slot(cwd, kind)}
      ensures var gone := if Slot(cwd, kind) in old(slots) then {old(slots)[Slot(cwd, kind)]} else {};
              evicted == old(evicted) + gone && exitHandlers == old(exitHandlers) - gone
    {
      CachedSlot(runners, slots, cwd, kind);
      hide Mirrors;
      if kind in runners[cwd] {
        var runner := runners[cwd][kind];
        exitHandlers := exitHandlers - {runner};
        evicted := evicted + {runner};
      }
      staleRunnerSlots := staleRunnerSlots - {Slot(cwd, kind)};
      DeleteSlot(cwd, kind);
    }

    /** Take the slot out of its workspace, and the workspace out when it was the last. */
    method DeleteSlot(cwd: Cwd, kind: Kind)
      requires Mirrors(runners, slots) && cwd in runners
      modifies this`runners, this`slots
      ensures Mirrors(runners, slots) && slots == old(slots) - {Slot(cwd, kind)}
    {
      MirrorsRemove(runners, slots, cwd, kind);
      hide Mirrors;
      var workspace := runners[cwd] - {kind};
      slots := slots - {Slot(cwd, kind)};
      if workspace == map[] {
        runners := runners - {cwd};
      } else {
        runners := runners[cwd := workspace];
      }
    }

    method Snapshot() returns (all: set<Slot>)
      requires Tidy()
      ensures all == slots.Keys
    {
      all := set c, k | c in runners && k in runners[c] :: Slot(c, k);
      SlotsSnapshot(runners, slots, all);
    }

    method ReclaimSlot(slot: Slot)
      requires Tidy() && slot in slots
      modifies this`runners, this`slots, this`staleRunnerSlots, this`exitHandlers, this`evicted
      ensures Tidy()
      ensures View() == ReclaimOne(old(View()), slot)
    {
      CachedSlot(runners, slots, slot.cwd, slot.kind);
      hide Mirrors, Evict;
      if slot.cwd !in activeRuns && runners[slot.cwd][slot.kind] !in isRunning {
        EvictRunnerSlot(slot.cwd, slot.kind);
      }
    }

    /** Drop the idle slots of other workspaces, one by one. */
    method ReclaimIdle()
      requires Tidy()
      modifies this`runners, this`slots, this`staleRunnerSlots, this`exitHandlers, this`evicted
      ensures Tidy() && View() == Without(old(View()), Idle(old(View())))
    {
      ghost var was := View();
      var rest := Snapshot();
      ghost var done: set<Slot> := {};
      NoneReclaimed(was);
      hide Mirrors, Reclaimed, ReclaimOne, Without, Idle;
      while rest != {}
        invariant Tidy() && View() == Reclaimed(was, done)
        invariant done + rest == was.slots.Keys && done !! rest
      {
        var slot :| slot in rest;
        ReclaimOneMore(was, done, slot);
        ReclaimSlot(slot);
        rest := rest - {slot};
        done := done + {slot};
      }
      AllReclaimed(was);
    }

    method GetRunner(cwd: Cwd, kind: Kind, replaceStale: bool) returns (runner: nat)
      requires Tidy()
      modifies this
      ensures Tidy() && View() == RunnerOwnership.GetRunner(old(View()), Slot(cwd, kind), replaceStale)
      ensures Slot(cwd, kind) in View().slots && runner == View().slots[Slot(cwd, kind)]
    {
      ghost var slot := Slot(cwd, kind);
      ghost var was := View();
      hide Evict, Without, Idle, Workspaces, Mirrors;
      CachedSlot(runners, slots, cwd, kind);
      var cached := cwd in runners && kind in runners[cwd];
      var replace := cached && replaceStale && Slot(cwd, kind) in staleRunnerSlots && cwd !in activeRuns;
      if cached && !replace {
        return runners[cwd][kind];
      }
      if replace {
        EvictRunnerSlot(cwd, kind);
        EvictTakesOut(was, slot);
      }
      assert View() == Replace(was, slot, replaceStale) && slot !in View().slots;
      CachedWorkspaces(runners, slots);
      if |runners| >= MAX_CACHED_RUNNER_WORKSPACES && cwd !in runners {
        ReclaimIdle();
        WithoutSlots(Replace(was, slot, replaceStale), Idle(Replace(was, slot, replaceStale)));
      }
      assert View() == Reclaim(Replace(was, slot, replaceStale), cwd);
      runner := Store(cwd, kind);
    }

    /** Create the instance and put it in its slot. */
    method Store(cwd: Cwd, kind: Kind) returns (runner: nat)
      requires Tidy()
      modifies this
      ensures Tidy() && View() == Create(old(View()), Slot(cwd, kind)) && runner == old(nextInstance)
    {
      runner := nextInstance;
      nextInstance := nextInstance + 1;
      exitHandlers := exitHandlers + {runner};
      SetSlot(cwd, kind, runner);
    }

    method SetSlot(cwd: Cwd, kind: Kind, runner: nat)
      requires Mirrors(runners, slots)
      modifies this`runners, this`slots
      ensures Mirrors(runners, slots) && slots == old(slots)[Slot(cwd, kind) := runner]
    {
      MirrorsStore(runners, slots, cwd, kind, runner);
      hide Mirrors;
      slots := slots[Slot(cwd, kind) := runner];
      if cwd !in runners {
        runners := runners[cwd := map[kind := runner]];
      } else {
        var workspace: map<Kind, nat> := runners[cwd];
        workspace := workspace[kind := runner];
        runners := runners[cwd := workspace];
      }
    }

    /** The start of a run, up to its first await. */
    method Forward(cwd: Cwd, kind: Kind) returns (started: Option<Run>)
      requires Valid()
      modifies this
      ensures Valid() && View() == Step(old(View()), Start(Slot(cwd, kind)))
      ensures started.Some? <==> cwd !in old(activeRuns)
      ensures started.Some? ==>
                && cwd in activeRuns && activeRuns[cwd] == started.value
                && started.value.slot == Slot(cwd, kind) && started.value.id == |old(runs)| && runs == old(runs) + [started.value]
                && Slot(cwd, kind) in slots && started.value.instance == slots[Slot(cwd, kind)]
      ensures started.None? ==> View() == old(View())
    {
      StepKeepsInv(View(), Start(Slot(cwd, kind)));
      assert Step(View(), Start(Slot(cwd, kind))) == StartStep(View(), Slot(cwd, kind));
      GetRunnerKeeps(View(), Slot(cwd, kind), true);
      GetRunnerKeeps(RunnerOwnership.GetRunner(View(), Slot(cwd, kind), true), Slot(cwd, kind), false);
      hide Inv, Step, RunnerOwnership.GetRunner, Mirrors;
      if cwd in activeRuns {
        return None;
      }
      var runner := GetRunner(cwd, kind, true);
      var run := Register(cwd, kind, runner);
      return Some(run);
    }

    /** The card asks once more what the runner can do; then the run is registered. */
    method Register(cwd: Cwd, kind: Kind, runner: nat) returns (run: Run)
      requires Tidy()
      modifies this
      ensures Tidy()
      ensures run == Run(|old(runs)|, Slot(cwd, kind), runner, old(lastClear))
      ensures var u := RunnerOwnership.GetRunner(old(View()), Slot(cwd, kind), false);
              View() == u.(active := u.active[cwd := run], live := u.live + {run.id}, runs := u.runs + [run])
    {
      GetRunnerLeavesRuns(View(), Slot(cwd, kind));
      hide RunnerOwnership.GetRunner, Mirrors;
      var _ := GetRunner(cwd, kind, false);
      ghost var u := View();
      run := Run(nextRun, Slot(cwd, kind), runner, lastClear);
      nextRun := nextRun + 1;
      activeRuns := activeRuns[cwd := run];
      live := live + {run.id};
      runs := runs + [run];
      assert View() == u.(active := u.active[cwd := run], live := u.live + {run.id}, runs := u.runs + [run]);
    }

    /** The entry goes only when it is this very run's. */
    method Unregister(run: Run) returns (owned: bool)
      modifies this`activeRuns
      ensures owned <==> run.slot.cwd in old(activeRuns) && old(activeRuns)[run.slot.cwd] == run
      ensures activeRuns == if owned then old(activeRuns) - {run.slot.cwd} else old(activeRuns)
    {
      owned := run.slot.cwd in activeRuns && activeRuns[run.slot.cwd] == run;
      if owned {
        activeRuns := activeRuns - {run.slot.cwd};
      }
    }

    /** `interruptActiveRun` once the stop has returned. */
    method InterruptReturned(ghost id: nat, run: Run)
      requires Valid() && Enabled(View(), InterruptResumes(id)) && interrupts[id] == run
      modifies this
      ensures Valid() && View() == Step(old(View()), InterruptResumes(id))
      ensures activeRuns == if run.slot.cwd in old(activeRuns) && old(activeRuns)[run.slot.cwd] == run
                            then old(activeRuns) - {run.slot.cwd} else old(activeRuns)
      ensures if run.slot.kind in workspaceKinds
              then staleRunnerSlots == old(staleRunnerSlots) + {run.slot} && slots == old(slots)
              else slots == old(slots) - {run.slot}
    {
      StepKeepsInv(View(), InterruptResumes(id));
      assert Step(View(), InterruptResumes(id)) == InterruptStep(View(), id);
      hide Inv, Step, Evict, Mirrors;
      interrupts := interrupts - {id};
      var _ := Unregister(run);
      if run.slot.kind in workspaceKinds {
        staleRunnerSlots := staleRunnerSlots + {run.slot};
      } else {
        EvictRunnerSlot(run.slot.cwd, run.slot.kind);
      }
    }

    /** The `finally` of a run's finalization. */
    method FinalizeRun(run: Run)
      requires Valid() && Enabled(View(), Finalize(run))
      modifies this
      ensures Valid() && View() == Step(old(View()), Finalize(run))
      ensures live == old(live) - {run.id}
      ensures var owned := run.slot.cwd in old(activeRuns) && old(activeRuns)[run.slot.cwd] == run;
              && activeRuns == (if owned then old(activeRuns) - {run.slot.cwd} else old(activeRuns))
              && slots == (if owned && (run.slot.kind !in workspaceKinds || run.slot in old(staleRunnerSlots))
                           then old(slots) - {run.slot} else old(slots))
              && staleRunnerSlots == (if owned then old(staleRunnerSlots) - {run.slot} else old(staleRunnerSlots))
    {
      StepKeepsInv(View(), Finalize(run));
      assert Step(View(), Finalize(run)) == FinalizeStep(View(), run);
      EndShape(View(), run);
      hide Inv, Step, FinalizeStep, Mirrors;
      Conclude(run);
    }

    method Conclude(run: Run)
      requires Tidy()
      modifies this
      ensures Tidy() && View() == FinalizeStep(old(View()), run)
    {
      hide Evict, Mirrors;
      live := live - {run.id};
      var owned := Unregister(run);
      if owned {
        if run.slot.kind !in workspaceKinds || run.slot in staleRunnerSlots {
          EvictRunnerSlot(run.slot.cwd, run.slot.kind);
        }
        staleRunnerSlots := staleRunnerSlots - {run.slot};
      }
    }

    /** Evict what is idle, mark what is busy. */
    method ClearRunners()
      requires Valid()
      modifies this
      ensures Valid() && View() == Step(old(View()), RunnerOwnership.ClearRunners)
      ensures lastClear == nextInstance && activeRuns == old(activeRuns)
      ensures forall x | x in old(slots) ::
                if x.cwd in activeRuns then x in slots && slots[x] == old(slots)[x] && x in staleRunnerSlots
                else x !in slots && old(slots)[x] in evicted
    {
      StepKeepsInv(View(), RunnerOwnership.ClearRunners);
      assert Step(View(), RunnerOwnership.ClearRunners) == ClearStep(View());
      hide Inv, Step, Mirrors, Without;
      MarkOrEvict();
      lastClear := nextInstance;
    }

    method ClearSlot(slot: Slot)
      requires Tidy() && slot in slots
      modifies this`runners, this`slots, this`staleRunnerSlots, this`exitHandlers, this`evicted
      ensures Tidy()
      ensures View() == ClearOne(old(View()), slot)
    {
      hide Mirrors, Evict;
      if slot.cwd in activeRuns {
        staleRunnerSlots := staleRunnerSlots + {slot};
      } else {
        EvictRunnerSlot(slot.cwd, slot.kind);
      }
    }

    method MarkOrEvict()
      requires Tidy()
      modifies this`runners, this`slots, this`staleRunnerSlots, this`exitHandlers, this`evicted
      ensures Tidy()
      ensures var s := old(View());
              View() == Without(s.(stale := s.stale + Busy(s)), s.slots.Keys - Busy(s))
    {
      ghost var was := View();
      var rest := Snapshot();
      ghost var done: set<Slot> := {};
      NothingDone(was);
      hide Mirrors, Cleared, ClearOne, Without, Busy;
      while rest != {}
        invariant Tidy() && View() == Cleared(was, done)
        invariant done + rest == was.slots.Keys && done !! rest
      {
        var slot :| slot in rest;
        ClearOneMore(was, done, slot);
        ClearSlot(slot);
        rest := rest - {slot};
        done := done + {slot};
      }
      AllDone(was);
    }
  }

  /** The cached slots of workspaces with a run. */
  function Busy(s: State): set<Slot> {
    set slot | slot in s.slots && slot.cwd in s.active
  }

  /** The slots in `done` have been marked or evicted. */
  function Cleared(s: State, done: set<Slot>): State {
    Without(s.(stale := s.stale + done * Busy(s)), done - Busy(s))
  }

  function ClearOne(s: State, slot: Slot): State {
    if slot.cwd in s.active then s.(stale := s.stale + {slot}) else Evict(s, slot)
  }

  lemma NothingDone(s: State)
    ensures Cleared(s, {}) == s
  {
    assert {} * Busy(s) == {} && {} - Busy(s) == {};
    assert s.slots - {} == s.slots;
  }

  lemma AllDone(s: State)
    ensures Cleared(s, s.slots.Keys) == Without(s.(stale := s.stale + Busy(s)), s.slots.Keys - Busy(s))
  {
    assert s.slots.Keys * Busy(s) == Busy(s);
  }

  lemma ClearOneMore(s: State, done: set<Slot>, slot: Slot)
    requires slot in s.slots && slot !in done && done <= s.slots.Keys
    ensures var t := Cleared(s, done);
            slot in t.slots && t.slots.Keys <= s.slots.Keys && Cleared(s, done + {slot}) == ClearOne(t, slot)
  {
    var busy := Busy(s);
    if slot.cwd in s.active {
      assert (done + {slot}) * busy == done * busy + {slot};
      assert done + {slot} - busy == done - busy;
      assert s.stale + (done * busy + {slot}) - (done - busy) == s.stale + done * busy - (done - busy) + {slot};
    } else {
      assert (done + {slot}) * busy == done * busy;
      assert done + {slot} - busy == done - busy + {slot};
      WithoutOneMore(s.(stale := s.stale + done * busy), done - busy, slot);
    }
  }

  lemma CachedSlot(runners: map<Cwd, map<Kind, nat>>, slots: map<Slot, nat>, cwd: Cwd, kind: Kind)
    requires Mirrors(runners, slots)
    ensures Slot(cwd, kind) in slots <==> cwd in runners && kind in runners[cwd]
    ensures Slot(cwd, kind) in slots ==> slots[Slot(cwd, kind)] == runners[cwd][kind]
  {
  }

  lemma CachedMeansSlot(runners: map<Cwd, map<Kind, nat>>, slots: map<Slot, nat>, cwd: Cwd)
    requires Mirrors(runners, slots)
    ensures cwd in runners <==> cwd in Workspaces(slots)
  {
    if cwd in runners {
      var k :| k in runners[cwd];
      assert Slot(cwd, k) in slots;
    }
  }

  lemma CachedWorkspaces(runners: map<Cwd, map<Kind, nat>>, slots: map<Slot, nat>)
    requires Mirrors(runners, slots)
    ensures Workspaces(slots) == runners.Keys && |Workspaces(slots)| == |runners|
  {
    forall c
      ensures c in Workspaces(slots) <==> c in runners.Keys
    {
      CachedMeansSlot(runners, slots, c);
    }
    assert |runners.Keys| == |runners|;
  }

  lemma SlotsSnapshot(runners: map<Cwd, map<Kind, nat>>, slots: map<Slot, nat>, snapshot: set<Slot>)
    requires Mirrors(runners, slots)
    requires snapshot == set c, k | c in runners && k in runners[c] :: Slot(c, k)
    ensures snapshot == slots.Keys
  {
    forall x
      ensures x in snapshot <==> x in slots
    {
      assert x == Slot(x.cwd, x.kind);
    }
  }

  lemma MirrorsRemove(runners: map<Cwd, map<Kind, nat>>, slots: map<Slot, nat>, cwd: Cwd, kind: Kind)
    requires Mirrors(runners, slots)
    ensures cwd in runners ==>
              var rest := runners[cwd] - {kind};
              Mirrors(if rest == map[] then runners - {cwd} else runners[cwd := rest], slots - {Slot(cwd, kind)})
  {
    if cwd in runners {
      var rest := runners[cwd] - {kind};
      var next := if rest == map[] then runners - {cwd} else runners[cwd := rest];
      forall x: Slot
        ensures x in slots - {Slot(cwd, kind)} <==> x.cwd in next && x.kind in next[x.cwd]
      {
        assert x == Slot(x.cwd, x.kind);
        if x.cwd == cwd && x.kind in runners[cwd] && x.kind != kind {
          assert x.kind in rest;
        }
      }
    }
  }

  lemma MirrorsStore(runners: map<Cwd, map<Kind, nat>>, slots: map<Slot, nat>, cwd: Cwd, kind: Kind, runner: nat)
    requires Mirrors(runners, slots)
    ensures var workspace: map<Kind, nat> := if cwd in runners then runners[cwd] else map[];
            Mirrors(runners[cwd := workspace[kind := runner]], slots[Slot(cwd, kind) := runner])
  {
    var workspace: map<Kind, nat> := if cwd in runners then runners[cwd] else map[];
    assert kind in workspace[kind := runner];
    assert forall x: Slot :: x == Slot(x.cwd, x.kind);
  }

  lemma EvictOne(s: State, slot: Slot)
    ensures Evict(s, slot) ==
            if slot.cwd !in Workspaces(s.slots) then s
            else
              var gone := if slot in s.slots then {s.slots[slot]} else {};
              s.(slots := s.slots - {slot}, stale := s.stale - {slot}, evicted := s.evicted + gone, handlers := s.handlers - gone)
  {
    assert Instances(s.slots, {slot}) == if slot in s.slots then {s.slots[slot]} else {};
  }

  lemma WithoutNothing(s: State)
    ensures Without(s, {}) == s
  {
    assert s.slots - {} == s.slots;
  }

  lemma WithoutSlots(s: State, drop: set<Slot>)
    ensures var t := Without(s, drop);
            && t.slots == s.slots - drop && t.active == s.active && t.running == s.running && t.stale == s.stale - drop
            && t.minted == s.minted && t.lastClear == s.lastClear
  {
  }

  /** The slots in `done` have been looked at, and evicted when idle. */
  function Reclaimed(s: State, done: set<Slot>): State {
    Without(s, done * Idle(s))
  }

  function ReclaimOne(s: State, slot: Slot): State
    requires slot in s.slots
  {
    if slot.cwd !in s.active && s.slots[slot] !in s.running then Evict(s, slot) else s
  }

  lemma NoneReclaimed(s: State)
    ensures Reclaimed(s, {}) == s
  {
    WithoutNothing(s);
    assert {} * Idle(s) == {};
  }

  lemma AllReclaimed(s: State)
    ensures Reclaimed(s, s.slots.Keys) == Without(s, Idle(s))
  {
    assert s.slots.Keys * Idle(s) == Idle(s);
  }

  lemma ReclaimOneMore(s: State, done: set<Slot>, slot: Slot)
    requires slot in s.slots && slot !in done
    ensures var t := Reclaimed(s, done);
            slot in t.slots && Reclaimed(s, done + {slot}) == ReclaimOne(t, slot)
  {
    if slot in Idle(s) {
      assert (done + {slot}) * Idle(s) == done * Idle(s) + {slot};
      WithoutOneMore(s, done * Idle(s), slot);
    } else {
      assert (done + {slot}) * Idle(s) == done * Idle(s);
    }
  }

  lemma WithoutOneMore(s: State, drop: set<Slot>, slot: Slot)
    requires slot in s.slots && slot !in drop
    ensures Evict(Without(s, drop), slot) == Without(s, drop + {slot})
  {
    var t := Without(s, drop);
    assert slot in t.slots && slot.cwd in Workspaces(t.slots);
    assert s.slots - drop - {slot} == s.slots - (drop + {slot});
    assert s.stale - drop - {slot} == s.stale - (drop + {slot});
    assert Instances(s.slots, drop) + Instances(t.slots, {slot}) == Instances(s.slots, drop + {slot});
  }

  lemma EvictTakesOut(s: State, slot: Slot)
    requires slot in s.slots
    ensures slot !in Evict(s, slot).slots
  {
    assert slot.cwd in Workspaces(s.slots);
  }

  lemma EndShape(s: State, run: Run)
    ensures var t := FinalizeStep(s, run);
            var owned := run.slot.cwd in s.active && s.active[run.slot.cwd] == run;
            && t.live == s.live - {run.id}
            && t.active == (if owned then s.active - {run.slot.cwd} else s.active)
            && t.slots == (if owned && (run.slot.kind !in s.workspaceKinds || run.slot in s.stale)
                           then s.slots - {run.slot} else s.slots)
            && t.stale == (if owned then s.stale - {run.slot} else s.stale)
  {
    if run.slot in s.slots {
      assert run.slot.cwd in Workspaces(s.slots);
    } else {
      assert s.slots - {run.slot} == s.slots;
    }
    hide Workspaces, Instances;
  }

  lemma GetRunnerLeavesRuns(s: State, slot: Slot)
    ensures SameRuns(s, RunnerOwnership.GetRunner(s, slot, false))
  {
  }
}
