/** Who owns a cached runner: the cache slots, the marks on stale ones, the run that is
    registered for each workspace, and the interrupts whose stop is still awaited.
    Instances are numbered in the order they are created. */
module RunnerOwnership {
  import opened Texts

  const MAX_CACHED_RUNNER_WORKSPACES := 10

  type Cwd = string
  type Kind = string

  datatype Slot = Slot(cwd: Cwd, kind: Kind)

  /** `cleared` is a history: the number the next instance had when the configuration
      was last changed before this run began. */
  datatype Run = Run(id: nat, slot: Slot, instance: nat, cleared: nat)

  /** `slots` is the cache, a workspace being cached when one of its slots is.
      `workspaceKinds` are the agents whose runners keep a connection across runs;
      `running` is what the runners themselves report. `live` are the runs not yet
      finalized, `handlers` the instances in the exit dispatcher, `evicted` those
      disposed of. */
  datatype State = State(
    workspaceKinds: set<Kind>,
    slots: map<Slot, nat>,
    stale: set<Slot>,
    active: map<Cwd, Run>,
    interrupts: map<nat, Run>,
    live: set<nat>,
    runs: seq<Run>,
    running: set<nat>,
    handlers: set<nat>,
    evicted: set<nat>,
    minted: nat,
    lastClear: nat)

  function Initial(workspaceKinds: set<Kind>): State {
    State(workspaceKinds, map[], {}, map[], map[], {}, [], {}, {}, {}, 0, 0)
  }

  datatype Event =
    | Borrow(slot: Slot)                       // a look at a runner, no run
    | Start(slot: Slot)
    | InterruptStarts(id: nat, cwd: Cwd)
    | InterruptResumes(id: nat)
    | Finalize(run: Run)
    | ClearRunners
    | Report(running: set<nat>)

  predicate Enabled(s: State, e: Event) {
    match e
    case InterruptStarts(id, cwd) => id !in s.interrupts && cwd in s.active
    case InterruptResumes(id) => id in s.interrupts
    case Finalize(run) => run in s.runs && run.id in s.live
    case _ => true
  }

  // ---- the cache ----

  function Workspaces(slots: map<Slot, nat>): set<Cwd> {
    set slot | slot in slots :: slot.cwd
  }

  function Instances(slots: map<Slot, nat>, which: set<Slot>): set<nat> {
    set slot | slot in which && slot in slots :: slots[slot]
  }

  /** Evict the slots in `drop`: their marks and exit handlers go with them. */
  function Without(s: State, drop: set<Slot>): State {
    s.(slots := s.slots - drop,
       stale := s.stale - drop,
       evicted := s.evicted + Instances(s.slots, drop),
       handlers := s.handlers - Instances(s.slots, drop))
  }

  function Evict(s: State, slot: Slot): State {
    if slot.cwd in Workspaces(s.slots) then Without(s, {slot}) else s
  }

  /** Slots of workspaces without a run, whose runner does nothing. */
  function Idle(s: State): set<Slot> {
    set slot | slot in s.slots && slot.cwd !in s.active && s.slots[slot] !in s.running
  }

  function Replace(s: State, slot: Slot, replaceStale: bool): State {
    if slot in s.slots && replaceStale && slot in s.stale && slot.cwd !in s.active then Evict(s, slot) else s
  }

  function Reclaim(s: State, cwd: Cwd): State {
    if |Workspaces(s.slots)| >= MAX_CACHED_RUNNER_WORKSPACES && cwd !in Workspaces(s.slots) then Without(s, Idle(s)) else s
  }

  function Create(s: State, slot: Slot): State {
    s.(slots := s.slots[slot := s.minted], handlers := s.handlers + {s.minted}, minted := s.minted + 1)
  }

  /** The state with a runner in `slot`; the runner is `slots[slot]`. */
  function GetRunner(s: State, slot: Slot, replaceStale: bool): State {
    var t := Replace(s, slot, replaceStale);
    if slot in t.slots then t else Create(Reclaim(t, slot.cwd), slot)
  }

  // ---- runs ----

  /** A busy workspace drops the message. Rendering the card looks at the runner once
      more before the run is registered. */
  function StartStep(s: State, slot: Slot): State {
    if slot.cwd in s.active then s
    else
      var t := GetRunner(s, slot, true);
      var run := Run(|s.runs|, slot, t.slots[slot], s.lastClear);
      var u := GetRunner(t, slot, false);
      u.(active := u.active[slot.cwd := run], live := u.live + {run.id}, runs := u.runs + [run])
  }

  /** After the stop: only the entry of the run that was stopped goes, and a runner that
      outlives its runs is marked, not evicted. */
  function InterruptStep(s: State, id: nat): State
    requires id in s.interrupts
  {
    var run := s.interrupts[id];
    var cwd := run.slot.cwd;
    var t := s.(interrupts := s.interrupts - {id},
                active := if cwd in s.active && s.active[cwd] == run then s.active - {cwd} else s.active);
    if run.slot.kind in s.workspaceKinds then t.(stale := t.stale + {run.slot}) else Evict(t, run.slot)
  }

  function FinalizeStep(s: State, run: Run): State {
    var t := s.(live := s.live - {run.id});
    var cwd := run.slot.cwd;
    if cwd !in s.active || s.active[cwd] != run then t
    else
      var u := t.(active := t.active - {cwd});
      var v := if run.slot.kind !in s.workspaceKinds || run.slot in s.stale then Evict(u, run.slot) else u;
      v.(stale := v.stale - {run.slot})
  }

  /** The slots of busy workspaces are marked, all others evicted. */
  function ClearStep(s: State): State {
    var busy := set slot | slot in s.slots && slot.cwd in s.active;
    var t := s.(stale := s.stale + busy);
    Without(t, s.slots.Keys - busy).(lastClear := s.minted)
  }

  function Step(s: State, e: Event): State
    requires Enabled(s, e)
  {
    match e
    case Borrow(slot) => GetRunner(s, slot, false)
    case Start(slot) => StartStep(s, slot)
    case InterruptStarts(id, cwd) => s.(interrupts := s.interrupts[id := s.active[cwd]])
    case InterruptResumes(id) => InterruptStep(s, id)
    case Finalize(run) => FinalizeStep(s, run)
    case ClearRunners => ClearStep(s)
    case Report(running) => s.(running := running)
  }

  predicate IsRun(s: State, events: seq<Event>)
    decreases |events|
  {
    events == [] || (Enabled(s, events[0]) && IsRun(Step(s, events[0]), events[1..]))
  }

  function After(s: State, events: seq<Event>): State
    requires IsRun(s, events)
    decreases |events|
  {
    if events == [] then s else After(Step(s, events[0]), events[1..])
  }

  // ---- the invariant ----

  /** The cache and the exit dispatcher hold the same instances, each once, and none
      that was disposed of. */
  ghost predicate CacheInv(s: State) {
    && (forall x | x in s.slots :: s.slots[x] < s.minted && s.slots[x] !in s.evicted)
    && (forall x, y | x in s.slots && y in s.slots && x != y :: s.slots[x] != s.slots[y])
    && s.handlers == s.slots.Values
    && (forall n | n in s.evicted :: n < s.minted)
  }

  /** A registered run has not been finalized, and a runner that outlives its runs is
      still in its slot. */
  ghost predicate OwnerInv(s: State) {
    && (forall cwd | cwd in s.active ::
          && s.active[cwd].slot.cwd == cwd && s.active[cwd].id in s.live && s.active[cwd] in s.runs)
    && (forall cwd | cwd in s.active && s.active[cwd].slot.kind in s.workspaceKinds ::
          s.active[cwd].slot in s.slots && s.slots[s.active[cwd].slot] == s.active[cwd].instance)
    && (forall id | id in s.interrupts :: s.interrupts[id] in s.runs)
  }

  /** What was cached before the last change of configuration is marked; and every run
      had an instance created after the last change before it began. */
  ghost predicate FreshInv(s: State) {
    && s.lastClear <= s.minted
    && (forall x | x in s.slots && s.slots[x] < s.lastClear :: x in s.stale)
    && (forall i | 0 <= i < |s.runs| :: s.runs[i].id == i && s.runs[i].cleared <= s.runs[i].instance)
    && (forall n | n in s.live :: n < |s.runs|)
  }

  ghost predicate Inv(s: State) {
    CacheInv(s) && OwnerInv(s) && FreshInv(s)
  }

  lemma WithoutKeeps(s: State, drop: set<Slot>)
    requires CacheInv(s)
    ensures CacheInv(Without(s, drop))
    ensures FreshInv(s) ==> FreshInv(Without(s, drop))
    ensures OwnerInv(s) && (forall x | x in drop && x in s.slots :: x.cwd !in s.active || s.active[x.cwd].slot != x || x.kind !in s.workspaceKinds)
            ==> OwnerInv(Without(s, drop))
  {
    var t := Without(s, drop);
    forall n
      ensures n in t.handlers <==> n in t.slots.Values
    {
      if n in t.slots.Values {
        var x :| x in t.slots && t.slots[x] == n;
        assert n in s.slots.Values;
      }
      if n in t.handlers {
        var x :| x in s.slots && s.slots[x] == n;
        assert x !in drop && x in t.slots && t.slots[x] == n;
      }
    }
  }

  lemma EvictKeeps(s: State, slot: Slot)
    requires Inv(s) && (slot.cwd !in s.active || s.active[slot.cwd].slot != slot || slot.kind !in s.workspaceKinds)
    ensures Inv(Evict(s, slot))
  {
    WithoutKeeps(s, {slot});
  }

  lemma CreateKeeps(s: State, slot: Slot)
    requires Inv(s) && slot !in s.slots
    ensures Inv(Create(s, slot)) && SameRuns(s, Create(s, slot))
  {
    var t := Create(s, slot);
    assert t.handlers == t.slots.Values by {
      assert forall x | x in s.slots :: t.slots[x] == s.slots[x];
      assert t.slots[slot] == s.minted;
    }
  }

  lemma ReplaceKeeps(s: State, slot: Slot, replaceStale: bool)
    requires Inv(s)
    ensures var t := Replace(s, slot, replaceStale);
            Inv(t) && SameRuns(s, t) && (slot in s.slots && slot !in s.stale ==> t == s)
            && (slot in t.slots ==> t == s && !(replaceStale && slot in s.stale && slot.cwd !in s.active))
  {
    hide CacheInv, OwnerInv, FreshInv;
    if slot in s.slots {
      assert slot.cwd in Workspaces(s.slots);
    }
    if slot.cwd !in s.active {
      EvictKeeps(s, slot);
    }
  }

  lemma ReclaimKeeps(s: State, cwd: Cwd)
    requires Inv(s)
    ensures Inv(Reclaim(s, cwd)) && SameRuns(s, Reclaim(s, cwd)) && Reclaim(s, cwd).slots.Keys <= s.slots.Keys
  {
    WithoutKeeps(s, Idle(s));
  }

  /** Everything a look at the cache leaves alone. */
  predicate SameRuns(s: State, t: State) {
    t.active == s.active && t.interrupts == s.interrupts && t.live == s.live && t.runs == s.runs
    && t.lastClear == s.lastClear && t.workspaceKinds == s.workspaceKinds && t.running == s.running
  }

  lemma GetRunnerKeeps(s: State, slot: Slot, replaceStale: bool)
    requires Inv(s)
    ensures var t := GetRunner(s, slot, replaceStale);
            && Inv(t) && slot in t.slots && SameRuns(s, t)
            && (replaceStale && slot.cwd !in s.active ==> s.lastClear <= t.slots[slot])
            && (slot in s.slots && !replaceStale ==> t == s)
  {
    ReplaceKeeps(s, slot, replaceStale);
    var t := Replace(s, slot, replaceStale);
    hide CacheInv, OwnerInv, Replace, Reclaim;
    if slot !in t.slots {
      ReclaimKeeps(t, slot.cwd);
      var u := Reclaim(t, slot.cwd);
      CreateKeeps(u, slot);
      assert Create(u, slot).slots[slot] == u.minted;
    }
  }

  lemma RegisterKeeps(s: State, slot: Slot, run: Run)
    requires Inv(s) && slot.cwd !in s.active && slot in s.slots
    requires run == Run(|s.runs|, slot, s.slots[slot], s.lastClear) && s.lastClear <= s.slots[slot]
    ensures Inv(s.(active := s.active[slot.cwd := run], live := s.live + {run.id}, runs := s.runs + [run]))
  {
    var t := s.(active := s.active[slot.cwd := run], live := s.live + {run.id}, runs := s.runs + [run]);
    assert forall r | r in s.runs :: r in t.runs;
    assert t.runs[|s.runs|] == run;
  }

  lemma StartKeeps(s: State, slot: Slot)
    requires Inv(s)
    ensures Inv(StartStep(s, slot))
  {
    if slot.cwd !in s.active {
      GetRunnerKeeps(s, slot, true);
      var t := GetRunner(s, slot, true);
      GetRunnerKeeps(t, slot, false);
      hide GetRunner, CacheInv, OwnerInv, FreshInv;
      RegisterKeeps(t, slot, Run(|s.runs|, slot, t.slots[slot], s.lastClear));
    }
  }

  lemma InterruptKeeps(s: State, id: nat)
    requires Inv(s) && id in s.interrupts
    ensures Inv(InterruptStep(s, id))
  {
    var run := s.interrupts[id];
    var cwd := run.slot.cwd;
    var t := s.(interrupts := s.interrupts - {id},
                active := if cwd in s.active && s.active[cwd] == run then s.active - {cwd} else s.active);
    assert Inv(t);
    if run.slot.kind !in s.workspaceKinds {
      EvictKeeps(t, run.slot);
    }
  }

  lemma FinalizeKeeps(s: State, run: Run)
    requires Inv(s) && Enabled(s, Finalize(run))
    ensures Inv(FinalizeStep(s, run))
  {
    var t := s.(live := s.live - {run.id});
    var cwd := run.slot.cwd;
    if cwd in s.active && s.active[cwd] == run {
      var u := t.(active := t.active - {cwd});
      SettledKeeps(s, run, u);
      hide CacheInv, OwnerInv;
      EvictKeeps(u, run.slot);
      var v := if run.slot.kind !in s.workspaceKinds || run.slot in s.stale then Evict(u, run.slot) else u;
      assert run.slot in u.slots ==> run.slot.cwd in Workspaces(u.slots);
      UnmarkKeeps(v, run.slot);
    } else {
      SettledKeeps(s, run, t);
    }
  }

  /** A run that is registered nowhere may be finalized. */
  lemma SettledKeeps(s: State, run: Run, t: State)
    requires Inv(s) && run in s.runs
    requires t == s.(live := s.live - {run.id}, active := t.active)
    requires t.active.Keys <= s.active.Keys && forall c | c in t.active :: t.active[c] == s.active[c] && t.active[c] != run
    ensures Inv(t)
  {
    forall c | c in t.active
      ensures t.active[c].id in t.live
    {
      var i :| 0 <= i < |s.runs| && s.runs[i] == t.active[c];
      var j :| 0 <= j < |s.runs| && s.runs[j] == run;
    }
  }

  lemma UnmarkKeeps(s: State, slot: Slot)
    requires Inv(s) && (slot in s.stale ==> slot !in s.slots)
    ensures Inv(s.(stale := s.stale - {slot}))
  {
  }

  lemma ClearKeeps(s: State)
    requires Inv(s)
    ensures Inv(ClearStep(s))
  {
    var busy := set slot | slot in s.slots && slot.cwd in s.active;
    var t := s.(stale := s.stale + busy);
    WithoutKeeps(t, s.slots.Keys - busy);
  }

  lemma StepKeepsInv(s: State, e: Event)
    requires Inv(s) && Enabled(s, e)
    ensures Inv(Step(s, e))
  {
    hide GetRunner, StartStep, InterruptStep, FinalizeStep, ClearStep;
    match e
    case Borrow(slot) => GetRunnerKeeps(s, slot, false);
    case Start(slot) => StartKeeps(s, slot);
    case InterruptResumes(id) => InterruptKeeps(s, id);
    case Finalize(run) => FinalizeKeeps(s, run);
    case ClearRunners => ClearKeeps(s);
    case _ =>
  }

  lemma {:induction false} RunKeepsInv(s: State, events: seq<Event>)
    requires Inv(s) && IsRun(s, events)
    ensures Inv(After(s, events))
    decreases |events|
  {
    hide Inv, Step, Enabled;
    if events != [] {
      StepKeepsInv(s, events[0]);
      RunKeepsInv(Step(s, events[0]), events[1..]);
    }
  }

  // ---- what every run promises ----

  lemma InitialInv(workspaceKinds: set<Kind>)
    ensures Inv(Initial(workspaceKinds))
  {
  }

  /** In every interleaving of starts, interrupts, ends, borrowings and changes of
      configuration: a registered run whose runner outlives its runs still has that
      instance in its slot, neither disposed of nor out of reach of the exit
      dispatcher; every run began on an instance created after the last change of
      configuration; no workspace is held by a run that has ended. */
  lemma RunnersAreOwnedAndFresh(workspaceKinds: set<Kind>, events: seq<Event>)
    requires IsRun(Initial(workspaceKinds), events)
    ensures var s := After(Initial(workspaceKinds), events);
            && (forall cwd | cwd in s.active && s.active[cwd].slot.kind in s.workspaceKinds ::
                  var run := s.active[cwd];
                  && run.slot in s.slots && s.slots[run.slot] == run.instance
                  && run.instance !in s.evicted && run.instance in s.handlers)
            && (forall i | 0 <= i < |s.runs| :: s.runs[i].cleared <= s.runs[i].instance)
            && (forall cwd | cwd in s.active :: s.active[cwd].id in s.live)
            && s.handlers == s.slots.Values
  {
    InitialInv(workspaceKinds);
    RunKeepsInv(Initial(workspaceKinds), events);
    var s := After(Initial(workspaceKinds), events);
    forall cwd | cwd in s.active && s.active[cwd].slot.kind in s.workspaceKinds
      ensures s.active[cwd].instance in s.handlers
    {
      assert s.slots[s.active[cwd].slot] in s.slots.Values;
    }
  }

  /** Only its own end or an interrupt of its own takes a run off the register. */
  lemma RegisteredRunStays(s: State, e: Event, cwd: Cwd)
    requires Inv(s) && Enabled(s, e) && cwd in s.active
    requires !(e.Finalize? && e.run == s.active[cwd])
    requires !(e.InterruptResumes? && s.interrupts[e.id] == s.active[cwd])
    ensures cwd in Step(s, e).active && Step(s, e).active[cwd] == s.active[cwd]
  {
    hide CacheInv, FreshInv, GetRunner;
    match e
    case Start(slot) =>
      GetRunnerKeeps(s, slot, true);
      GetRunnerKeeps(GetRunner(s, slot, true), slot, false);
    case Borrow(slot) => GetRunnerKeeps(s, slot, false);
    case _ =>
  }

  /** A run that ends after it lost its place changes nothing its successor has. */
  lemma LateEndIsHarmless(s: State, run: Run)
    requires Inv(s) && Enabled(s, Finalize(run))
    requires run.slot.cwd in s.active ==> s.active[run.slot.cwd] != run
    ensures Step(s, Finalize(run)) == s.(live := s.live - {run.id})
  {
  }

  /** A message for a busy workspace starts nothing; any other starts a run, on the
      instance then in its slot. */
  lemma StartRegisters(s: State, slot: Slot)
    requires Inv(s)
    ensures slot.cwd in s.active ==> StartStep(s, slot) == s
    ensures slot.cwd !in s.active ==>
              var t := StartStep(s, slot);
              && slot.cwd in t.active && t.active[slot.cwd].slot == slot
              && slot in t.slots && t.active[slot.cwd].instance == t.slots[slot] && s.lastClear <= t.slots[slot]
  {
    if slot.cwd !in s.active {
      GetRunnerKeeps(s, slot, true);
      GetRunnerKeeps(GetRunner(s, slot, true), slot, false);
      hide GetRunner;
    }
  }

  /** Making room for a new workspace leaves only those that are busy. */
  lemma ReclaimLeavesTheBusy(s: State, cwd: Cwd)
    requires Inv(s) && cwd !in Workspaces(s.slots)
    ensures var t := Reclaim(s, cwd);
            || |Workspaces(t.slots)| < MAX_CACHED_RUNNER_WORKSPACES
            || (forall x | x in t.slots :: x.cwd in t.active || t.slots[x] in t.running)
  {
  }

  // ---- runners that end with their run ----

  /** The slots of a workspace with a run survive every look at the cache. */
  lemma BusySlotsStay(s: State, slot: Slot, replaceStale: bool, x: Slot)
    requires x in s.slots && x.cwd in s.active
    ensures var t := GetRunner(s, slot, replaceStale); x in t.slots && t.slots[x] == s.slots[x]
  {
  }

  predicate HasItsInstance(s: State, run: Run) {
    run.slot in s.slots && s.slots[run.slot] == run.instance
  }

  /** The run's own end, or the return of its own interrupt. */
  predicate EndsRun(s: State, e: Event, run: Run)
    requires Enabled(s, e)
  {
    (e.Finalize? && e.run == run) || (e.InterruptResumes? && s.interrupts[e.id] == run)
  }

  /** A registered run whose runner ends with its run keeps the instance in its slot
      through every event but the return of an interrupt of another run of that slot. */
  lemma KeepsInstanceIff(s: State, e: Event, cwd: Cwd)
    requires Inv(s) && Enabled(s, e) && cwd in s.active
    requires s.active[cwd].slot.kind !in s.workspaceKinds && HasItsInstance(s, s.active[cwd])
    requires !EndsRun(s, e, s.active[cwd])
    ensures HasItsInstance(Step(s, e), s.active[cwd]) <==>
            !(e.InterruptResumes? && s.interrupts[e.id].slot == s.active[cwd].slot)
  {
    hide CacheInv, FreshInv, GetRunner;
    var slot := s.active[cwd].slot;
    match e
    case Borrow(x) => BusySlotsStay(s, x, false, slot);
    case Start(x) =>
      GetRunnerKeeps(s, x, true);
      BusySlotsStay(s, x, true, slot);
      BusySlotsStay(GetRunner(s, x, true), x, false, slot);
    case InterruptResumes(id) => assert slot.cwd in Workspaces(s.slots);
    case _ =>
  }

  /** No interrupt of another run of its slot is awaited. */
  predicate Unthreatened(s: State, run: Run) {
    forall id | id in s.interrupts :: s.interrupts[id].slot == run.slot ==> s.interrupts[id] == run
  }

  /** The run neither ends nor is stopped. */
  predicate Undisturbed(s: State, run: Run, events: seq<Event>)
    requires IsRun(s, events)
    decreases |events|
  {
    events == [] || (!EndsRun(s, events[0], run) && Undisturbed(Step(s, events[0]), run, events[1..]))
  }

  lemma StaysUnthreatened(s: State, e: Event, cwd: Cwd)
    requires Inv(s) && Enabled(s, e) && cwd in s.active && Unthreatened(s, s.active[cwd]) && !EndsRun(s, e, s.active[cwd])
    ensures Unthreatened(Step(s, e), s.active[cwd])
    ensures Step(s, e).workspaceKinds == s.workspaceKinds
  {
    hide CacheInv, FreshInv, GetRunner;
    match e
    case Start(slot) =>
      GetRunnerKeeps(s, slot, true);
      GetRunnerKeeps(GetRunner(s, slot, true), slot, false);
    case Borrow(slot) => GetRunnerKeeps(s, slot, false);
    case _ =>
  }

  lemma {:induction false} UnthreatenedKeeps(s: State, cwd: Cwd, events: seq<Event>)
    requires Inv(s) && cwd in s.active && s.active[cwd].slot.kind !in s.workspaceKinds
    requires HasItsInstance(s, s.active[cwd]) && Unthreatened(s, s.active[cwd])
    requires IsRun(s, events) && Undisturbed(s, s.active[cwd], events)
    ensures HasItsInstance(After(s, events), s.active[cwd])
    decreases |events|
  {
    hide Inv, Step, Enabled, HasItsInstance;
    if events != [] {
      StepKeepsInv(s, events[0]);
      NotEnded(s, events[0], cwd);
      RegisteredRunStays(s, events[0], cwd);
      StaysUnthreatened(s, events[0], cwd);
      KeepsInstanceIff(s, events[0], cwd);
      UnthreatenedKeeps(Step(s, events[0]), cwd, events[1..]);
    }
  }

  lemma NotEnded(s: State, e: Event, cwd: Cwd)
    requires Inv(s) && Enabled(s, e) && cwd in s.active && Unthreatened(s, s.active[cwd]) && !EndsRun(s, e, s.active[cwd])
    ensures !(e.Finalize? && e.run == s.active[cwd]) && !(e.InterruptResumes? && s.interrupts[e.id] == s.active[cwd])
    ensures !(e.InterruptResumes? && s.interrupts[e.id].slot == s.active[cwd].slot)
  {
  }

  /** Such a run keeps its instance as long as it is not ended or stopped itself, whatever
      else happens, exactly when no interrupt of another run of its slot is awaited. */
  lemma KeepsInstanceThroughout(s: State, cwd: Cwd)
    requires Inv(s) && cwd in s.active && s.active[cwd].slot.kind !in s.workspaceKinds
    requires HasItsInstance(s, s.active[cwd])
    ensures Unthreatened(s, s.active[cwd]) <==>
            forall events | IsRun(s, events) && Undisturbed(s, s.active[cwd], events) ::
              HasItsInstance(After(s, events), s.active[cwd])
  {
    var run := s.active[cwd];
    hide Inv, Step, Enabled, HasItsInstance, Unthreatened;
    if Unthreatened(s, run) {
      forall events | IsRun(s, events) && Undisturbed(s, run, events)
        ensures HasItsInstance(After(s, events), run)
      {
        UnthreatenedKeeps(s, cwd, events);
      }
    } else {
      var events := ThreatComesTrue(s, cwd);
      assert !HasItsInstance(After(s, events), run);
    }
  }

  lemma ThreatComesTrue(s: State, cwd: Cwd) returns (events: seq<Event>)
    requires Inv(s) && cwd in s.active && s.active[cwd].slot.kind !in s.workspaceKinds
    requires HasItsInstance(s, s.active[cwd]) && !Unthreatened(s, s.active[cwd])
    ensures IsRun(s, events) && Undisturbed(s, s.active[cwd], events)
    ensures !HasItsInstance(After(s, events), s.active[cwd])
  {
    var run := s.active[cwd];
    var id :| id in s.interrupts && s.interrupts[id].slot == run.slot && s.interrupts[id] != run;
    var e := InterruptResumes(id);
    KeepsInstanceIff(s, e, cwd);
    hide Step, HasItsInstance;
    assert IsRun(Step(s, e), []) && Undisturbed(Step(s, e), run, []);
    events := [e];
    assert events[1..] == [];
    assert IsRun(s, events) && Undisturbed(s, run, events) && After(s, events) == After(Step(s, e), []);
  }

  /** An interrupt of a run that has ended, its stop still awaited, evicts the instance of
      the run that began meanwhile, for every agent whose runners end with their run. */
  lemma InterruptMayEvictSuccessor(workspaceKinds: set<Kind>, cwd: Cwd, kind: Kind)
    requires kind !in workspaceKinds
    ensures var slot := Slot(cwd, kind);
            var s := Initial(workspaceKinds);
            var first := Run(0, slot, 0, 0);
            var events := [Start(slot), InterruptStarts(0, cwd), Finalize(first), Start(slot), InterruptResumes(0)];
            && IsRun(s, events)
            && var t := After(s, events);
               && cwd in t.active && t.active[cwd].id == 1
               && slot !in t.slots && t.active[cwd].instance in t.evicted
  {
    var slot := Slot(cwd, kind);
    var first := Run(0, slot, 0, 0);
    var opening := [Start(slot), InterruptStarts(0, cwd), Finalize(first)];
    FirstRun(workspaceKinds, slot);
    var s := After(Initial(workspaceKinds), opening);
    SuccessorIsEvicted(s, slot, first);
    hide Step, Enabled, Initial;
    RunCons(Step(s, Start(slot)), InterruptResumes(0), []);
    RunCons(s, Start(slot), [InterruptResumes(0)]);
    RunJoin(Initial(workspaceKinds), opening, [Start(slot)] + [InterruptResumes(0)]);
    assert opening + ([Start(slot)] + [InterruptResumes(0)])
        == [Start(slot), InterruptStarts(0, cwd), Finalize(first), Start(slot), InterruptResumes(0)];
  }

  lemma FirstRun(workspaceKinds: set<Kind>, slot: Slot)
    requires slot.kind !in workspaceKinds
    ensures var first := Run(0, slot, 0, 0);
            var opening := [Start(slot), InterruptStarts(0, slot.cwd), Finalize(first)];
            && IsRun(Initial(workspaceKinds), opening)
            && var s := After(Initial(workspaceKinds), opening);
               s.workspaceKinds == workspaceKinds && s.active == map[] && s.slots == map[] && s.runs == [first]
               && s.interrupts == map[0 := first]
  {
    var first := Run(0, slot, 0, 0);
    var s0 := Initial(workspaceKinds);
    StartStepOn(s0, slot);
    var s1 := Step(s0, Start(slot));
    hide StartStep;
    assert s1.active == map[slot.cwd := first] && s1.slots == map[slot := 0];
    var s2 := Step(s1, InterruptStarts(0, slot.cwd));
    FirstRunEnds(s2, first);
    hide Step;
    RunCons(s2, Finalize(first), []);
    RunCons(s1, InterruptStarts(0, slot.cwd), [Finalize(first)]);
    RunCons(s0, Start(slot), [InterruptStarts(0, slot.cwd)] + [Finalize(first)]);
    assert [Start(slot)] + ([InterruptStarts(0, slot.cwd)] + [Finalize(first)])
        == [Start(slot), InterruptStarts(0, slot.cwd), Finalize(first)];
  }

  lemma {:induction false} RunJoin(s: State, a: seq<Event>, b: seq<Event>)
    requires IsRun(s, a) && IsRun(After(s, a), b)
    ensures IsRun(s, a + b) && After(s, a + b) == After(After(s, a), b)
    decreases |a|
  {
    hide Step, Enabled;
    if a == [] {
      assert a + b == b;
    } else {
      RunJoin(Step(s, a[0]), a[1..], b);
      assert (a + b)[1..] == a[1..] + b;
    }
  }

  lemma FirstRunEnds(s: State, run: Run)
    requires run.slot.kind !in s.workspaceKinds && s.active == map[run.slot.cwd := run] && s.slots == map[run.slot := run.instance]
    requires run in s.runs && run.id in s.live
    ensures var t := Step(s, Finalize(run));
            t.workspaceKinds == s.workspaceKinds && t.active == map[] && t.slots == map[] && t.interrupts == s.interrupts && t.runs == s.runs
  {
    assert run.slot in s.slots && run.slot.cwd in Workspaces(s.slots);
    assert s.slots - {run.slot} == map[];
    assert s.active - {run.slot.cwd} == map[];
  }

  lemma SuccessorIsEvicted(s: State, slot: Slot, first: Run)
    requires slot.kind !in s.workspaceKinds && s.active == map[] && s.slots == map[] && s.runs == [first]
    requires s.interrupts == map[0 := first] && first.slot == slot && first.id == 0
    ensures var t := Step(s, Start(slot));
            && Enabled(t, InterruptResumes(0))
            && var u := Step(t, InterruptResumes(0));
               && slot.cwd in u.active && u.active[slot.cwd].id == 1
               && slot !in u.slots && u.active[slot.cwd].instance in u.evicted
  {
    StartStepOn(s, slot);
    hide StartStep;
    var t := Step(s, Start(slot));
    assert slot in t.slots && t.slots[slot] == s.minted && slot.cwd in Workspaces(t.slots);
    assert s.minted in Instances(t.slots, {slot}) by {
      assert slot in {slot};
    }
  }

  /** A start on an empty cache creates the instance. */
  lemma StartStepOn(s: State, slot: Slot)
    requires s.slots == map[] && slot.cwd !in s.active
    ensures StartStep(s, slot) ==
            Create(s, slot).(active := s.active[slot.cwd := Run(|s.runs|, slot, s.minted, s.lastClear)],
                             live := s.live + {|s.runs|},
                             runs := s.runs + [Run(|s.runs|, slot, s.minted, s.lastClear)])
  {
    assert Workspaces(s.slots) == {};
    assert GetRunner(s, slot, true) == Create(s, slot);
    assert GetRunner(Create(s, slot), slot, false) == Create(s, slot);
  }

  lemma RunCons(s: State, e: Event, rest: seq<Event>)
    requires Enabled(s, e) && IsRun(Step(s, e), rest)
    ensures IsRun(s, [e] + rest) && After(s, [e] + rest) == After(Step(s, e), rest)
  {
    assert ([e] + rest)[1..] == rest;
  }
}
