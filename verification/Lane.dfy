/** One workspace's serial lane, as its promise chain sees it: every slot ever
    chained, in order, with what became of it. The display list, the index and the
    lane occupant of `WorkspaceQueue` are views of this chain. */
module Lane {
  import opened Texts

  const MAX_WAITING_QUEUE := 50

  type Key = string

  /** A task closure: the one a slot was enqueued with, or an edit registered for
      a key (edits of one key are told apart by a serial number). */
  datatype Closure = Own(slot: nat) | Edit(key: Key, serial: nat)

  datatype Status =
    | Waiting
    | Cancelled
    | Running(closure: Closure)
    | Skipping                      // its turn came after it was cancelled
    | Done(ran: Option<Closure>)

  datatype Slot = Slot(id: nat, key: Option<Key>, status: Status)

  /** `head` is the first slot not yet settled; `count`, `interrupted` and `edits`
      are the bookkeeping kept beside the chain; `minted` is the last slot id. */
  datatype Lane = Lane(
    chain: seq<Slot>,
    head: nat,
    count: nat,
    interrupted: set<nat>,
    edits: map<Key, Closure>,
    minted: nat)

  const EMPTY := Lane([], 0, 0, {}, map[], 0)

  datatype Event =
    | Enqueue(newKey: Option<Key>)
    | Begin
    | Settle
    | Cancel(key: Key)
    | Replace(key: Key, serial: nat)
    | Reset(expected: nat)
    | MintElsewhere                 // another workspace takes a slot id

  predicate IsBacklog(s: Slot) {
    s.status.Waiting? && s.key.Some?
  }

  /** The keys of the tasks that wait, in chain order. */
  function Backlog(chain: seq<Slot>): seq<Key> {
    if chain == [] then []
    else Backlog(chain[..|chain| - 1])
         + (if IsBacklog(chain[|chain| - 1]) then [chain[|chain| - 1].key.value] else [])
  }

  /** The slot now executing, if any. */
  function Executing(l: Lane): Option<nat> {
    if l.head < |l.chain| && l.chain[l.head].status.Running? then Some(l.chain[l.head].id) else None
  }

  predicate HasKey(chain: seq<Slot>, key: Key) {
    exists i :: 0 <= i < |chain| && chain[i].key == Some(key)
  }

  /** Is slot `i` the waiting slot of `key`? */
  predicate WaitsAs(l: Lane, i: nat, key: Key) {
    i < |l.chain| && l.chain[i].status.Waiting? && l.chain[i].key == Some(key)
  }

  /** Queue keys are minted per enqueue; a slot begins when all before it have
      settled, and settles after it has begun. */
  predicate Enabled(l: Lane, e: Event) {
    match e
    case Enqueue(key) => key.Some? ==> !HasKey(l.chain, key.value)
    case Begin => l.head < |l.chain| && (l.chain[l.head].status.Waiting? || l.chain[l.head].status.Cancelled?)
    case Settle => l.head < |l.chain| && (l.chain[l.head].status.Running? || l.chain[l.head].status.Skipping?)
    case _ => true
  }

  function SetStatus(l: Lane, i: nat, status: Status): Lane
    requires i < |l.chain|
  {
    l.(chain := l.chain[i := l.chain[i].(status := status)])
  }

  /** The closure a slot will run: the edit registered for its key, else its own. */
  function Chosen(l: Lane, s: Slot): Closure {
    if s.key.Some? && s.key.value in l.edits then l.edits[s.key.value] else Own(s.id)
  }

  function DropEdit(l: Lane, key: Option<Key>): Lane {
    if key.Some? then l.(edits := l.edits - {key.value}) else l
  }

  function EnqueueStep(l: Lane, key: Option<Key>): Lane {
    var id := l.minted + 1;
    if key.Some? && |Backlog(l.chain)| >= MAX_WAITING_QUEUE then l.(minted := id)
    else l.(chain := l.chain + [Slot(id, key, Waiting)],
            count := if key.Some? then l.count + 1 else l.count,
            minted := id)
  }

  function BeginStep(l: Lane): Lane
    requires Enabled(l, Begin)
  {
    var s := l.chain[l.head];
    if s.status.Cancelled? then SetStatus(l, l.head, Skipping)
    else DropEdit(SetStatus(l, l.head, Running(Chosen(l, s))), s.key).(count := Max(l.count, 1))
  }

  function SettleStep(l: Lane): Lane
    requires Enabled(l, Settle)
  {
    var s := l.chain[l.head];
    var ran := if s.status.Running? then Some(s.status.closure) else None;
    var settled := SetStatus(l, l.head, Done(ran)).(head := l.head + 1);
    if s.id in l.interrupted then settled.(interrupted := l.interrupted - {s.id})
    else settled.(count := Max(0, l.count - 1))
  }

  /** The waiting slot of `key` at or after `from`. */
  function FindWaiting(l: Lane, key: Key, from: nat): (at: Option<nat>)
    ensures at.Some? ==> from <= at.value && WaitsAs(l, at.value, key)
    ensures at.None? ==> forall i | from <= i < |l.chain| :: !WaitsAs(l, i, key)
    decreases |l.chain| - from
  {
    if from >= |l.chain| then None
    else if WaitsAs(l, from, key) then Some(from)
    else FindWaiting(l, key, from + 1)
  }

  /** Cancelling reaches a waiting task only; a pending edit is dropped anyway. */
  function CancelStep(l: Lane, key: Key): Lane {
    var at := FindWaiting(l, key, 0);
    DropEdit(if at.Some? then SetStatus(l, at.value, Cancelled) else l, Some(key))
  }

  /** An interrupt takes effect only on the slot that is still executing. */
  function ResetStep(l: Lane, expected: nat): Lane {
    if Executing(l) != Some(expected) || l.count == 0 then l
    else l.(count := 0, interrupted := l.interrupted + {expected})
  }

  function Step(l: Lane, e: Event): Lane
    requires Enabled(l, e)
  {
    match e
    case Enqueue(key) => EnqueueStep(l, key)
    case Begin => BeginStep(l)
    case Settle => SettleStep(l)
    case Cancel(key) => CancelStep(l, key)
    case Replace(key, serial) => l.(edits := l.edits[key := Edit(key, serial)])
    case Reset(expected) => ResetStep(l, expected)
    case MintElsewhere => l.(minted := l.minted + 1)
  }

  predicate IsRun(l: Lane, events: seq<Event>)
    decreases |events|
  {
    events == [] || (Enabled(l, events[0]) && IsRun(Step(l, events[0]), events[1..]))
  }

  function After(l: Lane, events: seq<Event>): Lane
    requires IsRun(l, events)
    decreases |events|
  {
    if events == [] then l else After(Step(l, events[0]), events[1..])
  }

  // ---- invariant ----

  /** One slot executes at most, the ones before it are settled, the ones after it
      have not begun; ids and keys are never used twice. */
  ghost predicate Shape(l: Lane) {
    && l.head <= |l.chain|
    && (forall i | 0 <= i < l.head :: l.chain[i].status.Done?)
    && (forall i | l.head < i < |l.chain| :: l.chain[i].status.Waiting? || l.chain[i].status.Cancelled?)
    && (l.head < |l.chain| ==> !l.chain[l.head].status.Done?)
    && (forall i | 0 <= i < |l.chain| ::
          l.chain[i].status.Cancelled? || l.chain[i].status.Skipping? ==> l.chain[i].key.Some?)
    && (forall i | 0 <= i < |l.chain| :: l.chain[i].id <= l.minted)
    && (forall i, j | 0 <= i < j < |l.chain| :: l.chain[i].id < l.chain[j].id)
    && (forall i, j | 0 <= i < j < |l.chain| :: l.chain[i].key.Some? ==> l.chain[i].key != l.chain[j].key)
  }

  /** A closure that slot `s` may run. */
  predicate Belongs(c: Closure, s: Slot) {
    match c
    case Own(id) => id == s.id
    case Edit(key, _) => s.key == Some(key)
  }

  ghost predicate ClosuresAtHome(l: Lane) {
    && (forall k | k in l.edits :: l.edits[k].Edit? && l.edits[k].key == k)
    && (forall i | 0 <= i < |l.chain| ::
          && (l.chain[i].status.Running? ==> Belongs(l.chain[i].status.closure, l.chain[i]))
          && (l.chain[i].status.Done? && l.chain[i].status.ran.Some? ==>
                Belongs(l.chain[i].status.ran.value, l.chain[i])))
  }

  function Unsettled(l: Lane): int {
    |l.chain| - l.head
  }

  /** The count never exceeds the slots it stands for, and an executing task that
      was not interrupted is always counted. */
  ghost predicate Accounted(l: Lane) {
    && (l.interrupted == {} || (Executing(l).Some? && l.interrupted == {Executing(l).value}))
    && l.count <= Unsettled(l) - |l.interrupted|
    && (Executing(l).Some? && Executing(l).value !in l.interrupted ==> l.count >= 1)
  }

  ghost predicate Inv(l: Lane) {
    Shape(l) && ClosuresAtHome(l) && Accounted(l) && |Backlog(l.chain)| <= MAX_WAITING_QUEUE
  }

  // ---- backlog ----

  lemma {:induction false} BacklogSplit(a: seq<Slot>, b: seq<Slot>)
    ensures Backlog(a + b) == Backlog(a) + Backlog(b)
  {
    if b == [] {
      assert a + b == a;
    } else {
      assert (a + b)[..|a + b| - 1] == a + b[..|b| - 1];
      BacklogSplit(a, b[..|b| - 1]);
    }
  }

  /** Taking a waiting slot out of the waiting state removes its key, where it
      stood, and nothing else. */
  lemma BacklogWithout(chain: seq<Slot>, i: nat, status: Status)
    requires i < |chain| && !status.Waiting?
    ensures var rest := chain[i := chain[i].(status := status)];
            && Backlog(rest) == Backlog(chain[..i]) + Backlog(chain[i + 1..])
            && Backlog(chain) == Backlog(chain[..i])
                                 + (if IsBacklog(chain[i]) then [chain[i].key.value] else [])
                                 + Backlog(chain[i + 1..])
  {
    var rest := chain[i := chain[i].(status := status)];
    BacklogAround(chain, i);
    BacklogAround(rest, i);
    assert rest[..i] == chain[..i] && rest[i + 1..] == chain[i + 1..];
  }

  lemma BacklogAround(chain: seq<Slot>, i: nat)
    requires i < |chain|
    ensures Backlog(chain) == Backlog(chain[..i])
                              + (if IsBacklog(chain[i]) then [chain[i].key.value] else [])
                              + Backlog(chain[i + 1..])
  {
    hide IsBacklog, Backlog;
    var a, b, c := chain[..i], [chain[i]], chain[i + 1..];
    assert chain == a + (b + c);
    BacklogSplit(a, b + c);
    BacklogSplit(b, c);
    BacklogOfOne(chain[i]);
    assert Backlog(a) + (Backlog(b) + Backlog(c)) == (Backlog(a) + Backlog(b)) + Backlog(c);
  }

  lemma BacklogOfOne(s: Slot)
    ensures Backlog([s]) == if IsBacklog(s) then [s.key.value] else []
  {
    assert [s][..0] == [];
  }

  /** The backlog is exactly the keys of the waiting slots. */
  lemma {:induction false} BacklogHas(chain: seq<Slot>, key: Key)
    ensures key in Backlog(chain) <==> exists i :: 0 <= i < |chain| && IsBacklog(chain[i]) && chain[i].key.value == key
  {
    if chain != [] {
      var init := chain[..|chain| - 1];
      BacklogHas(init, key);
      if key in Backlog(init) {
        var i :| 0 <= i < |init| && IsBacklog(init[i]) && init[i].key.value == key;
        assert IsBacklog(chain[i]);
      }
      if i :| 0 <= i < |chain| && IsBacklog(chain[i]) && chain[i].key.value == key {
        if i < |init| {
          assert IsBacklog(init[i]);
        }
      }
    }
  }

  // ---- every step keeps the invariant ----

  /** The only moves a slot's status makes. */
  predicate Advances(s: Slot, t: Slot) {
    && t.id == s.id && t.key == s.key
    && match s.status
       case Waiting => t.status.Waiting? || (t.status.Cancelled? && s.key.Some?) || t.status.Running?
       case Cancelled => t.status.Cancelled? || t.status.Skipping?
       case Running(c) => t.status == Running(c) || t.status == Done(Some(c))
       case Skipping => t.status.Skipping? || t.status == Done(None)
       case Done(_) => t.status == s.status
  }

  /** A step appends at most one slot, a new waiting one, and moves the status of
      at most one slot, at the head unless it cancels. */
  lemma StepAdvances(l: Lane, e: Event)
    requires Shape(l) && Enabled(l, e)
    ensures var l' := Step(l, e);
            && |l.chain| <= |l'.chain| <= |l.chain| + 1
            && l.minted <= l'.minted
            && (forall i | 0 <= i < |l.chain| :: Advances(l.chain[i], l'.chain[i]))
            && (forall i | 0 <= i < |l.chain| && i != l.head && !e.Cancel? :: l'.chain[i] == l.chain[i])
            && (|l'.chain| > |l.chain| ==>
                  && l'.chain[|l.chain|].status.Waiting?
                  && l'.minted > l.minted && l'.chain[|l.chain|].id == l'.minted
                  && e.Enqueue? && l'.chain[|l.chain|].key == e.newKey)
            && l'.head == (if e.Settle? then l.head + 1 else l.head)
            && (e.Settle? ==> l'.chain[l.head].status.Done?)
            && (!e.Settle? && l.head < |l.chain| ==> !l'.chain[l.head].status.Done?)
            && (e.Cancel? ==> forall i | 0 <= i < |l.chain| ::
                  l'.chain[i] == l.chain[i] || (l.chain[i].status.Waiting? && l'.chain[i].status.Cancelled?))
  {
    hide Backlog, BeginStep, SettleStep, CancelStep;
    match e
    case Begin => BeginMovesTheHead(l);
    case Settle => SettleMovesTheHead(l);
    case Cancel(key) => CancelMovesOneWaiting(l, key);
    case _ =>
  }

  lemma BeginMovesTheHead(l: Lane)
    requires Shape(l) && Enabled(l, Begin)
    ensures var l' := BeginStep(l);
            && |l'.chain| == |l.chain| && l'.minted == l.minted && l'.head == l.head
            && (forall i | 0 <= i < |l.chain| && i != l.head :: l'.chain[i] == l.chain[i])
            && Advances(l.chain[l.head], l'.chain[l.head]) && !l'.chain[l.head].status.Done?
  {
  }

  lemma SettleMovesTheHead(l: Lane)
    requires Shape(l) && Enabled(l, Settle)
    ensures var l' := SettleStep(l);
            && |l'.chain| == |l.chain| && l'.minted == l.minted && l'.head == l.head + 1
            && (forall i | 0 <= i < |l.chain| && i != l.head :: l'.chain[i] == l.chain[i])
            && Advances(l.chain[l.head], l'.chain[l.head]) && l'.chain[l.head].status.Done?
  {
  }

  lemma CancelMovesOneWaiting(l: Lane, key: Key)
    ensures var l' := CancelStep(l, key);
            && |l'.chain| == |l.chain| && l'.minted == l.minted && l'.head == l.head
            && forall i | 0 <= i < |l.chain| ::
                 && Advances(l.chain[i], l'.chain[i])
                 && (l'.chain[i] == l.chain[i] || (l.chain[i].status.Waiting? && l'.chain[i].status.Cancelled?))
  {
  }

  lemma StepKeepsShape(l: Lane, e: Event)
    requires Shape(l) && Enabled(l, e)
    ensures Shape(Step(l, e))
  {
    hide Step;
    StepAdvances(l, e);
    if e.Enqueue? && e.newKey.Some? {
      assert !HasKey(l.chain, e.newKey.value);
    }
  }

  lemma StepKeepsClosuresAtHome(l: Lane, e: Event)
    requires Shape(l) && ClosuresAtHome(l) && Enabled(l, e)
    ensures ClosuresAtHome(Step(l, e))
  {
  }

  lemma SettleKeepsAccounts(l: Lane)
    requires Shape(l) && Accounted(l) && Enabled(l, Settle)
    ensures Accounted(SettleStep(l))
  {
    var s := l.chain[l.head];
    var l' := SettleStep(l);
    assert Executing(l').None?;
    if s.id in l.interrupted {
      assert l.interrupted == {s.id} && l'.interrupted == {};
    } else {
      assert l.interrupted == {} && l'.interrupted == {};
    }
  }

  lemma EnqueueKeepsAccounts(l: Lane, key: Option<Key>)
    requires Shape(l) && Accounted(l)
    ensures Accounted(EnqueueStep(l, key))
  {
    hide Backlog;
    assert Executing(EnqueueStep(l, key)) == Executing(l);
  }

  lemma BeginKeepsAccounts(l: Lane)
    requires Shape(l) && Accounted(l) && Enabled(l, Begin)
    ensures Accounted(BeginStep(l))
  {
    assert l.interrupted == {};
  }

  lemma CancelKeepsAccounts(l: Lane, key: Key)
    requires Shape(l) && Accounted(l)
    ensures Accounted(CancelStep(l, key))
  {
    assert Executing(CancelStep(l, key)) == Executing(l);
  }

  lemma ResetKeepsAccounts(l: Lane, expected: nat)
    requires Accounted(l)
    ensures Accounted(ResetStep(l, expected))
  {
    assert ResetStep(l, expected).interrupted == l.interrupted || ResetStep(l, expected).interrupted == {expected};
  }

  lemma StepKeepsAccounts(l: Lane, e: Event)
    requires Shape(l) && Accounted(l) && Enabled(l, e)
    ensures Accounted(Step(l, e))
  {
    hide Shape, SettleStep, BeginStep, EnqueueStep, CancelStep, ResetStep;
    match e
    case Enqueue(key) => EnqueueKeepsAccounts(l, key);
    case Begin => BeginKeepsAccounts(l);
    case Settle => SettleKeepsAccounts(l);
    case Cancel(key) => CancelKeepsAccounts(l, key);
    case Reset(expected) => ResetKeepsAccounts(l, expected);
    case _ =>
  }

  lemma StepKeepsCap(l: Lane, e: Event)
    requires Shape(l) && Enabled(l, e) && |Backlog(l.chain)| <= MAX_WAITING_QUEUE
    ensures |Backlog(Step(l, e).chain)| <= MAX_WAITING_QUEUE
  {
    match e
    case Enqueue(key) =>
      BacklogSplit(l.chain, [Slot(l.minted + 1, key, Waiting)]);
      assert [Slot(l.minted + 1, key, Waiting)][..0] == [];
    case Begin => BacklogWithout(l.chain, l.head, Step(l, e).chain[l.head].status);
    case Settle => BacklogWithout(l.chain, l.head, Step(l, e).chain[l.head].status);
    case Cancel(key) =>
      var at := FindWaiting(l, key, 0);
      if at.Some? {
        BacklogWithout(l.chain, at.value, Cancelled);
      }
    case _ =>
  }

  lemma StepKeepsInv(l: Lane, e: Event)
    requires Inv(l) && Enabled(l, e)
    ensures Inv(Step(l, e))
  {
    hide Shape, ClosuresAtHome, Accounted, Step;
    StepKeepsShape(l, e);
    StepKeepsClosuresAtHome(l, e);
    StepKeepsAccounts(l, e);
    StepKeepsCap(l, e);
  }

  lemma {:induction false} RunKeepsInv(l: Lane, events: seq<Event>)
    requires Inv(l) && IsRun(l, events)
    ensures Inv(After(l, events))
    decreases |events|
  {
    hide Inv, Step, Enabled;
    if events != [] {
      StepKeepsInv(l, events[0]);
      RunKeepsInv(Step(l, events[0]), events[1..]);
    }
  }

  lemma EmptyInv()
    ensures Inv(EMPTY)
  {
  }

  // ---- what holds in every run ----

  /** Whatever was enqueued, cancelled, edited, interrupted or failed: the marks
      belong to the executing slot, the count is covered by unsettled slots, and an
      executing task that was not interrupted shows the lane as busy. */
  lemma EveryRunIsAccounted(events: seq<Event>)
    requires IsRun(EMPTY, events)
    ensures var l := After(EMPTY, events);
            && (l.interrupted == {} || (Executing(l).Some? && l.interrupted == {Executing(l).value}))
            && l.count <= Unsettled(l) - |l.interrupted|
            && (Executing(l).Some? && Executing(l).value !in l.interrupted ==> l.count >= 1)
            && |Backlog(l.chain)| <= MAX_WAITING_QUEUE
  {
    EmptyInv();
    RunKeepsInv(EMPTY, events);
  }

  /** No count and no mark outlives the work: an idle lane is clean. */
  lemma IdleLaneIsClean(events: seq<Event>)
    requires IsRun(EMPTY, events)
    requires After(EMPTY, events).head == |After(EMPTY, events).chain|
    ensures var l := After(EMPTY, events); l.count == 0 && l.interrupted == {} && Backlog(l.chain) == []
  {
    EmptyInv();
    RunKeepsInv(EMPTY, events);
    var l := After(EMPTY, events);
    if Backlog(l.chain) != [] {
      BacklogHas(l.chain, Backlog(l.chain)[0]);
    }
  }

  /** Ordinary traffic: every task carries metadata and nothing is interrupted. */
  predicate Plain(e: Event) {
    !e.Reset? && (e.Enqueue? ==> e.newKey.Some?)
  }

  lemma {:induction false} PlainRunsCountExactly(l: Lane, events: seq<Event>)
    requires Inv(l) && l.count == Unsettled(l) && l.interrupted == {}
    requires IsRun(l, events) && forall e | e in events :: Plain(e)
    ensures After(l, events).count == Unsettled(After(l, events))
    ensures After(l, events).interrupted == {}
    decreases |events|
  {
    if events != [] {
      StepKeepsInv(l, events[0]);
      PlainStepCountsExactly(l, events[0]);
      PlainRunsCountExactly(Step(l, events[0]), events[1..]);
    }
  }

  lemma PlainStepCountsExactly(l: Lane, e: Event)
    requires l.count == Unsettled(l) && l.interrupted == {}
    requires Enabled(l, e) && Plain(e)
    ensures Step(l, e).count == Unsettled(Step(l, e)) && Step(l, e).interrupted == {}
  {
  }

  /** What can have become of a slot, any number of steps later. */
  predicate Evolves(s: Slot, t: Slot) {
    && t.id == s.id && t.key == s.key
    && match s.status
       case Waiting => true
       case Cancelled => t.status.Cancelled? || t.status.Skipping? || t.status == Done(None)
       case Running(c) => t.status == Running(c) || t.status == Done(Some(c))
       case Skipping => t.status.Skipping? || t.status == Done(None)
       case Done(_) => t.status == s.status
  }

  lemma {:induction false} RunEvolves(l: Lane, events: seq<Event>, i: nat)
    requires Shape(l) && IsRun(l, events) && i < |l.chain|
    ensures i < |After(l, events).chain| && Evolves(l.chain[i], After(l, events).chain[i])
    decreases |events|
  {
    hide Shape, Step, Enabled;
    if events != [] {
      StepAdvances(l, events[0]);
      StepKeepsShape(l, events[0]);
      RunEvolves(Step(l, events[0]), events[1..], i);
    }
  }

  /** A task cancelled before its turn never runs, whatever happens later. */
  lemma CancelledNeverRuns(l: Lane, key: Key, events: seq<Event>, i: nat)
    requires Inv(l) && WaitsAs(l, i, key)
    requires IsRun(l, [Cancel(key)] + events)
    ensures var t := After(l, [Cancel(key)] + events);
            i < |t.chain| && !t.chain[i].status.Running? && (t.chain[i].status.Done? ==> t.chain[i].status.ran.None?)
    ensures key !in Step(l, Cancel(key)).edits
  {
    var run := [Cancel(key)] + events;
    assert run[0] == Cancel(key) && run[1..] == events;
    var l1 := Step(l, Cancel(key));
    StepKeepsInv(l, Cancel(key));
    assert l1.chain[i].status.Cancelled?;
    RunEvolves(l1, events, i);
  }

  /** The interrupt of a task that has settled by the time the runner has stopped
      changes nothing, whoever occupies the lane by then. */
  lemma LateInterruptIsHarmless(l: Lane, events: seq<Event>, i: nat)
    requires Inv(l) && i < |l.chain| && l.chain[i].status.Done?
    requires IsRun(l, events)
    ensures ResetStep(After(l, events), l.chain[i].id) == After(l, events)
  {
    RunKeepsInv(l, events);
    RunEvolves(l, events, i);
    hide IsRun, After, Accounted, ClosuresAtHome, Backlog;
    SettledIsNotExecuting(After(l, events), i);
  }

  lemma SettledIsNotExecuting(l: Lane, i: nat)
    requires Shape(l) && i < |l.chain| && l.chain[i].status.Done?
    ensures Executing(l) != Some(l.chain[i].id)
  {
  }

  /** Interrupting the same execution again grants nothing more. */
  lemma RepeatedInterruptMarksOnce(l: Lane, x: nat)
    requires Inv(l)
    ensures ResetStep(ResetStep(l, x), x) == ResetStep(l, x)
    ensures |ResetStep(l, x).interrupted| <= 1
  {
    ResetKeepsAccounts(l, x);
  }

  /** A mark is there only because that very slot was reset while it was executing. */
  lemma EveryMarkWasReset(events: seq<Event>, x: nat)
    requires IsRun(EMPTY, events) && x in After(EMPTY, events).interrupted
    ensures exists j :: 0 <= j < |events| && events[j] == Reset(x)
                        && IsRun(EMPTY, events[..j]) && Executing(After(EMPTY, events[..j])) == Some(x)
  {
    var j := MarkComesFromReset(EMPTY, events, x);
    assert events[j] == Reset(x);
  }

  lemma {:induction false} MarkComesFromReset(l: Lane, events: seq<Event>, x: nat) returns (j: nat)
    requires IsRun(l, events) && x in After(l, events).interrupted && x !in l.interrupted
    ensures j < |events| && events[j] == Reset(x)
    ensures IsRun(l, events[..j]) && Executing(After(l, events[..j])) == Some(x)
    decreases |events|
  {
    var next := Step(l, events[0]);
    if x in next.interrupted {
      MarkIsMadeByReset(l, events[0], x);
      j := 0;
      assert events[..0] == [];
    } else {
      hide Step, Enabled;
      var k := MarkComesFromReset(next, events[1..], x);
      j := k + 1;
      assert events[..j][1..] == events[1..][..k];
    }
  }

  lemma MarkIsMadeByReset(l: Lane, e: Event, x: nat)
    requires Enabled(l, e) && x in Step(l, e).interrupted && x !in l.interrupted
    ensures e == Reset(x) && Executing(l) == Some(x)
  {
  }

  function Ran(s: Slot): Option<Closure> {
    match s.status
    case Running(c) => Some(c)
    case Done(r) => r
    case _ => None
  }

  /** Tasks begin in the order they were enqueued and one at a time; every closure,
      edits included, runs at most once, and only at the slot it belongs to. */
  lemma SerialAndAtMostOnce(events: seq<Event>, i: nat, j: nat)
    requires IsRun(EMPTY, events)
    requires i < j < |After(EMPTY, events).chain|
    ensures var c := After(EMPTY, events).chain;
            && c[i].id < c[j].id
            && (!c[j].status.Waiting? && !c[j].status.Cancelled? ==> c[i].status.Done?)
            && (Ran(c[i]).Some? ==> Belongs(Ran(c[i]).value, c[i]))
            && (Ran(c[i]).Some? && Ran(c[j]).Some? ==> Ran(c[i]) != Ran(c[j]))
  {
    EmptyInv();
    RunKeepsInv(EMPTY, events);
  }

  // ---- edits ----

  /** The last edit of a key that no cancel of the key follows. */
  function LastEdit(events: seq<Event>, key: Key): Option<nat> {
    if events == [] then None
    else
      var last := events[|events| - 1];
      if last.Replace? && last.key == key then Some(last.serial)
      else if last.Cancel? && last.key == key then None
      else LastEdit(events[..|events| - 1], key)
  }

  /** What the edit registered for a key should be. */
  predicate EditIs(edits: map<Key, Closure>, key: Key, serial: Option<nat>) {
    if serial.Some? then key in edits && edits[key] == Edit(key, serial.value) else key !in edits
  }

  /** No slot of the key has had its turn. */
  predicate NotBegun(l: Lane, key: Key) {
    forall i | 0 <= i < |l.chain| && l.chain[i].key == Some(key) :: l.chain[i].status.Waiting? || l.chain[i].status.Cancelled?
  }

  lemma {:induction false} RunSnoc(l: Lane, events: seq<Event>)
    requires events != [] && IsRun(l, events)
    ensures var earlier, last := events[..|events| - 1], events[|events| - 1];
            IsRun(l, earlier) && Enabled(After(l, earlier), last) && After(l, events) == Step(After(l, earlier), last)
    decreases |events|
  {
    hide Step, Enabled;
    var earlier := events[..|events| - 1];
    if |events| > 1 {
      RunSnoc(Step(l, events[0]), events[1..]);
      assert events[1..][..|events[1..]| - 1] == earlier[1..];
    } else {
      assert events[1..] == [] && earlier == [];
      assert After(Step(l, events[0]), []) == Step(l, events[0]);
    }
  }

  lemma StepKeepsEdit(l: Lane, e: Event, key: Key, serial: Option<nat>)
    requires Shape(l) && Enabled(l, e) && NotBegun(Step(l, e), key)
    requires NotBegun(l, key) ==> EditIs(l.edits, key, serial)
    ensures NotBegun(l, key)
    ensures EditIs(Step(l, e).edits, key,
                   if e.Replace? && e.key == key then Some(e.serial)
                   else if e.Cancel? && e.key == key then None
                   else serial)
  {
    StepAdvances(l, e);
    var t := Step(l, e);
    forall i | 0 <= i < |l.chain| && l.chain[i].key == Some(key)
      ensures l.chain[i].status.Waiting? || l.chain[i].status.Cancelled?
    {
      assert Advances(l.chain[i], t.chain[i]);
    }
    hide Shape, Backlog, FindWaiting, SettleStep;
    match e
    case Begin => BeginLeavesEdit(l, key);
    case Settle => SettleLeavesEdits(l);
    case _ =>
  }

  lemma SettleLeavesEdits(l: Lane)
    requires Enabled(l, Settle)
    ensures SettleStep(l).edits == l.edits
  {
  }

  lemma BeginLeavesEdit(l: Lane, key: Key)
    requires Enabled(l, Begin) && NotBegun(BeginStep(l), key)
    ensures key in BeginStep(l).edits <==> key in l.edits
    ensures key in l.edits ==> BeginStep(l).edits[key] == l.edits[key]
  {
    assert BeginStep(l).chain[l.head].key == l.chain[l.head].key;
  }

  /** In every run, until the slot of a key has its turn, the edit registered for the key
      is the last one that no cancel followed. */
  lemma {:induction false} EditsAreTheLast(events: seq<Event>, key: Key)
    requires IsRun(EMPTY, events) && NotBegun(After(EMPTY, events), key)
    ensures EditIs(After(EMPTY, events).edits, key, LastEdit(events, key))
    decreases |events|
  {
    hide Step, Enabled, NotBegun, EditIs, Inv;
    if events == [] {
      NoEditYet(key);
    } else {
      var earlier, last := events[..|events| - 1], events[|events| - 1];
      RunSnoc(EMPTY, events);
      var l := After(EMPTY, earlier);
      EmptyInv();
      RunKeepsInv(EMPTY, earlier);
      InvIsShaped(l);
      if NotBegun(l, key) {
        EditsAreTheLast(earlier, key);
      }
      StepKeepsEdit(l, last, key, LastEdit(earlier, key));
    }
  }

  lemma NoEditYet(key: Key)
    ensures EditIs(EMPTY.edits, key, LastEdit([], key)) && After(EMPTY, []) == EMPTY
  {
  }

  lemma InvIsShaped(l: Lane)
    requires Inv(l)
    ensures Shape(l)
  {
  }

  lemma HeadHasNotBegun(l: Lane, key: Key)
    requires Shape(l) && WaitsAs(l, l.head, key)
    ensures NotBegun(l, key)
  {
  }

  /** A waiting task that has its turn runs the last edit of its key that no cancel
      followed, and its own closure exactly when there is none; and that is what it has
      run whatever happens later. */
  lemma BeginsTheLastEdit(events: seq<Event>, later: seq<Event>)
    requires IsRun(EMPTY, events) && Enabled(After(EMPTY, events), Begin)
    requires var l := After(EMPTY, events); l.chain[l.head].status.Waiting?
    requires IsRun(Step(After(EMPTY, events), Begin), later)
    ensures var l := After(EMPTY, events);
            var slot := l.chain[l.head];
            var edit := if slot.key.Some? then LastEdit(events, slot.key.value) else None;
            var t := After(Step(l, Begin), later);
            && l.head < |t.chain|
            && Ran(t.chain[l.head]) == Some(if edit.Some? then Edit(slot.key.value, edit.value) else Own(slot.id))
  {
    var l := After(EMPTY, events);
    var slot := l.chain[l.head];
    EmptyInv();
    RunKeepsInv(EMPTY, events);
    InvIsShaped(l);
    if slot.key.Some? {
      HeadHasNotBegun(l, slot.key.value);
      EditsAreTheLast(events, slot.key.value);
    }
    StepKeepsShape(l, Begin);
    hide Inv, IsRun, Shape, After;
    RunEvolves(Step(l, Begin), later, l.head);
  }

  // ---- the cap ----

  /** A task is chained unless it would be the fifty-first to wait; without metadata always. */
  lemma RefusedIffFull(l: Lane, key: Option<Key>)
    requires Enabled(l, Enqueue(key))
    ensures var t := Step(l, Enqueue(key));
            if key.Some? && |Backlog(l.chain)| >= 50 then t.chain == l.chain && t.count == l.count
            else t.chain == l.chain + [Slot(t.minted, key, Waiting)]
    ensures Step(l, Enqueue(key)).minted == l.minted + 1 && Step(l, Enqueue(key)).edits == l.edits
  {
    hide Backlog;
  }

  /** The edit a task has run with is gone. */
  lemma EditIsUsedUp(l: Lane, key: Key)
    requires Enabled(l, Begin) && WaitsAs(l, l.head, key)
    ensures key !in Step(l, Begin).edits
  {
  }

  // ---- interrupts ----

  /** After an interrupt of the task that executes the count starts afresh: until the next
      task begins it is the number of tasks enqueued since. */
  lemma InterruptCountsAfresh(l: Lane, x: nat, events: seq<Event>)
    requires Inv(l) && Executing(l) == Some(x) && l.count > 0
    requires IsRun(Step(l, Reset(x)), events)
    requires forall e | e in events :: !e.Begin? && !e.Reset? && (e.Enqueue? ==> e.newKey.Some?)
    ensures var t := After(Step(l, Reset(x)), events); t.count == |t.chain| - |l.chain|
  {
    var t := Step(l, Reset(x));
    StepKeepsInv(l, Reset(x));
    assert t.chain == l.chain && t.count == 0 && t.interrupted == {x};
    CountsAfresh(t, |l.chain|, events);
  }

  lemma {:induction false} CountsAfresh(l: Lane, n: nat, events: seq<Event>)
    requires Shape(l) && IsRun(l, events) && |l.chain| >= n && l.count == |l.chain| - n
    requires forall e | e in events :: !e.Begin? && !e.Reset? && (e.Enqueue? ==> e.newKey.Some?)
    requires Enabled(l, Settle) ==> l.chain[l.head].id in l.interrupted
    ensures After(l, events).count == |After(l, events).chain| - n
    decreases |events|
  {
    if events != [] {
      StepKeepsShape(l, events[0]);
      StepCountsAfresh(l, n, events[0]);
      hide Shape, Step, Enabled;
      assert forall e | e in events[1..] :: e in events;
      CountsAfresh(Step(l, events[0]), n, events[1..]);
    }
  }

  lemma StepCountsAfresh(l: Lane, n: nat, e: Event)
    requires Shape(l) && |l.chain| >= n && l.count == |l.chain| - n && Enabled(l, e)
    requires !e.Begin? && !e.Reset? && (e.Enqueue? ==> e.newKey.Some?)
    requires Enabled(l, Settle) ==> l.chain[l.head].id in l.interrupted
    ensures var t := Step(l, e);
            && |t.chain| >= n && t.count == |t.chain| - n
            && (Enabled(t, Settle) ==> t.chain[t.head].id in t.interrupted)
  {
    hide Backlog;
  }

  /** A lane with an unsettled slot can always move on, and each slot takes two
      moves: it begins, then settles. */
  lemma {:induction false} LaneDrains(l: Lane) returns (events: seq<Event>)
    requires Inv(l)
    ensures IsRun(l, events) && After(l, events).head == |After(l, events).chain|
    ensures |events| <= 2 * Unsettled(l)
    ensures forall e | e in events :: e.Begin? || e.Settle?
    decreases Unsettled(l)
  {
    if l.head == |l.chain| {
      events := [];
    } else {
      var e := if Enabled(l, Begin) then Begin else Settle;
      StepKeepsInv(l, e);
      var l1 := Step(l, e);
      assert e.Begin? ==> Enabled(l1, Settle);
      var e2 := Settle;
      if e.Begin? {
        StepKeepsInv(l1, e2);
        var rest := LaneDrains(Step(l1, e2));
        events := [e, e2] + rest;
        assert events[1..][1..] == rest;
      } else {
        var rest := LaneDrains(l1);
        events := [e] + rest;
        assert events[1..] == rest;
      }
    }
  }
}
