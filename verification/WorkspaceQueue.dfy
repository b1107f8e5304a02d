/** `QueueManager` for one workspace: an ordered list for display, an index for
    lookup, a count, the lane occupant, the interrupt marks and the one-shot edits,
    updated in place. The promise chain itself is the ghost `lane`; each method
    keeps the fields equal to what the chain says. */
module WorkspaceQueue {
  import opened Texts
  import opened Lane

  datatype QueuedTask = QueuedTask(key: Key, chatId: string, preview: string)

  datatype ExecutingInfo = ExecutingInfo(slotId: nat, key: Option<Key>)

  /** The list shows these keys in this order. */
  predicate Lists(tasks: seq<QueuedTask>, keys: seq<Key>) {
    && |tasks| == |keys|
    && forall i | 0 <= i < |tasks| :: tasks[i].key == keys[i]
  }

  /** The index maps exactly the keys of the list, each to its own task. */
  ghost predicate Indexes(index: map<Key, QueuedTask>, tasks: seq<QueuedTask>) {
    && (forall i | 0 <= i < |tasks| :: tasks[i].key in index && index[tasks[i].key] == tasks[i])
    && (forall k | k in index :: exists i :: 0 <= i < |tasks| && tasks[i].key == k)
  }

  /** No key waits twice. */
  lemma BacklogDistinct(l: Lane, i: nat)
    requires Shape(l) && i < |l.chain| && IsBacklog(l.chain[i])
    ensures l.chain[i].key.value !in Backlog(l.chain[..i])
    ensures l.chain[i].key.value !in Backlog(l.chain[i + 1..])
  {
    BacklogHas(l.chain[..i], l.chain[i].key.value);
    BacklogHas(l.chain[i + 1..], l.chain[i].key.value);
  }

  /** Where a waiting task stands, and what is left when it goes. */
  lemma BacklogTaken(l: Lane, i: nat, status: Status)
    requires Shape(l) && i < |l.chain| && IsBacklog(l.chain[i]) && !status.Waiting?
    ensures var left := Backlog(l.chain[..i]); var right := Backlog(l.chain[i + 1..]);
            var key := l.chain[i].key.value;
            && Backlog(l.chain) == left + [key] + right
            && Backlog(SetStatus(l, i, status).chain) == left + right
            && key !in left && key !in right
  {
    BacklogWithout(l.chain, i, status);
    BacklogDistinct(l, i);
  }

  class QueueManager {
    var queuedTasks: seq<QueuedTask>
    var taskIndex: map<Key, QueuedTask>
    var pendingOrExecutingCount: nat
    var executingInfo: Option<ExecutingInfo>
    var interruptedSlots: set<nat>
    var taskReplacements: map<Key, Closure>
    var slotCounter: nat
    ghost var lane: Lane

    /** The list and the index agree with the waiting slots of the chain. */
    ghost predicate Displays()
      reads this
    {
      Lists(queuedTasks, Backlog(lane.chain)) && Indexes(taskIndex, queuedTasks)
    }

    ghost predicate Books()
      reads this
    {
      && pendingOrExecutingCount == lane.count
      && interruptedSlots == lane.interrupted
      && taskReplacements == lane.edits
      && slotCounter == lane.minted
    }

    ghost predicate Occupied()
      reads this
    {
      && (executingInfo.Some? <==> Executing(lane).Some?)
      && (executingInfo.Some? ==>
            && executingInfo.value.slotId == Executing(lane).value
            && executingInfo.value.key == lane.chain[lane.head].key)
    }

    ghost predicate Valid()
      reads this
    {
      Inv(lane) && Displays() && Books() && Occupied()
    }

    constructor ()
      ensures Valid() && lane == EMPTY
    {
      queuedTasks, taskIndex, pendingOrExecutingCount := [], map[], 0;
      executingInfo, interruptedSlots, taskReplacements, slotCounter := None, {}, map[], 0;
      lane := EMPTY;
      new;
      EmptyInv();
    }

    /** A message is refused when the backlog is full. An accepted one gets a card
        when something is ahead of it, and always when a task is executing that was
        not interrupted. */
    method Enqueue(key: Option<Key>, chatId: string, preview: string)
      returns (accepted: bool, slotId: nat, queueCard: bool)
      requires Valid() && Enabled(lane, Event.Enqueue(key))
      modifies this
      ensures Valid() && lane == EnqueueStep(old(lane), key)
      ensures slotId == lane.minted
      ensures accepted <==> key.None? || |Backlog(old(lane).chain)| < MAX_WAITING_QUEUE
      ensures queueCard <==> accepted && key.Some? && (old(lane).count > 0 || Backlog(old(lane).chain) != [])
      ensures accepted && key.Some? && BusyUninterrupted(old(lane)) ==> queueCard
    {
      hide Inv, EnqueueStep, Enabled, Backlog, Indexes;
      StepKeepsInv(lane, Event.Enqueue(key));
      EnqueueViews(lane, key);
      slotCounter := slotCounter + 1;
      slotId := slotCounter;
      accepted, queueCard := true, false;
      BusyLaneCounts(lane);
      if key.Some? {
        accepted, queueCard := RegisterQueuedTask(QueuedTask(key.value, chatId, preview));
      }
      lane := EnqueueStep(lane, key);
    }

    /** The display side of an enqueue. */
    method RegisterQueuedTask(task: QueuedTask) returns (accepted: bool, hasWaitingTasks: bool)
      requires Displays() && task.key !in Backlog(lane.chain)
      modifies this`queuedTasks, this`taskIndex, this`pendingOrExecutingCount
      ensures Indexes(taskIndex, queuedTasks)
      ensures accepted <==> |Backlog(lane.chain)| < MAX_WAITING_QUEUE
      ensures hasWaitingTasks <==> accepted && (old(pendingOrExecutingCount) > 0 || Backlog(lane.chain) != [])
      ensures Lists(queuedTasks, Backlog(lane.chain) + if accepted then [task.key] else [])
      ensures pendingOrExecutingCount == old(pendingOrExecutingCount) + if accepted then 1 else 0
    {
      var currentQueueLength := |queuedTasks|;
      hasWaitingTasks := pendingOrExecutingCount > 0 || currentQueueLength > 0;
      if currentQueueLength >= MAX_WAITING_QUEUE {
        return false, false;
      }
      IndexAppend(taskIndex, queuedTasks, task);
      queuedTasks := queuedTasks + [task];
      taskIndex := taskIndex[task.key := task];
      pendingOrExecutingCount := pendingOrExecutingCount + 1;
      accepted := true;
    }

    /** `findIndex` on the display list. */
    method FindIndex(key: Key) returns (index: int)
      ensures -1 <= index < |queuedTasks|
      ensures index >= 0 ==> queuedTasks[index].key == key
      ensures forall j | 0 <= j < (if index < 0 then |queuedTasks| else index) :: queuedTasks[j].key != key
    {
      for i := 0 to |queuedTasks|
        invariant forall j | 0 <= j < i :: queuedTasks[j].key != key
      {
        if queuedTasks[i].key == key {
          return i;
        }
      }
      return -1;
    }

    /** Take a task out of the list and of the index. */
    method Unlist(key: Key, ghost left: seq<Key>, ghost right: seq<Key>)
      requires Lists(queuedTasks, left + [key] + right) && Indexes(taskIndex, queuedTasks)
      requires key !in left && key !in right
      modifies this`queuedTasks, this`taskIndex
      ensures Lists(queuedTasks, left + right) && Indexes(taskIndex, queuedTasks)
    {
      var index := FindIndex(key);
      assert queuedTasks[|left|].key == key;
      assert index == |left| by {
        assert forall j | 0 <= j < |left| :: queuedTasks[j].key == left[j];
      }
      IndexSplice(taskIndex, queuedTasks, index);
      queuedTasks := queuedTasks[..index] + queuedTasks[index + 1..];
      taskIndex := taskIndex - {key};
    }

    /** The turn of the first unsettled slot. A task cancelled meanwhile runs
        nothing. Any other leaves the list, consumes its edit, re-arms the count
        and becomes the lane occupant. */
    method BeginQueuedTask(slotId: nat, key: Option<Key>) returns (closure: Option<Closure>)
      requires Valid() && Enabled(lane, Begin)
      requires slotId == lane.chain[lane.head].id && key == lane.chain[lane.head].key
      modifies this
      ensures Valid() && lane == BeginStep(old(lane))
      ensures closure == Ran(lane.chain[lane.head])
      ensures closure ==
              if key.Some? && key.value !in Backlog(old(lane).chain) then None
              else if key.Some? && key.value in old(taskReplacements) then Some(old(taskReplacements)[key.value])
              else Some(Own(slotId))
      ensures closure.Some? ==>
                && pendingOrExecutingCount == Max(old(pendingOrExecutingCount), 1)
                && executingInfo == Some(ExecutingInfo(slotId, key))
                && taskReplacements == if key.Some? then old(taskReplacements) - {key.value} else old(taskReplacements)
    {
      hide Inv, BeginStep, Indexes, Backlog, Lists;
      StepKeepsInv(lane, Begin);
      StillQueued(lane, queuedTasks, taskIndex);
      BeginViews(lane);
      BacklogBegins(lane);
      ghost var rest := Backlog(BeginStep(lane).chain);
      assert [] + rest == rest;
      if key.Some? {
        if key.value !in taskIndex {
          lane := BeginStep(lane);
          return None;
        }
        assert [] + [key.value] + rest == Backlog(lane.chain);
        Unlist(key.value, [], rest);
      }
      var replacement := None;
      if key.Some? {
        replacement := TakeTaskReplacement(key.value);
      }
      if pendingOrExecutingCount < 1 {
        pendingOrExecutingCount := 1;
      }
      executingInfo := Some(ExecutingInfo(slotId, key));
      lane := BeginStep(lane);
      closure := if replacement.Some? then replacement else Some(Own(slotId));
    }

    method TakeTaskReplacement(key: Key) returns (replacement: Option<Closure>)
      modifies this`taskReplacements
      ensures replacement == if key in old(taskReplacements) then Some(old(taskReplacements)[key]) else None
      ensures taskReplacements == old(taskReplacements) - {key}
    {
      if key in taskReplacements {
        replacement := Some(taskReplacements[key]);
        taskReplacements := taskReplacements - {key};
      } else {
        replacement := None;
      }
    }

    method SetTaskReplacement(key: Key, serial: nat)
      requires Valid()
      modifies this
      ensures Valid() && lane == Step(old(lane), Replace(key, serial))
      ensures taskReplacements == old(taskReplacements)[key := Edit(key, serial)]
    {
      hide Inv;
      StepKeepsInv(lane, Replace(key, serial));
      taskReplacements := taskReplacements[key := Edit(key, serial)];
      lane := Step(lane, Replace(key, serial));
    }

    /** Cancel a waiting task; anything else is left alone. */
    method RemoveFromQueue(key: Key) returns (removed: bool)
      requires Valid()
      modifies this
      ensures Valid() && lane == CancelStep(old(lane), key)
      ensures removed <==> key in Backlog(old(lane).chain)
      ensures key !in Backlog(lane.chain) && taskReplacements == old(taskReplacements) - {key}
    {
      hide Inv, CancelStep, Indexes;
      StepKeepsInv(lane, Cancel(key));
      ghost var left, right := CancelViews(lane, key);
      IndexTells(taskIndex, queuedTasks, Backlog(lane.chain), key);
      taskReplacements := taskReplacements - {key};
      if key !in taskIndex {
        lane := CancelStep(lane, key);
        return false;
      }
      Unlist(key, left, right);
      lane := CancelStep(lane, key);
      removed := true;
    }

    /** The settle of the slot that began last: its occupancy ends, and it gives
        back its count unless an interrupt has already taken it. */
    method DecrementExecutingCount(slotId: nat)
      requires Valid() && Enabled(lane, Settle) && slotId == lane.chain[lane.head].id
      modifies this
      ensures Valid() && lane == SettleStep(old(lane))
      ensures executingInfo.None? && interruptedSlots == old(interruptedSlots) - {slotId}
      ensures pendingOrExecutingCount ==
              if slotId in old(interruptedSlots) then old(pendingOrExecutingCount) else Max(0, old(pendingOrExecutingCount) - 1)
    {
      hide Inv, SettleStep;
      StepKeepsInv(lane, Settle);
      SettleViews(lane);
      SettleKeepsBacklog(lane);
      if executingInfo.Some? && executingInfo.value.slotId == slotId {
        executingInfo := None;
      }
      if slotId in interruptedSlots {
        interruptedSlots := interruptedSlots - {slotId};
      } else {
        pendingOrExecutingCount := Max(0, pendingOrExecutingCount - 1);
      }
      lane := SettleStep(lane);
    }

    /** Called after the runner has stopped, with the slot that was executing when
        the stop began. */
    method ResetExecutingCount(expectedSlot: nat)
      requires Valid()
      modifies this
      ensures Valid() && lane == ResetStep(old(lane), expectedSlot)
      ensures var executes := old(executingInfo).Some? && old(executingInfo).value.slotId == expectedSlot;
              && pendingOrExecutingCount == (if executes then 0 else old(pendingOrExecutingCount))
              && interruptedSlots == old(interruptedSlots)
                 + if executes && old(pendingOrExecutingCount) > 0 then {expectedSlot} else {}
    {
      hide Inv;
      StepKeepsInv(lane, Reset(expectedSlot));
      var currentSlot := GetExecutingSlot();
      if currentSlot != Some(expectedSlot) {
        return;
      }
      if pendingOrExecutingCount == 0 {
        return;
      }
      pendingOrExecutingCount := 0;
      interruptedSlots := interruptedSlots + {expectedSlot};
      lane := ResetStep(lane, expectedSlot);
    }

    method GetExecutingSlot() returns (slot: Option<nat>)
      requires Valid()
      ensures slot == Executing(lane)
    {
      slot := if executingInfo.Some? then Some(executingInfo.value.slotId) else None;
    }

    /** The position a queue card shows: the number of tasks waiting ahead of the
        slot in the chain, plus one; no position once it no longer waits. */
    method PositionInQueue(key: Key) returns (position: int)
      requires Valid()
      ensures position > 0 <==> key in Backlog(lane.chain)
      ensures forall i: nat | WaitsAs(lane, i, key) :: position == |Backlog(lane.chain[..i])| + 1
    {
      var index := FindIndex(key);
      position := index + 1;
      forall i: nat | WaitsAs(lane, i, key)
        ensures position == |Backlog(lane.chain[..i])| + 1
      {
        BacklogTaken(lane, i, Cancelled);
        ghost var left := Backlog(lane.chain[..i]);
        assert queuedTasks[|left|].key == key;
        assert forall j | 0 <= j < |left| :: queuedTasks[j].key == left[j];
      }
      if index >= 0 {
        assert Backlog(lane.chain)[index] == key;
      }
    }
  }

  lemma EnqueueViews(l: Lane, key: Option<Key>)
    requires Inv(l) && Enabled(l, Event.Enqueue(key))
    ensures var l' := EnqueueStep(l, key);
            var accepted := key.None? || |Backlog(l.chain)| < MAX_WAITING_QUEUE;
            && Backlog(l'.chain) == Backlog(l.chain) + (if accepted && key.Some? then [key.value] else [])
            && l'.count == l.count + (if accepted && key.Some? then 1 else 0)
            && l'.interrupted == l.interrupted && l'.edits == l.edits && l'.minted == l.minted + 1
            && Executing(l') == Executing(l)
            && (Executing(l).Some? ==> l'.head < |l'.chain| && l'.chain[l'.head] == l.chain[l.head])
            && (key.Some? ==> key.value !in Backlog(l.chain))
  {
    var slot := Slot(l.minted + 1, key, Waiting);
    assert (l.chain + [slot])[..|l.chain|] == l.chain;
    if key.Some? {
      BacklogHas(l.chain, key.value);
    }
  }

  lemma FirstTaken(chain: seq<Slot>, h: nat, status: Status)
    requires h < |chain| && !status.Waiting?
    requires forall i | 0 <= i < h :: chain[i].status.Done?
    ensures Backlog(chain[h := chain[h].(status := status)]) == Backlog(chain[h + 1..])
    ensures Backlog(chain) == (if IsBacklog(chain[h]) then [chain[h].key.value] else []) + Backlog(chain[h + 1..])
  {
    BacklogWithout(chain, h, status);
    AllSettled(chain[..h]);
  }

  /** Of the waiting keys, the head's is the first. */
  lemma BacklogBegins(l: Lane)
    requires Inv(l) && Enabled(l, Begin)
    ensures var l' := BeginStep(l); var s := l.chain[l.head];
            && (s.status.Cancelled? ==> Backlog(l'.chain) == Backlog(l.chain))
            && (s.status.Waiting? ==>
                  && Backlog(l.chain) == (if s.key.Some? then [s.key.value] else []) + Backlog(l'.chain)
                  && (s.key.Some? ==> s.key.value !in Backlog(l'.chain)))
  {
    hide Accounted, ClosuresAtHome;
    var s := l.chain[l.head];
    var status := if s.status.Cancelled? then Skipping else Running(Chosen(l, s));
    assert BeginStep(l).chain == l.chain[l.head := s.(status := status)];
    FirstTaken(l.chain, l.head, status);
    if IsBacklog(s) {
      BacklogDistinct(l, l.head);
    }
  }

  lemma BeginViews(l: Lane)
    requires Inv(l) && Enabled(l, Begin)
    ensures var l' := BeginStep(l); var s := l.chain[l.head];
            && l'.head == l.head && |l'.chain| == |l.chain|
            && l'.interrupted == l.interrupted && l'.minted == l.minted
            && l'.chain[l.head].id == s.id && l'.chain[l.head].key == s.key
            && Executing(l).None?
            && (s.status.Cancelled? ==>
                  && l'.count == l.count && l'.edits == l.edits
                  && Executing(l').None? && Ran(l'.chain[l.head]).None?)
            && (s.status.Waiting? ==>
                  && l'.count == Max(l.count, 1)
                  && l'.edits == (if s.key.Some? then l.edits - {s.key.value} else l.edits)
                  && Executing(l') == Some(s.id)
                  && Ran(l'.chain[l.head]) == Some(Chosen(l, s)))
  {
    hide Inv, Backlog;
  }

  lemma {:induction false} AllSettled(chain: seq<Slot>)
    requires forall i | 0 <= i < |chain| :: chain[i].status.Done?
    ensures Backlog(chain) == []
  {
    if chain != [] {
      AllSettled(chain[..|chain| - 1]);
    }
  }

  lemma SettleViews(l: Lane)
    requires Inv(l) && Enabled(l, Settle)
    ensures var l' := SettleStep(l); var s := l.chain[l.head];
            && l'.edits == l.edits && l'.minted == l.minted
            && Executing(l').None?
            && (Executing(l).Some? ==> Executing(l) == Some(s.id))
            && l'.interrupted == l.interrupted - {s.id}
            && l'.count == if s.id in l.interrupted then l.count else Max(0, l.count - 1)
  {
    hide Backlog;
  }

  lemma SettleKeepsBacklog(l: Lane)
    requires Enabled(l, Settle)
    ensures Backlog(SettleStep(l).chain) == Backlog(l.chain)
  {
    var status := Done(Ran(l.chain[l.head]));
    assert SettleStep(l).chain == l.chain[l.head := l.chain[l.head].(status := status)];
    BacklogWithout(l.chain, l.head, status);
  }

  lemma CancelViews(l: Lane, key: Key) returns (left: seq<Key>, right: seq<Key>)
    requires Inv(l)
    ensures var l' := CancelStep(l, key);
            && l'.count == l.count && l'.interrupted == l.interrupted && l'.minted == l.minted
            && l'.edits == l.edits - {key} && l'.head == l.head
            && Executing(l') == Executing(l)
            && (Executing(l).Some? ==> l'.head < |l'.chain| && l'.chain[l'.head] == l.chain[l.head])
            && key !in Backlog(l'.chain)
            && (key in Backlog(l.chain) ==>
                  Backlog(l.chain) == left + [key] + right && Backlog(l'.chain) == left + right
                  && key !in left && key !in right)
            && (key !in Backlog(l.chain) ==> Backlog(l'.chain) == Backlog(l.chain))
  {
    FoundIffListed(l, key);
    left, right := [], [];
    var at := FindWaiting(l, key, 0);
    if at.Some? {
      BacklogTaken(l, at.value, Cancelled);
      left, right := Backlog(l.chain[..at.value]), Backlog(l.chain[at.value + 1..]);
    }
  }

  ghost predicate BusyUninterrupted(l: Lane) {
    Executing(l).Some? && Executing(l).value !in l.interrupted
  }

  lemma BusyLaneCounts(l: Lane)
    requires Inv(l)
    ensures BusyUninterrupted(l) ==> l.count > 0
  {
  }

  lemma IndexAppend(index: map<Key, QueuedTask>, tasks: seq<QueuedTask>, task: QueuedTask)
    requires Indexes(index, tasks) && forall i | 0 <= i < |tasks| :: tasks[i].key != task.key
    ensures Indexes(index[task.key := task], tasks + [task])
  {
    var more := tasks + [task];
    var index' := index[task.key := task];
    forall k | k in index'
      ensures exists i :: 0 <= i < |more| && more[i].key == k
    {
      if k == task.key {
        assert more[|tasks|].key == k;
      } else {
        var i :| 0 <= i < |tasks| && tasks[i].key == k;
        assert more[i].key == k;
      }
    }
  }

  lemma IndexSplice(index: map<Key, QueuedTask>, tasks: seq<QueuedTask>, at: nat)
    requires Indexes(index, tasks) && at < |tasks|
    requires forall i | 0 <= i < |tasks| && i != at :: tasks[i].key != tasks[at].key
    ensures Indexes(index - {tasks[at].key}, tasks[..at] + tasks[at + 1..])
  {
    var rest := tasks[..at] + tasks[at + 1..];
    var index' := index - {tasks[at].key};
    forall k | k in index'
      ensures exists i :: 0 <= i < |rest| && rest[i].key == k
    {
      var i :| 0 <= i < |tasks| && tasks[i].key == k;
      assert rest[if i < at then i else i - 1].key == k;
    }
  }

  lemma IndexTells(index: map<Key, QueuedTask>, tasks: seq<QueuedTask>, keys: seq<Key>, key: Key)
    requires Lists(tasks, keys) && Indexes(index, tasks)
    ensures key in index <==> key in keys
  {
    if key in keys {
      var i :| 0 <= i < |keys| && keys[i] == key;
      assert tasks[i].key == key;
    }
  }

  /** Looking the first unsettled slot up in the index tells whether it was
      cancelled. */
  lemma StillQueued(l: Lane, tasks: seq<QueuedTask>, index: map<Key, QueuedTask>)
    requires Inv(l) && Enabled(l, Begin)
    requires Lists(tasks, Backlog(l.chain)) && Indexes(index, tasks)
    ensures l.chain[l.head].key.Some? ==>
              && (l.chain[l.head].key.value in index <==> l.chain[l.head].status.Waiting?)
              && (l.chain[l.head].key.value in index <==> l.chain[l.head].key.value in Backlog(l.chain))
    ensures l.chain[l.head].key.None? ==> l.chain[l.head].status.Waiting?
  {
    if l.chain[l.head].key.Some? {
      BacklogHas(l.chain, l.chain[l.head].key.value);
      IndexTells(index, tasks, Backlog(l.chain), l.chain[l.head].key.value);
      assert l.chain[l.head].status.Waiting? ==> IsBacklog(l.chain[l.head]);
    }
  }

  lemma FoundIffListed(l: Lane, key: Key)
    ensures FindWaiting(l, key, 0).Some? <==> key in Backlog(l.chain)
  {
    BacklogHas(l.chain, key);
    if key in Backlog(l.chain) {
      var i :| 0 <= i < |l.chain| && IsBacklog(l.chain[i]) && l.chain[i].key.value == key;
      assert WaitsAs(l, i, key);
    }
  }
}
