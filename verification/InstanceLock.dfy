/** The single-instance lock: processes race on one lock path with an atomic
    link, an atomic rename into quarantine, a re-check and a restore. One move is
    one file-system call or one liveness verdict of one process, so every
    interleaving of the processes is a sequence of moves. */
module InstanceLock {
  import opened Texts

  const MAX_ACQUIRE_ATTEMPTS := 10

  /** The executable name every contender records. */
  const PROGRAM := "node"

  /** A readable lock entry: a pid and a non-empty name. */
  datatype Entry = Entry(pid: nat, name: string)

  datatype Content = Malformed | Owned(entry: Entry)

  /** What a process is about to do. A phase carries the locals still needed. */
  datatype Phase =
    | NotStarted
    | Create
    | ReadOwner
    | JudgeOwner(suspect: Entry)
    | Steal(owner: Option<Entry>)
    | ReadStolen(owner: Option<Entry>)
    | JudgeStolen(suspect: Entry)
    | Restore
    | RestoreBlocked
    | RestoreByRename
    | DiscardRestored
    | CreateAgain
    | Discard(created: bool)
    | ReadWinner
    | JudgeWinner(suspect: Entry)
    | Holding
    | ReleaseRead
    | ReleaseUnlink
    | Released
    | Refused

  datatype Proc = Proc(phase: Phase, attempt: nat, alive: bool, quarantine: Option<Content>)

  /** The lock file and the processes; a process is known by its pid, its index. */
  datatype State = State(lock: Option<Content>, procs: seq<Proc>)

  datatype Move =
    | Start(pid: nat)
    | Go(pid: nat, held: bool)   // `held` is the verdict when the phase judges a suspect
    | Release(pid: nat)
    | Crash(pid: nat)

  /** `readPidAndName`: a missing and a malformed file read alike. */
  function View(file: Option<Content>): Option<Entry> {
    if file.Some? && file.value.Owned? then Some(file.value.entry) else None
  }

  function Own(pid: nat): Content {
    Owned(Entry(pid, PROGRAM))
  }

  predicate Alive(s: State, pid: nat) {
    pid < |s.procs| && s.procs[pid].alive
  }

  predicate LiveInstance(s: State, e: Entry) {
    e.name == PROGRAM && Alive(s, e.pid)
  }

  /** The end of a round: back to creating, or refused after the last attempt. */
  function NextRound(p: Proc): Proc {
    if p.attempt + 1 < MAX_ACQUIRE_ATTEMPTS
    then p.(phase := Create, attempt := p.attempt + 1)
    else p.(phase := Refused)
  }

  function With(s: State, pid: nat, p: Proc): State
    requires pid < |s.procs|
  {
    s.(procs := s.procs[pid := p])
  }

  /** The process is in the middle of acquiring or releasing. */
  predicate Working(p: Proc) {
    && p.alive
    && !p.phase.NotStarted? && !p.phase.Holding? && !p.phase.Released? && !p.phase.Refused?
  }

  predicate Judging(p: Phase) {
    p.JudgeOwner? || p.JudgeStolen? || p.JudgeWinner?
  }

  /** A verdict may call a dead owner live, never a live instance dead. */
  predicate Enabled(s: State, m: Move) {
    && m.pid < |s.procs|
    && var p := s.procs[m.pid];
       match m
       case Start(_) => p.phase.NotStarted?
       case Release(_) => p.alive && p.phase.Holding?
       case Crash(_) => p.alive
       case Go(_, held) =>
         && Working(p)
         && (Judging(p.phase) ==> LiveInstance(s, p.phase.suspect) ==> held)
  }

  /** How one operation changes the process that makes it, given what it finds at
      the lock path. */
  function NextProc(p: Proc, lock: Option<Content>, held: bool): Proc {
    match p.phase
    case Create =>
      p.(phase := if lock.None? then Holding else ReadOwner)
    case ReadOwner =>
      p.(phase := if View(lock).Some? then JudgeOwner(View(lock).value) else Steal(None))
    case JudgeOwner(e) =>
      p.(phase := if held then Refused else Steal(Some(e)))
    case Steal(owner) =>
      if lock.None? then NextRound(p) else p.(phase := ReadStolen(owner), quarantine := lock)
    case ReadStolen(owner) =>
      var stolen := View(p.quarantine);
      p.(phase := if stolen != owner && stolen.Some? then JudgeStolen(stolen.value) else CreateAgain)
    case JudgeStolen(_) =>
      p.(phase := if held then Restore else CreateAgain)
    case Restore =>
      p.(phase := if lock.None? then DiscardRestored else RestoreBlocked)
    case RestoreBlocked =>
      p.(phase := if lock.Some? then DiscardRestored else RestoreByRename)
    case RestoreByRename =>
      p.(phase := DiscardRestored, quarantine := None)
    case DiscardRestored =>
      p.(phase := Refused, quarantine := None)
    case CreateAgain =>
      p.(phase := Discard(lock.None?))
    case Discard(created) =>
      p.(phase := if created then Holding else ReadWinner, quarantine := None)
    case ReadWinner =>
      if View(lock).Some? then p.(phase := JudgeWinner(View(lock).value)) else NextRound(p)
    case JudgeWinner(_) =>
      if held then p.(phase := Refused) else NextRound(p)
    case ReleaseUnlink =>
      p.(phase := Released)
    case _ => p
  }

  /** What the operation leaves at the lock path: links only where there is
      nothing, renames over whatever is there. */
  function NextLock(pid: nat, p: Proc, lock: Option<Content>): Option<Content> {
    match p.phase
    case Create => if lock.None? then Some(Own(pid)) else lock
    case CreateAgain => if lock.None? then Some(Own(pid)) else lock
    case Steal(_) => None
    case Restore => if lock.None? then p.quarantine else lock
    case RestoreByRename => p.quarantine
    case ReleaseUnlink => None
    case _ => lock
  }

  function GoStep(s: State, pid: nat, held: bool): State
    requires pid < |s.procs|
  {
    var p := s.procs[pid];
    if p.phase.ReleaseRead? then
      var mine := View(s.lock).Some? && View(s.lock).value.pid == pid;
      With(s, pid, p.(phase := if mine then ReleaseUnlink else Released))
    else With(s, pid, NextProc(p, s.lock, held)).(lock := NextLock(pid, p, s.lock))
  }

  function Step(s: State, m: Move): State
    requires m.pid < |s.procs|
  {
    var p := s.procs[m.pid];
    match m
    case Start(pid) => With(s, pid, p.(phase := Create, alive := true))
    case Release(pid) => With(s, pid, p.(phase := ReleaseRead))
    case Crash(pid) => With(s, pid, p.(alive := false))
    case Go(pid, held) => GoStep(s, pid, held)
  }

  predicate IsRun(s: State, moves: seq<Move>)
    decreases |moves|
  {
    moves == [] || (Enabled(s, moves[0]) && IsRun(Step(s, moves[0]), moves[1..]))
  }

  function After(s: State, moves: seq<Move>): State
    requires IsRun(s, moves)
    decreases |moves|
  {
    if moves == [] then s else After(Step(s, moves[0]), moves[1..])
  }

  /** `n` processes not yet started, and a lock file left by none of them: absent,
      malformed, or naming a process that is no live instance. */
  predicate Initial(s: State, n: nat) {
    && |s.procs| == n
    && (forall i | 0 <= i < n :: s.procs[i] == Proc(NotStarted, 0, false, None))
    && (View(s.lock).Some? ==> View(s.lock).value.pid >= n)
  }

  /** The process has created the lock file and not given it up. */
  predicate Acquired(p: Proc) {
    || p.phase == Discard(true)
    || p.phase.Holding? || p.phase.ReleaseRead? || p.phase.ReleaseUnlink?
  }

  /** At most one process is both alive and in possession of the lock. */
  predicate Exclusive(s: State) {
    forall i, j | 0 <= i < |s.procs| && 0 <= j < |s.procs| ::
      s.procs[i].alive && s.procs[j].alive && Acquired(s.procs[i]) && Acquired(s.procs[j]) ==> i == j
  }

  // ---- the invariant for two contenders ----

  /** The process has not yet linked a lock file of its own. */
  predicate Unlinked(p: Proc) {
    !Acquired(p) && !p.phase.Released?
  }

  /** The entry a phase still remembers. */
  function Remembered(p: Phase): Option<Entry> {
    match p
    case JudgeOwner(e) => Some(e)
    case Steal(o) => o
    case ReadStolen(o) => o
    case JudgeStolen(e) => Some(e)
    case JudgeWinner(e) => Some(e)
    case _ => None
  }

  /** Nothing names a process that has not linked yet. */
  predicate NoForgery(s: State, i: nat)
    requires i < |s.procs|
  {
    Unlinked(s.procs[i]) ==>
      && s.lock != Some(Own(i))
      && forall j | 0 <= j < |s.procs| ::
           s.procs[j].quarantine != Some(Own(i)) && Remembered(s.procs[j].phase) != Some(Entry(i, PROGRAM))
  }

  /** What `q` knows or holds, seen against the other process `p`. */
  predicate Consistent(s: State, q: nat, p: nat)
    requires q < |s.procs| && p < |s.procs|
  {
    var ph := s.procs[q].phase;
    && !ph.RestoreBlocked? && !ph.RestoreByRename?
    && (ph.NotStarted? ==> !s.procs[q].alive)
    && (ph.JudgeOwner? ==> s.lock.None? || View(s.lock) == Some(ph.suspect) || s.lock == Some(Own(p)))
    && (ph.Steal? ==>
          && (s.lock.None? || View(s.lock) == ph.owner || s.lock == Some(Own(p)))
          && (ph.owner == Some(Entry(p, PROGRAM)) ==> !s.procs[p].alive))
    && (ph.ReadStolen? ==>
          && (View(s.procs[q].quarantine) == ph.owner
              || (s.procs[q].quarantine == Some(Own(p)) && s.lock.None?))
          && (ph.owner == Some(Entry(p, PROGRAM)) ==> !s.procs[p].alive))
    && (ph.JudgeStolen? ==> ph.suspect == Entry(p, PROGRAM))
    && (ph.JudgeStolen? || ph.Restore? ==> s.procs[q].quarantine == Some(Own(p)) && s.lock.None?)
  }

  /** The lock of a live owner is in place, or in the hands of a thief who will
      find its owner alive and put it back. */
  predicate Guarded(s: State, p: nat, q: nat)
    requires p < |s.procs| && q < |s.procs|
  {
    Acquired(s.procs[p]) && s.procs[p].alive ==>
      && (s.lock.None? || s.lock == Some(Own(p)))
      && ((s.procs[q].alive || s.procs[q].phase.NotStarted?) && s.lock.None? ==>
            && s.procs[q].quarantine == Some(Own(p))
            && (s.procs[q].phase.ReadStolen? || s.procs[q].phase.JudgeStolen? || s.procs[q].phase.Restore?))
  }

  predicate Inv(s: State) {
    && |s.procs| <= 2
    && (forall i | 0 <= i < |s.procs| :: NoForgery(s, i))
    && (forall i | 0 <= i < |s.procs| :: s.procs[i].phase.NotStarted? ==> !s.procs[i].alive)
    && (forall p, q | 0 <= p < |s.procs| && 0 <= q < |s.procs| && p != q :: Consistent(s, q, p) && Guarded(s, p, q))
  }

  lemma InvExcludes(s: State)
    requires Inv(s)
    ensures Exclusive(s)
  {
    forall i, j | 0 <= i < |s.procs| && 0 <= j < |s.procs| && i != j
      ensures !(s.procs[i].alive && s.procs[j].alive && Acquired(s.procs[i]) && Acquired(s.procs[j]))
    {
      assert Guarded(s, i, j) && Guarded(s, j, i);
    }
  }

  lemma InitialInv(s: State, n: nat)
    requires n <= 2 && Initial(s, n)
    ensures Inv(s)
  {
  }

  predicate InvTwo(s: State, a: nat, b: nat) {
    && |s.procs| == 2 && a < 2 && b == 1 - a
    && (s.procs[a].phase.NotStarted? ==> !s.procs[a].alive)
    && (s.procs[b].phase.NotStarted? ==> !s.procs[b].alive)
    && NoForgery(s, a) && NoForgery(s, b)
    && Consistent(s, a, b) && Consistent(s, b, a)
    && Guarded(s, a, b) && Guarded(s, b, a)
  }

  /** A move touches the lock file and its own process, nothing else. */
  lemma StepFrame(s: State, m: Move)
    requires Enabled(s, m)
    ensures var s' := Step(s, m);
            && |s'.procs| == |s.procs|
            && (forall i | 0 <= i < |s.procs| && i != m.pid :: s'.procs[i] == s.procs[i])
            && (s'.procs[m.pid].phase.NotStarted? ==> s.procs[m.pid].phase.NotStarted? && !s'.procs[m.pid].alive)
  {
  }

  /** Where the contents of the files and of a process's memory come from. */
  lemma Provenance(s: State, m: Move)
    requires Enabled(s, m)
    ensures var s' := Step(s, m); var p := s.procs[m.pid]; var p' := s'.procs[m.pid];
            && (s'.lock.None? || s'.lock == s.lock
                || (s'.lock == p.quarantine && (p.phase.Restore? || p.phase.RestoreByRename?))
                || (s'.lock == Some(Own(m.pid)) && Unlinked(p) && !Unlinked(p')))
            && (p'.alive ==> p.alive || m.Start?)
            && (p'.quarantine.None? || p'.quarantine == p.quarantine || p'.quarantine == s.lock)
            && (Remembered(p'.phase).None? || Remembered(p'.phase) == Remembered(p.phase)
                || Remembered(p'.phase) == View(s.lock) || Remembered(p'.phase) == View(p.quarantine))
            && (Unlinked(p') ==> Unlinked(p))
  {
  }

  lemma MoverStaysConsistent(s: State, m: Move, b: nat)
    requires InvTwo(s, m.pid, b) && Enabled(s, m)
    ensures Consistent(Step(s, m), m.pid, b)
  {
    match m
    case Go(a, held) =>
      match s.procs[a].phase {
        case ReadOwner =>
        case JudgeOwner(_) =>
        case Steal(_) =>
        case ReadStolen(_) =>
        case JudgeStolen(_) =>
        case Restore =>
        case _ =>
      }
    case _ =>
  }

  lemma OtherStaysConsistent(s: State, m: Move, b: nat)
    requires InvTwo(s, m.pid, b) && Enabled(s, m)
    ensures Consistent(Step(s, m), b, m.pid)
  {
    hide GoStep;
    StepFrame(s, m);
    Provenance(s, m);
  }

  lemma NothingForged(s: State, m: Move, b: nat)
    requires InvTwo(s, m.pid, b) && Enabled(s, m)
    ensures NoForgery(Step(s, m), m.pid) && NoForgery(Step(s, m), b)
  {
    hide GoStep, Enabled;
    StepFrame(s, m);
    Provenance(s, m);
  }

  lemma LocksStayGuarded(s: State, m: Move, b: nat)
    requires InvTwo(s, m.pid, b) && Enabled(s, m)
    ensures Guarded(Step(s, m), m.pid, b) && Guarded(Step(s, m), b, m.pid)
  {
  }

  lemma StepKeepsInv(s: State, m: Move)
    requires Inv(s) && Enabled(s, m)
    ensures Inv(Step(s, m))
  {
    hide GoStep;
    StepFrame(s, m);
    if |s.procs| == 2 {
      var b := 1 - m.pid;
      assert InvTwo(s, m.pid, b);
      MoverStaysConsistent(s, m, b);
      OtherStaysConsistent(s, m, b);
      NothingForged(s, m, b);
      LocksStayGuarded(s, m, b);
    } else {
      LoneStep(s, m);
    }
  }

  lemma LoneStep(s: State, m: Move)
    requires Inv(s) && |s.procs| == 1 && Enabled(s, m)
    ensures NoForgery(Step(s, m), 0)
  {
    assert NoForgery(s, 0);
  }

  lemma {:induction false} RunKeepsInv(s: State, moves: seq<Move>)
    requires Inv(s) && IsRun(s, moves)
    ensures Inv(After(s, moves))
    decreases |moves|
  {
    if moves != [] {
      StepKeepsInv(s, moves[0]);
      RunKeepsInv(Step(s, moves[0]), moves[1..]);
    }
  }

  /** A stolen live lock is put back: unless the other process is at that moment
      between taking it and restoring it, or gone, the lock of a live owner is in
      place; and what a release is about to unlink is never another's lock. */
  lemma LiveLockInPlace(s: State, moves: seq<Move>, p: nat, q: nat)
    requires Initial(s, 2) && IsRun(s, moves) && p < 2 && q == 1 - p
    ensures var t := After(s, moves); |t.procs| == 2
    ensures var t := After(s, moves);
            Acquired(t.procs[p]) && t.procs[p].alive ==>
              && (t.lock.None? || t.lock == Some(Own(p)))
              && (t.lock.None? && t.procs[q].alive ==>
                    && t.procs[q].quarantine == Some(Own(p))
                    && (t.procs[q].phase.ReadStolen? || t.procs[q].phase.JudgeStolen? || t.procs[q].phase.Restore?))
  {
    InitialInv(s, 2);
    RunKeepsInv(s, moves);
    RunKeepsSize(s, moves);
    assert Guarded(After(s, moves), p, q);
  }

  lemma {:induction false} RunKeepsSize(s: State, moves: seq<Move>)
    requires IsRun(s, moves)
    ensures |After(s, moves).procs| == |s.procs|
    decreases |moves|
  {
    if moves != [] {
      StepFrame(s, moves[0]);
      RunKeepsSize(Step(s, moves[0]), moves[1..]);
    }
  }

  // ---- three contenders ----

  predicate Leads(s: State, moves: seq<Move>, t: State) {
    IsRun(s, moves) && After(s, moves) == t
  }

  lemma {:induction false} OneMore(s: State, moves: seq<Move>, t: State, m: Move)
    requires Leads(s, moves, t) && Enabled(t, m)
    ensures Leads(s, moves + [m], Step(t, m))
    decreases |moves|
  {
    hide GoStep;
    if moves == [] {
      assert [m][1..] == [] && moves + [m] == [m];
      assert Leads(Step(t, m), [], Step(t, m));
      assert IsRun(s, [m]) && After(s, [m]) == Step(t, m);
    } else {
      OneMore(Step(s, moves[0]), moves[1..], t, m);
      assert (moves + [m])[1..] == moves[1..] + [m];
    }
  }

  /** A newly started process finds the path taken, and its owner dead. */
  lemma FindsDeadOwner(s: State, moves: seq<Move>, t: State, i: nat, dead: Entry) returns (moves': seq<Move>)
    requires Leads(s, moves, t)
    requires i < |t.procs| && t.procs[i] == Proc(NotStarted, 0, false, None)
    requires t.lock == Some(Owned(dead)) && dead.pid >= |t.procs|
    ensures Leads(s, moves', With(t, i, Proc(Steal(Some(dead)), 0, true, None)))
  {
    hide IsRun, After;
    var t1 := With(t, i, Proc(Create, 0, true, None));
    var t2 := With(t, i, Proc(ReadOwner, 0, true, None));
    var t3 := With(t, i, Proc(JudgeOwner(dead), 0, true, None));
    var t4 := With(t, i, Proc(Steal(Some(dead)), 0, true, None));
    assert Step(t, Start(i)) == t1 && Step(t1, Go(i, false)) == t2;
    assert Step(t2, Go(i, false)) == t3 && Step(t3, Go(i, false)) == t4;
    OneMore(s, moves, t, Start(i));
    OneMore(s, moves + [Start(i)], t1, Go(i, false));
    OneMore(s, moves + [Start(i)] + [Go(i, false)], t2, Go(i, false));
    OneMore(s, moves + [Start(i)] + [Go(i, false)] + [Go(i, false)], t3, Go(i, false));
    moves' := moves + [Start(i)] + [Go(i, false)] + [Go(i, false)] + [Go(i, false)];
  }

  /** It renames the dead lock away, finds it unchanged, and creates its own. */
  lemma TakesOver(s: State, moves: seq<Move>, t: State, i: nat, dead: Entry) returns (moves': seq<Move>)
    requires Leads(s, moves, t)
    requires i < |t.procs| && t.procs[i] == Proc(Steal(Some(dead)), 0, true, None)
    requires t.lock == Some(Owned(dead))
    ensures Leads(s, moves', With(t, i, Proc(Discard(true), 0, true, t.lock)).(lock := Some(Own(i))))
  {
    hide IsRun, After;
    var t1 := With(t, i, Proc(ReadStolen(Some(dead)), 0, true, t.lock)).(lock := None);
    var t2 := With(t, i, Proc(CreateAgain, 0, true, t.lock)).(lock := None);
    var t3 := With(t, i, Proc(Discard(true), 0, true, t.lock)).(lock := Some(Own(i)));
    assert Step(t, Go(i, false)) == t1 && Step(t1, Go(i, false)) == t2 && Step(t2, Go(i, false)) == t3;
    OneMore(s, moves, t, Go(i, false));
    OneMore(s, moves + [Go(i, false)], t1, Go(i, false));
    OneMore(s, moves + [Go(i, false)] + [Go(i, false)], t2, Go(i, false));
    moves' := moves + [Go(i, false)] + [Go(i, false)] + [Go(i, false)];
  }

  /** With a third contender: process 0 renames away the fresh lock of process 1,
      and before it has looked at what it took, process 2 finds the path free. */
  lemma ThreeCanOverlap(s: State, n: nat) returns (moves: seq<Move>)
    requires n >= 3 && Initial(s, n)
    requires s.lock == Some(Owned(Entry(n, PROGRAM)))
    ensures IsRun(s, moves) && !Exclusive(After(s, moves))
  {
    var dead := Entry(n, PROGRAM);
    assert Leads(s, [], s);
    var m1 := FindsDeadOwner(s, [], s, 0, dead);
    var t1 := With(s, 0, Proc(Steal(Some(dead)), 0, true, None));
    var m2 := FindsDeadOwner(s, m1, t1, 1, dead);
    var t2 := With(t1, 1, Proc(Steal(Some(dead)), 0, true, None));
    var m3 := TakesOver(s, m2, t2, 1, dead);
    var t3 := With(t2, 1, Proc(Discard(true), 0, true, t2.lock)).(lock := Some(Own(1)));
    moves := LateThief(s, m3, t3, dead);
  }

  lemma LateThief(s: State, moves: seq<Move>, t: State, dead: Entry) returns (moves': seq<Move>)
    requires Leads(s, moves, t)
    requires |t.procs| >= 3 && t.lock == Some(Own(1))
    requires t.procs[0] == Proc(Steal(Some(dead)), 0, true, None)
    requires t.procs[1].alive && Acquired(t.procs[1])
    requires t.procs[2] == Proc(NotStarted, 0, false, None)
    ensures IsRun(s, moves') && !Exclusive(After(s, moves'))
  {
    var t1 := With(t, 0, Proc(ReadStolen(Some(dead)), 0, true, t.lock)).(lock := None);
    var t2 := With(t1, 2, Proc(Create, 0, true, None));
    var t3 := With(t1, 2, Proc(Holding, 0, true, None)).(lock := Some(Own(2)));
    assert Step(t, Go(0, false)) == t1 && Step(t1, Start(2)) == t2 && Step(t2, Go(2, false)) == t3;
    OneMore(s, moves, t, Go(0, false));
    OneMore(s, moves + [Go(0, false)], t1, Start(2));
    OneMore(s, moves + [Go(0, false)] + [Start(2)], t2, Go(2, false));
    moves' := moves + [Go(0, false)] + [Start(2)] + [Go(2, false)];
    assert Leads(s, moves', t3);
    assert t3.procs[1].alive && Acquired(t3.procs[1]) && t3.procs[2].alive && Acquired(t3.procs[2]);
  }

  /** Every run of `n` contenders keeps the lock exclusive. */
  ghost predicate AlwaysExclusive(n: nat) {
    forall s: State, moves: seq<Move> | Initial(s, n) && IsRun(s, moves) :: Exclusive(After(s, moves))
  }

  /** Mutual exclusion holds over all interleavings exactly for up to two
      contenders. */
  lemma ExclusiveIffAtMostTwo(n: nat)
    ensures AlwaysExclusive(n) <==> n <= 2
  {
    if n <= 2 {
      forall s: State, moves: seq<Move> | Initial(s, n) && IsRun(s, moves)
        ensures Exclusive(After(s, moves))
      {
        InitialInv(s, n);
        RunKeepsInv(s, moves);
        InvExcludes(After(s, moves));
      }
    } else {
      var s := State(Some(Owned(Entry(n, PROGRAM))), seq(n, i => Proc(NotStarted, 0, false, None)));
      var moves := ThreeCanOverlap(s, n);
    }
  }

  // ---- what a history of moves tells ----

  /** Moves made by other processes. */
  function RivalMoves(moves: seq<Move>, self: nat): nat {
    if moves == [] then 0
    else RivalMoves(moves[..|moves| - 1], self) + if moves[|moves| - 1].pid != self then 1 else 0
  }

  lemma RivalMove(moves: seq<Move>, m: Move, self: nat)
    requires m.pid != self
    ensures RivalMoves(moves + [m], self) == RivalMoves(moves, self) + 1
  {
    assert (moves + [m])[..|moves|] == moves;
  }

  lemma OwnMove(moves: seq<Move>, m: Move)
    ensures RivalMoves(moves + [m], m.pid) == RivalMoves(moves, m.pid)
  {
    assert (moves + [m])[..|moves|] == moves;
  }

  /** With move number `k` the process judged a suspect to be held by a live instance, and
      the suspect was one then, or its identity was in doubt. */
  ghost predicate JudgedLive(start: State, moves: seq<Move>, doubts: nat -> bool, self: nat, k: nat) {
    && k < |moves| && moves[k] == Go(self, true) && IsRun(start, moves[..k])
    && var t := After(start, moves[..k]);
       && self < |t.procs| && Judging(t.procs[self].phase)
       && (LiveInstance(t, t.procs[self].phase.suspect) || doubts(k))
  }

  lemma JudgedStays(start: State, moves: seq<Move>, more: seq<Move>, doubts: nat -> bool, self: nat, k: nat)
    requires JudgedLive(start, moves, doubts, self, k) && moves <= more
    ensures JudgedLive(start, more, doubts, self, k)
  {
    assert more[..k] == moves[..k] && more[k] == moves[k];
  }

  /** Some suspect was judged live among the moves from number `from` on. */
  ghost predicate Refuted(start: State, moves: seq<Move>, doubts: nat -> bool, self: nat, from: nat) {
    exists k :: from <= k < |moves| && JudgedLive(start, moves, doubts, self, k)
  }

  lemma RefutedStays(start: State, moves: seq<Move>, more: seq<Move>, doubts: nat -> bool, self: nat, from: nat, earlier: nat)
    requires Refuted(start, moves, doubts, self, from) && moves <= more && earlier <= from
    ensures Refuted(start, more, doubts, self, earlier)
  {
    var k :| from <= k < |moves| && JudgedLive(start, moves, doubts, self, k);
    JudgedStays(start, moves, more, doubts, self, k);
  }

  /** The lock is absent, malformed, or names no live instance. */
  predicate Stale(s: State) {
    View(s.lock).Some? ==> !LiveInstance(s, View(s.lock).value)
  }

  lemma StaleStays(s: State, t: State)
    ensures t.lock == s.lock && (forall e :: LiveInstance(t, e) == LiveInstance(s, e)) && Stale(s) ==> Stale(t)
  {
  }

  lemma GoKeepsAlive(s: State, pid: nat, held: bool)
    requires pid < |s.procs|
    ensures forall e :: LiveInstance(Step(s, Go(pid, held)), e) == LiveInstance(s, e)
  {
  }

  // ---- the source's own loop, run against any interference ----

  /** The directory the processes share. Before each of its own file operations a
      process lets the others make the moves that `schedule` gives them; a verdict
      on a process that is no live instance is read from `doubts`. */
  class LockDirectory {
    var s: State
    var clock: nat
    const schedule: nat -> seq<Move>
    const doubts: nat -> bool
    ghost const start: State
    ghost var moves: seq<Move>

    ghost predicate Valid()
      reads this
    {
      Leads(start, moves, s) && clock == |moves|
    }

    /** Nobody else moves from now on, and nothing is in doubt. */
    ghost predicate Alone()
      reads this
    {
      forall k | clock <= k :: schedule(k) == [] && !doubts(k)
    }

    /** The history has grown, by moves of `self` only if it is alone. */
    twostate predicate Since(self: nat)
      reads this
    {
      && old(moves) <= moves && |s.procs| == |old(s.procs)|
      && RivalMoves(moves, self) >= RivalMoves(old(moves), self)
      && (old(Alone()) ==> Alone() && RivalMoves(moves, self) == RivalMoves(old(moves), self))
    }

    /** Unless others have moved, the live instances are the same. */
    twostate predicate SameInstances(self: nat)
      reads this
    {
      RivalMoves(moves, self) == RivalMoves(old(moves), self) ==>
        forall e :: LiveInstance(s, e) == LiveInstance(old(s), e)
    }

    /** The lock is exclusive, if the run started from at most two contenders. */
    ghost predicate Safe()
      reads this
    {
      |start.procs| <= 2 && Initial(start, |start.procs|) ==> Exclusive(s)
    }

    constructor (s0: State, schedule: nat -> seq<Move>, doubts: nat -> bool)
      ensures Valid() && s == start == s0 && moves == []
    {
      this.s, this.start, this.moves, this.clock := s0, s0, [], 0;
      this.schedule, this.doubts := schedule, doubts;
    }

    /** The process `self` is alive in `phase`, with its round and no quarantine. */
    predicate At(self: nat, phase: Phase, attempt: nat)
      reads this
    {
      self < |s.procs| && s.procs[self] == Proc(phase, attempt, true, None)
    }

    predicate Ended(self: nat, phase: Phase)
      reads this
    {
      self < |s.procs| && At(self, phase, s.procs[self].attempt)
    }

    method Do(m: Move)
      requires Valid() && Enabled(s, m)
      modifies this
      ensures Valid() && s == Step(old(s), m) && moves == old(moves) + [m]
    {
      OneMore(start, moves, s, m);
      s := Step(s, m);
      moves := moves + [m];
      clock := clock + 1;
    }

    /** Whatever the other processes do between two operations of `self`. */
    method Others(self: nat)
      requires Valid() && self < |s.procs|
      modifies this
      ensures Valid() && Since(self) && s.procs[self] == old(s.procs[self])
      ensures RivalMoves(moves, self) == RivalMoves(old(moves), self) ==> s == old(s)
    {
      hide Step, RivalMoves;
      var turns := schedule(clock);
      for k := 0 to |turns|
        invariant Valid() && Since(self) && s.procs[self] == old(s.procs[self])
        invariant (s == old(s) && moves == old(moves)) || RivalMoves(moves, self) > RivalMoves(old(moves), self)
      {
        if turns[k].pid != self && Enabled(s, turns[k]) {
          StepFrame(s, turns[k]);
          RivalMove(moves, turns[k], self);
          Do(turns[k]);
        }
      }
    }

    /** One operation of `self`, after the others have had their turn; `found` is
        what is at the lock path when it happens. */
    method Turn(self: nat) returns (found: Option<Content>)
      requires Valid() && self < |s.procs| && Working(s.procs[self])
      requires !Judging(s.procs[self].phase) && !s.procs[self].phase.ReleaseRead?
      modifies this
      ensures Valid() && Since(self) && SameInstances(self)
      ensures s.procs[self] == NextProc(old(s.procs[self]), found, false)
      ensures s.lock == NextLock(self, old(s.procs[self]), found)
      ensures RivalMoves(moves, self) == RivalMoves(old(moves), self) ==> found == old(s.lock)
    {
      Others(self);
      found := s.lock;
      OwnMove(moves, Go(self, false));
      GoKeepsAlive(s, self, false);
      Do(Go(self, false));
    }

    /** Probe the pid and verify its identity: a live instance is always found, and one
        is found only where it is or is in doubt. */
    method IsHeldByLiveInstance(self: nat, e: Entry) returns (held: bool)
      requires Valid() && self < |s.procs| && Working(s.procs[self])
      requires Judging(s.procs[self].phase) && s.procs[self].phase.suspect == e
      modifies this
      ensures Valid() && Since(self) && SameInstances(self)
      ensures clock > 0 && (held <==> LiveInstance(s, e) || doubts(clock - 1))
      ensures held ==> Refuted(start, moves, doubts, self, |old(moves)|)
      ensures s.procs[self] == NextProc(old(s.procs[self]), s.lock, held)
      ensures RivalMoves(moves, self) == RivalMoves(old(moves), self) ==> s.lock == old(s.lock)
    {
      hide NextProc, IsRun, After, RivalMoves;
      Others(self);
      held := LiveInstance(s, e) || doubts(clock);
      GoKeepsAlive(s, self, held);
      ghost var was, k := moves, |moves|;
      Do(Go(self, held));
      OwnMove(was, Go(self, held));
      assert moves[..k] == was;
      assert held ==> JudgedLive(start, moves, doubts, self, k);
    }

    method TryCreate(self: nat) returns (created: bool)
      requires Valid() && self < |s.procs| && Working(s.procs[self])
      requires s.procs[self].phase.Create? || s.procs[self].phase.CreateAgain?
      modifies this
      ensures Valid() && Since(self) && SameInstances(self)
      ensures created ==> s.lock == Some(Own(self))
      ensures s.procs[self] == old(s.procs[self]).(phase :=
                if old(s.procs[self].phase).CreateAgain? then Discard(created)
                else if created then Holding else ReadOwner)
      ensures RivalMoves(moves, self) == RivalMoves(old(moves), self) ==>
                created == old(s.lock).None? && (!created ==> s.lock == old(s.lock))
    {
      hide Leads;
      var found := Turn(self);
      created := found.None?;
    }

    /** What was taken goes back, unless the path is taken by then. */
    method RestoreQuarantine(self: nat)
      requires Valid() && self < |s.procs| && Working(s.procs[self]) && s.procs[self].phase.Restore?
      modifies this
      ensures Valid() && Since(self)
      ensures s.procs[self] == old(s.procs[self]).(phase := Refused, quarantine := None)
      ensures RivalMoves(moves, self) == RivalMoves(old(moves), self) ==>
                s.lock == if old(s.lock).None? then old(s.procs[self].quarantine) else old(s.lock)
    {
      hide Leads, RivalMoves;
      var found := Turn(self);
      if found.Some? {
        found := Turn(self);
        if found.None? {
          found := Turn(self);
        }
      }
      found := Turn(self);
    }

    /** The acquisition loop. It ends holding the lock or refused, it leaves no
        quarantine behind, and it is a run of the machine, so that it keeps the
        lock exclusive between two contenders whatever the schedule. It is refused only
        when it has judged a suspect live, or in its last round, when others have moved in
        each; a process alone takes over any lock that names no live instance. */
    method Acquire(self: nat) returns (acquired: bool)
      requires Valid() && At(self, Create, 0)
      modifies this
      ensures Valid() && Safe()
      ensures Ended(self, if acquired then Holding else Refused)
      ensures !acquired ==>
                || Refuted(start, moves, doubts, self, |old(moves)|)
                || (s.procs[self].attempt == MAX_ACQUIRE_ATTEMPTS - 1
                    && RivalMoves(moves, self) >= RivalMoves(old(moves), self) + MAX_ACQUIRE_ATTEMPTS)
      ensures acquired && RivalMoves(moves, self) == RivalMoves(old(moves), self) ==> s.lock == Some(Own(self))
      ensures old(Alone() && Stale(s)) ==> acquired && s.lock == Some(Own(self))
    {
      acquired := AcquireLoop(self);
      if |start.procs| <= 2 && Initial(start, |start.procs|) {
        InitialInv(start, |start.procs|);
        RunKeepsInv(start, moves);
        InvExcludes(s);
      }
    }

    method AcquireLoop(self: nat) returns (acquired: bool)
      requires Valid() && At(self, Create, 0)
      modifies this
      ensures Valid() && Since(self)
      ensures Ended(self, if acquired then Holding else Refused)
      ensures !acquired ==>
                || Refuted(start, moves, doubts, self, |old(moves)|)
                || (s.procs[self].attempt == MAX_ACQUIRE_ATTEMPTS - 1
                    && RivalMoves(moves, self) >= RivalMoves(old(moves), self) + MAX_ACQUIRE_ATTEMPTS)
      ensures acquired && RivalMoves(moves, self) == RivalMoves(old(moves), self) ==> s.lock == Some(Own(self))
      ensures old(Alone() && Stale(s)) ==> acquired
    {
      hide Leads, RivalMoves, Refuted, Stale;
      var attempt := 0;
      while attempt < MAX_ACQUIRE_ATTEMPTS
        invariant Valid() && attempt <= MAX_ACQUIRE_ATTEMPTS && Since(self)
        invariant if attempt < MAX_ACQUIRE_ATTEMPTS then At(self, Create, attempt)
                  else At(self, Refused, attempt - 1)
        invariant RivalMoves(moves, self) >= RivalMoves(old(moves), self) + attempt
        invariant old(Alone() && Stale(s)) ==> Stale(s) && attempt == 0
      {
        ghost var was := moves;
        var done;
        done, acquired := Attempt(self, attempt);
        if done {
          if !acquired {
            RefutedStays(start, moves, moves, doubts, self, |was|, |old(moves)|);
          }
          return;
        }
        attempt := attempt + 1;
      }
      assert At(self, Refused, attempt - 1);
      return false;
    }

    /** One round: create; else read and judge the owner, rename its lock away and
        judge what was taken; create again; else look at the winner. */
    method Attempt(self: nat, attempt: nat) returns (done: bool, acquired: bool)
      requires Valid() && At(self, Create, attempt) && attempt < MAX_ACQUIRE_ATTEMPTS
      modifies this
      ensures Valid() && Since(self)
      ensures done ==> At(self, if acquired then Holding else Refused, attempt)
      ensures !done ==> !acquired && s.procs[self] == NextRound(old(s.procs[self]))
      ensures done && !acquired ==> Refuted(start, moves, doubts, self, |old(moves)|)
      ensures !done ==> RivalMoves(moves, self) > RivalMoves(old(moves), self)
      ensures acquired && RivalMoves(moves, self) == RivalMoves(old(moves), self) ==> s.lock == Some(Own(self))
      ensures old(Alone() && Stale(s)) ==> acquired
    {
      hide Leads, RivalMoves, Refuted, Alone, Stale, LiveInstance;
      var created := TryCreate(self);
      if created {
        return true, true;
      }
      StaleStays(old(s), s);
      ghost var was := moves;
      var owner, held := FaceOwner(self, attempt);
      if held {
        RefutedStays(start, moves, moves, doubts, self, |was|, |old(moves)|);
        return true, false;
      }
      var file := Turn(self);
      if file.None? {
        return false, false;
      }
      was := moves;
      done, acquired := Recheck(self, attempt, owner);
      if done && !acquired {
        RefutedStays(start, moves, moves, doubts, self, |was|, |old(moves)|);
      }
    }

    /** Read the lock file and judge the owner it names, if any. */
    method FaceOwner(self: nat, attempt: nat) returns (owner: Option<Entry>, held: bool)
      requires Valid() && At(self, ReadOwner, attempt)
      modifies this
      ensures Valid() && Since(self)
      ensures At(self, if held then Refused else Steal(owner), attempt)
      ensures held ==> Refuted(start, moves, doubts, self, |old(moves)|)
      ensures RivalMoves(moves, self) == RivalMoves(old(moves), self) ==> s.lock == old(s.lock) && owner == View(s.lock)
      ensures old(Alone() && Stale(s)) ==> !held
    {
      hide Leads, RivalMoves, Refuted;
      var file := Turn(self);
      owner := View(file);
      held := false;
      if owner.Some? {
        ghost var was := moves;
        held := IsHeldByLiveInstance(self, owner.value);
        if held {
          RefutedStays(start, moves, moves, doubts, self, |was|, |old(moves)|);
        }
      }
    }

    /** The rest of a round, after the lock file was renamed into quarantine. */
    method Recheck(self: nat, attempt: nat, owner: Option<Entry>) returns (done: bool, acquired: bool)
      requires Valid() && self < |s.procs| && s.procs[self].alive && s.lock.None?
      requires s.procs[self].phase == ReadStolen(owner)
      requires s.procs[self].attempt == attempt < MAX_ACQUIRE_ATTEMPTS
      modifies this
      ensures Valid() && Since(self)
      ensures done ==> At(self, if acquired then Holding else Refused, attempt)
      ensures !done ==> !acquired && s.procs[self] == NextRound(Proc(Create, attempt, true, None))
      ensures done && !acquired ==> Refuted(start, moves, doubts, self, |old(moves)|)
      ensures !done ==> RivalMoves(moves, self) > RivalMoves(old(moves), self)
      ensures acquired && RivalMoves(moves, self) == RivalMoves(old(moves), self) ==> s.lock == Some(Own(self))
      ensures View(old(s.procs[self].quarantine)) == owner && RivalMoves(moves, self) == RivalMoves(old(moves), self) ==> acquired
    {
      hide Leads, RivalMoves, Refuted, Alone, LiveInstance;
      ghost var was := moves;
      var held := FaceStolen(self, attempt, owner);
      if held {
        RefutedStays(start, moves, moves, doubts, self, |was|, |old(moves)|);
        return true, false;
      }
      var created := TryCreate(self);
      var file := Turn(self);
      if created {
        return true, true;
      }
      was := moves;
      var lost := FaceWinner(self, attempt);
      if lost {
        RefutedStays(start, moves, moves, doubts, self, |was|, |old(moves)|);
      }
      return lost, false;
    }

    /** Judge what was taken, when it is not what was judged before; a live lock goes back. */
    method FaceStolen(self: nat, attempt: nat, owner: Option<Entry>) returns (held: bool)
      requires Valid() && self < |s.procs| && s.procs[self].alive
      requires s.procs[self].phase == ReadStolen(owner) && s.procs[self].attempt == attempt
      modifies this
      ensures Valid() && Since(self)
      ensures if held then At(self, Refused, attempt) else s.procs[self] == old(s.procs[self]).(phase := CreateAgain)
      ensures held ==> Refuted(start, moves, doubts, self, |old(moves)|)
      ensures held ==> View(old(s.procs[self].quarantine)) != owner
      ensures !held && RivalMoves(moves, self) == RivalMoves(old(moves), self) ==> s.lock == old(s.lock)
    {
      hide Leads, RivalMoves, Refuted, Alone, LiveInstance;
      var stolen := View(s.procs[self].quarantine);
      var file := Turn(self);
      held := false;
      if stolen != owner && stolen.Some? {
        ghost var was := moves;
        held := IsHeldByLiveInstance(self, stolen.value);
        if held {
          ghost var judged := moves;
          RestoreQuarantine(self);
          RefutedStays(start, judged, moves, doubts, self, |was|, |old(moves)|);
        }
      }
    }

    /** Someone else created the lock first: give up if that one is live. */
    method FaceWinner(self: nat, attempt: nat) returns (lost: bool)
      requires Valid() && At(self, ReadWinner, attempt)
      modifies this
      ensures Valid() && Since(self)
      ensures if lost then At(self, Refused, attempt) else s.procs[self] == NextRound(old(s.procs[self]))
      ensures lost ==> Refuted(start, moves, doubts, self, |old(moves)|)
    {
      hide Leads, RivalMoves, Refuted;
      var file := Turn(self);
      var winner := View(file);
      lost := false;
      if winner.Some? {
        ghost var was := moves;
        lost := IsHeldByLiveInstance(self, winner.value);
        if lost {
          RefutedStays(start, moves, moves, doubts, self, |was|, |old(moves)|);
        }
      }
    }

    /** Giving the lock up: it is removed when it is one's own, and only then, if nobody
        else moves meanwhile. */
    method ReleaseLock(self: nat)
      requires Valid() && self < |s.procs| && s.procs[self].alive && s.procs[self].phase.Holding?
      modifies this
      ensures Valid() && Since(self)
      ensures s.procs[self] == old(s.procs[self]).(phase := Released)
      ensures RivalMoves(moves, self) == RivalMoves(old(moves), self) ==>
                s.lock == if View(old(s.lock)).Some? && View(old(s.lock)).value.pid == self then None else old(s.lock)
    {
      hide Leads, RivalMoves;
      Others(self);
      OwnMove(moves, Release(self));
      Do(Release(self));
      Others(self);
      var mine := View(s.lock).Some? && View(s.lock).value.pid == self;
      OwnMove(moves, Go(self, false));
      Do(Go(self, false));
      if mine {
        var _ := Turn(self);
      }
    }
  }
}
