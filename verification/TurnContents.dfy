/** What a committed turn tells: all that its bucket took in, each message and each refusal
    once, no earlier than its quiet window is over or a flush asked for it. */
module TurnContents {
  import opened Texts
  import opened TurnAssembler

  // ---- refusals ----

  /** The list tells of a refusal of this source for this reason. */
  predicate Notes(list: seq<Rejected>, item: Rejected) {
    exists i :: 0 <= i < |list| && list[i].source == item.source && list[i].reason == item.reason
  }

  predicate NotedOnce(list: seq<Rejected>) {
    forall i, j | 0 <= i < j < |list| :: list[i].source != list[j].source || list[i].reason != list[j].reason
  }

  lemma PushNotes(list: seq<Rejected>, item: Rejected)
    ensures var r := PushRejected(list, item);
            list <= r && Notes(r, item) && (NotedOnce(list) ==> NotedOnce(r))
  {
    if Notes(list, item) {
      assert PushRejected(list, item) == list;
    } else {
      assert (list + [item])[|list|] == item;
    }
  }

  lemma {:induction false} PushAllNotes(list: seq<Rejected>, items: seq<Rejected>)
    ensures var r := PushAllRejected(list, items);
            && list <= r && (NotedOnce(list) ==> NotedOnce(r))
            && forall i | 0 <= i < |items| :: Notes(r, items[i])
  {
    if items != [] {
      var earlier, last := items[..|items| - 1], items[|items| - 1];
      var before := PushAllRejected(list, earlier);
      PushAllNotes(list, earlier);
      PushNotes(before, last);
      hide PushRejected, NotedOnce;
      var r := PushAllRejected(list, items);
      forall i | 0 <= i < |items|
        ensures Notes(r, items[i])
      {
        if i < |earlier| {
          NotesStays(before, r, items[i]);
        }
      }
    }
  }

  lemma NotesStays(list: seq<Rejected>, more: seq<Rejected>, item: Rejected)
    requires list <= more && Notes(list, item)
    ensures Notes(more, item)
  {
    var i :| 0 <= i < |list| && list[i].source == item.source && list[i].reason == item.reason;
    assert more[i] == list[i];
  }

  predicate ListedOnce(ids: seq<string>) {
    forall i, j | 0 <= i < j < |ids| :: ids[i] != ids[j]
  }

  // ---- a bucket only grows ----

  /** Nothing a bucket took in is lost or moved. */
  predicate Grows(was: Bucket, b: Bucket) {
    && b.key == was.key && was.texts <= b.texts && was.attachments <= b.attachments
    && was.rejected <= b.rejected && was.messageIds <= b.messageIds
    && (ListedOnce(was.messageIds) ==> ListedOnce(b.messageIds))
    && (NotedOnce(was.rejected) ==> NotedOnce(b.rejected))
  }

  lemma TakenGrows(was: Bucket, messageId: string, content: Content)
    ensures var b := Arm(Absorb(was.(messageIds := PushMessageId(was.messageIds, messageId)), content));
            && Grows(was, b) && messageId in b.messageIds && b.armed && !b.windowElapsed && b.committed == was.committed
            && (content.Text? && content.text != "" ==> b.texts == was.texts + [content.text])
            && (content.Text? ==> forall i | 0 <= i < |content.unsupported| :: Notes(b.rejected, content.unsupported[i]))
            && (content.Refusal? ==> Notes(b.rejected, content.item))
            && (content.Media? ==> b.pending == was.pending + {content.download})
  {
    match content
    case Text(_, unsupported) => PushAllNotes(was.rejected, unsupported);
    case Refusal(item) => PushNotes(was.rejected, item);
    case Media(_) =>
    hide PushAllRejected, PushRejected, NotedOnce, Notes;
  }

  lemma MergedGrows(was: Bucket, messageId: string, outcome: Outcome)
    ensures var b := MergeOutcome(was, messageId, outcome);
            && Grows(was, b)
            && (outcome.Saved? ==> b.attachments == was.attachments + outcome.attachments)
            && (outcome.Saved? ==> forall i | 0 <= i < |outcome.rejected| :: Notes(b.rejected, outcome.rejected[i]))
            && (outcome.Failed? ==> Notes(b.rejected, Rejected("file", outcome.message, messageId)))
  {
    match outcome
    case Saved(_, rejected) => PushAllNotes(was.rejected, rejected);
    case Failed(message) => PushNotes(was.rejected, Rejected("file", message, messageId));
    hide PushAllRejected, PushRejected, NotedOnce, Notes;
  }

  /** Trying to commit takes nothing from a bucket. */
  lemma CommitGrows(s: State, key: Key, reason: CommitReason, i: nat)
    requires i < |s.heap|
    ensures var t := TryCommit(s, key, reason);
            && |t.heap| == |s.heap| && Grows(s.heap[i], t.heap[i])
            && t.heap[i].forced == s.heap[i].forced && t.heap[i].windowElapsed == s.heap[i].windowElapsed
            && t.heap[i].pending == s.heap[i].pending
  {
    hide NotedOnce;
  }

  lemma GrowsItself(b: Bucket)
    ensures Grows(b, b)
  {
  }

  lemma PutGrows(s: State, j: nat, b: Bucket, i: nat)
    requires j < |s.heap| && i < |s.heap| && Grows(s.heap[j], b)
    ensures Grows(s.heap[i], Put(s, j, b).heap[i])
  {
    hide Grows;
    GrowsItself(s.heap[i]);
  }

  lemma GrowsTwice(a: Bucket, b: Bucket, c: Bucket)
    requires Grows(a, b) && Grows(b, c)
    ensures Grows(a, c)
  {
    hide ListedOnce, NotedOnce;
  }

  /** One bucket changes, and then one may be committed. */
  lemma PutThenCommitGrows(s: State, j: nat, b: Bucket, downloads: map<nat, Download>, key: Key, reason: CommitReason, i: nat)
    requires j < |s.heap| && i < |s.heap| && Grows(s.heap[j], b)
    ensures var s1 := Put(s, j, b).(downloads := downloads);
            Grows(s.heap[i], s1.heap[i]) && i < |TryCommit(s1, key, reason).heap| && Grows(s.heap[i], TryCommit(s1, key, reason).heap[i])
  {
    hide Grows;
    var s1 := Put(s, j, b).(downloads := downloads);
    PutGrows(s, j, b, i);
    CommitGrows(s1, key, reason, i);
    GrowsTwice(s.heap[i], s1.heap[i], TryCommit(s1, key, reason).heap[i]);
  }

  lemma IngestGrows(s: State, key: Key, messageId: string, content: Content, i: nat)
    requires i < |s.heap| && (key in s.live ==> s.live[key] < |s.heap|)
    ensures var t := IngestStep(s, key, messageId, content); i < |t.heap| && Grows(s.heap[i], t.heap[i])
  {
    hide Grows, Arm, Absorb, PushMessageId;
    GrowsItself(s.heap[i]);
    if key in s.live {
      TakenGrows(s.heap[s.live[key]], messageId, content);
    }
  }

  lemma StepGrows(s: State, e: Event, i: nat)
    requires Inv(s) && Enabled(s, e) && i < |s.heap|
    ensures i < |Step(s, e).heap| && Grows(s.heap[i], Step(s, e).heap[i])
  {
    hide DownloadsHeld, AllAwake, FlushesKnown, TryCommit, MergeOutcome, IngestStep, Grows;
    match e
    case Ingest(key, messageId, content) => IngestGrows(s, key, messageId, content, i);
    case Settles(d, outcome) =>
      HeldIsThere(s, d);
      MergedGrows(s.heap[s.downloads[d].bucket], s.downloads[d].messageId, outcome);
      PutGrows(s, s.downloads[d].bucket, MergeOutcome(s.heap[s.downloads[d].bucket], s.downloads[d].messageId, outcome), i);
    case TimerFires(j) =>
      var b := s.heap[j].(armed := false, windowElapsed := true);
      SameGoodsGrow(s.heap[j], b);
      PutThenCommitGrows(s, j, b, s.downloads, b.key, ReasonOf(b), i);
    case Strikes(d) =>
      HeldIsThere(s, d);
      var j := s.downloads[d].bucket;
      var b := s.heap[j].(pending := s.heap[j].pending - {d});
      SameGoodsGrow(s.heap[j], b);
      PutThenCommitGrows(s, j, b, s.downloads - {d}, b.key, ReasonOf(b), i);
    case FlushStarts(key, id, reason) =>
      GrowsItself(s.heap[i]);
      if key in s.live {
        var j := s.live[key];
        var b := s.heap[j].(windowElapsed := true, forced := Some(reason));
        SameGoodsGrow(s.heap[j], b);
        PutThenCommitGrows(s, j, b, s.downloads, key, reason, i);
      }
    case FlushResumes(id) =>
      GrowsItself(s.heap[i]);
      CommitGrows(s.(flushes := s.flushes - {id}), s.flushes[id].key, s.flushes[id].reason, i);
  }

  lemma HeldIsThere(s: State, d: nat)
    requires Inv(s) && d in s.downloads
    ensures s.downloads[d].bucket < |s.heap|
  {
  }

  lemma SameGoodsGrow(was: Bucket, b: Bucket)
    requires b.key == was.key && b.texts == was.texts && b.attachments == was.attachments
    requires b.rejected == was.rejected && b.messageIds == was.messageIds
    ensures Grows(was, b)
  {
    hide ListedOnce, NotedOnce;
  }

  /** A message is on record in the open bucket of its conversation, and what it refuses
      is told there. */
  lemma IngestIsRecorded(s: State, key: Key, messageId: string, content: Content)
    requires Inv(s) && Enabled(s, Ingest(key, messageId, content))
    ensures var t := Step(s, Ingest(key, messageId, content));
            && key in t.live && t.live[key] < |t.heap|
            && var b := t.heap[t.live[key]];
               && messageId in b.messageIds && b.armed && !b.windowElapsed
               && (content.Text? ==> forall i | 0 <= i < |content.unsupported| :: Notes(b.rejected, content.unsupported[i]))
               && (content.Refusal? ==> Notes(b.rejected, content.item))
               && (content.Media? ==> content.download in t.downloads && t.downloads[content.download] == Download(t.live[key], messageId, false))
  {
    hide PushAllRejected, PushRejected, PushMessageId, Absorb, Notes;
    var s1 := Ensure(s, key);
    EnsureKeepsInvBut(s, key);
    TakenGrows(s1.heap[s1.live[key]], messageId, content);
    hide Arm, Inv;
  }

  /** So is a download that failed, or the files of it that were refused. */
  lemma OutcomeIsRecorded(s: State, d: nat, outcome: Outcome)
    requires Inv(s) && Enabled(s, Settles(d, outcome))
    ensures var was := s.downloads[d];
            var b := Step(s, Settles(d, outcome)).heap[was.bucket];
            && (outcome.Saved? ==> forall i | 0 <= i < |outcome.rejected| :: Notes(b.rejected, outcome.rejected[i]))
            && (outcome.Failed? ==> Notes(b.rejected, Rejected("file", outcome.message, was.messageId)))
  {
    hide PushAllRejected, PushRejected, Notes, MergeOutcome;
    MergedGrows(s.heap[s.downloads[d].bucket], s.downloads[d].messageId, outcome);
  }

  // ---- one turn for each bucket ----

  /** The turn tells all of the bucket. */
  predicate Tells(t: Turn, b: Bucket) {
    && b.committed
    && t.key == b.key && t.texts == b.texts && t.attachments == b.attachments
    && t.rejected == b.rejected && t.messageIds == b.messageIds
    && (t.texts == [] ==> t.reason == NoText)
    && ListedOnce(t.messageIds) && NotedOnce(t.rejected)
  }

  /** The turns are those of the committed buckets, each once, in the order `order`. */
  ghost predicate Delivered(s: State, order: seq<nat>) {
    && |order| == |s.turns|
    && (forall k | 0 <= k < |order| :: order[k] < |s.heap| && Tells(s.turns[k], s.heap[order[k]]))
    && (forall k, l | 0 <= k < l < |order| :: order[k] != order[l])
    && (forall i | 0 <= i < |s.heap| :: s.heap[i].committed <==> i in order)
    && (forall i | 0 <= i < |s.heap| :: ListedOnce(s.heap[i].messageIds) && NotedOnce(s.heap[i].rejected))
  }

  lemma StepDelivers(s: State, e: Event, order: seq<nat>) returns (next: seq<nat>)
    requires Inv(s) && Enabled(s, e) && Delivered(s, order)
    ensures Delivered(Step(s, e), next)
  {
    var t := Step(s, e);
    CommitsAreQuietAndFinal(s, e);
    DeliveredIsClean(s, order);
    StaysClean(s, e);
    OneMoreAtMost(s, e);
    hide *;
    next := order;
    if Target(s, e).Some? {
      next := QuietDelivers(s, t, order, Target(s, e).value);
    } else {
      SameDelivers(s, t, order);
    }
  }

  ghost predicate Clean(s: State) {
    forall i | 0 <= i < |s.heap| :: ListedOnce(s.heap[i].messageIds) && NotedOnce(s.heap[i].rejected)
  }

  lemma DeliveredIsClean(s: State, order: seq<nat>)
    requires Delivered(s, order)
    ensures Clean(s)
  {
  }

  lemma StaysClean(s: State, e: Event)
    requires Inv(s) && Enabled(s, e) && Clean(s)
    ensures Clean(Step(s, e))
  {
    hide Step, ListedOnce, NotedOnce, Inv, Enabled;
    NewBucketIsClean(s, e);
    forall i | 0 <= i < |s.heap|
      ensures i < |Step(s, e).heap| && ListedOnce(Step(s, e).heap[i].messageIds) && NotedOnce(Step(s, e).heap[i].rejected)
    {
      StepGrows(s, e, i);
    }
  }

  lemma OneMoreAtMost(s: State, e: Event)
    requires Inv(s) && Enabled(s, e)
    ensures |s.heap| <= |Step(s, e).heap| <= |s.heap| + 1
    ensures |Step(s, e).heap| > |s.heap| ==> Target(s, e) == Some(|s.heap|)
  {
    hide PushAllRejected, PushRejected, PushMessageId, Absorb, MergeOutcome;
  }

  lemma SameDelivers(s: State, t: State, order: seq<nat>)
    requires Delivered(s, order) && t.heap == s.heap && t.turns == s.turns
    ensures Delivered(t, order)
  {
  }

  lemma QuietDelivers(s: State, t: State, order: seq<nat>, i: nat) returns (next: seq<nat>)
    requires Delivered(s, order) && Quiet(s, t, i) && |t.heap| <= |s.heap| + 1
    requires |t.heap| > |s.heap| ==> i == |s.heap|
    requires Clean(t)
    ensures Delivered(t, next)
  {
    hide ListedOnce, NotedOnce;
    assert i < |s.heap| ==> !s.heap[i].committed;
    assert i !in order;
    if t.heap[i].committed {
      next := order + [i];
      assert Tells(t.turns[|order|], t.heap[i]);
    } else {
      next := order;
    }
    assert forall k | 0 <= k < |order| :: order[k] != i;
  }

  lemma NewBucketIsClean(s: State, e: Event)
    requires Inv(s) && Enabled(s, e)
    ensures |Step(s, e).heap| <= |s.heap| + 1
    ensures |Step(s, e).heap| > |s.heap| ==>
              var b := Step(s, e).heap[|s.heap|]; ListedOnce(b.messageIds) && NotedOnce(b.rejected)
  {
    hide PushAllRejected, PushRejected, PushMessageId, Absorb, MergeOutcome;
    if e.Ingest? && e.key !in s.live {
      TakenGrows(NewBucket(e.key), e.messageId, e.content);
    }
  }

  lemma {:induction false} RunDelivers(s: State, events: seq<Event>, before: seq<nat>) returns (order: seq<nat>)
    requires Inv(s) && IsRun(s, events) && Delivered(s, before)
    ensures Delivered(After(s, events), order)
    decreases |events|
  {
    hide Inv, Enabled, Step, Delivered;
    order := before;
    if events != [] {
      StepKeepsInv(s, events[0]);
      order := StepDelivers(s, events[0], before);
      order := RunDelivers(Step(s, events[0]), events[1..], order);
    }
  }

  lemma NothingDelivered()
    ensures Delivered(EMPTY, [])
  {
  }

  /** In every run each committed bucket was delivered as exactly one turn, which tells all
      it took in: its texts, files, messages and refusals, no message and no refusal twice. */
  lemma EveryBucketOneTurn(events: seq<Event>) returns (order: seq<nat>)
    requires Inv(EMPTY) && IsRun(EMPTY, events)
    ensures Delivered(After(EMPTY, events), order)
  {
    hide *;
    NothingDelivered();
    order := RunDelivers(EMPTY, events, []);
  }

  // ---- the quiet window ----

  /** The window of bucket `i` ends: its timer fires, or a flush of its key starts or goes on. */
  predicate EndsWindow(s: State, e: Event, i: nat)
    requires i < |s.heap|
  {
    match e
    case TimerFires(j) => j == i
    case FlushStarts(key, _, _) => key == s.heap[i].key
    case FlushResumes(id) => id in s.flushes && s.flushes[id].key == s.heap[i].key
    case _ => false
  }

  predicate WindowIsOpen(s: State, i: nat) {
    i < |s.heap| && !s.heap[i].windowElapsed && !s.heap[i].committed
  }

  lemma OpenStaysOpen(s: State, e: Event, i: nat)
    requires Inv(s) && Enabled(s, e) && WindowIsOpen(s, i) && !EndsWindow(s, e, i)
    ensures WindowIsOpen(Step(s, e), i) && Step(s, e).heap[i].key == s.heap[i].key
  {
    hide PushAllRejected, PushRejected, PushMessageId;
    CommitsAreQuietAndFinal(s, e);
    match e
    case FlushResumes(id) =>
      ResumeLeavesOthers(s, id, i);
    case _ =>
  }

  lemma ResumeLeavesOthers(s: State, id: nat, i: nat)
    requires Inv(s) && Enabled(s, FlushResumes(id)) && i < |s.heap| && s.heap[i].key != s.flushes[id].key
    ensures ResumeStep(s, id).heap[i] == s.heap[i]
  {
  }

  /** No event of a stretch ends the window of bucket `i`. */
  predicate Undisturbed(s: State, events: seq<Event>, i: nat)
    requires Inv(s) && IsRun(s, events) && i < |s.heap|
    decreases |events|
  {
    events == [] ||
    (!EndsWindow(s, events[0], i)
     && (StepKeepsInv(s, events[0]); StepGrows(s, events[0], i); Undisturbed(Step(s, events[0]), events[1..], i)))
  }

  lemma {:induction false} OpenUntilItEnds(s: State, events: seq<Event>, i: nat)
    requires Inv(s) && IsRun(s, events) && WindowIsOpen(s, i) && Undisturbed(s, events, i)
    ensures WindowIsOpen(After(s, events), i)
    decreases |events|
  {
    hide Inv, Enabled, Step, WindowIsOpen, EndsWindow;
    if events != [] {
      StepKeepsInv(s, events[0]);
      OpenIsThere(s, i);
      OpenStaysOpen(s, events[0], i);
      OpenUntilItEnds(Step(s, events[0]), events[1..], i);
    }
  }

  lemma OpenIsThere(s: State, i: nat)
    requires WindowIsOpen(s, i)
    ensures i < |s.heap|
  {
  }

  /** A message restarts the quiet window: its turn is not committed, whatever downloads
      settle, before the window's timer fires or a flush of the conversation starts or
      goes on. */
  lemma MessageRestartsTheWindow(s: State, key: Key, messageId: string, content: Content, later: seq<Event>)
    requires Inv(s) && Enabled(s, Ingest(key, messageId, content))
    requires var t := Step(s, Ingest(key, messageId, content));
             Inv(t) && IsRun(t, later) && key in t.live && t.live[key] < |t.heap| && Undisturbed(t, later, t.live[key])
    ensures var t := Step(s, Ingest(key, messageId, content));
            var u := After(t, later);
            t.live[key] < |u.heap| && !u.heap[t.live[key]].committed
  {
    IngestIsRecorded(s, key, messageId, content);
    StepKeepsInv(s, Ingest(key, messageId, content));
    var t := Step(s, Ingest(key, messageId, content));
    assert WindowIsOpen(t, t.live[key]);
    hide Step, Inv, IsRun, After;
    OpenUntilItEnds(t, later, t.live[key]);
  }

  // ---- why a turn was committed ----

  function Asked(b: Bucket): CommitReason {
    if b.forced.Some? then b.forced.value else Idle
  }

  /** The reason told: no text, else the reason of the flush that asked for the turn, else
      that its window was over. */
  lemma ReasonIsTold(s: State, e: Event)
    requires Inv(s) && Enabled(s, e) && Step(s, e).turns != s.turns
    ensures var t := Step(s, e);
            var turn := t.turns[|t.turns| - 1];
            && |t.turns| == |s.turns| + 1
            && turn.reason == if turn.texts == [] then NoText else
                 match e
                 case FlushStarts(_, _, reason) => reason
                 case FlushResumes(id) => s.flushes[id].reason
                 case TimerFires(i) => Asked(s.heap[i])
                 case Strikes(d) => Asked(s.heap[s.downloads[d].bucket])
                 case _ => turn.reason
  {
    hide PushAllRejected, PushRejected, PushMessageId;
    CommitsAreQuietAndFinal(s, e);
    hide Quiet, Inv;
    match e
    case TimerFires(i) =>
    case Strikes(d) => HeldIsThere(s, d);
    case FlushStarts(key, id, reason) =>
    case FlushResumes(id) =>
    case _ =>
  }

  /** A bucket remembers the last flush that asked for it. */
  lemma FlushIsRemembered(s: State, e: Event, i: nat)
    requires Inv(s) && Enabled(s, e) && i < |s.heap|
    ensures Step(s, e).heap[i].forced == if e.FlushStarts? && e.key in s.live && s.live[e.key] == i then Some(e.reason) else s.heap[i].forced
  {
    hide PushAllRejected, PushRejected, PushMessageId;
    CommitsAreQuietAndFinal(s, e);
  }
}
