/** The assembler with its mutable buckets: one object per window, shared between
    the map and the timer, download and flush callbacks that captured it. Each
    method is one stretch of the source between two awaits and makes exactly one
    step of the machine in `TurnAssembler`. */
module InboundTurnAssembler {
  import opened Texts
  import opened TurnAssembler

  class BucketObject {
    const key: Key
    var texts: seq<string>
    var attachments: seq<string>
    var rejected: seq<Rejected>
    var messageIds: seq<string>
    var pendingOutcomes: set<nat>
    var windowElapsed: bool
    var forcedReason: Option<CommitReason>
    var timer: bool
    var committed: bool

    constructor (key: Key)
      ensures this.key == key && View() == NewBucket(key)
    {
      this.key := key;
      texts, attachments, rejected, messageIds, pendingOutcomes := [], [], [], [], {};
      windowElapsed, forcedReason, timer, committed := false, None, false, false;
    }

    function View(): Bucket
      reads this
    {
      Bucket(key, texts, attachments, rejected, messageIds, pendingOutcomes, windowElapsed, forcedReason, timer, committed)
    }

    method PushItem(item: Rejected)
      modifies this
      ensures View() == old(View()).(rejected := PushRejected(old(rejected), item))
    {
      var dup := false;
      for i := 0 to |rejected|
        invariant dup <==> exists j | 0 <= j < i :: rejected[j].source == item.source && rejected[j].reason == item.reason
      {
        if rejected[i].source == item.source && rejected[i].reason == item.reason {
          dup := true;
        }
      }
      if !dup {
        rejected := rejected + [item];
      }
    }

    method PushItems(items: seq<Rejected>)
      modifies this
      ensures View() == old(View()).(rejected := PushAllRejected(old(rejected), items))
    {
      for i := 0 to |items|
        invariant View() == old(View()).(rejected := PushAllRejected(old(rejected), items[..i]))
      {
        PushItem(items[i]);
        assert items[..i + 1][..i] == items[..i];
      }
      assert items[..|items|] == items;
    }

    /** Clear the running timer, if any, and start the quiet window again. */
    method ArmTimer()
      modifies this
      ensures View() == Arm(old(View()))
    {
      if timer {
        timer := false;
      }
      windowElapsed := false;
      timer := true;
    }

    /** A flush ends the window early. */
    method Force(reason: CommitReason)
      modifies this
      ensures View() == old(View()).(windowElapsed := true, forced := Some(reason))
    {
      windowElapsed := true;
      forcedReason := Some(reason);
    }

    method Close()
      modifies this
      ensures View() == old(View()).(committed := true, armed := false)
    {
      committed := true;
      if timer {
        timer := false;
      }
    }

    /** Take one message in. */
    method Take(messageId: string, content: Content)
      modifies this
      ensures View() == Arm(Absorb(old(View()).(messageIds := PushMessageId(old(messageIds), messageId)), content))
    {
      if messageId !in messageIds {
        messageIds := messageIds + [messageId];
      }
      match content {
        case Text(text, unsupported) =>
          if text != "" {
            texts := texts + [text];
          }
          PushItems(unsupported);
        case Media(download) =>
          pendingOutcomes := pendingOutcomes + {download};
        case Refusal(item) =>
          PushItem(item);
      }
      ArmTimer();
    }

    /** Merge the outcome of a download. */
    method Merge(messageId: string, outcome: Outcome)
      modifies this
      ensures View() == MergeOutcome(old(View()), messageId, outcome)
    {
      match outcome {
        case Saved(files, refused) =>
          attachments := attachments + files;
          PushItems(refused);
        case Failed(message) =>
          PushItem(Rejected("file", message, messageId));
      }
    }

    method StrikeOff(download: nat)
      modifies this
      ensures View() == old(View()).(pending := old(pendingOutcomes) - {download})
    {
      pendingOutcomes := pendingOutcomes - {download};
    }
  }

  class Assembler {
    var buckets: map<Key, BucketObject>
    var turns: seq<Turn>
    ghost var all: seq<BucketObject>
    ghost var s: State

    /** The objects, in creation order, are the heap of the machine; the map holds
        the live one of each key. */
    ghost predicate Mirrors()
      reads this, all
    {
      && |all| == |s.heap|
      && (forall i, j | 0 <= i < j < |all| :: all[i] != all[j])
      && (forall i | 0 <= i < |all| :: all[i].View() == s.heap[i])
      && buckets.Keys == s.live.Keys
      && (forall k | k in buckets :: s.live[k] < |all| && buckets[k] == all[s.live[k]])
      && turns == s.turns
    }

    ghost predicate Valid()
      reads this, all
    {
      Mirrors() && Inv(s)
    }

    constructor ()
      ensures Valid() && s == EMPTY && all == []
    {
      buckets, turns, all, s := map[], [], [], EMPTY;
      new;
      EmptyInv();
    }

    /** Only bucket `i` and the machine's own state changed, in the same way. */
    twostate lemma OneBucketChanged(i: nat)
      requires old(Mirrors()) && i < |all| && all == old(all) && buckets == old(buckets) && turns == old(turns)
      requires forall j | 0 <= j < |all| && j != i :: unchanged(all[j])
      requires s.heap == old(s.heap)[i := all[i].View()] && s.live == old(s.live) && s.turns == old(s.turns)
      ensures Mirrors()
    {
    }

    method EnsureBucket(key: Key) returns (bucket: BucketObject, ghost i: nat)
      requires Mirrors()
      modifies this
      ensures Mirrors() && s == Ensure(old(s), key)
      ensures key in s.live && s.live[key] == i < |all| && bucket == all[i]
      ensures fresh(set b | b in all && b !in old(all))
    {
      if key in buckets {
        return buckets[key], s.live[key];
      }
      bucket := new BucketObject(key);
      i := |all|;
      buckets := buckets[key := bucket];
      all := all + [bucket];
      s := Ensure(s, key);
    }

    /** Deliver one message, and restart the window of its conversation. */
    method Ingest(key: Key, messageId: string, content: Content)
      requires Valid() && Enabled(s, Event.Ingest(key, messageId, content))
      modifies this, all
      ensures Valid() && s == IngestStep(old(s), key, messageId, content)
    {
      hide Inv, Enabled, Arm, Absorb, PushMessageId;
      StepKeepsInv(s, Event.Ingest(key, messageId, content));
      ghost var i: nat;
      var bucket;
      bucket, i := EnsureBucket(key);
      label taken:
      bucket.Take(messageId, content);
      s := IngestStep(old(s), key, messageId, content);
      OneBucketChanged@taken(i);
    }

    /** The quiet window of `bucket` is over. */
    method TimerFired(bucket: BucketObject, ghost i: nat)
      requires Valid() && Enabled(s, TimerFires(i)) && all[i] == bucket
      modifies this, all
      ensures Valid() && s == TimerStep(old(s), i) && all == old(all)
    {
      hide Inv;
      StepKeepsInv(s, TimerFires(i));
      bucket.timer := false;
      bucket.windowElapsed := true;
      s := Put(s, i, bucket.View());
      OneBucketChanged(i);
      if bucket.pendingOutcomes != {} {
        return;
      }
      TryCommit(bucket.key, if bucket.forcedReason.Some? then bucket.forcedReason.value else Idle);
    }

    /** A download of `bucket` came to an end: the first of its two callbacks. */
    method OutcomeSettled(bucket: BucketObject, ghost i: nat, download: nat, messageId: string, outcome: Outcome)
      requires Valid() && Enabled(s, Settles(download, outcome))
      requires s.downloads[download] == Download(i, messageId, false) && i < |all| && all[i] == bucket
      modifies this, all
      ensures Valid() && s == SettleStep(old(s), download, outcome) && all == old(all)
    {
      hide Inv, MergeOutcome;
      StepKeepsInv(s, Settles(download, outcome));
      bucket.Merge(messageId, outcome);
      s := Put(s, i, bucket.View()).(downloads := s.downloads[download := Download(i, messageId, true)]);
      OneBucketChanged(i);
    }

    /** The second callback: the last download of an elapsed window commits the turn. */
    method OutcomeStruckOff(bucket: BucketObject, ghost i: nat, download: nat)
      requires Valid() && Enabled(s, Strikes(download))
      requires s.downloads[download].bucket == i && i < |all| && all[i] == bucket
      modifies this, all
      ensures Valid() && s == StrikeStep(old(s), download) && all == old(all)
    {
      hide Inv;
      StepKeepsInv(s, Strikes(download));
      bucket.StrikeOff(download);
      s := Put(s, i, bucket.View()).(downloads := s.downloads - {download});
      OneBucketChanged(i);
      if bucket.windowElapsed && bucket.pendingOutcomes == {} && !bucket.committed {
        TryCommit(bucket.key, if bucket.forcedReason.Some? then bucket.forcedReason.value else Idle);
      }
    }

    /** The part of a flush before its await: true when it has to wait for the
        downloads in flight. */
    method FlushStart(key: Key, id: nat, reason: CommitReason) returns (waits: bool)
      requires Valid() && Enabled(s, FlushStarts(key, id, reason))
      modifies this, all
      ensures Valid() && s == FlushStep(old(s), key, id, reason) && all == old(all)
      ensures waits <==> id in s.flushes
    {
      StepKeepsInv(s, FlushStarts(key, id, reason));
      FlushViews(s, key, id, reason);
      hide Inv, FlushStep, Step;
      waits := ForceOrWait(key, id, reason);
    }

    method ForceOrWait(key: Key, ghost id: nat, reason: CommitReason) returns (waits: bool)
      requires Mirrors() && id !in s.flushes && (key in s.live ==> s.live[key] < |s.heap|)
      modifies this, all
      ensures Mirrors() && s == FlushStep(old(s), key, id, reason) && all == old(all)
      ensures waits <==> id in s.flushes
    {
      hide TurnAssembler.TryCommit;
      if key !in buckets {
        return false;
      }
      var bucket := buckets[key];
      ghost var i := s.live[key];
      ForceBucket(bucket, i, reason);
      hide Put;
      if bucket.pendingOutcomes != {} {
        Await(id, Flush(key, i, bucket.pendingOutcomes, reason));
        return true;
      }
      CommitStartsNoFlush(s, key, reason);
      TryCommit(key, reason);
      waits := false;
    }

    /** The flush now waits for the downloads. */
    ghost method Await(id: nat, flush: Flush)
      requires Mirrors()
      modifies this`s
      ensures Mirrors() && s == old(s).(flushes := old(s).flushes[id := flush])
    {
      s := s.(flushes := s.flushes[id := flush]);
    }

    method ForceBucket(bucket: BucketObject, ghost i: nat, reason: CommitReason)
      requires Mirrors() && i < |all| && all[i] == bucket
      modifies this`s, bucket
      ensures Mirrors() && s == Put(old(s), i, old(s).heap[i].(windowElapsed := true, forced := Some(reason)))
    {
      bucket.Force(reason);
      s := Put(s, i, bucket.View());
      OneBucketChanged(i);
    }

    /** The part of a flush after its await. */
    method FlushResume(bucket: BucketObject, key: Key, reason: CommitReason, ghost id: nat)
      requires Valid() && Enabled(s, FlushResumes(id))
      requires s.flushes[id].key == key && s.flushes[id].reason == reason
      requires s.flushes[id].bucket < |all| && all[s.flushes[id].bucket] == bucket
      modifies this, all
      ensures Valid() && s == ResumeStep(old(s), id) && all == old(all)
    {
      hide Inv, TurnAssembler.TryCommit;
      StepKeepsInv(s, FlushResumes(id));
      s := s.(flushes := s.flushes - {id});
      if !bucket.committed {
        TryCommit(key, reason);
      }
    }

    method TryCommit(key: Key, reason: CommitReason)
      requires Mirrors()
      modifies this, all
      ensures Mirrors() && s == TurnAssembler.TryCommit(old(s), key, reason) && all == old(all)
    {
      if key !in buckets {
        return;
      }
      var bucket := buckets[key];
      ghost var i := s.live[key];
      if bucket.committed || bucket.pendingOutcomes != {} {
        return;
      }
      bucket.Close();
      s := Put(s, i, bucket.View());
      OneBucketChanged(i);
      Deliver(key, bucket, reason);
    }

    /** Hand the turn over and forget its bucket. */
    method Deliver(key: Key, bucket: BucketObject, reason: CommitReason)
      requires Mirrors() && key in buckets && buckets[key] == bucket
      modifies this
      ensures Mirrors() && all == old(all)
      ensures s == old(s).(live := old(s).live - {key}, turns := old(s).turns + [TurnOf(bucket.View(), reason)])
    {
      buckets := buckets - {key};
      turns := turns + [TurnOf(bucket.View(), reason)];
      s := s.(live := s.live - {key}, turns := turns);
    }
  }

  lemma CommitStartsNoFlush(s: State, key: Key, reason: CommitReason)
    ensures TurnAssembler.TryCommit(s, key, reason).flushes == s.flushes
  {
  }

  lemma FlushViews(s: State, key: Key, id: nat, reason: CommitReason)
    requires Inv(s) && Enabled(s, FlushStarts(key, id, reason))
    ensures Step(s, FlushStarts(key, id, reason)) == FlushStep(s, key, id, reason)
    ensures id !in s.flushes && (key in s.live ==> s.live[key] < |s.heap|)
  {
  }
}
