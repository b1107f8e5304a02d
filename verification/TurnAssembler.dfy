/** The inbound turn assembler as a machine over its events: messages, timer fires,
    download settlements and flushes, in any order. A bucket is known by its place
    in `heap`, because timers and downloads hold on to the bucket they were started
    for, not to whatever bucket the key has later. */
module TurnAssembler {
  import opened Texts

  type Key = string

  datatype CommitReason = Idle | Flushed | NoText

  datatype Rejected = Rejected(kind: string, reason: string, source: string)

  datatype Bucket = Bucket(
    key: Key,
    texts: seq<string>,
    attachments: seq<string>,
    rejected: seq<Rejected>,
    messageIds: seq<string>,
    pending: set<nat>,
    windowElapsed: bool,
    forced: Option<CommitReason>,
    armed: bool,
    committed: bool)

  datatype Turn = Turn(key: Key, texts: seq<string>, attachments: seq<string>, rejected: seq<Rejected>,
                       messageIds: seq<string>, reason: CommitReason)

  /** What a media download comes to. */
  datatype Outcome = Saved(attachments: seq<string>, rejected: seq<Rejected>) | Failed(message: string)

  /** A download not yet struck off: its bucket, the message it came with, and whether
      its outcome has been merged. */
  datatype Download = Download(bucket: nat, messageId: string, merged: bool)

  /** A flush that waits for the downloads in flight when it was asked. */
  datatype Flush = Flush(key: Key, bucket: nat, awaited: set<nat>, reason: CommitReason)

  datatype State = State(
    heap: seq<Bucket>,
    live: map<Key, nat>,
    downloads: map<nat, Download>,
    flushes: map<nat, Flush>,
    turns: seq<Turn>)

  const EMPTY := State([], map[], map[], map[], [])

  datatype Content =
    | Text(text: string, unsupported: seq<Rejected>)
    | Media(download: nat)
    | Refusal(item: Rejected)

  datatype Event =
    | Ingest(key: Key, messageId: string, content: Content)
    | TimerFires(bucket: nat)
    | Settles(download: nat, outcome: Outcome)
    | Strikes(download: nat)
    | FlushStarts(key: Key, id: nat, reason: CommitReason)
    | FlushResumes(id: nat)

  function NewBucket(key: Key): Bucket {
    Bucket(key, [], [], [], [], {}, false, None, false, false)
  }

  /** One entry per message and reason. */
  function PushRejected(list: seq<Rejected>, item: Rejected): seq<Rejected> {
    if exists i | 0 <= i < |list| :: list[i].source == item.source && list[i].reason == item.reason
    then list else list + [item]
  }

  function PushAllRejected(list: seq<Rejected>, items: seq<Rejected>): seq<Rejected> {
    if items == [] then list
    else PushRejected(PushAllRejected(list, items[..|items| - 1]), items[|items| - 1])
  }

  function PushMessageId(ids: seq<string>, id: string): seq<string> {
    if id in ids then ids else ids + [id]
  }

  /** What one message adds to its bucket. */
  function Absorb(b: Bucket, content: Content): Bucket {
    match content
    case Text(text, unsupported) =>
      b.(texts := if text != "" then b.texts + [text] else b.texts,
         rejected := PushAllRejected(b.rejected, unsupported))
    case Media(download) => b.(pending := b.pending + {download})
    case Refusal(item) => b.(rejected := PushRejected(b.rejected, item))
  }

  /** Any event restarts the quiet window. */
  function Arm(b: Bucket): Bucket {
    b.(windowElapsed := false, armed := true)
  }

  function Put(s: State, i: nat, b: Bucket): State
    requires i < |s.heap|
  {
    s.(heap := s.heap[i := b])
  }

  function Ensure(s: State, key: Key): State {
    if key in s.live then s
    else s.(heap := s.heap + [NewBucket(key)], live := s.live[key := |s.heap|])
  }

  function TurnOf(b: Bucket, reason: CommitReason): Turn {
    Turn(b.key, b.texts, b.attachments, b.rejected, b.messageIds, if b.texts == [] then NoText else reason)
  }

  /** Commit the bucket the key has now, unless a download still holds it. */
  function TryCommit(s: State, key: Key, reason: CommitReason): State {
    if key !in s.live || s.live[key] >= |s.heap| then s
    else
      var i := s.live[key];
      var b := s.heap[i];
      if b.committed || b.pending != {} then s
      else Put(s, i, b.(committed := true, armed := false)).(
             live := s.live - {key},
             turns := s.turns + [TurnOf(b, reason)])
  }

  function ReasonOf(b: Bucket): CommitReason {
    if b.forced.Some? then b.forced.value else Idle
  }

  function MergeOutcome(b: Bucket, messageId: string, outcome: Outcome): Bucket {
    match outcome
    case Saved(attachments, rejected) =>
      b.(attachments := b.attachments + attachments, rejected := PushAllRejected(b.rejected, rejected))
    case Failed(message) =>
      b.(rejected := PushRejected(b.rejected, Rejected("file", message, messageId)))
  }

  function IngestStep(s: State, key: Key, messageId: string, content: Content): State
    requires key in s.live ==> s.live[key] < |s.heap|
  {
    var s1 := Ensure(s, key);
    var i := s1.live[key];
    var b := s1.heap[i].(messageIds := PushMessageId(s1.heap[i].messageIds, messageId));
    var s2 := Put(s1, i, Arm(Absorb(b, content)));
    if content.Media? then s2.(downloads := s2.downloads[content.download := Download(i, messageId, false)]) else s2
  }

  function TimerStep(s: State, i: nat): State
    requires i < |s.heap|
  {
    var b := s.heap[i].(armed := false, windowElapsed := true);
    var s1 := Put(s, i, b);
    if b.pending != {} then s1 else TryCommit(s1, b.key, ReasonOf(b))
  }

  /** The first callback of a download: its outcome goes into the bucket. */
  function SettleStep(s: State, download: nat, outcome: Outcome): State
    requires download in s.downloads && s.downloads[download].bucket < |s.heap|
  {
    var d := s.downloads[download];
    Put(s, d.bucket, MergeOutcome(s.heap[d.bucket], d.messageId, outcome))
      .(downloads := s.downloads[download := d.(merged := true)])
  }

  /** The second: the download is struck off, and the last of them commits a turn whose
      window is over. */
  function StrikeStep(s: State, download: nat): State
    requires download in s.downloads && s.downloads[download].bucket < |s.heap|
  {
    var i := s.downloads[download].bucket;
    var b := s.heap[i].(pending := s.heap[i].pending - {download});
    var s1 := Put(s, i, b).(downloads := s.downloads - {download});
    if b.windowElapsed && b.pending == {} && !b.committed then TryCommit(s1, b.key, ReasonOf(b)) else s1
  }

  function FlushStep(s: State, key: Key, id: nat, reason: CommitReason): State
    requires key in s.live ==> s.live[key] < |s.heap|
  {
    if key !in s.live then s
    else
      var i := s.live[key];
      var b := s.heap[i].(windowElapsed := true, forced := Some(reason));
      var s1 := Put(s, i, b);
      if b.pending != {} then s1.(flushes := s1.flushes[id := Flush(key, i, b.pending, reason)])
      else TryCommit(s1, key, reason)
  }

  function ResumeStep(s: State, id: nat): State
    requires id in s.flushes && s.flushes[id].bucket < |s.heap|
  {
    var f := s.flushes[id];
    var s1 := s.(flushes := s.flushes - {id});
    if s.heap[f.bucket].committed then s1 else TryCommit(s1, f.key, f.reason)
  }

  /** Timers fire while armed, downloads settle once and are then struck off, a waiting flush goes on when
      everything it waits for has settled; ids are fresh. */
  predicate Enabled(s: State, e: Event) {
    match e
    case Ingest(_, _, content) => content.Media? ==> FreshDownload(s, content.download)
    case TimerFires(i) => i < |s.heap| && s.heap[i].armed
    case Settles(d, _) => d in s.downloads && !s.downloads[d].merged
    case Strikes(d) => d in s.downloads && s.downloads[d].merged
    case FlushStarts(_, id, _) => id !in s.flushes
    case FlushResumes(id) => id in s.flushes && forall d | d in s.flushes[id].awaited :: d !in s.downloads
  }

  predicate FreshDownload(s: State, d: nat) {
    && d !in s.downloads
    && (forall i | 0 <= i < |s.heap| :: d !in s.heap[i].pending)
    && (forall id | id in s.flushes :: d !in s.flushes[id].awaited)
  }

  // ---- invariant ----

  /** A key's live bucket is its own and not yet committed; every bucket that is not
      committed is the live bucket of its key. */
  ghost predicate LiveOnes(s: State) {
    && (forall k | k in s.live :: s.live[k] < |s.heap| && s.heap[s.live[k]].key == k && !s.heap[s.live[k]].committed)
    && (forall i | 0 <= i < |s.heap| && !s.heap[i].committed ::
          s.heap[i].key in s.live && s.live[s.heap[i].key] == i)
  }

  ghost predicate HeldBy(downloads: map<nat, Download>, i: nat, pending: set<nat>) {
    forall d :: d in pending <==> d in downloads && downloads[d].bucket == i
  }

  /** A download in flight is pending in exactly the bucket it was started for. */
  ghost predicate DownloadsHeld(s: State) {
    && (forall d | d in s.downloads :: s.downloads[d].bucket < |s.heap|)
    && (forall i | 0 <= i < |s.heap| :: HeldBy(s.downloads, i, s.heap[i].pending))
  }

  /** Nothing is stuck: an uncommitted bucket has its timer running, or its window
      has elapsed and a download will wake it. */
  predicate Awake(b: Bucket) {
    if b.committed then !b.armed && b.pending == {}
    else b.armed || (b.windowElapsed && b.pending != {})
  }

  ghost predicate AllAwake(s: State) {
    forall i | 0 <= i < |s.heap| :: Awake(s.heap[i])
  }

  ghost predicate FlushesKnown(s: State) {
    forall id | id in s.flushes :: s.flushes[id].bucket < |s.heap| && s.heap[s.flushes[id].bucket].key == s.flushes[id].key
  }

  ghost predicate Inv(s: State) {
    LiveOnes(s) && DownloadsHeld(s) && AllAwake(s) && FlushesKnown(s)
  }

  function Step(s: State, e: Event): State
    requires Inv(s) && Enabled(s, e)
  {
    match e
    case Ingest(key, messageId, content) => IngestStep(s, key, messageId, content)
    case TimerFires(i) => TimerStep(s, i)
    case Settles(d, outcome) => SettleStep(s, d, outcome)
    case Strikes(d) => StrikeStep(s, d)
    case FlushStarts(key, id, reason) => FlushStep(s, key, id, reason)
    case FlushResumes(id) => ResumeStep(s, id)
  }

  /** Everything but the wakefulness of bucket `i`. */
  ghost predicate InvBut(s: State, i: nat) {
    && LiveOnes(s) && DownloadsHeld(s) && FlushesKnown(s)
    && forall j | 0 <= j < |s.heap| && j != i :: Awake(s.heap[j])
  }

  lemma CommitKeepsInv(s: State, i: nat, reason: CommitReason)
    requires InvBut(s, i) && i < |s.heap| && !s.heap[i].committed
    requires s.heap[i].pending == {}
    ensures s.heap[i].key in s.live && s.live[s.heap[i].key] == i
    ensures Inv(TryCommit(s, s.heap[i].key, reason))
  {
    var s' := TryCommit(s, s.heap[i].key, reason);
    assert forall j | 0 <= j < |s.heap| && j != i :: s'.heap[j] == s.heap[j];
    assert LiveOnes(s');
    assert DownloadsHeld(s');
  }

  /** The downloads other than bucket `i`'s are the same. */
  ghost predicate SameElsewhere(downloads: map<nat, Download>, downloads': map<nat, Download>, i: nat) {
    && (forall d | d in downloads && downloads[d].bucket != i :: d in downloads' && downloads'[d] == downloads[d])
    && (forall d | d in downloads' && downloads'[d].bucket != i :: d in downloads && downloads[d] == downloads'[d])
  }

  lemma PutKeepsLiveOnes(s: State, i: nat, b: Bucket, downloads: map<nat, Download>)
    requires LiveOnes(s) && i < |s.heap|
    requires b.key == s.heap[i].key && b.committed == s.heap[i].committed
    ensures LiveOnes(Put(s, i, b).(downloads := downloads))
  {
    var s' := Put(s, i, b);
    assert forall j | 0 <= j < |s.heap| :: s'.heap[j].key == s.heap[j].key && s'.heap[j].committed == s.heap[j].committed;
  }

  lemma EnsureKeepsLiveOnes(s: State, key: Key)
    requires LiveOnes(s)
    ensures LiveOnes(Ensure(s, key))
  {
    var s1 := Ensure(s, key);
    assert forall j | 0 <= j < |s.heap| :: s1.heap[j] == s.heap[j];
  }

  /** Changing one bucket and the downloads it holds. */
  lemma PutKeepsInvBut(s: State, i: nat, b: Bucket, downloads: map<nat, Download>)
    requires InvBut(s, i) && i < |s.heap|
    requires b.key == s.heap[i].key && b.committed == s.heap[i].committed
    requires SameElsewhere(s.downloads, downloads, i)
    requires HeldBy(downloads, i, b.pending)
    ensures InvBut(Put(s, i, b).(downloads := downloads), i)
  {
    hide LiveOnes;
    var s' := Put(s, i, b).(downloads := downloads);
    PutKeepsLiveOnes(s, i, b, downloads);
    assert DownloadsHeld(s') by {
      hide LiveOnes;
      forall j | 0 <= j < |s'.heap|
        ensures HeldBy(downloads, j, s'.heap[j].pending)
      {
        assert HeldBy(s.downloads, j, s.heap[j].pending);
      }
    }
  }

  lemma EnsureKeepsInvBut(s: State, key: Key)
    requires Inv(s)
    ensures var s1 := Ensure(s, key);
            && key in s1.live && s1.live[key] < |s1.heap| && InvBut(s1, s1.live[key])
            && s1.heap[s1.live[key]].key == key && !s1.heap[s1.live[key]].committed
            && s1.downloads == s.downloads && s1.flushes == s.flushes && s1.turns == s.turns
  {
    var s1 := Ensure(s, key);
    assert forall j | 0 <= j < |s.heap| :: s1.heap[j] == s.heap[j];
    EnsureKeepsLiveOnes(s, key);
    assert DownloadsHeld(s1) by {
      hide LiveOnes, Awake, FlushesKnown, AllAwake;
      if key !in s.live {
        assert HeldBy(s.downloads, |s.heap|, {});
      }
    }
  }

  lemma TimerKeepsInv(s: State, i: nat)
    requires Inv(s) && Enabled(s, TimerFires(i))
    ensures Inv(TimerStep(s, i))
  {
    var b := s.heap[i].(armed := false, windowElapsed := true);
    assert Awake(s.heap[i]);
    PutKeepsInvBut(s, i, b, s.downloads);
    if b.pending == {} {
      CommitKeepsInv(Put(s, i, b), i, ReasonOf(b));
    }
  }

  lemma FlushKeepsInv(s: State, key: Key, id: nat, reason: CommitReason)
    requires Inv(s) && Enabled(s, FlushStarts(key, id, reason))
    ensures Inv(FlushStep(s, key, id, reason))
  {
    if key in s.live {
      var i := s.live[key];
      var b := s.heap[i].(windowElapsed := true, forced := Some(reason));
      PutKeepsInvBut(s, i, b, s.downloads);
      assert Awake(s.heap[i]);
      if b.pending == {} {
        CommitKeepsInv(Put(s, i, b), i, reason);
      }
    }
  }

  lemma ResumeKeepsInv(s: State, id: nat)
    requires Inv(s) && Enabled(s, FlushResumes(id))
    ensures Inv(ResumeStep(s, id))
  {
    var f := s.flushes[id];
    var s1 := s.(flushes := s.flushes - {id});
    if !s.heap[f.bucket].committed && s.heap[f.bucket].pending == {} {
      CommitKeepsInv(s1, f.bucket, f.reason);
    }
  }

  lemma SettleKeepsInv(s: State, d: nat, outcome: Outcome)
    requires Inv(s) && Enabled(s, Settles(d, outcome))
    ensures Inv(SettleStep(s, d, outcome))
  {
    var i := s.downloads[d].bucket;
    var b := MergeOutcome(s.heap[i], s.downloads[d].messageId, outcome);
    var downloads := s.downloads[d := s.downloads[d].(merged := true)];
    hide PushAllRejected, PushRejected;
    assert HeldBy(s.downloads, i, s.heap[i].pending) && Awake(s.heap[i]);
    PutKeepsInvBut(s, i, b, downloads);
    InvButAndAwake(Put(s, i, b).(downloads := downloads), i);
  }

  lemma StrikeKeepsInv(s: State, d: nat)
    requires Inv(s) && Enabled(s, Strikes(d))
    ensures Inv(StrikeStep(s, d))
  {
    var i := s.downloads[d].bucket;
    var b := s.heap[i].(pending := s.heap[i].pending - {d});
    var s1 := Put(s, i, b).(downloads := s.downloads - {d});
    assert HeldBy(s.downloads, i, s.heap[i].pending) && Awake(s.heap[i]) && !s.heap[i].committed;
    PutKeepsInvBut(s, i, b, s.downloads - {d});
    assert InvBut(s1, i);
    if b.windowElapsed && b.pending == {} {
      CommitKeepsInv(s1, i, ReasonOf(b));
    }
  }

  lemma IngestKeepsInv(s: State, key: Key, messageId: string, content: Content)
    requires Inv(s) && Enabled(s, Ingest(key, messageId, content))
    ensures Inv(IngestStep(s, key, messageId, content))
  {
    hide Inv, Ensure, PushAllRejected, PushRejected, PushMessageId;
    EnsureKeepsInvBut(s, key);
    var s1 := Ensure(s, key);
    var i := s1.live[key];
    var b0 := s1.heap[i].(messageIds := PushMessageId(s1.heap[i].messageIds, messageId));
    var b := Arm(Absorb(b0, content));
    var downloads := if content.Media? then s.downloads[content.download := Download(i, messageId, false)] else s.downloads;
    PutKeepsInvBut(s1, i, b, downloads);
    InvButAndAwake(Put(s1, i, b).(downloads := downloads), i);
  }

  lemma InvButAndAwake(s: State, i: nat)
    requires InvBut(s, i) && i < |s.heap| && Awake(s.heap[i])
    ensures Inv(s)
  {
  }

  lemma StepKeepsInv(s: State, e: Event)
    requires Inv(s) && Enabled(s, e)
    ensures Inv(Step(s, e))
  {
    hide Inv, Enabled, IngestStep, TimerStep, SettleStep, StrikeStep, FlushStep, ResumeStep;
    match e
    case Ingest(key, messageId, content) => IngestKeepsInv(s, key, messageId, content);
    case TimerFires(i) => TimerKeepsInv(s, i);
    case Settles(d, outcome) => SettleKeepsInv(s, d, outcome);
    case Strikes(d) => StrikeKeepsInv(s, d);
    case FlushStarts(key, id, reason) => FlushKeepsInv(s, key, id, reason);
    case FlushResumes(id) => ResumeKeepsInv(s, id);
  }

  predicate IsRun(s: State, events: seq<Event>)
    requires Inv(s)
    decreases |events|
  {
    events == [] || (Enabled(s, events[0]) && (StepKeepsInv(s, events[0]); IsRun(Step(s, events[0]), events[1..])))
  }

  function After(s: State, events: seq<Event>): (t: State)
    requires Inv(s) && IsRun(s, events)
    ensures Inv(t)
    decreases |events|
  {
    if events == [] then s
    else
      StepKeepsInv(s, events[0]);
      After(Step(s, events[0]), events[1..])
  }

  // ---- conservation ----

  /** The two kinds of content that must arrive. */
  datatype Goods = Texts | Attachments

  function InBucket(b: Bucket, g: Goods): seq<string> {
    match g case Texts => b.texts case Attachments => b.attachments
  }

  function InTurn(t: Turn, g: Goods): seq<string> {
    match g case Texts => t.texts case Attachments => t.attachments
  }

  function InTurns(turns: seq<Turn>, key: Key, g: Goods): seq<string> {
    if turns == [] then []
    else
      var t := turns[|turns| - 1];
      InTurns(turns[..|turns| - 1], key, g) + if t.key == key then InTurn(t, g) else []
  }

  function Waiting(s: State, key: Key, g: Goods): seq<string> {
    if key in s.live && s.live[key] < |s.heap| then InBucket(s.heap[s.live[key]], g) else []
  }

  /** Everything of `key` that was committed, in commit order, then what waits. */
  function Ledger(s: State, key: Key, g: Goods): seq<string> {
    InTurns(s.turns, key, g) + Waiting(s, key, g)
  }

  /** What an event brings in for `key`: a non-empty text when it arrives, the files
      of a download when it settles. */
  function Brings(s: State, e: Event, key: Key, g: Goods): seq<string>
    requires Inv(s) && Enabled(s, e)
  {
    match (g, e)
    case (Texts, Ingest(k, _, Text(text, _))) => if k == key && text != "" then [text] else []
    case (Attachments, Settles(d, Saved(attachments, _))) =>
      if s.heap[s.downloads[d].bucket].key == key then attachments else []
    case _ => []
  }

  function Brought(s: State, events: seq<Event>, key: Key, g: Goods): seq<string>
    requires Inv(s) && IsRun(s, events)
    decreases |events|
  {
    if events == [] then []
    else
      StepKeepsInv(s, events[0]);
      Brings(s, events[0], key, g) + Brought(Step(s, events[0]), events[1..], key, g)
  }

  lemma CommitMovesGoods(s: State, i: nat, reason: CommitReason, key: Key, g: Goods)
    requires LiveOnes(s) && i < |s.heap| && !s.heap[i].committed
    ensures Ledger(TryCommit(s, s.heap[i].key, reason), key, g) == Ledger(s, key, g)
  {
    var k := s.heap[i].key;
    assert s.live[k] == i;
    if s.heap[i].pending == {} {
      var t := TurnOf(s.heap[i], reason);
      var s' := TryCommit(s, k, reason);
      assert s'.turns[..|s'.turns| - 1] == s.turns;
      assert InTurns(s'.turns, key, g) == InTurns(s.turns, key, g) + if t.key == key then InTurn(t, g) else [];
      if key == k {
        assert Waiting(s', key, g) == [];
      } else {
        assert Waiting(s', key, g) == Waiting(s, key, g);
      }
    }
  }

  /** Replacing a live bucket changes what waits for its own key only. */
  lemma PutChangesOneKey(s: State, i: nat, b: Bucket, more: seq<string>, key: Key, g: Goods)
    requires LiveOnes(s) && i < |s.heap| && !s.heap[i].committed
    requires b.key == s.heap[i].key && InBucket(b, g) == InBucket(s.heap[i], g) + more
    ensures Ledger(Put(s, i, b), key, g) == Ledger(s, key, g) + if key == b.key then more else []
  {
    assert s.live[b.key] == i;
    if key == b.key {
      assert Waiting(Put(s, i, b), key, g) == Waiting(s, key, g) + more;
    } else {
      assert Waiting(Put(s, i, b), key, g) == Waiting(s, key, g);
    }
  }

  lemma SameViewSameLedger(s: State, t: State, key: Key, g: Goods)
    requires t.heap == s.heap && t.live == s.live && t.turns == s.turns
    ensures Ledger(t, key, g) == Ledger(s, key, g)
  {
  }

  lemma IngestBrings(s: State, key: Key, messageId: string, content: Content, k: Key, g: Goods)
    requires Inv(s) && Enabled(s, Ingest(key, messageId, content))
    ensures Ledger(IngestStep(s, key, messageId, content), k, g)
            == Ledger(s, k, g) + Brings(s, Ingest(key, messageId, content), k, g)
  {
    hide PushAllRejected, PushRejected, PushMessageId, InTurns;
    var s1 := Ensure(s, key);
    EnsureKeepsInvBut(s, key);
    assert Ledger(s1, k, g) == Ledger(s, k, g) by {
      assert s1.turns == s.turns;
      assert Waiting(s1, k, g) == Waiting(s, k, g);
    }
    var i := s1.live[key];
    var b := Arm(Absorb(s1.heap[i].(messageIds := PushMessageId(s1.heap[i].messageIds, messageId)), content));
    var more := if g.Texts? && content.Text? && content.text != "" then [content.text] else [];
    PutChangesOneKey(s1, i, b, more, k, g);
    SameViewSameLedger(Put(s1, i, b), IngestStep(s, key, messageId, content), k, g);
  }

  lemma SettleBrings(s: State, d: nat, outcome: Outcome, k: Key, g: Goods)
    requires Inv(s) && Enabled(s, Settles(d, outcome))
    ensures Ledger(SettleStep(s, d, outcome), k, g) == Ledger(s, k, g) + Brings(s, Settles(d, outcome), k, g)
  {
    hide PushAllRejected, PushRejected, InTurns;
    PendingIsOpen(s, d);
    var i := s.downloads[d].bucket;
    var b := MergeOutcome(s.heap[i], s.downloads[d].messageId, outcome);
    var more := if g.Attachments? && outcome.Saved? then outcome.attachments else [];
    PutChangesOneKey(s, i, b, more, k, g);
    SameViewSameLedger(Put(s, i, b), SettleStep(s, d, outcome), k, g);
  }

  lemma StrikeBringsNothing(s: State, d: nat, k: Key, g: Goods)
    requires Inv(s) && Enabled(s, Strikes(d))
    ensures Ledger(StrikeStep(s, d), k, g) == Ledger(s, k, g)
  {
    hide InTurns;
    PendingIsOpen(s, d);
    var i := s.downloads[d].bucket;
    var b := s.heap[i].(pending := s.heap[i].pending - {d});
    var s1 := Put(s, i, b).(downloads := s.downloads - {d});
    PutChangesOneKey(s, i, b, [], k, g);
    SameViewSameLedger(Put(s, i, b), s1, k, g);
    PutKeepsLiveOnes(s, i, b, s.downloads - {d});
    CommitMovesGoods(s1, i, ReasonOf(b), k, g);
  }

  lemma StepBrings(s: State, e: Event, k: Key, g: Goods)
    requires Inv(s) && Enabled(s, e)
    ensures Ledger(Step(s, e), k, g) == Ledger(s, k, g) + Brings(s, e, k, g)
  {
    hide IngestStep, SettleStep, StrikeStep, InTurns;
    match e
    case Ingest(key, messageId, content) => IngestBrings(s, key, messageId, content, k, g);
    case Settles(d, outcome) => SettleBrings(s, d, outcome, k, g);
    case Strikes(d) => StrikeBringsNothing(s, d, k, g);
    case TimerFires(i) =>
      assert Awake(s.heap[i]);
      var b := s.heap[i].(armed := false, windowElapsed := true);
      PutChangesOneKey(s, i, b, [], k, g);
      PutKeepsLiveOnes(s, i, b, s.downloads);
      CommitMovesGoods(Put(s, i, b), i, ReasonOf(b), k, g);
    case FlushStarts(key, id, reason) =>
      if key in s.live {
        var i := s.live[key];
        var b := s.heap[i].(windowElapsed := true, forced := Some(reason));
        PutChangesOneKey(s, i, b, [], k, g);
        PutKeepsLiveOnes(s, i, b, s.downloads);
        CommitMovesGoods(Put(s, i, b), i, reason, k, g);
        if b.pending != {} {
          SameViewSameLedger(Put(s, i, b), FlushStep(s, key, id, reason), k, g);
        }
      }
    case FlushResumes(id) =>
      var f := s.flushes[id];
      var s1 := s.(flushes := s.flushes - {id});
      SameViewSameLedger(s, s1, k, g);
      if !s.heap[f.bucket].committed {
        CommitMovesGoods(s1, f.bucket, f.reason, k, g);
      }
  }

  /** Nothing is lost, duplicated or reordered: what a conversation brought in is
      what its turns took, in order, followed by what its open bucket still holds. */
  lemma {:induction false} Conservation(s: State, events: seq<Event>, key: Key, g: Goods)
    requires Inv(s) && IsRun(s, events)
    ensures Ledger(After(s, events), key, g) == Ledger(s, key, g) + Brought(s, events, key, g)
    decreases |events|
  {
    hide Inv, Enabled, Step, Ledger, Brings;
    if events != [] {
      StepKeepsInv(s, events[0]);
      StepBrings(s, events[0], key, g);
      Conservation(Step(s, events[0]), events[1..], key, g);
    }
  }

  // ---- when a bucket commits ----

  lemma OnlyOneCommits(s: State, i: nat, reason: CommitReason)
    requires i < |s.heap| && !s.heap[i].committed
    requires s.heap[i].key in s.live ==> s.live[s.heap[i].key] == i
    ensures var t := TryCommit(s, s.heap[i].key, reason);
            && |t.heap| == |s.heap|
            && (forall j | 0 <= j < |s.heap| && j != i :: t.heap[j] == s.heap[j])
            && ((t.turns == s.turns && t.heap == s.heap) ||
                (t.heap[i].committed && t.heap[i].pending == {} && t.turns == s.turns + [TurnOf(t.heap[i], reason)]))
  {
  }

  /** From `s` to `t` at most bucket `i` changed, and if a turn was added it is that
      bucket's, whole, with no download in flight. */
  ghost predicate Quiet(s: State, t: State, i: nat) {
    && |s.heap| <= |t.heap| && i < |t.heap|
    && (forall j | 0 <= j < |s.heap| && j != i :: t.heap[j] == s.heap[j])
    && (i < |s.heap| ==> !s.heap[i].committed)
    && if t.heap[i].committed
       then i < |s.heap| && t.heap[i].pending == {} &&
            exists reason :: t.turns == s.turns + [TurnOf(t.heap[i], reason)]
       else t.turns == s.turns
  }

  /** Putting a live bucket and then trying to commit it. */
  lemma PutThenCommitIsQuiet(s: State, i: nat, b: Bucket, downloads: map<nat, Download>, reason: CommitReason)
    requires LiveOnes(s) && i < |s.heap| && !s.heap[i].committed
    requires b.key == s.heap[i].key && !b.committed
    ensures Quiet(s, Put(s, i, b).(downloads := downloads), i)
    ensures Quiet(s, TryCommit(Put(s, i, b).(downloads := downloads), b.key, reason), i)
  {
    OnlyOneCommits(Put(s, i, b).(downloads := downloads), i, reason);
  }

  /** The bucket an event works on, if any. */
  function Target(s: State, e: Event): Option<nat>
    requires Inv(s) && Enabled(s, e)
  {
    match e
    case Ingest(key, _, _) => Some(Ensure(s, key).live[key])
    case TimerFires(i) => Some(i)
    case Settles(d, _) => Some(s.downloads[d].bucket)
    case Strikes(d) => Some(s.downloads[d].bucket)
    case FlushStarts(key, _, _) => if key in s.live then Some(s.live[key]) else None
    case FlushResumes(id) => if s.heap[s.flushes[id].bucket].committed then None else Some(s.flushes[id].bucket)
  }

  /** Commits are final and quiet: an event changes its target only, a committed
      bucket never again, and it adds a turn only by committing that target, whole,
      while none of its downloads is in flight. */
  lemma CommitsAreQuietAndFinal(s: State, e: Event)
    requires Inv(s) && Enabled(s, e)
    ensures Target(s, e).None? ==> Step(s, e).heap == s.heap && Step(s, e).turns == s.turns
    ensures Target(s, e).Some? ==> Quiet(s, Step(s, e), Target(s, e).value)
  {
    hide PushAllRejected, PushRejected, PushMessageId, DownloadsHeld;
    match e
    case Ingest(key, messageId, content) => EnsureKeepsInvBut(s, key);
    case Settles(d, outcome) =>
      var i := s.downloads[d].bucket;
      PendingIsOpen(s, d);
      var b := MergeOutcome(s.heap[i], s.downloads[d].messageId, outcome);
      PutThenCommitIsQuiet(s, i, b, s.downloads[d := s.downloads[d].(merged := true)], ReasonOf(b));
    case Strikes(d) =>
      var i := s.downloads[d].bucket;
      PendingIsOpen(s, d);
      var b := s.heap[i].(pending := s.heap[i].pending - {d});
      PutThenCommitIsQuiet(s, i, b, s.downloads - {d}, ReasonOf(b));
    case TimerFires(i) =>
      assert Awake(s.heap[i]);
      var b := s.heap[i].(armed := false, windowElapsed := true);
      PutThenCommitIsQuiet(s, i, b, s.downloads, ReasonOf(b));
    case FlushStarts(key, id, reason) =>
      if key in s.live {
        var i := s.live[key];
        PutThenCommitIsQuiet(s, i, s.heap[i].(windowElapsed := true, forced := Some(reason)), s.downloads, reason);
      }
    case FlushResumes(id) =>
      if !s.heap[s.flushes[id].bucket].committed {
        ResumeIsQuiet(s, id);
      }
  }

  lemma PendingIsOpen(s: State, d: nat)
    requires Inv(s) && d in s.downloads
    ensures s.downloads[d].bucket < |s.heap| && !s.heap[s.downloads[d].bucket].committed
    ensures d in s.heap[s.downloads[d].bucket].pending
  {
    var i := s.downloads[d].bucket;
    assert HeldBy(s.downloads, i, s.heap[i].pending) && Awake(s.heap[i]);
  }

  lemma ResumeIsQuiet(s: State, id: nat)
    requires Inv(s) && Enabled(s, FlushResumes(id)) && !s.heap[s.flushes[id].bucket].committed
    ensures Quiet(s, ResumeStep(s, id), s.flushes[id].bucket)
  {
    OnlyOneCommits(s.(flushes := s.flushes - {id}), s.flushes[id].bucket, s.flushes[id].reason);
  }

  lemma EmptyInv()
    ensures Inv(EMPTY)
  {
  }

  // ---- progress ----

  function Armed(s: State): set<nat> {
    set i: nat | i < |s.heap| && s.heap[i].armed
  }

  function Unmerged(s: State): set<nat> {
    set d | d in s.downloads && !s.downloads[d].merged
  }

  /** Nothing new arrives: timers run out, downloads settle and are struck off, flushes
      that waited go on. */
  predicate Internal(e: Event) {
    e.TimerFires? || e.Settles? || e.Strikes? || e.FlushResumes?
  }

  /** What is left to do if nothing new arrives. */
  function Remaining(s: State): nat {
    |Armed(s)| + |s.downloads.Keys| + |Unmerged(s)| + |s.flushes.Keys|
  }

  lemma {:induction false} SubsetIsNoLarger<T>(a: set<T>, b: set<T>)
    requires a <= b
    ensures |a| <= |b| && (a < b ==> |a| < |b|)
  {
    if x :| x in a {
      SubsetIsNoLarger(a - {x}, b - {x});
      assert a < b ==> a - {x} < b - {x};
    }
  }

  /** A commit disarms one bucket and starts nothing. */
  lemma CommitStartsNothing(s: State, key: Key, reason: CommitReason)
    ensures var t := TryCommit(s, key, reason);
            Armed(t) <= Armed(s) && t.downloads == s.downloads && t.flushes == s.flushes
  {
  }

  /** From `s` to `t` nothing was started, and something was finished. */
  ghost predicate Lessens(s: State, t: State) {
    && Armed(t) <= Armed(s) && t.downloads.Keys <= s.downloads.Keys && Unmerged(t) <= Unmerged(s)
    && t.flushes.Keys <= s.flushes.Keys
    && (Armed(t) < Armed(s) || t.downloads.Keys < s.downloads.Keys || Unmerged(t) < Unmerged(s) || t.flushes.Keys < s.flushes.Keys)
  }

  lemma LessIsLess(s: State, t: State)
    requires Lessens(s, t)
    ensures Remaining(t) < Remaining(s)
  {
    hide Armed, Unmerged;
    SubsetIsNoLarger(Armed(t), Armed(s));
    SubsetIsNoLarger(t.downloads.Keys, s.downloads.Keys);
    SubsetIsNoLarger(Unmerged(t), Unmerged(s));
    SubsetIsNoLarger(t.flushes.Keys, s.flushes.Keys);
  }

  lemma TimerLessens(s: State, i: nat)
    requires Inv(s) && Enabled(s, TimerFires(i))
    ensures Lessens(s, TimerStep(s, i))
  {
    hide Inv;
    var b := s.heap[i].(armed := false, windowElapsed := true);
    var s1 := Put(s, i, b);
    assert i in Armed(s) && i !in Armed(s1) && Armed(s1) <= Armed(s);
    CommitStartsNothing(s1, b.key, ReasonOf(b));
    hide TryCommit;
    assert Unmerged(TimerStep(s, i)) == Unmerged(s);
  }

  lemma SettleLessens(s: State, d: nat, outcome: Outcome)
    requires Inv(s) && Enabled(s, Settles(d, outcome))
    ensures Lessens(s, SettleStep(s, d, outcome))
  {
    hide PushAllRejected, PushRejected;
    var t := SettleStep(s, d, outcome);
    assert Armed(t) == Armed(s);
    assert t.downloads.Keys == s.downloads.Keys;
    assert d in Unmerged(s) && d !in Unmerged(t);
  }

  lemma StrikeLessens(s: State, d: nat)
    requires Inv(s) && Enabled(s, Strikes(d))
    ensures Lessens(s, StrikeStep(s, d))
  {
    hide LiveOnes, AllAwake;
    var i := s.downloads[d].bucket;
    var b := s.heap[i].(pending := s.heap[i].pending - {d});
    var s1 := Put(s, i, b).(downloads := s.downloads - {d});
    assert Armed(s1) == Armed(s);
    CommitStartsNothing(s1, b.key, ReasonOf(b));
    hide TryCommit;
    var t := StrikeStep(s, d);
    assert t.downloads == s.downloads - {d};
    assert d in s.downloads.Keys && d !in t.downloads.Keys;
  }

  lemma ResumeLessens(s: State, id: nat)
    requires Inv(s) && Enabled(s, FlushResumes(id))
    ensures Lessens(s, ResumeStep(s, id))
  {
    var f := s.flushes[id];
    var s1 := s.(flushes := s.flushes - {id});
    assert Armed(s1) == Armed(s);
    CommitStartsNothing(s1, f.key, f.reason);
    hide TryCommit;
    var t := ResumeStep(s, id);
    assert Unmerged(t) == Unmerged(s);
    assert id in s.flushes.Keys && id !in t.flushes.Keys;
  }

  lemma InternalEventLessens(s: State, e: Event)
    requires Inv(s) && Enabled(s, e) && Internal(e)
    ensures Remaining(Step(s, e)) < Remaining(s)
  {
    hide Inv, TimerStep, SettleStep, StrikeStep, ResumeStep, Lessens, Remaining, Enabled;
    match e
    case TimerFires(i) =>
      TimerLessens(s, i);
      LessIsLess(s, Step(s, e));
    case Settles(d, outcome) =>
      SettleLessens(s, d, outcome);
      LessIsLess(s, Step(s, e));
    case Strikes(d) =>
      StrikeLessens(s, d);
      LessIsLess(s, Step(s, e));
    case FlushResumes(id) =>
      ResumeLessens(s, id);
      LessIsLess(s, Step(s, e));
    case _ =>
  }

  /** Everything has committed and nobody waits. */
  predicate AtRest(s: State) {
    s.live == map[] && s.downloads == map[] && s.flushes == map[]
  }

  /** Otherwise something internal can happen. */
  lemma SomethingToDo(s: State)
    requires Inv(s) && !AtRest(s)
    ensures exists e :: Internal(e) && Enabled(s, e)
  {
    if d :| d in s.downloads {
      var e := if s.downloads[d].merged then Strikes(d) else Settles(d, Saved([], []));
      assert Internal(e) && Enabled(s, e);
    } else if id :| id in s.flushes {
      assert Internal(FlushResumes(id)) && Enabled(s, FlushResumes(id));
    } else {
      var k :| k in s.live;
      NothingStuck(s, s.live[k]);
      var i :| i in Armed(s);
      assert Internal(TimerFires(i)) && Enabled(s, TimerFires(i));
    }
  }

  /** Left alone, the assembler comes to rest within its remaining work, in whatever
      order timers fire, downloads settle and flushes go on; and when nothing more can
      happen every bucket has committed. */
  lemma {:induction false} EverythingCommits(s: State, events: seq<Event>)
    requires Inv(s) && IsRun(s, events)
    requires forall i | 0 <= i < |events| :: Internal(events[i])
    ensures |events| <= Remaining(s)
    ensures var t := After(s, events);
            AtRest(t) || exists e :: Internal(e) && Enabled(t, e)
    decreases |events|
  {
    hide Inv, Enabled, Step, Remaining, Internal;
    if events == [] {
      if !AtRest(s) {
        SomethingToDo(s);
      }
    } else {
      StepKeepsInv(s, events[0]);
      InternalEventLessens(s, events[0]);
      EverythingCommits(Step(s, events[0]), events[1..]);
    }
  }

  /** An open bucket has its timer running or a download in flight. */
  lemma NothingStuck(s: State, i: nat)
    requires Inv(s) && i < |s.heap| && !s.heap[i].committed
    ensures i in Armed(s) || exists d :: d in s.downloads && s.downloads[d].bucket == i
  {
    assert Awake(s.heap[i]) && HeldBy(s.downloads, i, s.heap[i].pending);
    if s.heap[i].pending != {} {
      var d :| d in s.heap[i].pending;
    }
  }

  // ---- flush ----

  /** A flush that waits on bucket `i`: the bucket has committed, or it commits with
      the last of the downloads the flush waits for. */
  ghost predicate FlushCovers(s: State, id: nat, i: nat) {
    && id in s.flushes && s.flushes[id].bucket == i && i < |s.heap|
    && (s.heap[i].committed ||
        (s.heap[i].windowElapsed && s.heap[i].pending != {} && s.heap[i].pending <= s.flushes[id].awaited))
  }

  predicate Disturbs(e: Event, key: Key, id: nat) {
    (e.Ingest? && e.key == key) || e == FlushResumes(id)
  }

  lemma FlushStaysCovered(s: State, id: nat, i: nat, e: Event)
    requires Inv(s) && FlushCovers(s, id, i) && Enabled(s, e)
    requires !Disturbs(e, s.flushes[id].key, id)
    ensures FlushCovers(Step(s, e), id, i)
    ensures Step(s, e).flushes[id] == s.flushes[id]
  {
    hide PushAllRejected, PushRejected, PushMessageId;
    StepKeepsFlush(s, id, e);
    CommitsAreQuietAndFinal(s, e);
    if !s.heap[i].committed && Target(s, e) == Some(i) {
      match e
      case Strikes(d) => StrikeKeepsCovered(s, id, i, d);
      case _ =>
    }
  }

  lemma StepKeepsFlush(s: State, id: nat, e: Event)
    requires Inv(s) && id in s.flushes && Enabled(s, e) && e != FlushResumes(id)
    ensures id in Step(s, e).flushes && Step(s, e).flushes[id] == s.flushes[id]
  {
  }

  lemma StrikeKeepsCovered(s: State, id: nat, i: nat, d: nat)
    requires Inv(s) && FlushCovers(s, id, i) && Enabled(s, Strikes(d))
    requires s.downloads[d].bucket == i && !s.heap[i].committed
    ensures FlushCovers(StrikeStep(s, d), id, i)
  {
    var b := s.heap[i].(pending := s.heap[i].pending - {d});
    assert s.live[b.key] == i;
    if b.pending == {} {
      assert StrikeStep(s, d).heap[i].committed;
    }
  }

  /** If no message arrives meanwhile, the bucket has committed by the time the
      flush goes on. */
  lemma {:induction false} FlushReturnsAfterCommit(s: State, id: nat, i: nat, events: seq<Event>)
    requires Inv(s) && FlushCovers(s, id, i) && IsRun(s, events)
    requires forall e | e in events :: !Disturbs(e, s.flushes[id].key, id)
    requires Enabled(After(s, events), FlushResumes(id))
    ensures i < |After(s, events).heap| && After(s, events).heap[i].committed
    decreases |events|
  {
    if events == [] {
      assert HeldBy(s.downloads, i, s.heap[i].pending);
    } else {
      StepKeepsInv(s, events[0]);
      FlushStaysCovered(s, id, i, events[0]);
      FlushReturnsAfterCommit(Step(s, events[0]), id, i, events[1..]);
    }
  }

  /** A flush commits at once, or starts out covered. */
  lemma FlushStartsCovered(s: State, key: Key, id: nat, reason: CommitReason)
    requires Inv(s) && key in s.live && Enabled(s, FlushStarts(key, id, reason))
    ensures var t := FlushStep(s, key, id, reason); var i := s.live[key];
            i < |t.heap| && (t.heap[i].committed || FlushCovers(t, id, i))
  {
  }
}
