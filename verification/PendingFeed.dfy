/** One client's pending-interaction feed (daemon/pending.go): the deltas a partition publishes, and
    the watchers that deliver them after a complete snapshot. */
module PendingFeed {

  datatype Key = Key(run: string, interaction: string)

  /** One pending interaction: its scope and the fields of its request. */
  datatype Pending = Pending(run: string, interaction: string, kind: string, prompt: string, schema: string)

  function KeyOf(p: Pending): (k: Key) {
    Key(p.run, p.interaction)
  }

  function ValueBytes(p: Pending): (n: nat) {
    |p.run| + |p.interaction| + |p.kind| + |p.prompt| + |p.schema|
  }

  datatype Kind = Opened | Closed

  datatype Delta = Delta(revision: nat, kind: Kind, pending: Pending)

  function DeltaBytes(d: Delta): (n: nat) {
    ValueBytes(d.pending) + 32
  }

  type PendingSet = map<Key, Pending>

  /** What a delta does to a pending set. */
  function ApplyDelta(set0: PendingSet, d: Delta): (r: PendingSet) {
    if d.kind.Opened? then set0[KeyOf(d.pending) := d.pending] else set0 - {KeyOf(d.pending)}
  }

  /** The pending set after the first `n` published deltas. */
  function PendingAt(log: seq<Delta>, n: nat): (r: PendingSet)
    requires n <= |log|
  {
    if n == 0 then map[] else ApplyDelta(PendingAt(log, n - 1), log[n - 1])
  }

  /** What a consumer rebuilds from a snapshot and the first `n` deltas it received. */
  function Rebuild(snapshot: PendingSet, deltas: seq<Delta>, n: nat): (r: PendingSet)
    requires n <= |deltas|
  {
    if n == 0 then snapshot else ApplyDelta(Rebuild(snapshot, deltas, n - 1), deltas[n - 1])
  }

  /** `part` is a stretch of `log` that starts at `from`. */
  ghost predicate Stretch(part: seq<Delta>, log: seq<Delta>, from: nat) {
    from + |part| <= |log| && forall i | 0 <= i < |part| :: part[i] == log[from + i]
  }

  function DeltaSum(log: seq<Delta>, lo: nat, hi: nat): (n: nat)
    requires lo <= hi <= |log|
    decreases hi
  {
    if lo == hi then 0 else DeltaSum(log, lo, hi - 1) + DeltaBytes(log[hi - 1])
  }

  lemma {:induction false} DeltaSumFront(log: seq<Delta>, lo: nat, hi: nat)
    requires lo < hi <= |log|
    ensures DeltaSum(log, lo, hi) == DeltaBytes(log[lo]) + DeltaSum(log, lo + 1, hi)
    decreases hi
  {
    if lo + 1 < hi { DeltaSumFront(log, lo, hi - 1); }
  }

  lemma {:induction false} DeltaSumExtends(log: seq<Delta>, d: Delta, lo: nat, hi: nat)
    requires lo <= hi <= |log|
    ensures DeltaSum(log + [d], lo, hi) == DeltaSum(log, lo, hi)
    decreases hi
  {
    if lo < hi { DeltaSumExtends(log, d, lo, hi - 1); }
  }

  lemma {:induction false} PendingAtExtends(log: seq<Delta>, d: Delta, n: nat)
    requires n <= |log|
    ensures PendingAt(log + [d], n) == PendingAt(log, n)
  {
    if n > 0 { PendingAtExtends(log, d, n - 1); }
  }

  // ---------------------------------------------------------------------------
  // Watchers
  // ---------------------------------------------------------------------------

  /** Why a watcher ended: its context, a reconnect fence, the hub's shutdown, or the first exceeded
      queue bound: its own, the hub's or its client's. */
  datatype Reason =
    | Cancelled
    | Fenced
    | HubClosed
    | QueueEntries(observed: int)
    | QueueBytes(observed: int)
    | HubEntries(observed: int)
    | ClientEntries(observed: int)
    | HubBytes(observed: int)
    | ClientBytes(observed: int)

  datatype Stop = Live | Ended(reason: Reason)

  /** What the delivery loop holds: nothing, a delta taken from the queue, or one already sent. */
  datatype Carry = Idle | Holding(delta: Delta) | Sent(delta: Delta)

  datatype Watcher = Watcher(snapshotRevision: nat, snapshot: PendingSet, stop: Stop, looping: bool,
                             queue: seq<Delta>, carry: Carry, sent: seq<Delta>, lastDelivered: nat,
                             queuedCount: int, queuedBytes: int)

  datatype Caps = Caps(entries: int, bytes: int)

  function NewWatcher(revision: nat, snapshot: PendingSet): (w: Watcher) {
    Watcher(revision, snapshot, Live, true, [], Idle, [], revision, 0, 0)
  }

  /** End a watcher; its queued charge is returned at once. */
  function Finish(w: Watcher, reason: Reason): (r: Watcher) {
    if w.stop.Live? then w.(stop := Ended(reason), queuedCount := 0, queuedBytes := 0) else w
  }

  /** Why a watcher's own queue refuses a delta. */
  function Refusal(caps: Caps, w: Watcher, d: Delta): (r: Stop) {
    if w.queuedCount >= caps.entries then Ended(QueueEntries(w.queuedCount + 1))
    else if DeltaBytes(d) > caps.bytes || w.queuedBytes > caps.bytes - DeltaBytes(d) then
      Ended(QueueBytes(w.queuedBytes + DeltaBytes(d)))
    else Live
  }

  /** Queue a delta for one watcher, looking at that watcher alone. */
  function Offer(caps: Caps, w: Watcher, d: Delta): (r: Watcher) {
    if !w.stop.Live? then w
    else match Refusal(caps, w, d)
         case Ended(reason) => Finish(w, reason)
         case Live => w.(queue := w.queue + [d], queuedCount := w.queuedCount + 1, queuedBytes := w.queuedBytes + DeltaBytes(d))
  }

  function Take(w: Watcher): (r: Watcher) {
    if w.looping && w.carry.Idle? && w.queue != [] then w.(queue := w.queue[1..], carry := Holding(w.queue[0])) else w
  }

  function Send(w: Watcher): (r: Watcher) {
    if w.looping && w.carry.Holding? then w.(sent := w.sent + [w.carry.delta], carry := Sent(w.carry.delta)) else w
  }

  /** The delivered hook: advance the cursor, and return the charge of a live watcher. */
  function Acknowledge(w: Watcher): (r: Watcher) {
    if w.looping && w.carry.Sent? then
      var d := w.carry.delta;
      var w1 := w.(carry := Idle, lastDelivered := if d.revision > w.lastDelivered then d.revision else w.lastDelivered);
      if w.stop.Live? then w1.(queuedCount := w.queuedCount - 1, queuedBytes := w.queuedBytes - DeltaBytes(d)) else w1
    else w
  }

  /** The loop sees the stop signal: it drops what it holds and discards its queue. */
  function LeaveLoop(w: Watcher): (r: Watcher) {
    if w.looping && w.stop.Ended? && !w.carry.Sent? then w.(looping := false, queue := [], carry := Idle) else w
  }

  datatype Move = DoTake | DoSend | DoAcknowledge | DoLeave

  function Advance(w: Watcher, m: Move): (r: Watcher) {
    match m
    case DoTake => Take(w)
    case DoSend => Send(w)
    case DoAcknowledge => Acknowledge(w)
    case DoLeave => LeaveLoop(w)
  }

  // ---------------------------------------------------------------------------
  // What every watcher keeps
  // ---------------------------------------------------------------------------

  function InHand(w: Watcher): (n: nat) {
    if w.carry.Holding? then 1 else 0
  }

  function Unacknowledged(w: Watcher): (n: nat) {
    if w.carry.Sent? then 1 else 0
  }

  ghost predicate Numbered(log: seq<Delta>) {
    forall i | 0 <= i < |log| :: log[i].revision == i + 1
  }

  /** Sent, held and queued deltas are consecutive in the published log. */
  ghost predicate InOrder(w: Watcher, log: seq<Delta>) {
    var at := w.snapshotRevision + |w.sent|;
    && Stretch(w.sent, log, w.snapshotRevision)
    && Stretch(w.queue, log, at + InHand(w))
    && (w.carry.Holding? ==> at < |log| && w.carry.delta == log[at])
    && (w.carry.Sent? ==> w.sent != [] && w.carry.delta == w.sent[|w.sent| - 1])
  }

  /** A live watcher lacks nothing and is charged for exactly what it has not acknowledged. */
  ghost predicate Charged(caps: Caps, w: Watcher, log: seq<Delta>) {
    && w.lastDelivered <= |log|
    && w.lastDelivered == w.snapshotRevision + |w.sent| - Unacknowledged(w)
    && if w.stop.Live? then
         && w.looping
         && w.snapshotRevision + |w.sent| + InHand(w) + |w.queue| == |log|
         && 0 <= w.queuedCount == |log| - w.lastDelivered <= caps.entries
         && 0 <= w.queuedBytes == DeltaSum(log, w.lastDelivered, |log|) <= caps.bytes
       else w.queuedCount == 0 && w.queuedBytes == 0
  }

  ghost predicate WatcherInv(caps: Caps, w: Watcher, log: seq<Delta>) {
    && w.snapshotRevision <= |log| && w.snapshot == PendingAt(log, w.snapshotRevision)
    && InOrder(w, log) && Charged(caps, w, log)
  }

  lemma {:induction false} NewWatcherInv(caps: Caps, log: seq<Delta>)
    requires caps.entries >= 1 && caps.bytes >= 1
    ensures WatcherInv(caps, NewWatcher(|log|, PendingAt(log, |log|)), log)
  {
  }

  lemma FinishKeeps(caps: Caps, w: Watcher, reason: Reason, log: seq<Delta>)
    requires WatcherInv(caps, w, log)
    ensures WatcherInv(caps, Finish(w, reason), log)
  {
  }

  lemma AcknowledgeKeeps(caps: Caps, w: Watcher, log: seq<Delta>)
    requires WatcherInv(caps, w, log) && Numbered(log)
    ensures WatcherInv(caps, Acknowledge(w), log)
  {
    if w.looping && w.carry.Sent? {
      var at := w.lastDelivered;
      assert w.carry.delta == w.sent[|w.sent| - 1] == log[at];
      if w.stop.Live? { DeltaSumFront(log, at, |log|); }
    }
  }

  lemma TakeKeeps(caps: Caps, w: Watcher, log: seq<Delta>)
    requires WatcherInv(caps, w, log)
    ensures WatcherInv(caps, Take(w), log)
  {
  }

  lemma SendKeeps(caps: Caps, w: Watcher, log: seq<Delta>)
    requires WatcherInv(caps, w, log)
    ensures WatcherInv(caps, Send(w), log)
  {
  }

  lemma LeaveKeeps(caps: Caps, w: Watcher, log: seq<Delta>)
    requires WatcherInv(caps, w, log)
    ensures WatcherInv(caps, LeaveLoop(w), log)
  {
  }

  lemma MoveKeeps(caps: Caps, w: Watcher, m: Move, log: seq<Delta>)
    requires WatcherInv(caps, w, log) && Numbered(log)
    ensures WatcherInv(caps, Advance(w, m), log)
  {
    match m
    case DoTake => TakeKeeps(caps, w, log);
    case DoSend => SendKeeps(caps, w, log);
    case DoAcknowledge => AcknowledgeKeeps(caps, w, log);
    case DoLeave => LeaveKeeps(caps, w, log);
  }

  /** A published delta, offered or not, keeps a watcher in step with the longer log. */
  lemma OfferKeeps(caps: Caps, w: Watcher, log: seq<Delta>, d: Delta)
    requires WatcherInv(caps, w, log)
    ensures WatcherInv(caps, Offer(caps, w, d), log + [d])
  {
    PendingAtExtends(log, d, w.snapshotRevision);
    DeltaSumExtends(log, d, w.lastDelivered, |log|);
  }

  /** The delivery channel has room whenever the watcher's own count admits a delta. */
  lemma QueueHasRoom(caps: Caps, w: Watcher, log: seq<Delta>)
    requires WatcherInv(caps, w, log) && w.stop.Live?
    ensures |w.queue| <= w.queuedCount
  {
  }

  // ---------------------------------------------------------------------------
  // Discovery
  // ---------------------------------------------------------------------------

  /** Every delta a subscriber received is the next published one, and folding them over its
      snapshot gives the partition's pending set at that revision. */
  lemma {:induction false} Discovery(caps: Caps, w: Watcher, log: seq<Delta>, n: nat)
    requires WatcherInv(caps, w, log) && Numbered(log) && n <= |w.sent|
    ensures Rebuild(w.snapshot, w.sent, n) == PendingAt(log, w.snapshotRevision + n)
    ensures n > 0 ==> w.sent[n - 1].revision == w.snapshotRevision + n
  {
    if n > 0 {
      Discovery(caps, w, log, n - 1);
      assert w.sent[n - 1] == log[w.snapshotRevision + n - 1];
    }
  }

  /** A live subscriber that has acknowledged everything holds the current pending set. */
  lemma {:induction false} CaughtUp(caps: Caps, w: Watcher, log: seq<Delta>)
    requires WatcherInv(caps, w, log) && Numbered(log) && w.stop.Live? && w.queuedCount == 0
    ensures Rebuild(w.snapshot, w.sent, |w.sent|) == PendingAt(log, |log|) && w.lastDelivered == |log|
  {
    Discovery(caps, w, log, |w.sent|);
  }
}
