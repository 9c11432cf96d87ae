/** What every run of the interaction hub keeps. */
module PendingSafety {
  import opened Basics
  import opened PendingFeed
  import opened PendingPartition
  import opened PendingHub

  // ---------------------------------------------------------------------------
  // Feeds and counters
  // ---------------------------------------------------------------------------

  predicate WithinClient(l: Limits, u: Usage) {
    u.pending.count <= l.pendingPerClient && u.pending.bytes <= l.pendingBytesPerClient && u.observers <= l.observersPerClient
  }

  predicate WithinHub(l: Limits, u: Usage) {
    u.pending.count <= l.pending && u.pending.bytes <= l.pendingBytes && u.observers <= l.observers
  }

  /** Every partition is sound and within its client's bounds. */
  ghost predicate FeedsInv(l: Limits, ps: map<string, Partition>) {
    forall c | c in ps :: FeedInv(l, ps[c]) && WithinClient(l, ps[c].own)
  }

  /** The hub's counters are the sum of the partitions' and within the hub's bounds. */
  ghost predicate LedgerInv(l: Limits, ps: map<string, Partition>, total: Usage) {
    total == Sum(ps, OwnOf) && WithinHub(l, total) && |ps| <= l.clients
  }

  ghost predicate Sound(l: Limits, ps: map<string, Partition>, total: Usage) {
    FeedsInv(l, ps) && LedgerInv(l, ps, total)
  }

  ghost predicate CountersInv(h: Hub) {
    Sound(h.limits, h.partitions, h.total)
  }

  lemma SetPartitionFeeds(h: Hub, c: string, p: Partition)
    requires FeedsInv(h.limits, h.partitions) && FeedInv(h.limits, p) && WithinClient(h.limits, p.own)
    ensures FeedsInv(h.limits, h.partitions[c := p])
  {
  }

  lemma SetPartitionLedger(h: Hub, c: string, p: Partition)
    requires LedgerInv(h.limits, h.partitions, h.total) && c in h.partitions
    requires WithinHub(h.limits, SetPartition(h, c, p).total)
    ensures LedgerInv(h.limits, h.partitions[c := p], SetPartition(h, c, p).total)
  {
    SumUpdate(h.partitions, OwnOf, c, p);
    assert h.partitions[c := p].Keys == h.partitions.Keys;
  }

  /** Replacing a partition by a sound one keeps the counters exact. */
  lemma SetPartitionCounters(h: Hub, c: string, p: Partition)
    requires CountersInv(h) && FeedInv(h.limits, p) && WithinClient(h.limits, p.own)
    requires c in h.partitions && WithinHub(h.limits, SetPartition(h, c, p).total)
    ensures CountersInv(SetPartition(h, c, p))
  {
    SetPartitionFeeds(h, c, p);
    SetPartitionLedger(h, c, p);
  }

  predicate IsZero(u: Usage) {
    u.pending.count == 0 && u.pending.bytes == 0 && u.observers == 0
    && u.reserved.count == 0 && u.reserved.bytes == 0 && u.queued.count == 0 && u.queued.bytes == 0
  }

  predicate Unused(p: Partition) {
    p.revision == 0 && p.log == [] && p.pending == map[] && p.watchers == [] && IsZero(p.own)
  }

  lemma {:induction false} EmptySum(m: map<Key, Entry>)
    requires m == map[]
    ensures IsZero(Sum(m, EntryUsage))
  {
  }

  lemma PlusZero(zero: Usage, u: Usage)
    requires IsZero(zero)
    ensures Plus(zero, u) == u
  {
  }

  lemma ZeroSum(a: Usage, b: Usage, c: Usage)
    requires IsZero(a) && IsZero(b) && IsZero(c)
    ensures a == Plus(b, c)
  {
  }

  lemma UnusedAccount(l: Limits, p: Partition)
    requires Unused(p)
    ensures AccountInv(l, p)
  {
    EmptySum(p.pending);
    assert IsZero(WatchersUsage(l, p.watchers, 0));
    ZeroSum(p.own, Sum(p.pending, EntryUsage), WatchersUsage(l, p.watchers, 0));
  }

  lemma UnusedStream(l: Limits, p: Partition)
    requires Unused(p)
    ensures StreamInv(l, p)
  {
    assert Values(p.pending) == map[];
  }

  lemma UnusedFeed(l: Limits, p: Partition)
    requires Unused(p)
    ensures FeedInv(l, p)
  {
    UnusedStream(l, p);
    UnusedAccount(l, p);
  }

  lemma UnusedLedger(l: Limits, ps: map<string, Partition>, total: Usage, c: string, p: Partition)
    requires LedgerInv(l, ps, total) && c !in ps && |ps| < l.clients && Plus(p.own, total) == total
    ensures LedgerInv(l, ps[c := p], total)
  {
    SumUpdate(ps, OwnOf, c, p);
    assert ps[c := p].Keys == ps.Keys + {c};
  }

  lemma AddPartition(l: Limits, ps: map<string, Partition>, total: Usage, c: string, p: Partition)
    requires WithinClient(l, p.own) && FeedInv(l, p) && Plus(p.own, total) == total
    requires Sound(l, ps, total) && c !in ps && |ps| < l.clients
    ensures Sound(l, ps[c := p], total)
  {
    UnusedLedger(l, ps, total, c, p);
  }

  lemma AddUnused(l: Limits, ps: map<string, Partition>, total: Usage, c: string, p: Partition)
    requires WithinClient(l, p.own) && Unused(p)
    requires Sound(l, ps, total) && c !in ps && |ps| < l.clients
    ensures Sound(l, ps[c := p], total)
  {
    UnusedFeed(l, p);
    PlusZero(p.own, total);
    AddPartition(l, ps, total, c, p);
  }

  lemma EnsurePartitionCounters(h: Hub, c: string)
    requires WithinClient(h.limits, ZERO)
    requires CountersInv(h)
    ensures CountersInv(EnsurePartition(h, c))
  {
    if c !in h.partitions && |h.partitions| < h.limits.clients {
      AddUnused(h.limits, h.partitions, h.total, c, EMPTY_PARTITION);
    }
  }

  /** The same partitions but for how many runs are bound. */
  predicate Rebound(ps: map<string, Partition>, ps1: map<string, Partition>) {
    ps1.Keys == ps.Keys && forall c | c in ps :: ps1[c] == ps[c].(boundRuns := ps1[c].boundRuns)
  }

  lemma BoundRunsFeed(l: Limits, p: Partition, n: int)
    requires FeedInv(l, p)
    ensures FeedInv(l, p.(boundRuns := n))
  {
  }

  /** The same pending charge and no more observers. */
  predicate NoLarger(a: Usage, b: Usage) {
    a.pending == b.pending && a.observers <= b.observers
  }

  lemma ReboundFeeds(l: Limits, ps: map<string, Partition>, ps1: map<string, Partition>)
    requires FeedsInv(l, ps) && Rebound(ps, ps1)
    ensures FeedsInv(l, ps1)
  {
    forall c | c in ps1 ensures FeedInv(l, ps1[c]) && WithinClient(l, ps1[c].own) {
      BoundRunsFeed(l, ps[c], ps1[c].boundRuns);
    }
  }

  lemma ReboundLedger(l: Limits, ps: map<string, Partition>, ps1: map<string, Partition>, total: Usage)
    requires LedgerInv(l, ps, total) && Rebound(ps, ps1)
    ensures LedgerInv(l, ps1, total)
  {
    SumSame(ps, ps1, OwnOf);
    assert |ps1| == |ps1.Keys| && |ps| == |ps.Keys|;
  }

  /** Counters do not depend on how many runs are bound. */
  lemma ReboundCounters(h: Hub, h1: Hub)
    requires CountersInv(h) && Rebound(h.partitions, h1.partitions) && h1.limits == h.limits && h1.total == h.total
    ensures CountersInv(h1)
  {
    ReboundFeeds(h.limits, h.partitions, h1.partitions);
    ReboundLedger(h.limits, h.partitions, h1.partitions, h.total);
  }

  lemma {:induction false} WatchersHoldNoCalls(l: Limits, ws: seq<Watcher>, n: nat)
    requires n <= |ws|
    ensures WatchersUsage(l, ws, n).pending == Amount(0, 0)
  {
    if n > 0 {
      WatchersHoldNoCalls(l, ws, n - 1);
      assert Charge(l, ws[n - 1]).pending == Amount(0, 0);
    }
  }

  lemma SwapsWatchers(own: Usage, w: Usage, w1: Usage)
    requires w.pending == w1.pending && w1.observers <= w.observers
    ensures NoLarger(Plus(Minus(own, w), w1), own)
  {
  }

  lemma StaysWithin(l: Limits, total: Usage, own: Usage, own1: Usage)
    requires WithinHub(l, total) && NoLarger(own1, own)
    ensures WithinHub(l, Plus(Minus(total, own), own1))
  {
  }

  lemma {:induction false} SetWatchersCounters(h: Hub, c: string, ws: seq<Watcher>)
    requires CountersInv(h) && c in h.partitions && WatchersInv(h.limits, ws, h.partitions[c].log)
    requires WatchersUsage(h.limits, ws, |ws|).observers
             <= WatchersUsage(h.limits, h.partitions[c].watchers, |h.partitions[c].watchers|).observers
    ensures CountersInv(SetWatchers(h, c, ws))
  {
    var l, p := h.limits, h.partitions[c];
    var p1 := WithWatchers(l, p, ws);
    WithWatchersKeeps(l, p, ws);
    WatchersHoldNoCalls(l, ws, |ws|);
    WatchersHoldNoCalls(l, p.watchers, |p.watchers|);
    SwapsWatchers(p.own, WatchersUsage(l, p.watchers, |p.watchers|), WatchersUsage(l, ws, |ws|));
    StaysWithin(l, h.total, p.own, p1.own);
    SetPartitionCounters(h, c, p1);
  }

  lemma MovedObservers(u: Usage, before: Usage, after: Usage)
    requires after.observers <= before.observers
    ensures Plus(Minus(u, before), after).observers <= u.observers
  {
  }

  /** Changing one watcher without reviving it keeps the counters. */
  lemma OneWatcherCounters(h: Hub, c: string, i: nat, w: Watcher)
    requires CountersInv(h) && c in h.partitions && i < |h.partitions[c].watchers|
    requires WatcherInv(CapsOf(h.limits), w, h.partitions[c].log)
    requires w.stop.Live? ==> h.partitions[c].watchers[i].stop.Live?
    ensures CountersInv(SetWatchers(h, c, h.partitions[c].watchers[i := w]))
  {
    var l, p := h.limits, h.partitions[c];
    var ws := p.watchers[i := w];
    OneWatcherInv(l, p, i, w);
    WatchersUpdate(l, p.watchers, i, w, |p.watchers|);
    MovedObservers(WatchersUsage(l, p.watchers, |p.watchers|), Charge(l, p.watchers[i]), Charge(l, w));
    SetWatchersCounters(h, c, ws);
  }

  lemma OneWatcherInv(l: Limits, p: Partition, i: nat, w: Watcher)
    requires WatchersInv(l, p.watchers, p.log) && i < |p.watchers| && WatcherInv(CapsOf(l), w, p.log)
    ensures WatchersInv(l, p.watchers[i := w], p.log)
  {
    var ws := p.watchers[i := w];
    forall j | 0 <= j < |ws| ensures WatcherInv(CapsOf(l), ws[j], p.log) {
      if j != i { assert WatcherInv(CapsOf(l), p.watchers[j], p.log); }
    }
  }

  lemma DeliverCounters(h: Hub, c: string, i: nat, m: Move)
    requires CountersInv(h)
    ensures CountersInv(Deliver(h, c, i, m))
  {
    if c in h.partitions && i < |h.partitions[c].watchers| {
      MovedWatcher(h.limits, h.partitions[c], i, m);
      OneWatcherCounters(h, c, i, Advance(h.partitions[c].watchers[i], m));
    }
  }

  lemma MovedWatcher(l: Limits, p: Partition, i: nat, m: Move)
    requires StreamInv(l, p) && i < |p.watchers|
    ensures WatcherInv(CapsOf(l), Advance(p.watchers[i], m), p.log)
    ensures Advance(p.watchers[i], m).stop == p.watchers[i].stop
  {
    assert WatcherInv(CapsOf(l), p.watchers[i], p.log);
    MoveKeeps(CapsOf(l), p.watchers[i], m, p.log);
  }

  lemma EndedWatcher(l: Limits, p: Partition, i: nat, reason: Reason)
    requires StreamInv(l, p) && i < |p.watchers|
    ensures WatcherInv(CapsOf(l), Finish(p.watchers[i], reason), p.log)
  {
    assert WatcherInv(CapsOf(l), p.watchers[i], p.log);
    FinishKeeps(CapsOf(l), p.watchers[i], reason, p.log);
  }

  lemma DetachCounters(h: Hub, c: string, i: nat)
    requires CountersInv(h)
    ensures CountersInv(Detach(h, c, i))
  {
    if c in h.partitions && i < |h.partitions[c].watchers| {
      EndedWatcher(h.limits, h.partitions[c], i, Cancelled);
      OneWatcherCounters(h, c, i, Finish(h.partitions[c].watchers[i], Cancelled));
    }
  }

  lemma {:induction false} EndedCostNothing(l: Limits, ws: seq<Watcher>, n: nat)
    requires n <= |ws| && forall i | 0 <= i < |ws| :: ws[i].stop.Ended?
    ensures WatchersUsage(l, ws, n) == ZERO
  {
    if n > 0 {
      EndedCostNothing(l, ws, n - 1);
      assert Charge(l, ws[n - 1]) == ZERO;
    }
  }

  lemma EndWatchersCounters(h: Hub, c: string, reason: Reason)
    requires CountersInv(h)
    ensures CountersInv(EndWatchers(h, c, reason))
  {
    if c in h.partitions {
      EndedWatchers(h.limits, h.partitions[c], reason, EndEach(h.partitions[c].watchers, reason));
      SetWatchersCounters(h, c, EndEach(h.partitions[c].watchers, reason));
    }
  }

  /** Ended watchers stay in step and leave no observer. */
  lemma {:induction false} EndedWatchers(l: Limits, p: Partition, reason: Reason, ws: seq<Watcher>)
    requires StreamInv(l, p) && ws == EndEach(p.watchers, reason)
    ensures WatchersInv(l, ws, p.log)
    ensures WatchersUsage(l, ws, |ws|).observers <= WatchersUsage(l, p.watchers, |p.watchers|).observers
  {
    forall i | 0 <= i < |ws| ensures WatcherInv(CapsOf(l), ws[i], p.log) {
      EndedWatcher(l, p, i, reason);
    }
    EndedCostNothing(l, ws, |ws|);
    ObserversCount(l, p);
  }

  lemma {:induction false} ObserversCount(l: Limits, p: Partition)
    requires StreamInv(l, p)
    ensures WatchersUsage(l, p.watchers, |p.watchers|).observers >= 0
  {
    forall i | 0 <= i < |p.watchers| ensures Funded(l, Charge(l, p.watchers[i])) {
      assert WatcherInv(CapsOf(l), p.watchers[i], p.log);
      ChargeFunded(l, p.watchers[i], p.log);
    }
    WatchersFunded(l, p.watchers, |p.watchers|);
  }

  /** Watchers that only end leave no more observers behind. */
  lemma {:induction false} FewerObservers(l: Limits, ws: seq<Watcher>, ws1: seq<Watcher>, n: nat)
    requires n <= |ws| == |ws1| && forall i | 0 <= i < |ws| :: ws1[i].stop.Live? ==> ws[i].stop.Live?
    ensures WatchersUsage(l, ws1, n).observers <= WatchersUsage(l, ws, n).observers
  {
    if n > 0 {
      FewerObservers(l, ws, ws1, n - 1);
      assert Charge(l, ws1[n - 1]).observers <= Charge(l, ws[n - 1]).observers;
    }
  }

  lemma {:induction false} CallsCounted(m: map<Key, Entry>)
    ensures Sum(m, EntryUsage).pending.count == |m|
    decreases |m|
  {
    if m != map[] {
      var k := Pick(m);
      CallsCounted(m - {k});
    }
  }

  lemma PendingCounted(l: Limits, p: Partition)
    requires AccountInv(l, p)
    ensures p.own.pending.count == |p.pending|
  {
    CallsCounted(p.pending);
    WatchersHoldNoCalls(l, p.watchers, |p.watchers|);
  }

  lemma OpensWithin(l: Limits, total: Usage, own: Usage, e: Usage, w: Usage, w1: Usage)
    requires WithinHub(l, total) && WithinClient(l, own)
    requires e.pending.count == 1 && e.observers == 0
    requires own.pending.count < l.pendingPerClient && total.pending.count < l.pending
    requires total.pending.bytes <= l.pendingBytes - e.pending.bytes
    requires own.pending.bytes <= l.pendingBytesPerClient - e.pending.bytes
    requires w.pending == w1.pending && w1.observers <= w.observers
    ensures var own1 := Plus(Minus(Plus(own, e), w), w1);
            WithinClient(l, own1) && WithinHub(l, Plus(Minus(total, own), own1))
  {
  }

  lemma ClosesWithin(l: Limits, total: Usage, own: Usage, e: Usage, w: Usage, w1: Usage)
    requires WithinHub(l, total) && WithinClient(l, own)
    requires e.pending.count == 1 && e.pending.bytes >= 0 && e.observers == 0
    requires w.pending == w1.pending && w1.observers <= w.observers
    ensures var own1 := Plus(Minus(Minus(own, e), w), w1);
            WithinClient(l, own1) && WithinHub(l, Plus(Minus(total, own), own1))
  {
  }

  /** What an offer to every watcher does to the partition's charge. */
  lemma {:induction false} OffersWithin(l: Limits, ws: seq<Watcher>, d: Delta)
    ensures var w, w1 := WatchersUsage(l, ws, |ws|), WatchersUsage(l, OfferEach(l, ws, d), |ws|);
            w.pending == w1.pending && w1.observers <= w.observers
  {
    FewerObservers(l, ws, OfferEach(l, ws, d), |ws|);
    WatchersHoldNoCalls(l, ws, |ws|);
    WatchersHoldNoCalls(l, OfferEach(l, ws, d), |ws|);
  }

  lemma OpenCallCounters(h: Hub, v: Pending, lease: Lease)
    requires CountersInv(h) && lease.client in h.partitions && lease.binding < |h.bindings|
    requires var p := h.partitions[lease.client];
             && KeyOf(v) !in p.pending && HasCapacity(h.limits, h.total, p, ValueBytes(v))
             && p.revision <= MAX_UINT64 - (|p.pending| + 2)
    ensures CountersInv(OpenCall(h, v, lease))
  {
    var l, c, p := h.limits, lease.client, h.partitions[lease.client];
    var e := Entry(|h.calls|, lease.binding, v);
    OpenEntryKeeps(l, p, e);
    OffersWithin(l, p.watchers, Delta(p.revision + 1, Opened, v));
    PendingCounted(l, p);
    OpensWithin(l, h.total, p.own, EntryUsage(e), WatchersUsage(l, p.watchers, |p.watchers|),
                WatchersUsage(l, OfferEach(l, p.watchers, Delta(p.revision + 1, Opened, v)), |p.watchers|));
    SetPartitionCounters(h, c, OpenEntry(l, p, e));
  }

  lemma CloseCallCounters(h: Hub, c: string, k: Key, result: Result)
    requires CountersInv(h) && Open(h, c, k) && KeyOf(h.partitions[c].pending[k].value) == k
    ensures CountersInv(CloseCall(h, c, k, result))
  {
    var l, p := h.limits, h.partitions[c];
    var v := p.pending[k].value;
    CloseEntryKeeps(l, p, k);
    OffersWithin(l, p.watchers, Delta(p.revision + 1, Closed, v));
    ClosesWithin(l, h.total, p.own, EntryUsage(p.pending[k]), WatchersUsage(l, p.watchers, |p.watchers|),
                 WatchersUsage(l, OfferEach(l, p.watchers, Delta(p.revision + 1, Closed, v)), |p.watchers|));
    SetPartitionCounters(h, c, CloseEntry(l, p, k));
  }

  lemma RemoveRebinds(h: Hub, b: nat, h1: Hub)
    requires h1 == RemoveReleased(h, b)
    ensures Rebound(h.partitions, h1.partitions) && h1.limits == h.limits && h1.total == h.total
  {
  }

  lemma RemoveReleasedCounters(h: Hub, b: nat)
    requires CountersInv(h)
    ensures CountersInv(RemoveReleased(h, b))
  {
    RemoveRebinds(h, b, RemoveReleased(h, b));
    ReboundCounters(h, RemoveReleased(h, b));
  }

  lemma ObserveStream(l: Limits, p: Partition)
    requires StreamInv(l, p) && l.queueEntries >= 1 && l.queueBytes >= 1
    ensures WatchersInv(l, Observe(p), p.log)
  {
    var ws := Observe(p);
    NewWatcherInv(CapsOf(l), p.log);
    forall i | 0 <= i < |ws| ensures WatcherInv(CapsOf(l), ws[i], p.log) {
      if i < |p.watchers| { assert WatcherInv(CapsOf(l), p.watchers[i], p.log); }
    }
  }

  lemma ObservesWithin(l: Limits, total: Usage, own: Usage, w: Usage, new1: Usage)
    requires WithinHub(l, total) && WithinClient(l, own) && new1.pending == Amount(0, 0) && new1.observers == 1
    requires total.observers < l.observers && own.observers < l.observersPerClient
    ensures var own1 := Plus(Minus(own, w), Plus(w, new1));
            WithinClient(l, own1) && WithinHub(l, Plus(Minus(total, own), own1))
  {
  }

  lemma ObserveUsage(l: Limits, total: Usage, p: Partition, p1: Partition)
    requires AdmitsObserver(l, total, p) && WithinHub(l, total) && WithinClient(l, p.own)
    requires p1 == WithWatchers(l, p, Observe(p))
    ensures WithinClient(l, p1.own) && WithinHub(l, Plus(Minus(total, p.own), p1.own))
  {
    var w := NewWatcher(p.revision, Values(p.pending));
    WatchersExtend(l, p.watchers, w, |p.watchers|);
    ObservesWithin(l, total, p.own, WatchersUsage(l, p.watchers, |p.watchers|), Charge(l, w));
  }

  lemma ObserveFeed(l: Limits, p: Partition, p1: Partition)
    requires l.queueEntries >= 1 && l.queueBytes >= 1 && FeedInv(l, p) && p1 == WithWatchers(l, p, Observe(p))
    ensures FeedInv(l, p1)
  {
    ObserveStream(l, p);
    WithWatchersKeeps(l, p, Observe(p));
  }

  lemma ObserveCounters(h: Hub, c: string)
    requires h.limits.queueEntries >= 1 && h.limits.queueBytes >= 1
    requires CountersInv(h) && c in h.partitions && AdmitsObserver(h.limits, h.total, h.partitions[c])
    ensures CountersInv(SetWatchers(h, c, Observe(h.partitions[c])))
  {
    var p := h.partitions[c];
    var p1 := WithWatchers(h.limits, p, Observe(p));
    ObserveFeed(h.limits, p, p1);
    ObserveUsage(h.limits, h.total, p, p1);
    SetPartitionCounters(h, c, p1);
  }
}
