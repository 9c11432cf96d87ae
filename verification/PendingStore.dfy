/** The interaction hub as the daemon runs it (daemon/pending.go): counters and maps changed in place
    under one lock, proved to take exactly the steps of the state machine. */
module PendingStore {
  import opened Basics
  import opened PendingFeed
  import opened PendingPartition
  import opened PendingHub
  import opened PendingSafety
  import opened PendingRouting
  import opened PendingTheorems
  import opened PendingIsolation

  // ---------------------------------------------------------------------------
  // Counter arithmetic
  // ---------------------------------------------------------------------------

  /** A counter after a charge `a` was replaced by `b`. */
  function Moved(u: Usage, a: Usage, b: Usage): (r: Usage) {
    Plus(Minus(u, a), b)
  }

  lemma MovedSum(own: Usage, w: Usage, w1: Usage, a: Usage, b: Usage)
    requires w1 == Plus(Minus(w, a), b)
    ensures Plus(Minus(own, w), w1) == Moved(own, a, b)
  {
  }

  lemma MovedTwice(total: Usage, own: Usage, own1: Usage, own2: Usage)
    ensures Moved(Moved(total, own, own1), own1, own2) == Moved(total, own, own2)
    ensures Moved(Moved(total, own, own1), Moved(own, own, own1), own2) == Moved(total, own, own2)
  {
  }

  lemma MovedThrough(total: Usage, own: Usage, a: Usage, b: Usage)
    ensures Moved(total, own, Moved(own, a, b)) == Moved(total, a, b)
  {
  }

  lemma Unmoved(u: Usage, a: Usage)
    ensures Moved(u, a, a) == u
  {
  }

  /** What changing one watcher does to the whole hub. */
  lemma OneWatcherView(h: Hub, c: string, i: nat, w: Watcher)
    requires c in h.partitions && i < |h.partitions[c].watchers|
    ensures var p := h.partitions[c];
            var ws, a, b := p.watchers[i := w], Charge(h.limits, p.watchers[i]), Charge(h.limits, w);
            SetWatchers(h, c, ws)
            == h.(partitions := h.partitions[c := p.(watchers := ws, own := Moved(p.own, a, b))], total := Moved(h.total, a, b))
  {
    var l, p := h.limits, h.partitions[c];
    var a, b := Charge(l, p.watchers[i]), Charge(l, w);
    var n := |p.watchers|;
    WatchersUpdate(l, p.watchers, i, w, n);
    MovedSum(p.own, WatchersUsage(l, p.watchers, n), WatchersUsage(l, p.watchers[i := w], n), a, b);
    MovedThrough(h.total, p.own, a, b);
  }

  lemma SetPartitionTwice(h: Hub, c: string, p: Partition, q: Partition)
    requires c in h.partitions
    ensures SetPartition(SetPartition(h, c, p), c, q) == SetPartition(h, c, q)
  {
    MovedTwice(h.total, h.partitions[c].own, p.own, q.own);
    assert h.partitions[c := p][c := q] == h.partitions[c := q];
  }

  lemma WithWatchersTwice(l: Limits, p: Partition, a: seq<Watcher>, b: seq<Watcher>)
    ensures WithWatchers(l, WithWatchers(l, p, a), b) == WithWatchers(l, p, b)
  {
    MovedTwice(p.own, WatchersUsage(l, p.watchers, |p.watchers|), WatchersUsage(l, a, |a|), WatchersUsage(l, b, |b|));
  }

  lemma SetWatchersTwice(h: Hub, c: string, a: seq<Watcher>, b: seq<Watcher>)
    requires c in h.partitions
    ensures SetWatchers(SetWatchers(h, c, a), c, b) == SetWatchers(h, c, b)
  {
    var l, p := h.limits, h.partitions[c];
    WithWatchersTwice(l, p, a, b);
    SetPartitionTwice(h, c, WithWatchers(l, p, a), WithWatchers(l, p, b));
  }

  lemma SetWatchersSame(h: Hub, c: string)
    requires c in h.partitions
    ensures SetWatchers(h, c, h.partitions[c].watchers) == h
  {
    var p := h.partitions[c];
    Unmoved(p.own, WatchersUsage(h.limits, p.watchers, |p.watchers|));
    Unmoved(h.total, p.own);
    assert h.partitions[c := p] == h.partitions;
  }

  // ---------------------------------------------------------------------------
  // Publishing watcher by watcher
  // ---------------------------------------------------------------------------

  /** The watchers after the first `n` were offered a delta. */
  function OfferFirst(l: Limits, ws: seq<Watcher>, d: Delta, n: nat): (r: seq<Watcher>)
    requires n <= |ws|
    ensures |r| == |ws|
    ensures forall i | 0 <= i < |ws| :: r[i] == if i < n then Offer(CapsOf(l), ws[i], d) else ws[i]
  {
    seq(|ws|, i requires 0 <= i < |ws| => if i < n then Offer(CapsOf(l), ws[i], d) else ws[i])
  }

  lemma OfferNext(l: Limits, ws: seq<Watcher>, d: Delta, n: nat)
    requires n < |ws|
    ensures OfferFirst(l, ws, d, n)[n] == ws[n]
    ensures OfferFirst(l, ws, d, n)[n := Offer(CapsOf(l), ws[n], d)] == OfferFirst(l, ws, d, n + 1)
  {
  }

  lemma OfferEnds(l: Limits, ws: seq<Watcher>, d: Delta)
    ensures OfferFirst(l, ws, d, 0) == ws && OfferFirst(l, ws, d, |ws|) == OfferEach(l, ws, d)
  {
  }

  lemma OfferMetered(l: Limits, w: Watcher, d: Delta)
    requires MeteredWatcher(l, w)
    ensures MeteredWatcher(l, Offer(CapsOf(l), w, d))
  {
  }

  lemma OfferFirstMetered(l: Limits, p: Partition, d: Delta, n: nat)
    requires Metered(l, p) && n <= |p.watchers|
    ensures Metered(l, WithWatchers(l, p, OfferFirst(l, p.watchers, d, n)))
    ensures WithWatchers(l, p, OfferFirst(l, p.watchers, d, n)).own.observers <= p.own.observers
  {
    var ws := OfferFirst(l, p.watchers, d, n);
    forall i | 0 <= i < |ws| ensures MeteredWatcher(l, ws[i]) {
      assert MeteredWatcher(l, p.watchers[i]);
      OfferMetered(l, p.watchers[i], d);
    }
    WithWatchersAccount(l, p, ws);
    FewerObservers(l, p.watchers, ws, |ws|);
  }

  lemma SetPartitionMeters(l: Limits, ps: map<string, Partition>, total: Usage, c: string, p: Partition)
    requires Meters(l, ps, total) && c in ps && Metered(l, p)
    requires p.own.observers <= ps[c].own.observers
    ensures Meters(l, ps[c := p], Moved(total, ps[c].own, p.own))
  {
    SumUpdate(ps, OwnOf, c, p);
    FewerMoved(total, ps[c].own, p.own);
  }

  lemma FewerMoved(total: Usage, own: Usage, own1: Usage)
    requires own1.observers <= own.observers
    ensures Moved(total, own, own1).observers <= total.observers
  {
  }

  /** The part of a hub its meters are about. */
  datatype Meter = Meter(limits: Limits, partitions: map<string, Partition>, total: Usage)

  function MeterOf(h: Hub): (m: Meter) {
    Meter(h.limits, h.partitions, h.total)
  }

  ghost predicate Metering(m: Meter) {
    Meters(m.limits, m.partitions, m.total)
  }

  /** Some exact meter is `m`. */
  ghost predicate Balanced(m: Meter) {
    exists x :: Metering(x) && x == m
  }

  /** Some hub with exact counters is `h`. */
  ghost predicate Counted(h: Hub) {
    exists g :: CountersInv(g) && g == h
  }

  lemma BalancedAfterOffers(h: Hub, c: string, d: Delta, n: nat, h1: Hub)
    requires Balanced(MeterOf(h)) && c in h.partitions && n <= |h.partitions[c].watchers|
    requires h1 == SetWatchers(h, c, OfferFirst(h.limits, h.partitions[c].watchers, d, n))
    ensures Balanced(MeterOf(h1))
  {
    OfferFirstMeters(h, c, d, n, h1);
    assert Metering(MeterOf(h1));
  }

  lemma BalancedAfterLog(h: Hub, c: string, d: Delta, h1: Hub)
    requires Balanced(MeterOf(h)) && c in h.partitions
    requires h1 == h.(partitions := h.partitions[c := Logged(h.partitions[c], d)])
    ensures Balanced(MeterOf(h1))
  {
    LogMeters(h.limits, h.partitions, h.total, c, d);
    assert Metering(MeterOf(h1));
  }

  lemma BalancedRefusal(h: Hub, c: string, i: nat, d: Delta)
    requires ValidLimits(h.limits) && Balanced(MeterOf(h))
    requires c in h.partitions && i < |h.partitions[c].watchers| && h.partitions[c].watchers[i].stop.Live?
    ensures FullRefusal(h.limits, h.total, h.partitions[c].own, h.partitions[c].watchers[i], d)
            == Refusal(CapsOf(h.limits), h.partitions[c].watchers[i], d)
  {
    RefusedByItselfOnly(h.limits, h.partitions, c, i, h.total, d);
  }

  lemma OfferFirstMeters(h: Hub, c: string, d: Delta, n: nat, h1: Hub)
    requires Meters(h.limits, h.partitions, h.total) && c in h.partitions && n <= |h.partitions[c].watchers|
    requires h1 == SetWatchers(h, c, OfferFirst(h.limits, h.partitions[c].watchers, d, n))
    ensures Meters(h1.limits, h1.partitions, h1.total)
  {
    var l, p := h.limits, h.partitions[c];
    OfferFirstMetered(l, p, d, n);
    SetPartitionMeters(l, h.partitions, h.total, c, WithWatchers(l, p, OfferFirst(l, p.watchers, d, n)));
  }

  /** Extending the log alone leaves every meter as it was. */
  lemma LogMeters(l: Limits, ps: map<string, Partition>, total: Usage, c: string, d: Delta)
    requires Meters(l, ps, total) && c in ps
    ensures Meters(l, ps[c := Logged(ps[c], d)], total)
  {
    var p := Logged(ps[c], d);
    assert Metered(l, ps[c]);
    MeteredLog(l, ps[c], p);
    SetPartitionMeters(l, ps, total, c, p);
    Unmoved(total, p.own);
  }

  lemma MeteredLog(l: Limits, p: Partition, q: Partition)
    requires Metered(l, p) && q.pending == p.pending && q.watchers == p.watchers && q.own == p.own
    ensures Metered(l, q)
  {
  }

  // ---------------------------------------------------------------------------
  // One watcher's charge
  // ---------------------------------------------------------------------------

  /** A counter without a live watcher's share. */
  function Uncharge(l: Limits, u: Usage, w: Watcher): (r: Usage) {
    u.(observers := u.observers - 1,
       reserved := Amount(u.reserved.count - l.queueEntries, u.reserved.bytes - l.queueBytes),
       queued := Amount(u.queued.count - w.queuedCount, u.queued.bytes - w.queuedBytes))
  }

  function Pushed(w: Watcher, d: Delta): (r: Watcher) {
    w.(queue := w.queue + [d], queuedCount := w.queuedCount + 1, queuedBytes := w.queuedBytes + DeltaBytes(d))
  }

  /** A counter with one more queued delta. */
  function ChargeOne(u: Usage, size: nat): (r: Usage) {
    u.(queued := Amount(u.queued.count + 1, u.queued.bytes + size))
  }

  lemma UnchargeMoves(l: Limits, u: Usage, w: Watcher, reason: Reason)
    requires w.stop.Live?
    ensures Moved(u, Charge(l, w), Charge(l, Finish(w, reason))) == Uncharge(l, u, w)
  {
  }

  lemma PushMoves(l: Limits, u: Usage, w: Watcher, d: Delta)
    requires w.stop.Live?
    ensures Moved(u, Charge(l, w), Charge(l, Pushed(w, d))) == ChargeOne(u, DeltaBytes(d))
  {
  }

  lemma FinishView(h: Hub, c: string, i: nat, reason: Reason)
    requires c in h.partitions && i < |h.partitions[c].watchers|
    ensures var p := h.partitions[c];
            var ws := p.watchers[i := Finish(p.watchers[i], reason)];
            SetWatchers(h, c, ws)
            == if !p.watchers[i].stop.Live? then h
               else h.(partitions := h.partitions[c := p.(watchers := ws, own := Uncharge(h.limits, p.own, p.watchers[i]))],
                       total := Uncharge(h.limits, h.total, p.watchers[i]))
  {
    var l, p := h.limits, h.partitions[c];
    var w := p.watchers[i];
    if w.stop.Live? {
      OneWatcherView(h, c, i, Finish(w, reason));
      UnchargeMoves(l, p.own, w, reason);
      UnchargeMoves(l, h.total, w, reason);
    } else {
      assert p.watchers[i := w] == p.watchers;
      SetWatchersSame(h, c);
    }
  }

  lemma PushView(h: Hub, c: string, i: nat, d: Delta)
    requires c in h.partitions && i < |h.partitions[c].watchers| && h.partitions[c].watchers[i].stop.Live?
    ensures var p := h.partitions[c];
            var ws := p.watchers[i := Pushed(p.watchers[i], d)];
            SetWatchers(h, c, ws)
            == h.(partitions := h.partitions[c := p.(watchers := ws, own := ChargeOne(p.own, DeltaBytes(d)))],
                  total := ChargeOne(h.total, DeltaBytes(d)))
  {
    var l, p := h.limits, h.partitions[c];
    var w := p.watchers[i];
    OneWatcherView(h, c, i, Pushed(w, d));
    PushMoves(l, p.own, w, d);
    PushMoves(l, h.total, w, d);
  }

  function Logged(p: Partition, d: Delta): (r: Partition) {
    p.(revision := p.revision + 1, log := p.log + [d])
  }

  /** Append the delta, then offer it to everyone: that is publishing. */
  lemma PublishView(h: Hub, c: string, kind: Kind, value: Pending, d: Delta, ws: seq<Watcher>, h1: Hub, h2: Hub)
    requires c in h.partitions && d == Delta(h.partitions[c].revision + 1, kind, value) && ws == h.partitions[c].watchers
    requires h1 == h.(partitions := h.partitions[c := Logged(h.partitions[c], d)])
    requires h2 == SetWatchers(h1, c, OfferEach(h1.limits, ws, d))
    ensures h2 == SetPartition(h, c, Published(h.limits, h.partitions[c], kind, value))
  {
    var p := h.partitions[c];
    var q := Logged(p, Delta(p.revision + 1, kind, value));
    var r := Published(h.limits, p, kind, value);
    assert h.partitions[c := q][c := r] == h.partitions[c := r];
  }

  // ---------------------------------------------------------------------------
  // Pending entries
  // ---------------------------------------------------------------------------

  /** A partition before it publishes that a call opened or closed. */
  function Enlisted(p: Partition, e: Entry): (r: Partition) {
    p.(pending := p.pending[KeyOf(e.value) := e], own := Plus(p.own, EntryUsage(e)))
  }

  function Unlisted(p: Partition, k: Key): (r: Partition)
    requires k in p.pending
  {
    p.(pending := p.pending - {k}, own := Minus(p.own, EntryUsage(p.pending[k])))
  }

  lemma AddsEntry(own: Usage, sum: Usage, e: Usage, w: Usage)
    requires own == Plus(sum, w)
    ensures Plus(own, e) == Plus(Plus(e, sum), w)
  {
  }

  lemma RemovesEntry(own: Usage, sum: Usage, e: Usage, w: Usage)
    requires own == Plus(Plus(e, sum), w)
    ensures Minus(own, e) == Plus(sum, w)
  {
  }

  lemma ListedMetered(l: Limits, p: Partition, e: Entry)
    requires Metered(l, p) && KeyOf(e.value) !in p.pending
    ensures Metered(l, Enlisted(p, e))
  {
    SumUpdate(p.pending, EntryUsage, KeyOf(e.value), e);
    AddsEntry(p.own, Sum(p.pending, EntryUsage), EntryUsage(e), WatchersUsage(l, p.watchers, |p.watchers|));
  }

  lemma UnlistedMetered(l: Limits, p: Partition, k: Key)
    requires Metered(l, p) && k in p.pending
    ensures Metered(l, Unlisted(p, k))
  {
    SumAt(p.pending, EntryUsage, k);
    RemovesEntry(p.own, Sum(p.pending - {k}, EntryUsage), EntryUsage(p.pending[k]),
                 WatchersUsage(l, p.watchers, |p.watchers|));
  }

  lemma MovedPlus(total: Usage, own: Usage, e: Usage)
    ensures Moved(total, own, Plus(own, e)) == Plus(total, e) && Moved(total, own, Minus(own, e)) == Minus(total, e)
  {
  }

  lemma ListedMeters(h: Hub, c: string, e: Entry, h1: Hub)
    requires Sound(h.limits, h.partitions, h.total) && c in h.partitions && KeyOf(e.value) !in h.partitions[c].pending
    requires h1 == SetPartition(h, c, Enlisted(h.partitions[c], e))
    ensures Meters(h1.limits, h1.partitions, h1.total) && h1.total == Plus(h.total, EntryUsage(e))
  {
    var p := h.partitions[c];
    SoundMeters(h.limits, h.partitions, h.total);
    ListedMetered(h.limits, p, e);
    SetPartitionMeters(h.limits, h.partitions, h.total, c, Enlisted(p, e));
    MovedPlus(h.total, p.own, EntryUsage(e));
  }

  lemma EnlistBalanced(h: Hub, c: string, e: Entry, h1: Hub)
    requires Counted(h) && c in h.partitions && KeyOf(e.value) !in h.partitions[c].pending
    requires h1 == SetPartition(h, c, Enlisted(h.partitions[c], e))
    ensures Balanced(MeterOf(h1))
    ensures h1 == h.(partitions := h.partitions[c := Enlisted(h.partitions[c], e)], total := Plus(h.total, EntryUsage(e)))
  {
    ListedMeters(h, c, e, h1);
    assert Metering(MeterOf(h1));
  }

  lemma UnlistBalanced(h: Hub, c: string, k: Key, h1: Hub)
    requires Counted(h) && c in h.partitions && k in h.partitions[c].pending
    requires h1 == SetPartition(h, c, Unlisted(h.partitions[c], k))
    ensures Balanced(MeterOf(h1))
    ensures h1 == h.(partitions := h.partitions[c := Unlisted(h.partitions[c], k)],
                     total := Minus(h.total, EntryUsage(h.partitions[c].pending[k])))
  {
    UnlistedMeters(h, c, k, h1);
    assert Metering(MeterOf(h1));
  }

  lemma UnlistedMeters(h: Hub, c: string, k: Key, h1: Hub)
    requires Sound(h.limits, h.partitions, h.total) && c in h.partitions && k in h.partitions[c].pending
    requires h1 == SetPartition(h, c, Unlisted(h.partitions[c], k))
    ensures Meters(h1.limits, h1.partitions, h1.total) && h1.total == Minus(h.total, EntryUsage(h.partitions[c].pending[k]))
  {
    var p := h.partitions[c];
    SoundMeters(h.limits, h.partitions, h.total);
    UnlistedMetered(h.limits, p, k);
    SetPartitionMeters(h.limits, h.partitions, h.total, c, Unlisted(p, k));
    MovedPlus(h.total, p.own, EntryUsage(p.pending[k]));
  }

  /** Record the result of an entry's call; its finisher still has to close the done channel. */
  function Recorded(h: Hub, e: Entry, result: Result): (r: Hub)
    requires e.call < |h.calls| && e.binding < |h.bindings|
  {
    h.(calls := h.calls[e.call := h.calls[e.call].(result := Some(result))],
       bindings := h.bindings[e.binding := h.bindings[e.binding].(active := h.bindings[e.binding].active - 1)],
       closers := h.closers + multiset{e.call})
  }

  /** Take the entry out, record the result, publish: that is closing the call. */
  lemma CloseCallView(h: Hub, c: string, k: Key, result: Result, h1: Hub, h2: Hub)
    requires Open(h, c, k)
    requires h1 == Recorded(SetPartition(h, c, Unlisted(h.partitions[c], k)), h.partitions[c].pending[k], result)
    requires h2 == SetPartition(h1, c, Published(h.limits, Unlisted(h.partitions[c], k), Closed,
                                                 h.partitions[c].pending[k].value))
    ensures h2 == CloseCall(h, c, k, result)
  {
    var q := Unlisted(h.partitions[c], k);
    SetPartitionTwice(h, c, q, Published(h.limits, q, Closed, h.partitions[c].pending[k].value));
  }

  /** Add a call that waits for its result. */
  function Started(h: Hub, v: Pending, lease: Lease): (r: Hub)
    requires lease.binding < |h.bindings|
  {
    var b := lease.binding;
    h.(calls := h.calls + [Call(v, lease.client, b, None, 0, None)],
       bindings := h.bindings[b := h.bindings[b].(active := h.bindings[b].active + 1)])
  }

  lemma OpenCallView(h: Hub, v: Pending, lease: Lease, e: Entry, h1: Hub, h2: Hub)
    requires lease.client in h.partitions && lease.binding < |h.bindings| && e == Entry(|h.calls|, lease.binding, v)
    requires h1 == Started(SetPartition(h, lease.client, Enlisted(h.partitions[lease.client], e)), v, lease)
    requires h2 == SetPartition(h1, lease.client, Published(h.limits, Enlisted(h.partitions[lease.client], e), Opened, v))
    ensures h2 == OpenCall(h, v, lease)
  {
    var q := Enlisted(h.partitions[lease.client], Entry(|h.calls|, lease.binding, v));
    SetPartitionTwice(h, lease.client, q, Published(h.limits, q, Opened, v));
  }

  // ---------------------------------------------------------------------------
  // Ending watcher by watcher
  // ---------------------------------------------------------------------------

  /** The watchers after the first `n` were ended. */
  function EndFirst(ws: seq<Watcher>, reason: Reason, n: nat): (r: seq<Watcher>)
    requires n <= |ws|
    ensures |r| == |ws| && forall i | 0 <= i < |ws| :: r[i] == if i < n then Finish(ws[i], reason) else ws[i]
  {
    seq(|ws|, i requires 0 <= i < |ws| => if i < n then Finish(ws[i], reason) else ws[i])
  }

  lemma EndNext(ws: seq<Watcher>, reason: Reason, n: nat)
    requires n < |ws|
    ensures EndFirst(ws, reason, n)[n] == ws[n]
    ensures EndFirst(ws, reason, n)[n := Finish(ws[n], reason)] == EndFirst(ws, reason, n + 1)
  {
  }

  lemma EndEnds(ws: seq<Watcher>, reason: Reason)
    ensures EndFirst(ws, reason, 0) == ws && EndFirst(ws, reason, |ws|) == EndEach(ws, reason)
  {
  }

  /** A counter with one queued delta fewer. */
  function UnchargeOne(u: Usage, size: nat): (r: Usage) {
    u.(queued := Amount(u.queued.count - 1, u.queued.bytes - size))
  }

  lemma AcknowledgeMoves(l: Limits, u: Usage, w: Watcher)
    requires w.looping && w.carry.Sent?
    ensures Moved(u, Charge(l, w), Charge(l, Acknowledge(w)))
            == if w.stop.Live? then UnchargeOne(u, DeltaBytes(w.carry.delta)) else u
  {
  }

  lemma AcknowledgeView(h: Hub, c: string, i: nat)
    requires c in h.partitions && i < |h.partitions[c].watchers|
    requires h.partitions[c].watchers[i].looping && h.partitions[c].watchers[i].carry.Sent?
    ensures var p := h.partitions[c];
            var w := p.watchers[i];
            var ws, size := p.watchers[i := Acknowledge(w)], DeltaBytes(w.carry.delta);
            SetWatchers(h, c, ws)
            == if !w.stop.Live? then h.(partitions := h.partitions[c := p.(watchers := ws)])
               else h.(partitions := h.partitions[c := p.(watchers := ws, own := UnchargeOne(p.own, size))],
                       total := UnchargeOne(h.total, size))
  {
    var w := h.partitions[c].watchers[i];
    OneWatcherView(h, c, i, Acknowledge(w));
    AcknowledgeMoves(h.limits, h.partitions[c].own, w);
    AcknowledgeMoves(h.limits, h.total, w);
  }

  /** A new observer's charge: one whole queue. */
  function Reserve(l: Limits): (u: Usage) {
    Usage(Amount(0, 0), 1, Amount(l.queueEntries, l.queueBytes), Amount(0, 0))
  }

  lemma {:induction false} ObserveUsage(l: Limits, p: Partition)
    ensures WatchersUsage(l, Observe(p), |p.watchers| + 1) == Plus(WatchersUsage(l, p.watchers, |p.watchers|), Reserve(l))
  {
    var w := NewWatcher(p.revision, Values(p.pending));
    WatchersExtend(l, p.watchers, w, |p.watchers|);
    assert Charge(l, w) == Reserve(l);
  }

  /** Registering an observer charges its whole queue. */
  lemma ObserveView(h: Hub, c: string, reserve: Usage)
    requires c in h.partitions && reserve == Reserve(h.limits)
    ensures var p := h.partitions[c];
            SetWatchers(h, c, Observe(p))
            == h.(partitions := h.partitions[c := p.(watchers := Observe(p), own := Plus(p.own, reserve))],
                  total := Plus(h.total, reserve))
  {
    var l, p := h.limits, h.partitions[c];
    ObserveUsage(l, p);
    AddsWatcher(p.own, WatchersUsage(l, p.watchers, |p.watchers|), reserve);
    MovedPlus(h.total, p.own, reserve);
  }

  lemma AddsWatcher(own: Usage, w: Usage, a: Usage)
    ensures Plus(Minus(own, w), Plus(w, a)) == Plus(own, a)
  {
  }

  // ---------------------------------------------------------------------------
  // Reachable hubs
  // ---------------------------------------------------------------------------

  /** Some run of the state machine leads here. */
  ghost predicate Reached(h: Hub) {
    exists steps: seq<Step> :: h == Exec(NewHub(h.limits), steps)
  }

  lemma NewReached(l: Limits)
    ensures Reached(NewHub(l))
  {
    assert Exec(NewHub(l), []) == NewHub(l);
  }

  /** One more step of the machine stays reachable. */
  lemma StepReached(h: Hub, s: Step, h1: Hub)
    requires Reached(h) && h1 == Apply(h, s)
    ensures Reached(h1)
  {
    var steps: seq<Step> :| h == Exec(NewHub(h.limits), steps);
    assert (steps + [s])[..|steps|] == steps;
    LimitsStay(h, s);
    assert h1 == Exec(NewHub(h.limits), steps + [s]);
  }

  lemma RequestReached(h: Hub, v: Pending, h1: Hub)
    requires Reached(h) && h1 == Request(h, v)
    ensures Reached(h1)
  {
    StepReached(h, DoRequest(v), h1);
  }

  lemma RespondReached(h: Hub, c: string, k: Key, response: string, h1: Hub)
    requires Reached(h) && h1 == Respond(h, c, k, response)
    ensures Reached(h1)
  {
    StepReached(h, DoRespond(c, k, response), h1);
  }

  lemma CancelReached(h: Hub, id: nat, h1: Hub)
    requires Reached(h) && h1 == Cancel(h, id)
    ensures Reached(h1)
  {
    StepReached(h, DoCancel(id), h1);
  }

  lemma ReleaseReached(h: Hub, b: nat, h1: Hub)
    requires Reached(h) && h1 == Release(h, b)
    ensures Reached(h1)
  {
    StepReached(h, DoRelease(b), h1);
  }

  lemma ReachedCore(h: Hub)
    requires Reached(h) && ValidLimits(h.limits)
    ensures Core(h)
  {
    var steps: seq<Step> :| h == Exec(NewHub(h.limits), steps);
    ExecKeeps(h.limits, steps);
  }

  /** `h` is some sound hub with the first calls of a list finished. */
  ghost predicate Finishing(h: Hub) {
    exists g, order: seq<(string, Key)>, n :: 0 <= n <= |order| && Core(g) && h == FinishAll(g, order, n)
  }

  /** Some sound hub is `h`. */
  ghost predicate Cored(h: Hub) {
    exists g :: Core(g) && g == h
  }

  lemma {:induction false} FinishingAt(h: Hub, order: seq<(string, Key)>, n: nat, v: Hub)
    requires Cored(h) && n <= |order| && v == FinishAll(h, order, n)
    ensures Finishing(v)
  {
  }

  lemma FinishingSound(h: Hub)
    requires Finishing(h)
    ensures Counted(h)
  {
    var g, order: seq<(string, Key)>, n :| 0 <= n <= |order| && Core(g) && h == FinishAll(g, order, n);
    FinishAllCore(g, order, n);
  }

  lemma ReachedSound(h: Hub)
    requires Reached(h) && ValidLimits(h.limits)
    ensures Counted(h)
  {
    var steps: seq<Step> :| h == Exec(NewHub(h.limits), steps);
    ExecKeeps(h.limits, steps);
  }

  /** A listed entry always names a call and a binding, so looking it up is all the daemon has to do. */
  lemma ReachedEntries(h: Hub, c: string, k: Key)
    requires Reached(h) && ValidLimits(h.limits)
    ensures c in h.partitions && k in h.partitions[c].pending ==> Open(h, c, k)
  {
    var steps: seq<Step> :| h == Exec(NewHub(h.limits), steps);
    ExecKeeps(h.limits, steps);
    if c in h.partitions && k in h.partitions[c].pending { assert EntryOk(RoutesOf(h), c, k); }
  }

  /** A leased run always names a binding. */
  lemma ReachedLeases(h: Hub, run: string)
    requires Reached(h) && ValidLimits(h.limits)
    ensures run in h.runs ==> h.runs[run].binding < |h.bindings|
  {
    var steps: seq<Step> :| h == Exec(NewHub(h.limits), steps);
    ExecKeeps(h.limits, steps);
    if run in h.runs { assert LeaseOk(RoutesOf(h), run); }
  }
}
