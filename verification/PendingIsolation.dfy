/** Why one observer's queue cannot exhaust another's: what reservations leave unused, for a watcher,
    for its client and for the whole hub. */
module PendingIsolation {
  import opened PendingFeed
  import opened PendingPartition
  import opened PendingHub
  import opened PendingSafety

  /** Counters that are exact for every watcher, with the observer bounds respected. */
  ghost predicate Meters(l: Limits, ps: map<string, Partition>, total: Usage) {
    && total == Sum(ps, OwnOf) && total.observers <= l.observers
    && forall c | c in ps :: Metered(l, ps[c]) && ps[c].own.observers <= l.observersPerClient
  }

  lemma SoundMeters(l: Limits, ps: map<string, Partition>, total: Usage)
    requires Sound(l, ps, total)
    ensures Meters(l, ps, total)
  {
    forall c | c in ps ensures Metered(l, ps[c]) { FeedMetered(l, ps[c]); }
  }

  /** What a live watcher's own queue leaves unused, its partition's counters leave unused too. */
  lemma {:induction false} WatchersSlack(l: Limits, ws: seq<Watcher>, n: nat, i: nat)
    requires i < n <= |ws| && ws[i].stop.Live? && forall j | 0 <= j < |ws| :: Funded(l, Charge(l, ws[j]))
    ensures var u := WatchersUsage(l, ws, n);
            && u.reserved.count - u.queued.count >= l.queueEntries - ws[i].queuedCount
            && u.reserved.bytes - u.queued.bytes >= l.queueBytes - ws[i].queuedBytes
  {
    if i < n - 1 {
      WatchersSlack(l, ws, n - 1, i);
      assert Funded(l, Charge(l, ws[n - 1]));
    } else {
      WatchersFunded(l, ws, n - 1);
    }
  }

  /** The unused part of the reservations, as entries and bytes. */
  predicate SlackAtLeast(u: Usage, entries: int, bytes: int) {
    u.reserved.count - u.queued.count >= entries && u.reserved.bytes - u.queued.bytes >= bytes
  }

  lemma SlackPlus(l: Limits, a: Usage, b: Usage, total: Usage, entries: int, bytes: int)
    requires SlackAtLeast(a, entries, bytes) && Funded(l, b) && (total == Plus(a, b) || total == Plus(b, a))
    ensures SlackAtLeast(total, entries, bytes)
  {
  }

  lemma PartitionSlack(l: Limits, p: Partition, i: nat)
    requires Metered(l, p) && i < |p.watchers| && p.watchers[i].stop.Live?
    ensures SlackAtLeast(p.own, l.queueEntries - p.watchers[i].queuedCount, l.queueBytes - p.watchers[i].queuedBytes)
  {
    assert forall j | 0 <= j < |p.watchers| :: MeteredWatcher(l, p.watchers[j]);
    WatchersSlack(l, p.watchers, |p.watchers|, i);
    SumFunded(l, p.pending, EntryUsage);
    SlackPlus(l, WatchersUsage(l, p.watchers, |p.watchers|), Sum(p.pending, EntryUsage), p.own,
              l.queueEntries - p.watchers[i].queuedCount, l.queueBytes - p.watchers[i].queuedBytes);
  }

  lemma {:induction false} TotalFunded(l: Limits, ps: map<string, Partition>)
    requires forall x | x in ps :: Metered(l, ps[x])
    ensures Funded(l, Sum(ps, OwnOf))
  {
    forall x | x in ps ensures Funded(l, OwnOf(ps[x])) { MeteredFunded(l, ps[x]); }
    SumFunded(l, ps, OwnOf);
  }

  lemma {:induction false} HubSlack(l: Limits, ps: map<string, Partition>, c: string, entries: int, bytes: int)
    requires c in ps && SlackAtLeast(ps[c].own, entries, bytes) && forall x | x in ps :: Metered(l, ps[x])
    ensures SlackAtLeast(Sum(ps, OwnOf), entries, bytes)
  {
    var rest := ps - {c};
    SumAt(ps, OwnOf, c);
    TotalFunded(l, rest);
    SlackPlus(l, ps[c].own, Sum(rest, OwnOf), Sum(ps, OwnOf), entries, bytes);
  }

  /** `q` queues of `size` fit a reservation that was divided into at least `q` of them. */
  lemma QueuesFit(q: int, limit: int, size: int)
    requires size >= 1 && 0 <= q <= limit / size
    ensures q * size <= limit
  {
    assert (limit / size) * size <= limit;
    assert (limit / size - q) * size >= 0;
  }

  /** Reservations never exceed what the limits set aside, for the hub and for each client. */
  lemma ReservedWithin(l: Limits, u: Usage, observers: int, entries: int, bytes: int)
    requires Funded(l, u) && u.observers <= observers && l.queueEntries >= 1 && l.queueBytes >= 1
    requires observers <= entries / l.queueEntries && observers <= bytes / l.queueBytes
    ensures u.reserved.count <= entries && u.reserved.bytes <= bytes
  {
    QueuesFit(u.observers, entries, l.queueEntries);
    QueuesFit(u.observers, bytes, l.queueBytes);
  }

  /** Whether the limits beyond a watcher's own queue admit a delta of this size. */
  predicate AggregatesAdmit(l: Limits, total: Usage, own: Usage, size: nat) {
    && total.queued.count < l.queuedEntries && own.queued.count < l.queuedEntriesPerClient
    && size <= l.queuedBytes && total.queued.bytes <= l.queuedBytes - size
    && size <= l.queuedBytesPerClient && own.queued.bytes <= l.queuedBytesPerClient - size
  }

  lemma Isolated(l: Limits, ps: map<string, Partition>, c: string, i: nat, total: Usage, size: nat)
    requires Meters(l, ps, total) && ValidLimits(l) && c in ps && i < |ps[c].watchers| && ps[c].watchers[i].stop.Live?
    requires ps[c].watchers[i].queuedCount < l.queueEntries && ps[c].watchers[i].queuedBytes <= l.queueBytes - size
    ensures AggregatesAdmit(l, total, ps[c].own, size)
  {
    var p := ps[c];
    PartitionSlack(l, p, i);
    MeteredFunded(l, p);
    HubSlack(l, ps, c, l.queueEntries - p.watchers[i].queuedCount, l.queueBytes - p.watchers[i].queuedBytes);
    TotalFunded(l, ps);
    SlackAdmits(l, total, p.own, size);
  }

  lemma SlackAdmits(l: Limits, total: Usage, own: Usage, size: nat)
    requires ValidLimits(l) && total.observers <= l.observers && own.observers <= l.observersPerClient
    requires Funded(l, total) && Funded(l, own) && SlackAtLeast(total, 1, size) && SlackAtLeast(own, 1, size)
    ensures AggregatesAdmit(l, total, own, size)
  {
    ReservedWithin(l, total, l.observers, l.reservedEntries, l.reservedBytes);
    ReservedWithin(l, own, l.observersPerClient, l.reservedEntriesPerClient, l.reservedBytesPerClient);
  }

  /** Every check an enqueue makes, in order: the watcher's own queue, the hub's and the client's
      aggregates, and last the capacity of the delivery channel. */
  function FullRefusal(l: Limits, total: Usage, own: Usage, w: Watcher, d: Delta): (r: Stop) {
    var size := DeltaBytes(d);
    if w.queuedCount >= l.queueEntries then Ended(QueueEntries(w.queuedCount + 1))
    else if size > l.queueBytes || w.queuedBytes > l.queueBytes - size then Ended(QueueBytes(w.queuedBytes + size))
    else if total.queued.count >= l.queuedEntries then Ended(HubEntries(total.queued.count + 1))
    else if own.queued.count >= l.queuedEntriesPerClient then Ended(ClientEntries(own.queued.count + 1))
    else if size > l.queuedBytes || total.queued.bytes > l.queuedBytes - size then Ended(HubBytes(total.queued.bytes + size))
    else if size > l.queuedBytesPerClient || own.queued.bytes > l.queuedBytesPerClient - size then
      Ended(ClientBytes(own.queued.bytes + size))
    else if |w.queue| >= l.queueEntries then Ended(QueueEntries(|w.queue| + 1))
    else Live
  }

  /** All of those checks together refuse exactly what the watcher's own queue refuses. */
  lemma RefusedByItselfOnly(l: SoundLimits, ps: map<string, Partition>, c: string, i: nat, total: Usage, d: Delta)
    requires Meters(l, ps, total) && c in ps && i < |ps[c].watchers| && ps[c].watchers[i].stop.Live?
    ensures FullRefusal(l, total, ps[c].own, ps[c].watchers[i], d) == Refusal(CapsOf(l), ps[c].watchers[i], d)
  {
    var w := ps[c].watchers[i];
    assert Metered(l, ps[c]) && MeteredWatcher(l, w);
    if Refusal(CapsOf(l), w, d).Live? { Isolated(l, ps, c, i, total, DeltaBytes(d)); }
  }
}
