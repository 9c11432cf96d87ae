/** One client's partition of the interaction hub (daemon/pending.go): its pending calls, its feed, and
    the counters that charge both. */
module PendingPartition {
  import opened Basics
  import opened PendingFeed

  datatype Limits = Limits(clients: int, runs: int, runsPerClient: int,
                           pending: int, pendingPerClient: int, pendingBytes: int, pendingBytesPerClient: int,
                           observers: int, observersPerClient: int, queueEntries: int, queueBytes: int,
                           reservedEntries: int, reservedEntriesPerClient: int,
                           reservedBytes: int, reservedBytesPerClient: int,
                           queuedEntries: int, queuedEntriesPerClient: int,
                           queuedBytes: int, queuedBytesPerClient: int)

  predicate GlobalAndClient(global: int, perClient: int, maximum: int) {
    1 <= global <= maximum && 1 <= perClient <= global
  }

  const MAX_ENTRIES := 1024 * 1024
  const MAX_OBSERVER_BYTES := 64 * 1048576

  predicate ValidCounts(l: Limits) {
    && 1 <= l.clients <= 4096
    && GlobalAndClient(l.runs, l.runsPerClient, 16384)
    && GlobalAndClient(l.pending, l.pendingPerClient, 4096)
    && GlobalAndClient(l.observers, l.observersPerClient, 1024)
    && 1 <= l.queueEntries <= 1024
    && GlobalAndClient(l.reservedEntries, l.reservedEntriesPerClient, MAX_ENTRIES)
    && GlobalAndClient(l.queuedEntries, l.queuedEntriesPerClient, MAX_ENTRIES)
    && l.queueEntries <= l.reservedEntries && l.queueEntries <= l.reservedEntriesPerClient
    && l.reservedEntries <= l.queuedEntries && l.reservedEntriesPerClient <= l.queuedEntriesPerClient
  }

  predicate ValidBytes(l: Limits) {
    && GlobalAndClient(l.pendingBytes, l.pendingBytesPerClient, 16 * 1048576)
    && 1 <= l.queueBytes <= 4 * 1048576
    && GlobalAndClient(l.reservedBytes, l.reservedBytesPerClient, MAX_OBSERVER_BYTES)
    && GlobalAndClient(l.queuedBytes, l.queuedBytesPerClient, MAX_OBSERVER_BYTES)
    && l.queueBytes <= l.reservedBytes && l.queueBytes <= l.reservedBytesPerClient
    && l.reservedBytes <= l.queuedBytes && l.reservedBytesPerClient <= l.queuedBytesPerClient
  }

  /** Reservations cover every admitted observer. */
  predicate FundedLimits(l: Limits)
    requires l.queueEntries >= 1 && l.queueBytes >= 1
  {
    && l.observers <= l.reservedEntries / l.queueEntries
    && l.observersPerClient <= l.reservedEntriesPerClient / l.queueEntries
    && l.observers <= l.reservedBytes / l.queueBytes
    && l.observersPerClient <= l.reservedBytesPerClient / l.queueBytes
  }

  predicate ValidLimits(l: Limits) {
    ValidCounts(l) && ValidBytes(l) && FundedLimits(l)
  }

  const MAX_PAYLOAD := 512 * 1024
  const MAX_DELTA_BYTES := 2 * MAX_PAYLOAD + 512

  /** The production defaults: every observer can hold the largest delta, and the actual queue bounds
      cover every reservation. */
  const DEFAULT_LIMITS := Limits(1024, 4096, 256, 1024, 128, 16 * 1048576, 768 * 1024, 32, 4, 64, MAX_DELTA_BYTES,
                                 32 * 64, 4 * 64, 32 * MAX_DELTA_BYTES, 4 * MAX_DELTA_BYTES,
                                 32 * 64, 4 * 64, 32 * MAX_DELTA_BYTES, 4 * MAX_DELTA_BYTES)

  type SoundLimits = l: Limits | ValidLimits(l) witness DEFAULT_LIMITS

  function CapsOf(l: Limits): (c: Caps) {
    Caps(l.queueEntries, l.queueBytes)
  }

  // ---------------------------------------------------------------------------
  // Charges
  // ---------------------------------------------------------------------------

  /** What a watcher, a pending call, a partition or the whole hub is charged for. */
  datatype Usage = Usage(pending: Amount, observers: int, reserved: Amount, queued: Amount)

  datatype Amount = Amount(count: int, bytes: int)

  const ZERO := Usage(Amount(0, 0), 0, Amount(0, 0), Amount(0, 0))

  function Add(a: Amount, b: Amount): (r: Amount) {
    var Amount(count, bytes) := b;
    Amount(a.count + count, a.bytes + bytes)
  }

  function Subtract(a: Amount, b: Amount): (r: Amount) {
    var Amount(count, bytes) := b;
    Amount(a.count - count, a.bytes - bytes)
  }

  function Plus(a: Usage, b: Usage): (r: Usage) {
    var Usage(pending, observers, reserved, queued) := b;
    Usage(Add(a.pending, pending), a.observers + observers, Add(a.reserved, reserved), Add(a.queued, queued))
  }

  function Minus(a: Usage, b: Usage): (r: Usage) {
    var Usage(pending, observers, reserved, queued) := b;
    Usage(Subtract(a.pending, pending), a.observers - observers, Subtract(a.reserved, reserved), Subtract(a.queued, queued))
  }

  function Charge(l: Limits, w: Watcher): (u: Usage) {
    if w.stop.Live? then
      Usage(Amount(0, 0), 1, Amount(l.queueEntries, l.queueBytes), Amount(w.queuedCount, w.queuedBytes))
    else ZERO
  }

  function WatchersUsage(l: Limits, ws: seq<Watcher>, n: nat): (u: Usage)
    requires n <= |ws|
  {
    if n == 0 then ZERO else Plus(WatchersUsage(l, ws, n - 1), Charge(l, ws[n - 1]))
  }

  ghost function Sum<K(!new), V>(m: map<K, V>, f: V -> Usage): (u: Usage)
    decreases |m|
  {
    if m == map[] then ZERO else
      var k := Pick(m);
      Plus(f(m[k]), Sum(m - {k}, f))
  }

  /** A sum is one entry's share and the sum of the rest, whichever entry it is. */
  lemma {:induction false} SumAt<K(!new), V>(m: map<K, V>, f: V -> Usage, k: K)
    requires k in m
    ensures Sum(m, f) == Plus(f(m[k]), Sum(m - {k}, f))
    decreases |m|
  {
    var p := Pick(m);
    if p != k {
      SumAt(m - {p}, f, k);
      SumAt(m - {k}, f, p);
      assert m - {p} - {k} == m - {k} - {p};
    }
  }

  /** Maps that agree on every share have the same sum. */
  lemma {:induction false} SumSame<K(!new), V>(m: map<K, V>, m1: map<K, V>, f: V -> Usage)
    requires m1.Keys == m.Keys && forall k | k in m :: f(m1[k]) == f(m[k])
    ensures Sum(m1, f) == Sum(m, f)
    decreases |m|
  {
    if m == map[] {
      assert m1 == map[];
    } else {
      var k := Pick(m);
      SumAt(m1, f, k);
      SumSame(m - {k}, m1 - {k}, f);
    }
  }

  lemma SumUpdate<K(!new), V>(m: map<K, V>, f: V -> Usage, k: K, v: V)
    ensures Sum(m[k := v], f) == Plus(f(v), Sum(m - {k}, f))
    ensures k in m ==> Sum(m[k := v], f) == Plus(Minus(Sum(m, f), f(m[k])), f(v))
    ensures k !in m ==> Sum(m[k := v], f) == Plus(f(v), Sum(m, f))
  {
    SumAt(m[k := v], f, k);
    assert m[k := v] - {k} == m - {k};
    if k in m { SumAt(m, f, k); } else { assert m - {k} == m; }
  }

  /** Non-negative, each queue within its reservation, and reservations one queue per observer. */
  predicate Funded(l: Limits, u: Usage) {
    && 0 <= u.pending.count && 0 <= u.pending.bytes && 0 <= u.observers
    && 0 <= u.queued.count <= u.reserved.count == u.observers * l.queueEntries
    && 0 <= u.queued.bytes <= u.reserved.bytes == u.observers * l.queueBytes
  }

  lemma Distributes(a: int, b: int, q: int)
    ensures (a + b) * q == a * q + b * q
  {
  }

  lemma FundedPlus(l: Limits, a: Usage, b: Usage)
    requires Funded(l, a) && Funded(l, b)
    ensures Funded(l, Plus(a, b))
  {
    Distributes(a.observers, b.observers, l.queueEntries);
    Distributes(a.observers, b.observers, l.queueBytes);
  }

  lemma {:induction false} SumFunded<K(!new), V>(l: Limits, m: map<K, V>, f: V -> Usage)
    requires forall k | k in m :: Funded(l, f(m[k]))
    ensures Funded(l, Sum(m, f))
    decreases |m|
  {
    if m != map[] {
      var k := Pick(m);
      SumFunded(l, m - {k}, f);
      FundedPlus(l, f(m[k]), Sum(m - {k}, f));
    }
  }

  lemma {:induction false} WatchersFunded(l: Limits, ws: seq<Watcher>, n: nat)
    requires n <= |ws|
    requires forall i | 0 <= i < |ws| :: Funded(l, Charge(l, ws[i]))
    ensures Funded(l, WatchersUsage(l, ws, n))
  {
    if n > 0 {
      WatchersFunded(l, ws, n - 1);
      FundedPlus(l, WatchersUsage(l, ws, n - 1), Charge(l, ws[n - 1]));
    }
  }

  /** Changing one watcher changes the sum by the difference of its charge. */
  lemma {:induction false} WatchersUpdate(l: Limits, ws: seq<Watcher>, i: nat, w: Watcher, n: nat)
    requires i < |ws| && n <= |ws|
    ensures WatchersUsage(l, ws[i := w], n)
            == if i < n then Plus(Minus(WatchersUsage(l, ws, n), Charge(l, ws[i])), Charge(l, w))
               else WatchersUsage(l, ws, n)
  {
    if n > 0 { WatchersUpdate(l, ws, i, w, n - 1); }
  }

  lemma {:induction false} WatchersExtend(l: Limits, ws: seq<Watcher>, w: Watcher, n: nat)
    requires n <= |ws|
    ensures WatchersUsage(l, ws + [w], n) == WatchersUsage(l, ws, n)
  {
    if n > 0 { WatchersExtend(l, ws, w, n - 1); }
  }

  // ---------------------------------------------------------------------------
  // Partitions
  // ---------------------------------------------------------------------------

  /** A pending call's place in its partition. */
  datatype Entry = Entry(call: nat, binding: nat, value: Pending)

  datatype Partition = Partition(revision: nat, log: seq<Delta>, pending: map<Key, Entry>, boundRuns: int,
                                 watchers: seq<Watcher>, own: Usage)

  const EMPTY_PARTITION := Partition(0, [], map[], 0, [], ZERO)

  function EntryUsage(e: Entry): (u: Usage) {
    Usage(Amount(1, ValueBytes(e.value)), 0, Amount(0, 0), Amount(0, 0))
  }

  function OwnOf(p: Partition): (u: Usage) {
    p.own
  }

  function Values(m: map<Key, Entry>): (r: PendingSet) {
    map k | k in m :: m[k].value
  }

  function OfferEach(l: Limits, ws: seq<Watcher>, d: Delta): (r: seq<Watcher>)
    ensures |r| == |ws| && forall i | 0 <= i < |ws| :: r[i] == Offer(CapsOf(l), ws[i], d)
  {
    seq(|ws|, i requires 0 <= i < |ws| => Offer(CapsOf(l), ws[i], d))
  }

  /** Replace the watchers and the part of the charge they stand for. */
  function WithWatchers(l: Limits, p: Partition, ws: seq<Watcher>): (r: Partition) {
    p.(watchers := ws,
       own := Plus(Minus(p.own, WatchersUsage(l, p.watchers, |p.watchers|)), WatchersUsage(l, ws, |ws|)))
  }

  /** Publish one delta: every watcher is offered it, each looking at its own queue alone. */
  function Published(l: Limits, p: Partition, kind: Kind, value: Pending): (r: Partition) {
    var d := Delta(p.revision + 1, kind, value);
    WithWatchers(l, p.(revision := p.revision + 1, log := p.log + [d]), OfferEach(l, p.watchers, d))
  }

  function OpenEntry(l: Limits, p: Partition, e: Entry): (r: Partition) {
    Published(l, p.(pending := p.pending[KeyOf(e.value) := e], own := Plus(p.own, EntryUsage(e))), Opened, e.value)
  }

  function CloseEntry(l: Limits, p: Partition, k: Key): (r: Partition)
    requires k in p.pending
  {
    Published(l, p.(pending := p.pending - {k}, own := Minus(p.own, EntryUsage(p.pending[k]))), Closed, p.pending[k].value)
  }

  function EndEach(ws: seq<Watcher>, reason: Reason): (r: seq<Watcher>)
    ensures |r| == |ws| && forall i | 0 <= i < |ws| :: r[i] == Finish(ws[i], reason)
  {
    seq(|ws|, i requires 0 <= i < |ws| => Finish(ws[i], reason))
  }

  /** An opened key was free, a closed one was pending with the same value. */
  ghost predicate LawfulAt(log: seq<Delta>, i: nat)
    requires i < |log|
  {
    var before, k := PendingAt(log, i), KeyOf(log[i].pending);
    if log[i].kind.Opened? then k !in before else k in before && before[k] == log[i].pending
  }

  ghost predicate LogInv(log: seq<Delta>) {
    Numbered(log) && forall i | 0 <= i < |log| :: LawfulAt(log, i)
  }

  ghost predicate WatchersInv(l: Limits, ws: seq<Watcher>, log: seq<Delta>) {
    forall i {:trigger WatcherInv(CapsOf(l), ws[i], log)} | 0 <= i < |ws| :: WatcherInv(CapsOf(l), ws[i], log)
  }

  /** The published log accounts for the pending set and for every watcher. */
  ghost predicate StreamInv(l: Limits, p: Partition) {
    && p.revision == |p.log| && LogInv(p.log)
    && Values(p.pending) == PendingAt(p.log, |p.log|)
    && |p.log| + |p.pending| <= MAX_UINT64
    && WatchersInv(l, p.watchers, p.log)
  }

  /** The partition's counters are exact. */
  ghost predicate AccountInv(l: Limits, p: Partition) {
    p.own == Plus(Sum(p.pending, EntryUsage), WatchersUsage(l, p.watchers, |p.watchers|))
  }

  /** What every partition keeps on its own. */
  ghost predicate FeedInv(l: Limits, p: Partition) {
    StreamInv(l, p) && AccountInv(l, p)
  }

  lemma {:induction false} LogExtends(log: seq<Delta>, d: Delta)
    requires LogInv(log) && d.revision == |log| + 1
    requires var before, k := PendingAt(log, |log|), KeyOf(d.pending);
             if d.kind.Opened? then k !in before else k in before && before[k] == d.pending
    ensures LogInv(log + [d]) && PendingAt(log + [d], |log| + 1) == ApplyDelta(PendingAt(log, |log|), d)
  {
    var log1 := log + [d];
    forall i | 0 <= i < |log1| ensures LawfulAt(log1, i) {
      PendingAtExtends(log, d, i);
      if i < |log| { assert LawfulAt(log, i) && log1[i] == log[i]; }
    }
    PendingAtExtends(log, d, |log|);
  }

  lemma OffersKeep(l: Limits, ws: seq<Watcher>, log: seq<Delta>, d: Delta)
    requires WatchersInv(l, ws, log)
    ensures WatchersInv(l, OfferEach(l, ws, d), log + [d])
  {
    var offered := OfferEach(l, ws, d);
    forall i | 0 <= i < |offered| ensures WatcherInv(CapsOf(l), offered[i], log + [d]) {
      OfferKeeps(CapsOf(l), ws[i], log, d);
    }
  }

  /** A delta that takes the log's pending set to the partition's keeps the feed. */
  lemma PublishedKeeps(l: Limits, p: Partition, kind: Kind, value: Pending)
    requires p.revision == |p.log| && LogInv(p.log) && WatchersInv(l, p.watchers, p.log)
    requires var before, k := PendingAt(p.log, |p.log|), KeyOf(value);
             && (if kind.Opened? then k !in before else k in before && before[k] == value)
             && Values(p.pending) == ApplyDelta(before, Delta(p.revision + 1, kind, value))
    requires |p.log| + 1 + |p.pending| <= MAX_UINT64
    ensures StreamInv(l, Published(l, p, kind, value))
  {
    var d := Delta(p.revision + 1, kind, value);
    LogExtends(p.log, d);
    OffersKeep(l, p.watchers, p.log, d);
  }

  lemma OpenEntryStream(l: Limits, p: Partition, e: Entry)
    requires StreamInv(l, p) && KeyOf(e.value) !in p.pending && |p.log| + |p.pending| + 2 <= MAX_UINT64
    ensures StreamInv(l, OpenEntry(l, p, e))
  {
    var k := KeyOf(e.value);
    assert k !in Values(p.pending);
    assert Values(p.pending[k := e]) == Values(p.pending)[k := e.value];
    PublishedKeeps(l, p.(pending := p.pending[k := e], own := Plus(p.own, EntryUsage(e))), Opened, e.value);
  }

  lemma CloseEntryStream(l: Limits, p: Partition, k: Key)
    requires StreamInv(l, p) && k in p.pending && KeyOf(p.pending[k].value) == k
    ensures StreamInv(l, CloseEntry(l, p, k))
  {
    var e := p.pending[k];
    assert k in Values(p.pending) && Values(p.pending)[k] == e.value;
    assert Values(p.pending - {k}) == Values(p.pending) - {k};
    PublishedKeeps(l, p.(pending := p.pending - {k}, own := Minus(p.own, EntryUsage(e))), Closed, e.value);
  }

  lemma AccountAdds(own: Usage, sum: Usage, e: Usage, w: Usage, w1: Usage)
    requires own == Plus(sum, w)
    ensures Plus(Minus(Plus(own, e), w), w1) == Plus(Plus(e, sum), w1)
  {
  }

  lemma AccountRemoves(own: Usage, sum: Usage, e: Usage, w: Usage, w1: Usage)
    requires own == Plus(Plus(e, sum), w)
    ensures Plus(Minus(Minus(own, e), w), w1) == Plus(sum, w1)
  {
  }

  lemma OpenEntryAccount(l: Limits, p: Partition, e: Entry)
    requires AccountInv(l, p) && KeyOf(e.value) !in p.pending
    ensures AccountInv(l, OpenEntry(l, p, e))
  {
    SumUpdate(p.pending, EntryUsage, KeyOf(e.value), e);
    var r := OpenEntry(l, p, e);
    AccountAdds(p.own, Sum(p.pending, EntryUsage), EntryUsage(e), WatchersUsage(l, p.watchers, |p.watchers|),
                WatchersUsage(l, r.watchers, |r.watchers|));
  }

  lemma CloseEntryAccount(l: Limits, p: Partition, k: Key)
    requires AccountInv(l, p) && k in p.pending
    ensures AccountInv(l, CloseEntry(l, p, k))
  {
    SumAt(p.pending, EntryUsage, k);
    var r := CloseEntry(l, p, k);
    AccountRemoves(p.own, Sum(p.pending - {k}, EntryUsage), EntryUsage(p.pending[k]),
                   WatchersUsage(l, p.watchers, |p.watchers|), WatchersUsage(l, r.watchers, |r.watchers|));
  }

  lemma OpenEntryKeeps(l: Limits, p: Partition, e: Entry)
    requires FeedInv(l, p) && KeyOf(e.value) !in p.pending && |p.log| + |p.pending| + 2 <= MAX_UINT64
    ensures FeedInv(l, OpenEntry(l, p, e))
  {
    OpenEntryStream(l, p, e);
    OpenEntryAccount(l, p, e);
  }

  lemma CloseEntryKeeps(l: Limits, p: Partition, k: Key)
    requires FeedInv(l, p) && k in p.pending && KeyOf(p.pending[k].value) == k
    ensures FeedInv(l, CloseEntry(l, p, k))
  {
    CloseEntryStream(l, p, k);
    CloseEntryAccount(l, p, k);
  }

  lemma WithWatchersAccount(l: Limits, p: Partition, ws: seq<Watcher>)
    requires AccountInv(l, p)
    ensures AccountInv(l, WithWatchers(l, p, ws))
  {
  }

  lemma WithWatchersKeeps(l: Limits, p: Partition, ws: seq<Watcher>)
    requires FeedInv(l, p) && WatchersInv(l, ws, p.log)
    ensures FeedInv(l, WithWatchers(l, p, ws))
  {
    WithWatchersAccount(l, p, ws);
  }

  lemma ChargeFunded(l: Limits, w: Watcher, log: seq<Delta>)
    requires WatcherInv(CapsOf(l), w, log)
    ensures Funded(l, Charge(l, w))
  {
  }

  /** Every watcher is charged within its own queue, and the partition's counters are exact. */
  ghost predicate Metered(l: Limits, p: Partition) {
    AccountInv(l, p) && forall i | 0 <= i < |p.watchers| :: MeteredWatcher(l, p.watchers[i])
  }

  predicate MeteredWatcher(l: Limits, w: Watcher) {
    Funded(l, Charge(l, w)) && (w.stop.Live? ==> |w.queue| <= w.queuedCount)
  }

  lemma FeedMetered(l: Limits, p: Partition)
    requires FeedInv(l, p)
    ensures Metered(l, p)
  {
    forall i | 0 <= i < |p.watchers| ensures MeteredWatcher(l, p.watchers[i]) {
      assert WatcherInv(CapsOf(l), p.watchers[i], p.log);
      ChargeFunded(l, p.watchers[i], p.log);
    }
  }

  lemma MeteredFunded(l: Limits, p: Partition)
    requires Metered(l, p)
    ensures Funded(l, p.own)
  {
    assert forall i | 0 <= i < |p.watchers| :: MeteredWatcher(l, p.watchers[i]);
    WatchersFunded(l, p.watchers, |p.watchers|);
    SumFunded(l, p.pending, EntryUsage);
    FundedPlus(l, Sum(p.pending, EntryUsage), WatchersUsage(l, p.watchers, |p.watchers|));
  }
}
