/** What subscribers rebuild is what the hub really held: the published streams only ever grow, so the set at
    an earlier revision is the set of the earlier state (daemon/pending.go). */
module PendingHistory {
  import opened Basics
  import opened PendingFeed
  import opened PendingPartition
  import opened PendingHub
  import opened PendingSafety
  import opened PendingTheorems
  import opened PendingGuarantees

  // ---------------------------------------------------------------------------
  // Streams only grow
  // ---------------------------------------------------------------------------

  /** Every partition stays and its stream is continued. */
  ghost predicate Grows(ps: map<string, Partition>, ps1: map<string, Partition>) {
    forall c | c in ps :: c in ps1 && ps[c].log <= ps1[c].log
  }

  /** By one delta at most, and new partitions begin empty. */
  ghost predicate GrowsByOne(ps: map<string, Partition>, ps1: map<string, Partition>) {
    && Grows(ps, ps1)
    && (forall c | c in ps :: |ps1[c].log| <= |ps[c].log| + 1)
    && (forall c | c in ps1 && c !in ps :: ps1[c].log == [])
  }

  lemma GrowsTrans(a: map<string, Partition>, b: map<string, Partition>, c: map<string, Partition>)
    requires Grows(a, b) && Grows(b, c)
    ensures Grows(a, c)
  {
  }

  /** One partition changed, and its stream got at most one delta. */
  lemma OneGrows(ps: map<string, Partition>, c: string, p: Partition)
    requires c in ps && (p.log == ps[c].log || exists d :: p.log == ps[c].log + [d])
    ensures GrowsByOne(ps, ps[c := p])
  {
  }

  lemma SetWatchersGrows(h: Hub, c: string, ws: seq<Watcher>)
    requires c in h.partitions
    ensures GrowsByOne(h.partitions, SetWatchers(h, c, ws).partitions)
  {
    OneGrows(h.partitions, c, WithWatchers(h.limits, h.partitions[c], ws));
  }

  lemma PublishedGrows(l: Limits, p: Partition, kind: Kind, value: Pending)
    ensures exists d :: Published(l, p, kind, value).log == p.log + [d]
  {
    assert Published(l, p, kind, value).log == p.log + [Delta(p.revision + 1, kind, value)];
  }

  lemma OpenGrows(h: Hub, v: Pending, lease: Lease)
    requires lease.client in h.partitions && lease.binding < |h.bindings|
    ensures GrowsByOne(h.partitions, OpenCall(h, v, lease).partitions)
  {
    var c, e := lease.client, Entry(|h.calls|, lease.binding, v);
    var p := h.partitions[c];
    PublishedGrows(h.limits, p.(pending := p.pending[KeyOf(v) := e], own := Plus(p.own, EntryUsage(e))), Opened, v);
    OneGrows(h.partitions, c, OpenEntry(h.limits, p, e));
  }

  lemma CloseCallGrows(h: Hub, c: string, k: Key, result: Result)
    requires Open(h, c, k)
    ensures GrowsByOne(h.partitions, CloseCall(h, c, k, result).partitions)
  {
    var p := h.partitions[c];
    PublishedGrows(h.limits, p.(pending := p.pending - {k}, own := Minus(p.own, EntryUsage(p.pending[k]))), Closed,
                   p.pending[k].value);
    OneGrows(h.partitions, c, CloseEntry(h.limits, p, k));
  }

  /** Same partitions with the same streams. */
  ghost predicate SameLogs(ps: map<string, Partition>, ps1: map<string, Partition>) {
    ps1.Keys == ps.Keys && forall c | c in ps :: ps1[c].log == ps[c].log
  }

  lemma RemoveKeepsLogs(h: Hub, b: nat)
    ensures SameLogs(h.partitions, RemoveReleased(h, b).partitions)
  {
  }

  lemma SameLogsGrow(a: map<string, Partition>, b: map<string, Partition>, c: map<string, Partition>)
    requires GrowsByOne(a, b) && SameLogs(b, c)
    ensures GrowsByOne(a, c)
  {
  }

  lemma FinishGrows(h: Hub, c: string, k: Key, result: Result)
    requires Open(h, c, k)
    ensures GrowsByOne(h.partitions, FinishCall(h, c, k, result).partitions)
  {
    var h1 := CloseCall(h, c, k, result);
    CloseCallGrows(h, c, k, result);
    RemoveKeepsLogs(h1, h.partitions[c].pending[k].binding);
    SameLogsGrow(h.partitions, h1.partitions, FinishCall(h, c, k, result).partitions);
  }

  lemma EnsureGrows(h: Hub, c: string)
    ensures GrowsByOne(h.partitions, EnsurePartition(h, c).partitions)
  {
  }

  lemma LendKeepsLogs(h: Hub, c: string, run: string)
    requires c in h.partitions
    ensures SameLogs(h.partitions, Lend(h, c, run).partitions)
  {
  }

  lemma BindGrows(h: Hub, c: string, run: string)
    ensures GrowsByOne(h.partitions, BindRun(h, c, run).partitions)
  {
    var h1 := EnsurePartition(h, c);
    EnsureGrows(h, c);
    if BindOutcomeOf(h, c, run).Bound? && c in h1.partitions {
      LendKeepsLogs(h1, c, run);
      SameLogsGrow(h.partitions, h1.partitions, Lend(h1, c, run).partitions);
    }
  }

  lemma WatchersKeepLogs(h: Hub, c: string, ws: seq<Watcher>)
    requires c in h.partitions
    ensures SameLogs(h.partitions, SetWatchers(h, c, ws).partitions)
  {
  }

  lemma SubscribeGrows(h: Hub, c: string)
    ensures GrowsByOne(h.partitions, Subscribe(h, c).partitions)
  {
    var h1 := EnsurePartition(h, c);
    EnsureGrows(h, c);
    if !h.closed && SubscribeOutcomeOf(h, c).Subscribed? {
      WatchersKeepLogs(h1, c, Observe(h1.partitions[c]));
      SameLogsGrow(h.partitions, h1.partitions, SetWatchers(h1, c, Observe(h1.partitions[c])).partitions);
    }
  }

  lemma DeliverGrows(h: Hub, c: string, i: nat, m: Move)
    ensures GrowsByOne(h.partitions, Deliver(h, c, i, m).partitions)
    ensures GrowsByOne(h.partitions, Detach(h, c, i).partitions)
  {
    if c in h.partitions && i < |h.partitions[c].watchers| {
      var ws := h.partitions[c].watchers;
      SetWatchersGrows(h, c, ws[i := Advance(ws[i], m)]);
      SetWatchersGrows(h, c, ws[i := Finish(ws[i], Cancelled)]);
    }
  }

  lemma EndGrows(h: Hub, c: string, reason: Reason)
    ensures GrowsByOne(h.partitions, EndWatchers(h, c, reason).partitions)
  {
    if c in h.partitions { SetWatchersGrows(h, c, EndEach(h.partitions[c].watchers, reason)); }
  }

  lemma RequestGrows(h: Hub, v: Pending)
    ensures GrowsByOne(h.partitions, Request(h, v).partitions)
  {
    if RequestOutcomeOf(h, v).Accepted? { OpenGrows(h, v, h.runs[v.run]); }
  }

  lemma RespondGrows(h: Hub, c: string, k: Key, response: string)
    ensures GrowsByOne(h.partitions, Respond(h, c, k, response).partitions)
  {
    if RespondOutcomeOf(h, c, k).Responded? { FinishGrows(h, c, k, Answered(response)); }
  }

  lemma CancelGrows(h: Hub, id: nat)
    ensures GrowsByOne(h.partitions, Cancel(h, id).partitions)
  {
    if StillPending(h, id) { FinishGrows(h, h.calls[id].client, KeyOf(h.calls[id].value), ContextEnded); }
  }

  lemma ReleaseGrows(h: Hub, b: nat)
    ensures GrowsByOne(h.partitions, Release(h, b).partitions)
  {
    RemoveKeepsLogs(StopAccepting(h, b), b);
  }

  lemma CallStepGrows(h: Hub, s: Step)
    ensures GrowsByOne(h.partitions, CallStep(h, s).partitions)
  {
    CallStepIs(h, s);
    match s
    case DoBindRun(c, run) => BindGrows(h, c, run);
    case DoRequest(v) => RequestGrows(h, v);
    case DoRespond(c, k, response) => RespondGrows(h, c, k, response);
    case DoCancel(id) => CancelGrows(h, id);
    case DoRelease(b) => ReleaseGrows(h, b);
    case _ =>
  }

  lemma ObserverStepGrows(h: Hub, s: Step)
    ensures GrowsByOne(h.partitions, ObserverStep(h, s).partitions)
  {
    ObserverStepIs(h, s);
    match s
    case DoSubscribe(c) => SubscribeGrows(h, c);
    case DoDeliver(c, i, m) => DeliverGrows(h, c, i, m);
    case DoDetach(c, i) => DeliverGrows(h, c, i, DoTake);
    case DoFence(c) => EndGrows(h, c, Fenced);
    case _ =>
  }

  /** Every step but Close adds at most one delta to each stream. */
  lemma StepGrows(h: Hub, s: Step)
    requires !s.DoClose?
    ensures GrowsByOne(h.partitions, Apply(h, s).partitions)
  {
    if OfObservers(s) { ObserverStepGrows(h, s); } else { CallStepGrows(h, s); }
  }

  lemma FinishOneGrows(h: Hub, place: (string, Key), h1: Hub)
    requires h1 == FinishOne(h, place)
    ensures GrowsByOne(h.partitions, h1.partitions) && h1.partitions.Keys == h.partitions.Keys
  {
    if Open(h, place.0, place.1) { FinishGrows(h, place.0, place.1, HubWasClosed); }
  }

  /** From call `j` of a shutdown to call `n`. */
  lemma {:induction false} FinishAllGrows(h: Hub, order: seq<(string, Key)>, j: nat, n: nat)
    requires j <= n <= |order|
    ensures Grows(FinishAll(h, order, j).partitions, FinishAll(h, order, n).partitions)
    ensures FinishAll(h, order, n).partitions.Keys == FinishAll(h, order, j).partitions.Keys
    decreases n
  {
    if j < n {
      var h0, h1 := FinishAll(h, order, n - 1), FinishAll(h, order, n);
      FinishAllGrows(h, order, j, n - 1);
      FinishOneGrows(h0, order[n - 1], h1);
      GrowsTrans(FinishAll(h, order, j).partitions, h0.partitions, h1.partitions);
    }
  }

  lemma SameLogsTrans(a: map<string, Partition>, b: map<string, Partition>, c: map<string, Partition>)
    requires SameLogs(a, b) && SameLogs(b, c)
    ensures SameLogs(a, c)
  {
  }

  lemma {:induction false} RemoveAllLogs(h: Hub, n: nat)
    ensures SameLogs(h.partitions, RemoveAll(h, n).partitions)
  {
    if n > 0 {
      var h1 := RemoveAll(h, n - 1);
      RemoveAllLogs(h, n - 1);
      RemoveKeepsLogs(h1, n - 1);
      SameLogsTrans(h.partitions, h1.partitions, RemoveAll(h, n).partitions);
    }
  }

  lemma EndKeepsLogs(h: Hub, c: string, reason: Reason)
    ensures SameLogs(h.partitions, EndWatchers(h, c, reason).partitions)
  {
    if c in h.partitions { WatchersKeepLogs(h, c, EndEach(h.partitions[c].watchers, reason)); }
  }

  lemma {:induction false} EndAllLogs(h: Hub, clients: seq<string>, n: nat)
    requires n <= |clients|
    ensures SameLogs(h.partitions, EndAll(h, clients, n).partitions)
  {
    if n > 0 {
      var h1 := EndAll(h, clients, n - 1);
      EndAllLogs(h, clients, n - 1);
      EndKeepsLogs(h1, clients[n - 1], HubClosed);
      SameLogsTrans(h.partitions, h1.partitions, EndAll(h, clients, n).partitions);
    }
  }

  /** Close does something in this hub. */
  predicate Closing(h: Hub, s: Step) {
    s.DoClose? && !h.closed && Lists(h, s.order, s.clients)
  }

  /** Once every pending call has failed, Close publishes nothing more. */
  lemma CloseLogs(h: Hub, s: Step, h1: Hub)
    requires Closing(h, s) && h1 == FinishAll(Shut(h), s.order, |s.order|)
    ensures SameLogs(h1.partitions, Close(h, s.order, s.clients).partitions)
  {
    var h2 := RemoveAll(h1, |h1.bindings|);
    RemoveAllLogs(h1, |h1.bindings|);
    EndAllLogs(h2, s.clients, |s.clients|);
    SameLogsTrans(h1.partitions, h2.partitions, Close(h, s.order, s.clients).partitions);
  }

  lemma SameLogsAreGrown(a: map<string, Partition>, b: map<string, Partition>, c: map<string, Partition>)
    requires Grows(a, b) && SameLogs(b, c)
    ensures Grows(a, c)
  {
  }

  /** From any call on of a shutdown to its end. */
  lemma {:induction false} CloseGrows(h: Hub, s: Step, j: nat)
    requires Closing(h, s) && j <= |s.order|
    ensures Grows(FinishAll(Shut(h), s.order, j).partitions, Close(h, s.order, s.clients).partitions)
    ensures Close(h, s.order, s.clients).partitions.Keys == h.partitions.Keys
  {
    var h1 := FinishAll(Shut(h), s.order, |s.order|);
    FinishAllGrows(Shut(h), s.order, j, |s.order|);
    FinishAllGrows(Shut(h), s.order, 0, |s.order|);
    CloseLogs(h, s, h1);
    SameLogsAreGrown(FinishAll(Shut(h), s.order, j).partitions, h1.partitions, Close(h, s.order, s.clients).partitions);
  }

  lemma ApplyGrows(h: Hub, s: Step)
    ensures Grows(h.partitions, Apply(h, s).partitions)
  {
    if Closing(h, s) { CloseGrows(h, s, 0); } else if !s.DoClose? { StepGrows(h, s); }
  }

  /** Over every run, each partition's stream at an earlier point is a prefix of the later one. */
  lemma {:induction false} StreamsGrow(l: Limits, steps: seq<Step>, m: nat)
    requires m <= |steps|
    ensures Grows(Exec(NewHub(l), steps[..m]).partitions, Exec(NewHub(l), steps).partitions)
    decreases |steps|
  {
    if m == |steps| {
      assert steps[..m] == steps;
    } else {
      var before := steps[..|steps| - 1];
      assert before[..m] == steps[..m];
      StreamsGrow(l, before, m);
      ApplyGrows(Exec(NewHub(l), before), steps[|steps| - 1]);
      GrowsTrans(Exec(NewHub(l), steps[..m]).partitions, Exec(NewHub(l), before).partitions, Exec(NewHub(l), steps).partitions);
    }
  }

  // ---------------------------------------------------------------------------
  // Discovery is history
  // ---------------------------------------------------------------------------

  lemma {:induction false} PendingAtPrefix(log: seq<Delta>, longer: seq<Delta>, n: nat)
    requires n <= |log| && log <= longer
    ensures PendingAt(log, n) == PendingAt(longer, n)
  {
    if n > 0 { PendingAtPrefix(log, longer, n - 1); }
  }

  lemma HeldIsLogged(l: Limits, p: Partition)
    requires StreamInv(l, p)
    ensures p.revision == |p.log| && Values(p.pending) == PendingAt(p.log, |p.log|)
  {
  }

  /** A view at a revision an earlier state of the partition had is that state's pending set. */
  lemma {:induction false} ViewWasHeld(l: Limits, p: Partition, p0: Partition, i: nat, n: nat)
    requires StreamInv(l, p) && StreamInv(l, p0) && p0.log <= p.log && i < |p.watchers| && n <= |p.watchers[i].sent|
    requires p0.revision == p.watchers[i].snapshotRevision + n
    ensures Rebuild(p.watchers[i].snapshot, p.watchers[i].sent, n) == Values(p0.pending)
  {
    PartitionDiscovery(l, p, i, n);
    HeldIsLogged(l, p0);
    PendingAtPrefix(p0.log, p.log, p0.revision);
  }

  lemma {:induction false} StreamAlways(l: Limits, steps: seq<Step>, c: string)
    requires ValidLimits(l) && c in Exec(NewHub(l), steps).partitions
    ensures StreamInv(l, Exec(NewHub(l), steps).partitions[c])
  {
    ExecKeeps(l, steps);
  }

  /** The hub after `m` steps of a run or, inside a Close that is the next one, after `j` of its calls failed. */
  ghost function During(l: Limits, steps: seq<Step>, m: nat, j: nat): (h: Hub)
    requires m <= |steps|
  {
    var h := Exec(NewHub(l), steps[..m]);
    if m < |steps| && Closing(h, steps[m]) && 0 < j <= |steps[m].order| then FinishAll(Shut(h), steps[m].order, j) else h
  }

  lemma {:induction false} ClosingStream(h: Hub, order: seq<(string, Key)>, j: nat, c: string, h1: Hub)
    requires Inv(h) && j <= |order| && h1 == FinishAll(Shut(h), order, j) && c in h1.partitions
    ensures StreamInv(h.limits, h1.partitions[c])
  {
    ShutCore(h);
    FinishAllCore(Shut(h), order, j);
    FinishAllRoutes(Shut(h), order, j);
  }

  lemma StreamDuring(l: Limits, steps: seq<Step>, m: nat, j: nat, c: string)
    requires ValidLimits(l) && m <= |steps| && c in During(l, steps, m, j).partitions
    ensures StreamInv(l, During(l, steps, m, j).partitions[c])
  {
    var h := Exec(NewHub(l), steps[..m]);
    ExecKeeps(l, steps[..m]);
    if m < |steps| && Closing(h, steps[m]) && 0 < j <= |steps[m].order| {
      ClosingStream(h, steps[m].order, j, c, During(l, steps, m, j));
    }
  }

  lemma ExecNext(l: Limits, steps: seq<Step>, m: nat)
    requires m < |steps|
    ensures Exec(NewHub(l), steps[..m + 1]) == Apply(Exec(NewHub(l), steps[..m]), steps[m])
  {
    assert steps[..m + 1][..m] == steps[..m];
  }

  lemma {:induction false} ClosingGrows(l: Limits, steps: seq<Step>, m: nat, j: nat, h: Hub, h1: Hub)
    requires m < |steps| && h == Exec(NewHub(l), steps[..m]) && Closing(h, steps[m]) && j <= |steps[m].order|
    requires h1 == FinishAll(Shut(h), steps[m].order, j)
    ensures Grows(h1.partitions, Exec(NewHub(l), steps).partitions)
  {
    var h2 := Exec(NewHub(l), steps[..m + 1]);
    CloseGrows(h, steps[m], j);
    ExecNext(l, steps, m);
    StreamsGrow(l, steps, m + 1);
    GrowsTrans(h1.partitions, h2.partitions, Exec(NewHub(l), steps).partitions);
  }

  lemma {:induction false} DuringGrows(l: Limits, steps: seq<Step>, m: nat, j: nat)
    requires m <= |steps|
    ensures Grows(During(l, steps, m, j).partitions, Exec(NewHub(l), steps).partitions)
  {
    var h := Exec(NewHub(l), steps[..m]);
    if m < |steps| && Closing(h, steps[m]) && 0 < j <= |steps[m].order| {
      ClosingGrows(l, steps, m, j, h, During(l, steps, m, j));
    } else {
      StreamsGrow(l, steps, m);
    }
  }

  /** What a subscriber rebuilds from its snapshot and its first `n` deltas is the pending set the hub held at
      that revision, at any earlier point of the run at which the partition had it. */
  lemma {:induction false} DiscoveryIsHistory(l: Limits, steps: seq<Step>, m: nat, j: nat, c: string, i: nat, n: nat,
                                              h: Hub, h0: Hub)
    requires ValidLimits(l) && m <= |steps| && h == Exec(NewHub(l), steps) && h0 == During(l, steps, m, j)
    requires c in h.partitions && i < |h.partitions[c].watchers| && n <= |h.partitions[c].watchers[i].sent|
    requires c in h0.partitions && h0.partitions[c].revision == h.partitions[c].watchers[i].snapshotRevision + n
    ensures var w := h.partitions[c].watchers[i]; Rebuild(w.snapshot, w.sent, n) == Values(h0.partitions[c].pending)
  {
    StreamAlways(l, steps, c);
    StreamDuring(l, steps, m, j, c);
    DuringGrows(l, steps, m, j);
    ViewWasHeld(l, h.partitions[c], h0.partitions[c], i, n);
  }

  /** A step other than a Close that takes effect adds at most one delta to each stream. */
  lemma OrdinaryStepGrows(h: Hub, s: Step)
    requires !Closing(h, s)
    ensures GrowsByOne(h.partitions, Apply(h, s).partitions)
  {
    if !s.DoClose? { StepGrows(h, s); }
  }

  /** A revision reached in one step from partitions `ps` was held before it or is the new one. */
  lemma RevisionStep(l: Limits, ps: map<string, Partition>, ps1: map<string, Partition>, c: string, r: nat)
    requires GrowsByOne(ps, ps1) && c in ps1 && StreamInv(l, ps1[c]) && r <= ps1[c].revision
    requires c in ps ==> StreamInv(l, ps[c])
    ensures r == ps1[c].revision || (c in ps && r <= ps[c].revision)
  {
    HeldIsLogged(l, ps1[c]);
    if c in ps { HeldIsLogged(l, ps[c]); }
  }

  lemma {:induction false} OrdinaryStepHeld(l: Limits, before: seq<Step>, s: Step, h0: Hub, h: Hub, c: string, r: nat)
    requires ValidLimits(l) && h0 == Exec(NewHub(l), before) && h == Exec(NewHub(l), before + [s]) == Apply(h0, s)
    requires !Closing(h0, s) && c in h.partitions && r <= h.partitions[c].revision
    ensures r == h.partitions[c].revision || (c in h0.partitions && r <= h0.partitions[c].revision)
  {
    StreamAlways(l, before + [s], c);
    if c in h0.partitions { StreamAlways(l, before, c); }
    OrdinaryStepGrows(h0, s);
    RevisionStep(l, h0.partitions, h.partitions, c, r);
  }

  /** Failing calls one after the other passes through every length of a stream. */
  lemma {:induction false} FinishAllReaches(h: Hub, order: seq<(string, Key)>, n: nat, c: string, r: nat) returns (j: nat)
    requires n <= |order| && c in h.partitions && c in FinishAll(h, order, n).partitions
    requires |h.partitions[c].log| <= r <= |FinishAll(h, order, n).partitions[c].log|
    ensures j <= n && c in FinishAll(h, order, j).partitions && |FinishAll(h, order, j).partitions[c].log| == r
    decreases n
  {
    j := n;
    if r < |FinishAll(h, order, n).partitions[c].log| {
      FinishAllGrows(h, order, 0, n - 1);
      FinishOneGrows(FinishAll(h, order, n - 1), order[n - 1], FinishAll(h, order, n));
      j := FinishAllReaches(h, order, n - 1, c, r);
    }
  }

  /** A revision that Close passes was held before it or after one of its calls failed. */
  lemma CloseHeld(h: Hub, s: Step, c: string, r: nat, h1: Hub) returns (j: nat)
    requires Inv(h) && Closing(h, s) && h1 == Close(h, s.order, s.clients) && c in h1.partitions && r <= |h1.partitions[c].log|
    ensures c in h.partitions && j <= |s.order|
    ensures j == 0 ==> r <= h.partitions[c].revision
    ensures j > 0 ==> var h2 := FinishAll(Shut(h), s.order, j); c in h2.partitions && h2.partitions[c].revision == r
  {
    var all := FinishAll(Shut(h), s.order, |s.order|);
    CloseGrows(h, s, 0);
    CloseLogs(h, s, all);
    HeldIsLogged(h.limits, h.partitions[c]);
    j := 0;
    if r > h.partitions[c].revision {
      j := FinishAllReaches(Shut(h), s.order, |s.order|, c, r);
      ClosingStream(h, s.order, j, c, FinishAll(Shut(h), s.order, j));
      HeldIsLogged(h.limits, FinishAll(Shut(h), s.order, j).partitions[c]);
    }
  }

  lemma ClosingCloses(h: Hub, s: Step)
    requires !Apply(h, s).closed
    ensures !h.closed && !Closing(h, s)
  {
    if Closing(h, s) { CloseCloses(h, s.order, s.clients); }
  }

  /** One step back from a revision below the current one: it was held before the step, or inside it. */
  lemma HeldBefore(l: Limits, before: seq<Step>, s: Step, h0: Hub, h: Hub, c: string, r: nat) returns (j: nat)
    requires ValidLimits(l) && h0 == Exec(NewHub(l), before) && h == Exec(NewHub(l), before + [s]) == Apply(h0, s)
    requires c in h.partitions && r < h.partitions[c].revision
    ensures c in h0.partitions && (!h.closed ==> !h0.closed && j == 0)
    ensures j == 0 ==> r <= h0.partitions[c].revision
    ensures j > 0 ==> && Closing(h0, s) && j <= |s.order| && c in FinishAll(Shut(h0), s.order, j).partitions
                      && FinishAll(Shut(h0), s.order, j).partitions[c].revision == r
  {
    j := 0;
    if !h.closed { ClosingCloses(h0, s); }
    if Closing(h0, s) {
      ExecKeeps(l, before);
      StreamAlways(l, before + [s], c);
      HeldIsLogged(l, h.partitions[c]);
      j := CloseHeld(h0, s, c, r, h);
    } else {
      OrdinaryStepHeld(l, before, s, h0, h, c, r);
    }
  }

  /** Every revision up to the current one was held at some point of the run: between two of its steps or, if the
      hub was closed, perhaps inside the Close, which fails its calls one by one. */
  lemma {:induction false} RevisionWasHeld(l: Limits, steps: seq<Step>, h: Hub, c: string, r: nat) returns (m: nat, j: nat)
    requires ValidLimits(l) && h == Exec(NewHub(l), steps)
    requires c in h.partitions && r <= h.partitions[c].revision
    ensures m <= |steps| && (m == |steps| || !h.closed ==> j == 0)
    ensures c in During(l, steps, m, j).partitions && During(l, steps, m, j).partitions[c].revision == r
    decreases |steps|
  {
    m, j := |steps|, 0;
    assert steps[..m] == steps;
    if r < h.partitions[c].revision {
      var before, s := steps[..|steps| - 1], steps[|steps| - 1];
      var h0 := Exec(NewHub(l), before);
      assert before + [s] == steps;
      j := HeldBefore(l, before, s, h0, h, c, r);
      m := |steps| - 1;
      if j == 0 {
        m, j := RevisionWasHeld(l, before, h0, c, r);
        DuringEarlier(l, steps, m, j);
      }
    }
  }

  lemma DuringEarlier(l: Limits, steps: seq<Step>, m: nat, j: nat)
    requires m < |steps| && (m == |steps| - 1 ==> j == 0)
    ensures During(l, steps[..|steps| - 1], m, j) == During(l, steps, m, j)
  {
    assert steps[..|steps| - 1][..m] == steps[..m];
  }

  /** So every subscriber's view, whichever of its deltas it stopped at, is the pending set the hub held at some
      point of the run. */
  lemma DiscoveryWasReal(l: Limits, steps: seq<Step>, h: Hub, c: string, i: nat, n: nat) returns (m: nat, j: nat)
    requires ValidLimits(l) && h == Exec(NewHub(l), steps)
    requires c in h.partitions && i < |h.partitions[c].watchers| && n <= |h.partitions[c].watchers[i].sent|
    ensures m <= |steps| && (!h.closed ==> j == 0) && c in During(l, steps, m, j).partitions
    ensures var w, p := h.partitions[c].watchers[i], During(l, steps, m, j).partitions[c];
            p.revision == w.snapshotRevision + n && Rebuild(w.snapshot, w.sent, n) == Values(p.pending)
  {
    StreamAlways(l, steps, c);
    PartitionDiscovery(l, h.partitions[c], i, n);
    HeldIsLogged(l, h.partitions[c]);
    m, j := RevisionWasHeld(l, steps, h, c, h.partitions[c].watchers[i].snapshotRevision + n);
    DiscoveryIsHistory(l, steps, m, j, c, i, n, h, During(l, steps, m, j));
  }
}
