/** The interaction hub's guarantees over every run of its steps. */
module PendingTheorems {
  import opened Basics
  import opened PendingFeed
  import opened PendingPartition
  import opened PendingHub
  import opened PendingSafety
  import opened PendingRouting

  // ---------------------------------------------------------------------------
  // The hub's steps are steps of its routes
  // ---------------------------------------------------------------------------

  lemma SetWatchersRoutes(h: Hub, c: string, ws: seq<Watcher>)
    requires c in h.partitions
    ensures RoutesOf(SetWatchers(h, c, ws)) == RoutesOf(h)
  {
    PlaceUpdate(h.partitions, c, WithWatchers(h.limits, h.partitions[c], ws));
  }

  lemma OpenCallRoutes(h: Hub, v: Pending, lease: Lease)
    requires lease.client in h.partitions && lease.binding < |h.bindings|
    ensures RoutesOf(OpenCall(h, v, lease)) == OpenRoute(RoutesOf(h), v, lease)
  {
    var c := lease.client;
    PlaceUpdate(h.partitions, c, OpenEntry(h.limits, h.partitions[c], Entry(|h.calls|, lease.binding, v)));
  }

  lemma CloseCallRoutes(h: Hub, c: string, k: Key, result: Result)
    requires Open(h, c, k)
    ensures RoutesOf(CloseCall(h, c, k, result)) == CloseRoute(RoutesOf(h), c, k, result)
  {
    PlaceUpdate(h.partitions, c, CloseEntry(h.limits, h.partitions[c], k));
  }

  lemma RemoveReleasedRoutes(h: Hub, b: nat)
    ensures RoutesOf(RemoveReleased(h, b)) == RemoveRoute(RoutesOf(h), b)
  {
    if Removable(h, b) && h.bindings[b].client in h.partitions {
      var c := h.bindings[b].client;
      PlaceUpdate(h.partitions, c, h.partitions[c].(boundRuns := h.partitions[c].boundRuns - 1));
    }
  }

  lemma LendRoutes(h: Hub, c: string, run: string)
    requires c in h.partitions
    ensures RoutesOf(Lend(h, c, run)) == LendRoute(RoutesOf(h), c, run)
  {
    var p := h.partitions[c].(boundRuns := h.partitions[c].boundRuns + 1);
    PlaceUpdate(h.partitions, c, p);
    assert Lend(h, c, run).partitions == h.partitions[c := p];
  }

  lemma EnsurePartitionRoutes(h: Hub, c: string)
    ensures RoutesOf(EnsurePartition(h, c))
            == if c in h.partitions || |h.partitions| >= h.limits.clients then RoutesOf(h) else AddClient(RoutesOf(h), c)
  {
    PlaceUpdate(h.partitions, c, EMPTY_PARTITION);
  }

  // ---------------------------------------------------------------------------
  // What every step keeps
  // ---------------------------------------------------------------------------

  ghost predicate Core(h: Hub) {
    CountersInv(h) && RoutesInv(RoutesOf(h))
  }

  lemma SetWatchersCore(h: Hub, c: string, ws: seq<Watcher>)
    requires c in h.partitions && RoutesInv(RoutesOf(h)) && CountersInv(SetWatchers(h, c, ws))
    ensures Core(SetWatchers(h, c, ws))
  {
    SetWatchersRoutes(h, c, ws);
  }

  lemma EnsurePartitionCore(h: Hub, c: string)
    requires Core(h) && WithinClient(h.limits, ZERO)
    ensures Core(EnsurePartition(h, c))
  {
    EnsurePartitionCounters(h, c);
    EnsurePartitionRoutes(h, c);
    if c !in h.partitions && |h.partitions| < h.limits.clients { AddClientKeeps(RoutesOf(h), c); }
  }

  lemma LendRebinds(h: Hub, c: string, run: string, h1: Hub)
    requires c in h.partitions && h1 == Lend(h, c, run)
    ensures Rebound(h.partitions, h1.partitions) && h1.limits == h.limits && h1.total == h.total
  {
  }

  lemma LendCore(h: Hub, c: string, run: string)
    requires Core(h) && c in h.partitions && run !in h.runs
    ensures Core(Lend(h, c, run))
  {
    LendRebinds(h, c, run, Lend(h, c, run));
    ReboundCounters(h, Lend(h, c, run));
    LendRoutes(h, c, run);
    LendKeeps(RoutesOf(h), c, run);
  }

  lemma RequestCore(h: Hub, v: Pending)
    requires Core(h)
    ensures Core(Request(h, v))
  {
    if RequestOutcomeOf(h, v).Accepted? {
      var lease := h.runs[v.run];
      OpenCallCounters(h, v, lease);
      OpenCallRoutes(h, v, lease);
      OpenRouteKeeps(RoutesOf(h), v, lease);
    }
  }

  lemma CloseCallCore(h: Hub, c: string, k: Key, result: Result)
    requires Core(h) && Open(h, c, k)
    ensures Core(CloseCall(h, c, k, result))
  {
    assert EntryOk(RoutesOf(h), c, k);
    CloseCallCounters(h, c, k, result);
    CloseCallRoutes(h, c, k, result);
    CloseRouteKeeps(RoutesOf(h), c, k, result);
  }

  lemma RemoveReleasedCore(h: Hub, b: nat)
    requires Core(h)
    ensures Core(RemoveReleased(h, b))
  {
    RemoveReleasedCounters(h, b);
    RemoveReleasedRoutes(h, b);
    RemoveRouteKeeps(RoutesOf(h), b);
  }

  lemma FinishCallCore(h: Hub, c: string, k: Key, result: Result)
    requires Core(h) && Open(h, c, k)
    ensures Core(FinishCall(h, c, k, result))
  {
    CloseCallCore(h, c, k, result);
    RemoveReleasedCore(CloseCall(h, c, k, result), h.partitions[c].pending[k].binding);
  }

  lemma StopCore(h: Hub, bindings: seq<Binding>)
    requires Core(h) && OnlyStopped(h.bindings, bindings)
    ensures Core(h.(bindings := bindings))
  {
    StoppedKeeps(RoutesOf(h), bindings);
  }

  lemma ReleaseCore(h: Hub, b: nat)
    requires Core(h)
    ensures Core(Release(h, b))
  {
    if b < |h.bindings| { StopCore(h, StopAccepting(h, b).bindings); }
    RemoveReleasedCore(StopAccepting(h, b), b);
  }

  lemma CloseDoneCore(h: Hub, id: nat)
    requires Core(h)
    ensures Core(CloseDone(h, id))
  {
    if id in h.closers && id < |h.calls| {
      CloseDoneKeeps(RoutesOf(h), id);
    }
  }

  lemma ReturnCore(h: Hub, id: nat)
    requires Core(h)
    ensures Core(Return(h, id))
  {
    if id < |h.calls| && h.calls[id].closes > 0 && h.calls[id].returned.None? {
      assert CallOk(RoutesOf(h), id);
      CallKeeps(RoutesOf(h), id, h.calls[id].(returned := h.calls[id].result), h.closers);
    }
  }

  lemma SubscribeCore(h: Hub, c: string)
    requires Core(h) && WithinClient(h.limits, ZERO) && h.limits.queueEntries >= 1 && h.limits.queueBytes >= 1
    ensures Core(Subscribe(h, c))
  {
    EnsurePartitionCore(h, c);
    if SubscribeOutcomeOf(h, c).Subscribed? {
      var h1 := EnsurePartition(h, c);
      ObserveCounters(h1, c);
      SetWatchersCore(h1, c, Observe(h1.partitions[c]));
    }
  }

  lemma EndWatchersCore(h: Hub, c: string, reason: Reason)
    requires Core(h)
    ensures Core(EndWatchers(h, c, reason))
  {
    EndWatchersCounters(h, c, reason);
    if c in h.partitions { SetWatchersRoutes(h, c, EndEach(h.partitions[c].watchers, reason)); }
  }

  // ---------------------------------------------------------------------------
  // Closing the hub
  // ---------------------------------------------------------------------------

  lemma FinishOneRoutes(h: Hub, place: (string, Key))
    ensures RoutesOf(FinishOne(h, place)) == FinishNext(RoutesOf(h), place)
    ensures FinishOne(h, place).limits == h.limits && FinishOne(h, place).closed == h.closed
  {
    var c, k := place.0, place.1;
    if Open(h, c, k) {
      CloseCallRoutes(h, c, k, HubWasClosed);
      RemoveReleasedRoutes(CloseCall(h, c, k, HubWasClosed), h.partitions[c].pending[k].binding);
    }
  }

  lemma {:induction false} FinishAllRoutes(h: Hub, order: seq<(string, Key)>, n: nat)
    requires n <= |order|
    ensures RoutesOf(FinishAll(h, order, n)) == FinishRoutes(RoutesOf(h), order, n)
    ensures FinishAll(h, order, n).limits == h.limits && FinishAll(h, order, n).closed == h.closed
  {
    if n > 0 {
      FinishAllRoutes(h, order, n - 1);
      FinishOneRoutes(FinishAll(h, order, n - 1), order[n - 1]);
    }
  }

  lemma FinishOneCore(h: Hub, place: (string, Key))
    requires Core(h)
    ensures Core(FinishOne(h, place))
  {
    if Open(h, place.0, place.1) { FinishCallCore(h, place.0, place.1, HubWasClosed); }
  }

  lemma {:induction false} FinishAllCore(h: Hub, order: seq<(string, Key)>, n: nat)
    requires Core(h) && n <= |order|
    ensures Core(FinishAll(h, order, n))
  {
    if n > 0 {
      FinishAllCore(h, order, n - 1);
      FinishOneCore(FinishAll(h, order, n - 1), order[n - 1]);
    }
  }

  lemma {:induction false} RemoveAllRoutes(h: Hub, n: nat)
    ensures RoutesOf(RemoveAll(h, n)) == RemoveRoutes(RoutesOf(h), n)
    ensures RemoveAll(h, n).limits == h.limits && RemoveAll(h, n).closed == h.closed
  {
    if n > 0 {
      RemoveAllRoutes(h, n - 1);
      RemoveOneRoutes(RemoveAll(h, n - 1), n - 1, RemoveAll(h, n));
    }
  }

  lemma RemoveOneRoutes(h: Hub, b: nat, h1: Hub)
    requires h1 == RemoveReleased(h, b)
    ensures RoutesOf(h1) == RemoveRoute(RoutesOf(h), b) && h1.limits == h.limits && h1.closed == h.closed
  {
    RemoveReleasedRoutes(h, b);
  }

  lemma ReboundTrans(a: map<string, Partition>, b: map<string, Partition>, c: map<string, Partition>)
    requires Rebound(a, b) && Rebound(b, c)
    ensures Rebound(a, c)
  {
  }

  lemma {:induction false} RemoveAllRebinds(h: Hub, n: nat, h1: Hub)
    requires h1 == RemoveAll(h, n)
    ensures Rebound(h.partitions, h1.partitions) && h1.limits == h.limits && h1.total == h.total
    decreases n
  {
    if n > 0 {
      var h0 := RemoveAll(h, n - 1);
      RemoveAllRebinds(h, n - 1, h0);
      RemoveRebinds(h0, n - 1, h1);
      ReboundTrans(h.partitions, h0.partitions, h1.partitions);
    }
  }

  lemma {:induction false} RemoveAllCounters(h: Hub, n: nat, h1: Hub)
    requires CountersInv(h) && h1 == RemoveAll(h, n)
    ensures CountersInv(h1)
  {
    RemoveAllRebinds(h, n, h1);
    ReboundCounters(h, h1);
  }

  predicate AllEnded(p: Partition) {
    forall i | 0 <= i < |p.watchers| :: p.watchers[i].stop.Ended?
  }

  /** The first `n` listed clients have no live observer left. */
  predicate EndedUpTo(h: Hub, clients: seq<string>, n: nat)
    requires n <= |clients|
  {
    forall j | 0 <= j < n :: clients[j] in h.partitions ==> AllEnded(h.partitions[clients[j]])
  }

  lemma {:induction false} EndAllCore(h: Hub, clients: seq<string>, n: nat)
    requires Core(h) && n <= |clients|
    ensures Core(EndAll(h, clients, n)) && RoutesOf(EndAll(h, clients, n)) == RoutesOf(h)
    ensures EndAll(h, clients, n).limits == h.limits && EndAll(h, clients, n).closed == h.closed
  {
    if n > 0 {
      EndAllCore(h, clients, n - 1);
      var h1, c := EndAll(h, clients, n - 1), clients[n - 1];
      EndWatchersCore(h1, c, HubClosed);
      if c in h1.partitions { SetWatchersRoutes(h1, c, EndEach(h1.partitions[c].watchers, HubClosed)); }
    }
  }

  lemma {:induction false} EndAllEnds(h: Hub, clients: seq<string>, n: nat, h1: Hub)
    requires n <= |clients| && h1 == EndAll(h, clients, n)
    ensures h1.partitions.Keys == h.partitions.Keys && EndedUpTo(h1, clients, n)
    decreases n
  {
    if n > 0 {
      var h0 := EndAll(h, clients, n - 1);
      EndAllEnds(h, clients, n - 1, h0);
      EndsOne(h0, clients, n - 1, h1);
    }
  }

  lemma EndsOne(h: Hub, clients: seq<string>, n: nat, h1: Hub)
    requires n < |clients| && EndedUpTo(h, clients, n) && h1 == EndWatchers(h, clients[n], HubClosed)
    ensures h1.partitions.Keys == h.partitions.Keys && EndedUpTo(h1, clients, n + 1)
  {
    assert clients[n] in h1.partitions ==> AllEnded(h1.partitions[clients[n]]);
    forall j | 0 <= j < n ensures clients[j] in h1.partitions ==> AllEnded(h1.partitions[clients[j]]) {
      if clients[j] != clients[n] { assert clients[j] in h.partitions ==> AllEnded(h.partitions[clients[j]]); }
    }
  }

  /** A closed hub holds no lease, no pending call and no live observer. */
  ghost predicate Shutdown(h: Hub) {
    h.runs == map[] && Drained(RoutesOf(h)) && forall c | c in h.partitions :: AllEnded(h.partitions[c])
  }

  lemma NoPlaces(t: Routes)
    requires Places(t.pend) == {}
    ensures Drained(t)
  {
    forall c | c in t.pend ensures t.pend[c] == map[] {
      assert forall k | k in t.pend[c] :: (c, k) in Places(t.pend);
      assert t.pend[c].Keys == {};
    }
  }

  lemma {:induction false} ListsCover(h: Hub, order: seq<(string, Key)>, clients: seq<string>)
    requires Lists(h, order, clients)
    ensures Places(PendOf(h.partitions)) <= Listed(order, |order|)
  {
    forall place | place in Places(PendOf(h.partitions)) ensures place in Listed(order, |order|) {
      assert place in order;
      var i :| 0 <= i < |order| && order[i] == place;
      ListedHas(order, |order|, i);
    }
  }

  /** Failing every listed call leaves nothing pending and nothing accepting. */
  lemma {:induction false} FinishAllDrains(h: Hub, order: seq<(string, Key)>, clients: seq<string>)
    requires Core(h) && Lists(h, order, clients) && AllStopped(RoutesOf(h))
    ensures var t := RoutesOf(FinishAll(h, order, |order|)); Drained(t) && AllStopped(t)
  {
    var t := RoutesOf(h);
    FinishAllRoutes(h, order, |order|);
    FinishRoutesClear(t, order);
    FinishRoutesStopped(t, order, |order|);
    ListsCover(h, order, clients);
    NoPlaces(FinishRoutes(t, order, |order|));
  }

  /** Releasing every stopped, drained binding leaves no lease. */
  lemma {:induction false} RemoveAllReleases(h: Hub)
    requires RoutesInv(RoutesOf(h)) && Drained(RoutesOf(h)) && AllStopped(RoutesOf(h))
    ensures var t := RoutesOf(RemoveAll(h, |h.bindings|));
            RoutesInv(t) && t.runs == map[] && NoIdle(t) && Drained(t)
  {
    var t, n := RoutesOf(h), |h.bindings|;
    RemoveAllRoutes(h, n);
    RemoveRoutesKeeps(t, n);
    NoLeasesLeft(RemoveRoutes(t, n));
  }

  lemma {:induction false} EndAllShutdown(h: Hub, clients: seq<string>)
    requires Core(h) && h.runs == map[] && Drained(RoutesOf(h)) && forall c | c in h.partitions :: c in clients
    ensures Shutdown(EndAll(h, clients, |clients|))
  {
    var h1 := EndAll(h, clients, |clients|);
    EndAllCore(h, clients, |clients|);
    EndAllEnds(h, clients, |clients|, h1);
    forall c | c in h1.partitions ensures AllEnded(h1.partitions[c]) {
      var j :| 0 <= j < |clients| && clients[j] == c;
    }
  }

  /** What every step keeps. */
  ghost predicate Inv(h: Hub) {
    && Core(h) && NoIdle(RoutesOf(h)) && LeaseBounds(RoutesOf(h), h.limits.runs, h.limits.runsPerClient)
    && (h.closed ==> Shutdown(h))
  }

  lemma ShutCore(h: Hub)
    requires Core(h)
    ensures Core(Shut(h)) && AllStopped(RoutesOf(Shut(h)))
  {
    StopCore(h, StopEach(h.bindings));
  }

  predicate Covers(keys: set<string>, clients: seq<string>) {
    forall c | c in keys :: c in clients
  }

  /** Close after its calls failed: nothing pending, nothing accepting. */
  ghost predicate Failed(h: Hub, clients: seq<string>) {
    && h.closed && Covers(RoutesOf(h).pend.Keys, clients) && Drained(RoutesOf(h)) && AllStopped(RoutesOf(h))
    && LeaseBounds(RoutesOf(h), h.limits.runs, h.limits.runsPerClient)
  }

  /** Close after its bindings were released: no lease is left either. */
  ghost predicate Unleased(h: Hub, clients: seq<string>) {
    && h.closed && Covers(RoutesOf(h).pend.Keys, clients) && Drained(RoutesOf(h)) && h.runs == map[]
    && NoIdle(RoutesOf(h)) && LeaseBounds(RoutesOf(h), h.limits.runs, h.limits.runsPerClient)
  }

  lemma {:induction false} CloseFails(h: Hub, order: seq<(string, Key)>, clients: seq<string>, h1: Hub)
    requires Inv(h) && Lists(h, order, clients) && h1 == FinishAll(Shut(h), order, |order|)
    ensures Core(h1) && Failed(h1, clients)
  {
    var h0 := Shut(h);
    ShutCore(h);
    FinishAllCore(h0, order, |order|);
    FinishAllDrains(h0, order, clients);
    FinishAllRoutes(h0, order, |order|);
    FinishRoutesKeys(RoutesOf(h0), order, |order|);
    FinishRoutesBounds(RoutesOf(h0), order, |order|, h.limits.runs, h.limits.runsPerClient);
  }

  lemma {:induction false} CloseReleases(h: Hub, clients: seq<string>, h1: Hub)
    requires RoutesInv(RoutesOf(h)) && Failed(h, clients) && h1 == RemoveAll(h, |h.bindings|)
    ensures RoutesInv(RoutesOf(h1)) && Unleased(h1, clients)
  {
    var n := |h.bindings|;
    RemoveAllRoutes(h, n);
    RemoveAllReleases(h);
    RemoveRoutesKeeps(RoutesOf(h), n);
    RemoveRoutesBounds(RoutesOf(h), n, h.limits.runs, h.limits.runsPerClient);
  }

  lemma {:induction false} CloseEnds(h: Hub, clients: seq<string>, h1: Hub)
    requires Core(h) && Unleased(h, clients) && h1 == EndAll(h, clients, |clients|)
    ensures Inv(h1) && h1.closed
  {
    EndAllCore(h, clients, |clients|);
    EndAllShutdown(h, clients);
  }

  lemma CloseKeeps(h: Hub, order: seq<(string, Key)>, clients: seq<string>)
    requires Inv(h) && !h.closed && Lists(h, order, clients)
    ensures Inv(Close(h, order, clients)) && Close(h, order, clients).closed
  {
    var h1 := FinishAll(Shut(h), order, |order|);
    var h2 := RemoveAll(h1, |h1.bindings|);
    CloseFails(h, order, clients, h1);
    CloseReleases(h1, clients, h2);
    RemoveAllCounters(h1, |h1.bindings|, h2);
    CloseEnds(h2, clients, Close(h, order, clients));
  }

  // ---------------------------------------------------------------------------
  // Every other step
  // ---------------------------------------------------------------------------

  /** A closed hub has no pending call left to finish. */
  lemma OpenMeansOpen(h: Hub, c: string, k: Key)
    requires Inv(h) && Open(h, c, k)
    ensures !h.closed
  {
    var pending := RoutesOf(h).pend[c];
    assert h.closed ==> pending == map[];
  }

  lemma FinishCallKeeps(h: Hub, c: string, k: Key, result: Result)
    requires Inv(h) && Open(h, c, k)
    ensures Inv(FinishCall(h, c, k, result))
  {
    OpenMeansOpen(h, c, k);
    FinishCallCore(h, c, k, result);
    FinishCallRoutes(h, c, k, result);
    FinishRouteKeeps(RoutesOf(h), c, k, result);
    FinishBounds(RoutesOf(h), c, k, result, h.limits.runs, h.limits.runsPerClient);
  }

  lemma FinishCallRoutes(h: Hub, c: string, k: Key, result: Result)
    requires Open(h, c, k)
    ensures RoutesOf(FinishCall(h, c, k, result)) == FinishRoute(RoutesOf(h), c, k, result)
    ensures FinishCall(h, c, k, result).limits == h.limits && FinishCall(h, c, k, result).closed == h.closed
  {
    CloseCallRoutes(h, c, k, result);
    RemoveReleasedRoutes(CloseCall(h, c, k, result), h.partitions[c].pending[k].binding);
  }

  lemma AddClientRest(t: Routes, c: string, runs: int, perClient: int)
    requires NoIdle(t) && LeaseBounds(t, runs, perClient) && perClient >= 0
    ensures NoIdle(AddClient(t, c)) && LeaseBounds(AddClient(t, c), runs, perClient)
  {
  }

  lemma EnsurePartitionKeeps(h: Hub, c: string, h1: Hub)
    requires Inv(h) && !h.closed && WithinClient(h.limits, ZERO) && h.limits.runsPerClient >= 0
    requires h1 == EnsurePartition(h, c)
    ensures Inv(h1) && !h1.closed && h1.limits == h.limits
  {
    EnsurePartitionCore(h, c);
    EnsurePartitionRoutes(h, c);
    AddClientRest(RoutesOf(h), c, h.limits.runs, h.limits.runsPerClient);
  }

  lemma LendRest(t: Routes, c: string, run: string, runs: int, perClient: int)
    requires NoIdle(t) && LeaseBounds(t, runs, perClient)
    requires c in t.bound && run !in t.runs && |t.runs| < runs && t.bound[c] < perClient
    ensures NoIdle(LendRoute(t, c, run)) && LeaseBounds(LendRoute(t, c, run), runs, perClient)
  {
    LendBounds(t, c, run, runs, perClient);
  }

  lemma LendInv(h: Hub, c: string, run: string, h1: Hub)
    requires Inv(h) && !h.closed && c in h.partitions && run !in h.runs && h1 == Lend(h, c, run)
    requires |h.runs| < h.limits.runs && h.partitions[c].boundRuns < h.limits.runsPerClient
    ensures Inv(h1)
  {
    LendCore(h, c, run);
    LendRoutes(h, c, run);
    LendRest(RoutesOf(h), c, run, h.limits.runs, h.limits.runsPerClient);
  }

  lemma LimitsUsable(l: Limits)
    requires ValidLimits(l)
    ensures WithinClient(l, ZERO) && l.runsPerClient >= 1 && l.queueEntries >= 1 && l.queueBytes >= 1
  {
  }

  lemma BindRunKeeps(h: Hub, c: string, run: string)
    requires Inv(h) && WithinClient(h.limits, ZERO) && h.limits.runsPerClient >= 1
    ensures Inv(BindRun(h, c, run))
  {
    if BindOutcomeOf(h, c, run).Bound? {
      var h1 := EnsurePartition(h, c);
      EnsurePartitionKeeps(h, c, h1);
      LendInv(h1, c, run, BindRun(h, c, run));
    }
  }

  lemma RequestKeeps(h: Hub, v: Pending)
    requires Inv(h)
    ensures Inv(Request(h, v))
  {
    RequestCore(h, v);
    if RequestOutcomeOf(h, v).Accepted? {
      OpenCallRoutes(h, v, h.runs[v.run]);
      OpenBusy(RoutesOf(h), v, h.runs[v.run]);
    }
  }

  lemma OpenBusy(t: Routes, v: Pending, lease: Lease)
    requires BindingsInv(t) && NoIdle(t) && lease.client in t.pend && lease.binding < |t.bindings|
    ensures NoIdle(OpenRoute(t, v, lease))
  {
    assert BindingOk(t, lease.binding);
  }

  lemma ReleaseRoutes(h: Hub, b: nat)
    ensures RoutesOf(Release(h, b)) == RemoveRoute(StopRoute(RoutesOf(h), b), b)
  {
    RemoveReleasedRoutes(StopAccepting(h, b), b);
  }

  lemma ReleaseRouteRest(t: Routes, b: nat, runs: int, perClient: int)
    requires RoutesInv(t) && NoIdle(t) && LeaseBounds(t, runs, perClient)
    ensures NoIdle(RemoveRoute(StopRoute(t, b), b)) && LeaseBounds(RemoveRoute(StopRoute(t, b), b), runs, perClient)
  {
    RemoveBounds(StopRoute(t, b), b, runs, perClient);
    if b < |t.bindings| {
      StoppedKeeps(t, StopRoute(t, b).bindings);
      assert forall i | 0 <= i < |t.bindings| && i != b :: Busy(t.bindings[i]);
      RemoveBusy(StopRoute(t, b), b);
    }
  }

  lemma ReleaseKeeps(h: Hub, b: nat)
    requires Inv(h)
    ensures Inv(Release(h, b))
  {
    ReleaseCore(h, b);
    ReleaseRoutes(h, b);
    ReleaseRouteRest(RoutesOf(h), b, h.limits.runs, h.limits.runsPerClient);
    if h.closed { ReleaseClosed(h, b); }
  }

  lemma ReleaseClosed(h: Hub, b: nat)
    requires h.runs == map[]
    ensures Release(h, b).partitions == h.partitions && Release(h, b).runs == h.runs
  {
  }

  lemma CompletionKeeps(h: Hub, id: nat)
    requires Inv(h)
    ensures Inv(CloseDone(h, id)) && Inv(Return(h, id))
  {
    CloseDoneCore(h, id);
    ReturnCore(h, id);
  }

  lemma SubscribeKeeps(h: Hub, c: string)
    requires Inv(h) && WithinClient(h.limits, ZERO) && h.limits.runsPerClient >= 1
    requires h.limits.queueEntries >= 1 && h.limits.queueBytes >= 1
    ensures Inv(Subscribe(h, c))
  {
    if !h.closed {
      var h1 := EnsurePartition(h, c);
      EnsurePartitionKeeps(h, c, h1);
      SubscribeCore(h, c);
      if SubscribeOutcomeOf(h, c).Subscribed? { SetWatchersRoutes(h1, c, Observe(h1.partitions[c])); }
    }
  }

  /** Replacing watchers by ones that were not revived keeps a closed hub shut down. */
  lemma SetWatchersKeeps(h: Hub, c: string, ws: seq<Watcher>, h1: Hub)
    requires Inv(h) && c in h.partitions && h1 == SetWatchers(h, c, ws) && CountersInv(h1)
    requires |ws| == |h.partitions[c].watchers|
    requires forall i | 0 <= i < |ws| :: ws[i].stop.Live? ==> h.partitions[c].watchers[i].stop.Live?
    ensures Inv(h1)
  {
    SetWatchersCore(h, c, ws);
    SetWatchersRoutes(h, c, ws);
    if h.closed { SetWatchersShut(h, c, ws); }
  }

  lemma SetWatchersShut(h: Hub, c: string, ws: seq<Watcher>)
    requires c in h.partitions && Shutdown(h) && |ws| == |h.partitions[c].watchers|
    requires forall i | 0 <= i < |ws| :: ws[i].stop.Live? ==> h.partitions[c].watchers[i].stop.Live?
    ensures forall x | x in SetWatchers(h, c, ws).partitions :: AllEnded(SetWatchers(h, c, ws).partitions[x])
  {
    assert AllEnded(h.partitions[c]);
  }

  lemma OneWatcherKeeps(h: Hub, c: string, i: nat, w: Watcher, h1: Hub)
    requires Inv(h) && c in h.partitions && i < |h.partitions[c].watchers|
    requires w.stop.Live? ==> h.partitions[c].watchers[i].stop.Live?
    requires h1 == SetWatchers(h, c, h.partitions[c].watchers[i := w]) && CountersInv(h1)
    ensures Inv(h1)
  {
    SetWatchersKeeps(h, c, h.partitions[c].watchers[i := w], h1);
  }

  lemma AdvanceStop(w: Watcher, m: Move)
    ensures Advance(w, m).stop == w.stop
  {
  }

  lemma DeliverKeeps(h: Hub, c: string, i: nat, m: Move)
    requires Inv(h)
    ensures Inv(Deliver(h, c, i, m))
  {
    if c in h.partitions && i < |h.partitions[c].watchers| {
      var w := h.partitions[c].watchers[i];
      DeliverCounters(h, c, i, m);
      AdvanceStop(w, m);
      OneWatcherKeeps(h, c, i, Advance(w, m), Deliver(h, c, i, m));
    }
  }

  lemma DetachKeeps(h: Hub, c: string, i: nat)
    requires Inv(h)
    ensures Inv(Detach(h, c, i))
  {
    if c in h.partitions && i < |h.partitions[c].watchers| {
      DetachCounters(h, c, i);
      OneWatcherKeeps(h, c, i, Finish(h.partitions[c].watchers[i], Cancelled), Detach(h, c, i));
    }
  }

  lemma FenceKeeps(h: Hub, c: string)
    requires Inv(h)
    ensures Inv(FenceObservers(h, c))
  {
    if !h.closed && c in h.partitions {
      EndWatchersCounters(h, c, Fenced);
      SetWatchersKeeps(h, c, EndEach(h.partitions[c].watchers, Fenced), FenceObservers(h, c));
    }
  }

  lemma RespondKeeps(h: Hub, c: string, k: Key, response: string)
    requires Inv(h)
    ensures Inv(Respond(h, c, k, response))
  {
    if RespondOutcomeOf(h, c, k).Responded? { FinishCallKeeps(h, c, k, Answered(response)); }
  }

  lemma CancelKeeps(h: Hub, id: nat)
    requires Inv(h)
    ensures Inv(Cancel(h, id))
  {
    if StillPending(h, id) { FinishCallKeeps(h, h.calls[id].client, KeyOf(h.calls[id].value), ContextEnded); }
  }

  /** The later steps, written out. */
  lemma CallStepIs(h: Hub, s: Step)
    ensures s.DoRespond? ==> CallStep(h, s) == Respond(h, s.client, s.key, s.response)
    ensures s.DoCancel? ==> CallStep(h, s) == Cancel(h, s.call)
    ensures s.DoRelease? ==> CallStep(h, s) == Release(h, s.binding)
    ensures s.DoCloseDone? ==> CallStep(h, s) == CloseDone(h, s.call)
    ensures s.DoReturn? ==> CallStep(h, s) == Return(h, s.call)
  {
  }

  lemma ObserverStepIs(h: Hub, s: Step)
    ensures s.DoDeliver? ==> ObserverStep(h, s) == Deliver(h, s.client, s.watcher, s.move)
    ensures s.DoDetach? ==> ObserverStep(h, s) == Detach(h, s.client, s.watcher)
    ensures s.DoFence? ==> ObserverStep(h, s) == FenceObservers(h, s.client)
  {
  }

  lemma CallStepKeeps(h: Hub, s: Step)
    requires Inv(h) && ValidLimits(h.limits)
    ensures Inv(CallStep(h, s))
  {
    CallStepIs(h, s);
    LimitsUsable(h.limits);
    match s
    case DoBindRun(c, run) => BindRunKeeps(h, c, run);
    case DoRequest(v) => RequestKeeps(h, v);
    case DoRespond(c, k, response) => RespondKeeps(h, c, k, response);
    case DoCancel(id) => CancelKeeps(h, id);
    case DoRelease(b) => ReleaseKeeps(h, b);
    case DoCloseDone(id) => CompletionKeeps(h, id);
    case DoReturn(id) => CompletionKeeps(h, id);
    case _ =>
  }

  lemma ObserverStepKeeps(h: Hub, s: Step)
    requires Inv(h) && ValidLimits(h.limits)
    ensures Inv(ObserverStep(h, s))
  {
    ObserverStepIs(h, s);
    LimitsUsable(h.limits);
    match s
    case DoSubscribe(c) => SubscribeKeeps(h, c);
    case DoDeliver(c, i, m) => DeliverKeeps(h, c, i, m);
    case DoDetach(c, i) => DetachKeeps(h, c, i);
    case DoFence(c) => FenceKeeps(h, c);
    case _ =>
  }

  lemma CloseStepKeeps(h: Hub, order: seq<(string, Key)>, clients: seq<string>)
    requires Inv(h) && ValidLimits(h.limits)
    ensures Inv(Close(h, order, clients))
  {
    LimitsUsable(h.limits);
    if !h.closed && Lists(h, order, clients) { CloseKeeps(h, order, clients); }
  }

  /** Every step of the hub keeps its invariant. */
  lemma ApplyKeeps(h: Hub, s: Step)
    requires Inv(h) && ValidLimits(h.limits)
    ensures Inv(Apply(h, s))
  {
    if s.DoClose? {
      CloseStepKeeps(h, s.order, s.clients);
    } else if OfObservers(s) {
      ObserverStepKeeps(h, s);
    } else {
      CallStepKeeps(h, s);
    }
  }

  lemma NewHubInv(l: Limits)
    requires ValidLimits(l)
    ensures Inv(NewHub(l))
  {
    var none: map<string, Partition> := map[];
    assert Sum(none, OwnOf) == ZERO;
    assert RunsOf(map[], "") == {};
  }

  lemma {:induction false} EndAllConstants(h: Hub, clients: seq<string>, n: nat)
    requires n <= |clients|
    ensures EndAll(h, clients, n).limits == h.limits && EndAll(h, clients, n).closed == h.closed
  {
    if n > 0 { EndAllConstants(h, clients, n - 1); }
  }

  /** Closing closes, and keeps the limits. */
  lemma CloseCloses(h: Hub, order: seq<(string, Key)>, clients: seq<string>)
    requires !h.closed && Lists(h, order, clients)
    ensures Close(h, order, clients).closed && Close(h, order, clients).limits == h.limits
  {
    var h1 := FinishAll(Shut(h), order, |order|);
    FinishAllRoutes(Shut(h), order, |order|);
    RemoveAllRoutes(h1, |h1.bindings|);
    EndAllConstants(RemoveAll(h1, |h1.bindings|), clients, |clients|);
  }

  lemma CloseLimits(h: Hub, order: seq<(string, Key)>, clients: seq<string>)
    ensures Close(h, order, clients).limits == h.limits
  {
    if !h.closed && Lists(h, order, clients) { CloseCloses(h, order, clients); }
  }

  lemma CallLimits(h: Hub, s: Step)
    ensures CallStep(h, s).limits == h.limits
  {
  }

  lemma ObserverLimits(h: Hub, s: Step)
    ensures ObserverStep(h, s).limits == h.limits
  {
  }

  lemma LimitsStay(h: Hub, s: Step)
    ensures Apply(h, s).limits == h.limits
  {
    if s.DoClose? {
      CloseLimits(h, s.order, s.clients);
    } else if OfObservers(s) {
      ObserverLimits(h, s);
    } else {
      CallLimits(h, s);
    }
  }

  /** Every run keeps the invariant. */
  lemma {:induction false} ExecKeeps(l: Limits, steps: seq<Step>)
    requires ValidLimits(l)
    ensures Inv(Exec(NewHub(l), steps)) && Exec(NewHub(l), steps).limits == l
  {
    if steps == [] {
      NewHubInv(l);
    } else {
      var before := steps[..|steps| - 1];
      ExecKeeps(l, before);
      ApplyKeeps(Exec(NewHub(l), before), steps[|steps| - 1]);
      LimitsStay(Exec(NewHub(l), before), steps[|steps| - 1]);
    }
  }
}
