/** Which call is pending where, under which run lease: the hub's state without its feeds. */
module PendingRouting {
  import opened Basics
  import opened PendingFeed
  import opened PendingPartition
  import opened PendingHub

  type Pend = map<string, map<Key, Entry>>

  datatype Routes = Routes(pend: Pend, bound: map<string, int>, runs: map<string, Lease>, bindings: seq<Binding>,
                           calls: seq<Call>, closers: multiset<nat>)

  function PendOf(ps: map<string, Partition>): (r: Pend) {
    map c | c in ps :: ps[c].pending
  }

  function BoundOf(ps: map<string, Partition>): (r: map<string, int>) {
    map c | c in ps :: ps[c].boundRuns
  }

  function RoutesOf(h: Hub): (t: Routes) {
    Routes(PendOf(h.partitions), BoundOf(h.partitions), h.runs, h.bindings, h.calls, h.closers)
  }

  lemma PlaceUpdate(ps: map<string, Partition>, c: string, p: Partition)
    ensures PendOf(ps[c := p]) == PendOf(ps)[c := p.pending]
    ensures BoundOf(ps[c := p]) == BoundOf(ps)[c := p.boundRuns]
    ensures c in ps && p.pending == ps[c].pending ==> PendOf(ps[c := p]) == PendOf(ps)
    ensures c in ps && p.boundRuns == ps[c].boundRuns ==> BoundOf(ps[c := p]) == BoundOf(ps)
  {
  }

  // ---------------------------------------------------------------------------
  // The invariant
  // ---------------------------------------------------------------------------

  /** A pending entry belongs to an unfinished call of its client, under the run's current lease. */
  predicate EntryOk(t: Routes, c: string, k: Key)
    requires c in t.pend && k in t.pend[c]
  {
    var e := t.pend[c][k];
    && KeyOf(e.value) == k && e.call < |t.calls| && e.binding < |t.bindings|
    && t.calls[e.call].value == e.value && t.calls[e.call].client == c && t.calls[e.call].binding == e.binding
    && t.calls[e.call].result.None?
    && k.run in t.runs && t.runs[k.run] == Lease(e.binding, c)
  }

  /** An unfinished call is pending; a finished one is closed once, by its finisher; and what its
      requester returned is the recorded result. */
  predicate CallOk(t: Routes, id: nat)
    requires id < |t.calls|
  {
    var x := t.calls[id];
    && x.client in t.pend
    && x.closes + t.closers[id] == (if x.result.None? then 0 else 1)
    && (x.result.None? ==> KeyOf(x.value) in t.pend[x.client] && t.pend[x.client][KeyOf(x.value)].call == id)
    && (x.returned.Some? ==> x.closes == 1 && x.returned == x.result)
  }

  /** The keys pending under one binding. */
  function PendingOf(m: map<Key, Entry>, b: nat): (r: set<Key>) {
    set k | k in m && m[k].binding == b
  }

  function RunsOf(runs: map<string, Lease>, c: string): (r: set<string>) {
    set run | run in runs && runs[run].client == c
  }

  predicate LeaseOk(t: Routes, run: string)
    requires run in t.runs
  {
    var b := t.runs[run].binding;
    b < |t.bindings| && t.bindings[b].run == run && t.bindings[b].client == t.runs[run].client && t.bindings[b].releases == 0
  }

  /** A binding counts its pending calls; it holds its run's lease until it is released, once, with
      admission stopped and nothing pending. */
  predicate BindingOk(t: Routes, b: nat)
    requires b < |t.bindings|
  {
    var x := t.bindings[b];
    && x.client in t.pend && x.releases <= 1
    && x.active == |PendingOf(t.pend[x.client], b)|
    && (x.releases == 0 ==> x.run in t.runs && t.runs[x.run] == Lease(b, x.client))
    && (x.releases == 1 ==> !x.accepting && x.active == 0)
  }

  predicate EntriesInv(t: Routes) {
    forall c, k | c in t.pend && k in t.pend[c] :: EntryOk(t, c, k)
  }

  predicate CallsInv(t: Routes) {
    forall id | 0 <= id < |t.calls| :: CallOk(t, id)
  }

  predicate LeasesInv(t: Routes) {
    forall run | run in t.runs :: LeaseOk(t, run)
  }

  predicate BindingsInv(t: Routes) {
    forall b | 0 <= b < |t.bindings| :: BindingOk(t, b)
  }

  /** Each client's bound-run counter is exact. */
  predicate BoundInv(t: Routes) {
    t.bound.Keys == t.pend.Keys && forall c | c in t.bound :: t.bound[c] == |RunsOf(t.runs, c)|
  }

  ghost predicate ClosersInv(t: Routes) {
    forall id | id in t.closers :: id < |t.calls|
  }

  ghost predicate RoutesInv(t: Routes) {
    EntriesInv(t) && CallsInv(t) && LeasesInv(t) && BindingsInv(t) && BoundInv(t) && ClosersInv(t)
  }

  // ---------------------------------------------------------------------------
  // The hub's steps, seen here
  // ---------------------------------------------------------------------------

  function AddClient(t: Routes, c: string): (r: Routes) {
    t.(pend := t.pend[c := map[]], bound := t.bound[c := 0])
  }

  function LendRoute(t: Routes, c: string, run: string): (r: Routes)
    requires c in t.bound
  {
    t.(bound := t.bound[c := t.bound[c] + 1], runs := t.runs[run := Lease(|t.bindings|, c)],
       bindings := t.bindings + [Binding(c, run, true, 0, 0)])
  }

  function OpenRoute(t: Routes, v: Pending, lease: Lease): (r: Routes)
    requires lease.client in t.pend && lease.binding < |t.bindings|
  {
    var b, c := lease.binding, lease.client;
    t.(pend := t.pend[c := t.pend[c][KeyOf(v) := Entry(|t.calls|, b, v)]],
       calls := t.calls + [Call(v, c, b, None, 0, None)],
       bindings := t.bindings[b := t.bindings[b].(active := t.bindings[b].active + 1)])
  }

  predicate OpenAt(t: Routes, c: string, k: Key) {
    c in t.pend && k in t.pend[c] && t.pend[c][k].call < |t.calls| && t.pend[c][k].binding < |t.bindings|
  }

  function CloseRoute(t: Routes, c: string, k: Key, result: Result): (r: Routes)
    requires OpenAt(t, c, k)
  {
    var e := t.pend[c][k];
    t.(pend := t.pend[c := t.pend[c] - {k}],
       calls := t.calls[e.call := t.calls[e.call].(result := Some(result))],
       bindings := t.bindings[e.binding := t.bindings[e.binding].(active := t.bindings[e.binding].active - 1)],
       closers := t.closers + multiset{e.call})
  }

  predicate RemovableAt(t: Routes, b: nat) {
    && b < |t.bindings| && !t.bindings[b].accepting && t.bindings[b].active == 0
    && t.bindings[b].run in t.runs && t.runs[t.bindings[b].run].binding == b
  }

  function RemoveRoute(t: Routes, b: nat): (r: Routes) {
    if !RemovableAt(t, b) then t else
      var x := t.bindings[b];
      t.(runs := t.runs - {x.run}, bindings := t.bindings[b := x.(releases := x.releases + 1)],
         bound := if x.client in t.bound then t.bound[x.client := t.bound[x.client] - 1] else t.bound)
  }

  function StopRoute(t: Routes, b: nat): (r: Routes) {
    if b < |t.bindings| then t.(bindings := t.bindings[b := t.bindings[b].(accepting := false)]) else t
  }

  // ---------------------------------------------------------------------------
  // Finishing a call
  // ---------------------------------------------------------------------------

  lemma CloseEntries(t: Routes, c: string, k: Key, result: Result)
    requires EntriesInv(t) && OpenAt(t, c, k)
    ensures EntriesInv(CloseRoute(t, c, k, result))
  {
    var t1 := CloseRoute(t, c, k, result);
    var e := t.pend[c][k];
    assert EntryOk(t, c, k);
    forall c1, k1 | c1 in t1.pend && k1 in t1.pend[c1] ensures EntryOk(t1, c1, k1) {
      assert EntryOk(t, c1, k1);
      assert t1.pend[c1][k1] == t.pend[c1][k1];
      assert c1 != c || k1 != k;
    }
  }

  lemma CloseCalls(t: Routes, c: string, k: Key, result: Result)
    requires EntriesInv(t) && CallsInv(t) && OpenAt(t, c, k)
    ensures CallsInv(CloseRoute(t, c, k, result))
  {
    var t1 := CloseRoute(t, c, k, result);
    var e := t.pend[c][k];
    assert EntryOk(t, c, k);
    forall id | 0 <= id < |t1.calls| ensures CallOk(t1, id) {
      assert CallOk(t, id);
      if id != e.call && t.calls[id].result.None? {
        var k1 := KeyOf(t.calls[id].value);
        assert t.calls[id].client != c || k1 != k;
      }
    }
  }

  lemma CloseBindings(t: Routes, c: string, k: Key, result: Result)
    requires EntriesInv(t) && BindingsInv(t) && LeasesInv(t) && OpenAt(t, c, k)
    ensures BindingsInv(CloseRoute(t, c, k, result)) && LeasesInv(CloseRoute(t, c, k, result))
  {
    var t1 := CloseRoute(t, c, k, result);
    var e := t.pend[c][k];
    assert EntryOk(t, c, k) && LeaseOk(t, k.run);
    forall b | 0 <= b < |t1.bindings| ensures BindingOk(t1, b) {
      assert BindingOk(t, b);
      if t.bindings[b].client == c { HeldLess(t.pend[c], k, b); }
    }
    forall run | run in t1.runs ensures LeaseOk(t1, run) {
      assert LeaseOk(t, run);
    }
  }

  lemma HeldLess(m: map<Key, Entry>, k: Key, b: nat)
    requires k in m
    ensures |PendingOf(m - {k}, b)| == |PendingOf(m, b)| - (if m[k].binding == b then 1 else 0)
  {
    if m[k].binding == b {
      assert PendingOf(m - {k}, b) == PendingOf(m, b) - {k};
    } else {
      assert PendingOf(m - {k}, b) == PendingOf(m, b);
    }
  }

  lemma CloseRouteKeeps(t: Routes, c: string, k: Key, result: Result)
    requires RoutesInv(t) && OpenAt(t, c, k)
    ensures RoutesInv(CloseRoute(t, c, k, result))
  {
    CloseEntries(t, c, k, result);
    CloseCalls(t, c, k, result);
    CloseBindings(t, c, k, result);
    assert CloseRoute(t, c, k, result).pend.Keys == t.pend.Keys;
  }

  // ---------------------------------------------------------------------------
  // Opening a call
  // ---------------------------------------------------------------------------

  /** The lease is the run's, its client is known and the key is free. */
  predicate Opens(t: Routes, v: Pending, lease: Lease) {
    v.run in t.runs && t.runs[v.run] == lease && lease.client in t.pend && KeyOf(v) !in t.pend[lease.client]
  }

  lemma OpenEntries(t: Routes, v: Pending, lease: Lease)
    requires EntriesInv(t) && LeasesInv(t) && Opens(t, v, lease) && lease.binding < |t.bindings|
    ensures EntriesInv(OpenRoute(t, v, lease))
  {
    var t1 := OpenRoute(t, v, lease);
    forall c, k | c in t1.pend && k in t1.pend[c] ensures EntryOk(t1, c, k) {
      if c != lease.client || k != KeyOf(v) {
        assert EntryOk(t, c, k);
        assert t1.pend[c][k] == t.pend[c][k];
      }
    }
  }

  lemma OpenCalls(t: Routes, v: Pending, lease: Lease)
    requires CallsInv(t) && ClosersInv(t) && Opens(t, v, lease) && lease.binding < |t.bindings|
    ensures CallsInv(OpenRoute(t, v, lease))
  {
    var t1 := OpenRoute(t, v, lease);
    forall id | 0 <= id < |t1.calls| ensures CallOk(t1, id) {
      if id < |t.calls| { assert CallOk(t, id); } else { assert id !in t.closers; }
    }
  }

  lemma OpenBindings(t: Routes, v: Pending, lease: Lease)
    requires BindingsInv(t) && LeasesInv(t) && Opens(t, v, lease)
    requires lease.binding < |t.bindings| && t.bindings[lease.binding].accepting
    ensures BindingsInv(OpenRoute(t, v, lease)) && LeasesInv(OpenRoute(t, v, lease))
  {
    var t1 := OpenRoute(t, v, lease);
    assert LeaseOk(t, v.run);
    var e := Entry(|t.calls|, lease.binding, v);
    forall b | 0 <= b < |t1.bindings| ensures BindingOk(t1, b) {
      assert BindingOk(t, b);
      if t.bindings[b].client == lease.client { HeldMore(t.pend[lease.client], KeyOf(v), e, b); }
    }
    forall run | run in t1.runs ensures LeaseOk(t1, run) {
      assert LeaseOk(t, run);
    }
  }

  lemma HeldMore(m: map<Key, Entry>, k: Key, e: Entry, b: nat)
    requires k !in m
    ensures |PendingOf(m[k := e], b)| == |PendingOf(m, b)| + (if e.binding == b then 1 else 0)
  {
    if e.binding == b {
      assert PendingOf(m[k := e], b) == PendingOf(m, b) + {k};
    } else {
      assert PendingOf(m[k := e], b) == PendingOf(m, b);
    }
  }

  lemma OpenRouteKeeps(t: Routes, v: Pending, lease: Lease)
    requires RoutesInv(t) && Opens(t, v, lease)
    requires lease.binding < |t.bindings| && t.bindings[lease.binding].accepting
    ensures RoutesInv(OpenRoute(t, v, lease))
  {
    OpenEntries(t, v, lease);
    OpenCalls(t, v, lease);
    OpenBindings(t, v, lease);
    assert OpenRoute(t, v, lease).pend.Keys == t.pend.Keys;
  }

  // ---------------------------------------------------------------------------
  // Leases
  // ---------------------------------------------------------------------------

  lemma RunsOfLess(runs: map<string, Lease>, run: string, c: string)
    requires run in runs
    ensures |RunsOf(runs - {run}, c)| == |RunsOf(runs, c)| - (if runs[run].client == c then 1 else 0)
  {
    if runs[run].client == c {
      assert RunsOf(runs - {run}, c) == RunsOf(runs, c) - {run};
    } else {
      assert RunsOf(runs - {run}, c) == RunsOf(runs, c);
    }
  }

  lemma RunsOfMore(runs: map<string, Lease>, run: string, lease: Lease, c: string)
    requires run !in runs
    ensures |RunsOf(runs[run := lease], c)| == |RunsOf(runs, c)| + (if lease.client == c then 1 else 0)
  {
    if lease.client == c {
      assert RunsOf(runs[run := lease], c) == RunsOf(runs, c) + {run};
    } else {
      assert RunsOf(runs[run := lease], c) == RunsOf(runs, c);
    }
  }

  lemma RemoveEntries(t: Routes, b: nat)
    requires EntriesInv(t) && BindingsInv(t) && LeasesInv(t) && RemovableAt(t, b)
    ensures EntriesInv(RemoveRoute(t, b))
  {
    var t1, x := RemoveRoute(t, b), t.bindings[b];
    assert BindingOk(t, b) && LeaseOk(t, x.run);
    var held := PendingOf(t.pend[x.client], b);
    assert held == {};
    forall c, k | c in t1.pend && k in t1.pend[c] ensures EntryOk(t1, c, k) {
      assert EntryOk(t, c, k);
      assert k.run == x.run ==> k in held;
    }
  }

  lemma RemoveBindings(t: Routes, b: nat)
    requires BindingsInv(t) && LeasesInv(t) && RemovableAt(t, b)
    ensures BindingsInv(RemoveRoute(t, b)) && LeasesInv(RemoveRoute(t, b))
  {
    var t1, x := RemoveRoute(t, b), t.bindings[b];
    assert BindingOk(t, b) && LeaseOk(t, x.run);
    forall b1 | 0 <= b1 < |t1.bindings| ensures BindingOk(t1, b1) {
      assert BindingOk(t, b1);
    }
    forall run | run in t1.runs ensures LeaseOk(t1, run) {
      assert LeaseOk(t, run);
    }
  }

  lemma RemoveBound(t: Routes, b: nat)
    requires BoundInv(t) && LeasesInv(t) && RemovableAt(t, b)
    ensures BoundInv(RemoveRoute(t, b))
  {
    var t1, x := RemoveRoute(t, b), t.bindings[b];
    assert LeaseOk(t, x.run);
    forall c | c in t1.bound ensures t1.bound[c] == |RunsOf(t1.runs, c)| {
      RunsOfLess(t.runs, x.run, c);
    }
  }

  lemma RemoveRouteKeeps(t: Routes, b: nat)
    requires RoutesInv(t)
    ensures RoutesInv(RemoveRoute(t, b))
  {
    if RemovableAt(t, b) {
      RemoveEntries(t, b);
      RemoveBindings(t, b);
      RemoveBound(t, b);
      RemoveCalls(t, b);
    }
  }

  lemma RemoveCalls(t: Routes, b: nat)
    requires CallsInv(t)
    ensures CallsInv(RemoveRoute(t, b))
  {
    var t1 := RemoveRoute(t, b);
    forall id | 0 <= id < |t1.calls| ensures CallOk(t1, id) {
      assert CallOk(t, id);
    }
  }

  lemma LendKeeps(t: Routes, c: string, run: string)
    requires RoutesInv(t) && c in t.pend && run !in t.runs
    ensures RoutesInv(LendRoute(t, c, run))
  {
    LendEntries(t, c, run);
    LendBindings(t, c, run);
    LendBound(t, c, run);
  }

  lemma LendEntries(t: Routes, c: string, run: string)
    requires EntriesInv(t) && CallsInv(t) && c in t.bound && run !in t.runs
    ensures EntriesInv(LendRoute(t, c, run)) && CallsInv(LendRoute(t, c, run))
  {
    var t1 := LendRoute(t, c, run);
    forall c1, k | c1 in t1.pend && k in t1.pend[c1] ensures EntryOk(t1, c1, k) {
      assert EntryOk(t, c1, k);
    }
    forall id | 0 <= id < |t1.calls| ensures CallOk(t1, id) {
      assert CallOk(t, id);
    }
  }

  lemma LendBindings(t: Routes, c: string, run: string)
    requires EntriesInv(t) && BindingsInv(t) && LeasesInv(t) && c in t.bound && c in t.pend && run !in t.runs
    ensures BindingsInv(LendRoute(t, c, run)) && LeasesInv(LendRoute(t, c, run))
  {
    var t1, n := LendRoute(t, c, run), |t.bindings|;
    assert PendingOf(t.pend[c], n) == {} by {
      assert forall k | k in t.pend[c] :: EntryOk(t, c, k);
    }
    forall b | 0 <= b < |t1.bindings| ensures BindingOk(t1, b) {
      if b < n { assert BindingOk(t, b); }
    }
    forall r | r in t1.runs ensures LeaseOk(t1, r) {
      if r != run { assert LeaseOk(t, r); }
    }
  }

  lemma LendBound(t: Routes, c: string, run: string)
    requires BoundInv(t) && c in t.bound && run !in t.runs
    ensures BoundInv(LendRoute(t, c, run))
  {
    var t1 := LendRoute(t, c, run);
    forall c1 | c1 in t1.bound ensures t1.bound[c1] == |RunsOf(t1.runs, c1)| {
      RunsOfMore(t.runs, run, Lease(|t.bindings|, c), c1);
    }
  }

  lemma AddClientKeeps(t: Routes, c: string)
    requires RoutesInv(t) && c !in t.pend
    ensures RoutesInv(AddClient(t, c))
  {
    AddClientEntries(t, c);
    AddClientBindings(t, c);
    AddClientBound(t, c);
  }

  lemma AddClientEntries(t: Routes, c: string)
    requires EntriesInv(t) && CallsInv(t) && c !in t.pend
    ensures EntriesInv(AddClient(t, c)) && CallsInv(AddClient(t, c))
  {
    var t1 := AddClient(t, c);
    forall c1, k | c1 in t1.pend && k in t1.pend[c1] ensures EntryOk(t1, c1, k) {
      assert EntryOk(t, c1, k);
    }
    forall id | 0 <= id < |t1.calls| ensures CallOk(t1, id) {
      assert CallOk(t, id);
    }
  }

  lemma AddClientBindings(t: Routes, c: string)
    requires BindingsInv(t) && LeasesInv(t) && c !in t.pend
    ensures BindingsInv(AddClient(t, c)) && LeasesInv(AddClient(t, c))
  {
    var t1 := AddClient(t, c);
    forall b | 0 <= b < |t1.bindings| ensures BindingOk(t1, b) {
      assert BindingOk(t, b);
    }
    forall r | r in t1.runs ensures LeaseOk(t1, r) {
      assert LeaseOk(t, r);
    }
  }

  lemma AddClientBound(t: Routes, c: string)
    requires BoundInv(t) && BindingsInv(t) && LeasesInv(t) && c !in t.pend
    ensures BoundInv(AddClient(t, c))
  {
    assert RunsOf(t.runs, c) == {} by {
      forall run | run in t.runs ensures t.runs[run].client != c {
        assert LeaseOk(t, run) && BindingOk(t, t.runs[run].binding);
      }
    }
  }

  // ---------------------------------------------------------------------------
  // Stopping admission, closing done channels, returning
  // ---------------------------------------------------------------------------

  /** Bindings that differ only in no longer accepting. */
  predicate OnlyStopped(a: seq<Binding>, b: seq<Binding>) {
    |a| == |b| && forall i | 0 <= i < |a| :: b[i] == a[i] || b[i] == a[i].(accepting := false)
  }

  lemma StoppedKeeps(t: Routes, bindings: seq<Binding>)
    requires RoutesInv(t) && OnlyStopped(t.bindings, bindings)
    ensures RoutesInv(t.(bindings := bindings))
  {
    StoppedEntries(t, bindings);
    StoppedBindings(t, bindings);
  }

  lemma StoppedEntries(t: Routes, bindings: seq<Binding>)
    requires EntriesInv(t) && CallsInv(t) && |bindings| == |t.bindings|
    ensures EntriesInv(t.(bindings := bindings)) && CallsInv(t.(bindings := bindings))
  {
    var t1 := t.(bindings := bindings);
    forall c1, k | c1 in t1.pend && k in t1.pend[c1] ensures EntryOk(t1, c1, k) {
      assert EntryOk(t, c1, k);
    }
    forall id | 0 <= id < |t1.calls| ensures CallOk(t1, id) {
      assert CallOk(t, id);
    }
  }

  lemma StoppedBindings(t: Routes, bindings: seq<Binding>)
    requires BindingsInv(t) && LeasesInv(t) && OnlyStopped(t.bindings, bindings)
    ensures BindingsInv(t.(bindings := bindings)) && LeasesInv(t.(bindings := bindings))
  {
    var t1 := t.(bindings := bindings);
    forall b | 0 <= b < |t1.bindings| ensures BindingOk(t1, b) {
      assert BindingOk(t, b);
    }
    forall r | r in t1.runs ensures LeaseOk(t1, r) {
      assert LeaseOk(t, r);
    }
  }

  /** Changing a call that is already finished, and who still has to close it. */
  lemma CallKeeps(t: Routes, id: nat, x: Call, closers: multiset<nat>)
    requires RoutesInv(t) && id < |t.calls| && t.calls[id].result.Some?
    requires x.client == t.calls[id].client && x.result == t.calls[id].result
    requires x.closes + closers[id] == 1 && (x.returned.Some? ==> x.closes == 1 && x.returned == x.result)
    requires forall i | i != id :: closers[i] == t.closers[i]
    ensures RoutesInv(t.(calls := t.calls[id := x], closers := closers))
  {
    var t1 := t.(calls := t.calls[id := x], closers := closers);
    CallEntries(t, id, x, closers);
    forall i | 0 <= i < |t1.calls| ensures CallOk(t1, i) {
      assert CallOk(t, i);
    }
    forall b | 0 <= b < |t1.bindings| ensures BindingOk(t1, b) {
      assert BindingOk(t, b);
    }
    forall r | r in t1.runs ensures LeaseOk(t1, r) {
      assert LeaseOk(t, r);
    }
  }

  lemma CloseDoneKeeps(t: Routes, id: nat)
    requires RoutesInv(t) && id in t.closers && id < |t.calls|
    ensures RoutesInv(t.(closers := t.closers - multiset{id},
                         calls := t.calls[id := t.calls[id].(closes := t.calls[id].closes + 1)]))
  {
    assert CallOk(t, id);
    CallKeeps(t, id, t.calls[id].(closes := t.calls[id].closes + 1), t.closers - multiset{id});
  }

  lemma CallEntries(t: Routes, id: nat, x: Call, closers: multiset<nat>)
    requires EntriesInv(t) && id < |t.calls| && t.calls[id].result.Some?
    ensures EntriesInv(t.(calls := t.calls[id := x], closers := closers))
  {
    var t1 := t.(calls := t.calls[id := x], closers := closers);
    forall c1, k | c1 in t1.pend && k in t1.pend[c1] ensures EntryOk(t1, c1, k) {
      assert EntryOk(t, c1, k);
    }
  }

  // ---------------------------------------------------------------------------
  // Idle bindings and bounds
  // ---------------------------------------------------------------------------

  predicate Busy(x: Binding) {
    x.releases == 0 ==> x.accepting || x.active > 0
  }

  /** Only a binding that accepts or still has pending calls keeps its lease. */
  predicate NoIdle(t: Routes) {
    forall b | 0 <= b < |t.bindings| :: Busy(t.bindings[b])
  }

  /** The run bounds: over the hub and for each client. */
  predicate LeaseBounds(t: Routes, runs: int, perClient: int) {
    |t.runs| <= runs && forall c | c in t.bound :: t.bound[c] <= perClient
  }

  lemma RemoveBusy(t: Routes, b: nat)
    requires RoutesInv(t) && b < |t.bindings|
    requires forall i | 0 <= i < |t.bindings| && i != b :: Busy(t.bindings[i])
    ensures NoIdle(RemoveRoute(t, b))
  {
    assert BindingOk(t, b);
  }

  lemma RemoveBounds(t: Routes, b: nat, runs: int, perClient: int)
    requires LeaseBounds(t, runs, perClient)
    ensures LeaseBounds(RemoveRoute(t, b), runs, perClient)
  {
    if RemovableAt(t, b) {
      assert (t.runs - {t.bindings[b].run}).Keys == t.runs.Keys - {t.bindings[b].run};
    }
  }

  function FinishRoute(t: Routes, c: string, k: Key, result: Result): (r: Routes)
    requires OpenAt(t, c, k)
  {
    RemoveRoute(CloseRoute(t, c, k, result), t.pend[c][k].binding)
  }

  lemma FinishRouteKeeps(t: Routes, c: string, k: Key, result: Result)
    requires RoutesInv(t) && OpenAt(t, c, k)
    ensures RoutesInv(FinishRoute(t, c, k, result))
    ensures NoIdle(t) ==> NoIdle(FinishRoute(t, c, k, result))
  {
    CloseRouteKeeps(t, c, k, result);
    var t1, b := CloseRoute(t, c, k, result), t.pend[c][k].binding;
    RemoveRouteKeeps(t1, b);
    if NoIdle(t) {
      assert forall i | 0 <= i < |t1.bindings| && i != b :: t1.bindings[i] == t.bindings[i] && Busy(t.bindings[i]);
      RemoveBusy(t1, b);
    }
  }

  lemma FinishBounds(t: Routes, c: string, k: Key, result: Result, runs: int, perClient: int)
    requires LeaseBounds(t, runs, perClient) && OpenAt(t, c, k)
    ensures LeaseBounds(FinishRoute(t, c, k, result), runs, perClient)
  {
    RemoveBounds(CloseRoute(t, c, k, result), t.pend[c][k].binding, runs, perClient);
  }

  lemma LendBounds(t: Routes, c: string, run: string, runs: int, perClient: int)
    requires LeaseBounds(t, runs, perClient) && c in t.bound && run !in t.runs && |t.runs| < runs && t.bound[c] < perClient
    ensures LeaseBounds(LendRoute(t, c, run), runs, perClient)
  {
    OneMore(t.runs, run, Lease(|t.bindings|, c));
  }

  lemma OneMore<K, V>(m: map<K, V>, k: K, v: V)
    requires k !in m
    ensures |m[k := v]| == |m| + 1
  {
    assert m[k := v].Keys == m.Keys + {k};
  }

  // ---------------------------------------------------------------------------
  // Closing everything
  // ---------------------------------------------------------------------------

  function FinishRoutes(t: Routes, order: seq<(string, Key)>, n: nat): (r: Routes)
    requires n <= |order|
  {
    if n == 0 then t else
      FinishNext(FinishRoutes(t, order, n - 1), order[n - 1])
  }

  function RemoveRoutes(t: Routes, n: nat): (r: Routes) {
    if n == 0 then t else RemoveRoute(RemoveRoutes(t, n - 1), n - 1)
  }

  predicate AllStopped(t: Routes) {
    forall b | 0 <= b < |t.bindings| :: !t.bindings[b].accepting
  }

  /** Every pending call, by client and key. */
  function Places(pend: Pend): (r: set<(string, Key)>) {
    set c, k | c in pend && k in pend[c] :: (c, k)
  }

  /** The first `n` listed places. */
  function Listed(order: seq<(string, Key)>, n: nat): (r: set<(string, Key)>)
    requires n <= |order|
  {
    if n == 0 then {} else Listed(order, n - 1) + {order[n - 1]}
  }

  lemma {:induction false} ListedHas(order: seq<(string, Key)>, n: nat, i: nat)
    requires i < n <= |order|
    ensures order[i] in Listed(order, n)
  {
    if i < n - 1 { ListedHas(order, n - 1, i); }
  }

  function FinishNext(t: Routes, place: (string, Key)): (r: Routes) {
    if OpenAt(t, place.0, place.1) then FinishRoute(t, place.0, place.1, HubWasClosed) else t
  }

  lemma {:induction false} FinishRoutesKeeps(t: Routes, order: seq<(string, Key)>, n: nat)
    requires RoutesInv(t) && n <= |order|
    ensures RoutesInv(FinishRoutes(t, order, n))
  {
    if n > 0 {
      FinishRoutesKeeps(t, order, n - 1);
      var t1, c, k := FinishRoutes(t, order, n - 1), order[n - 1].0, order[n - 1].1;
      if OpenAt(t1, c, k) { FinishRouteKeeps(t1, c, k, HubWasClosed); }
    }
  }

  lemma {:induction false} FinishRoutesBounds(t: Routes, order: seq<(string, Key)>, n: nat, runs: int, perClient: int)
    requires LeaseBounds(t, runs, perClient) && n <= |order|
    ensures LeaseBounds(FinishRoutes(t, order, n), runs, perClient)
  {
    if n > 0 {
      FinishRoutesBounds(t, order, n - 1, runs, perClient);
      var t1, c, k := FinishRoutes(t, order, n - 1), order[n - 1].0, order[n - 1].1;
      if OpenAt(t1, c, k) { FinishBounds(t1, c, k, HubWasClosed, runs, perClient); }
    }
  }

  lemma {:induction false} FinishRoutesKeys(t: Routes, order: seq<(string, Key)>, n: nat)
    requires n <= |order|
    ensures FinishRoutes(t, order, n).pend.Keys == t.pend.Keys
  {
    if n > 0 {
      FinishRoutesKeys(t, order, n - 1);
      FinishNextKeys(FinishRoutes(t, order, n - 1), order[n - 1]);
    }
  }

  lemma FinishNextKeys(t: Routes, place: (string, Key))
    ensures FinishNext(t, place).pend.Keys == t.pend.Keys
  {
  }

  lemma {:induction false} FinishRoutesStopped(t: Routes, order: seq<(string, Key)>, n: nat)
    requires AllStopped(t) && n <= |order|
    ensures AllStopped(FinishRoutes(t, order, n))
  {
    if n > 0 { FinishRoutesStopped(t, order, n - 1); }
  }

  lemma FinishNextPlaces(t: Routes, place: (string, Key))
    requires EntriesInv(t)
    ensures Places(FinishNext(t, place).pend) == Places(t.pend) - {place}
  {
    var c, k := place.0, place.1;
    if OpenAt(t, c, k) {
      assert FinishNext(t, place).pend == t.pend[c := t.pend[c] - {k}];
    } else {
      assert c in t.pend && k in t.pend[c] ==> EntryOk(t, c, k);
    }
  }

  lemma FinishNextClears(t: Routes, order: seq<(string, Key)>, n: nat)
    requires RoutesInv(t) && n < |order|
    ensures Places(FinishRoutes(t, order, n + 1).pend) == Places(FinishRoutes(t, order, n).pend) - {order[n]}
  {
    FinishRoutesKeeps(t, order, n);
    FinishNextPlaces(FinishRoutes(t, order, n), order[n]);
  }

  /** Each set of places is the one before without the next listed place. */
  predicate Shrinks(places: seq<set<(string, Key)>>, order: seq<(string, Key)>) {
    |places| == |order| + 1 && forall i | 0 <= i < |order| :: places[i + 1] == places[i] - {order[i]}
  }

  lemma {:induction false} ListedGone(places: seq<set<(string, Key)>>, order: seq<(string, Key)>, n: nat)
    requires Shrinks(places, order) && n <= |order|
    ensures places[n] == places[0] - Listed(order, n)
  {
    if n > 0 { ListedGone(places, order, n - 1); }
  }

  lemma {:induction false} RoutesShrink(t: Routes, order: seq<(string, Key)>, places: seq<set<(string, Key)>>)
    requires RoutesInv(t) && |places| == |order| + 1
    requires forall i | 0 <= i <= |order| :: places[i] == Places(FinishRoutes(t, order, i).pend)
    ensures Shrinks(places, order)
  {
    forall i | 0 <= i < |order| ensures places[i + 1] == places[i] - {order[i]} { FinishNextClears(t, order, i); }
  }

  /** Failing the calls at every listed place leaves those places without one. */
  lemma {:induction false} FinishRoutesClear(t: Routes, order: seq<(string, Key)>)
    requires RoutesInv(t)
    ensures Places(FinishRoutes(t, order, |order|).pend) == Places(t.pend) - Listed(order, |order|)
  {
    var places := seq(|order| + 1, i requires 0 <= i <= |order| => Places(FinishRoutes(t, order, i).pend));
    RoutesShrink(t, order, places);
    ListedGone(places, order, |order|);
  }

  /** Nothing is pending any more. */
  predicate Drained(t: Routes) {
    forall c | c in t.pend :: t.pend[c] == map[]
  }

  /** The first `n` bindings are released and nothing else about calls or admission changed. */
  predicate Releasing(t1: Routes, t: Routes, n: nat) {
    && AllStopped(t1) && t1.pend == t.pend && n <= |t1.bindings| == |t.bindings|
    && forall b | 0 <= b < n :: t1.bindings[b].releases == 1
  }

  lemma RemoveNext(t1: Routes, t: Routes, n: nat)
    requires RoutesInv(t1) && Releasing(t1, t, n) && Drained(t) && n < |t.bindings|
    ensures Releasing(RemoveRoute(t1, n), t, n + 1)
  {
    ReleasesLast(t1, n);
  }

  lemma {:induction false} RemoveRoutesKeeps(t: Routes, n: nat)
    requires RoutesInv(t) && AllStopped(t) && Drained(t) && n <= |t.bindings|
    ensures RoutesInv(RemoveRoutes(t, n)) && Releasing(RemoveRoutes(t, n), t, n)
  {
    if n > 0 {
      RemoveRoutesKeeps(t, n - 1);
      RemoveRouteKeeps(RemoveRoutes(t, n - 1), n - 1);
      RemoveNext(RemoveRoutes(t, n - 1), t, n - 1);
    }
  }

  lemma {:induction false} RemoveRoutesBounds(t: Routes, n: nat, runs: int, perClient: int)
    requires LeaseBounds(t, runs, perClient)
    ensures LeaseBounds(RemoveRoutes(t, n), runs, perClient)
  {
    if n > 0 {
      RemoveRoutesBounds(t, n - 1, runs, perClient);
      RemoveBounds(RemoveRoutes(t, n - 1), n - 1, runs, perClient);
    }
  }

  lemma ReleasesLast(t: Routes, b: nat)
    requires RoutesInv(t) && AllStopped(t) && Drained(t) && b < |t.bindings|
    ensures RemoveRoute(t, b).bindings[b].releases == 1
  {
    assert BindingOk(t, b);
    assert PendingOf(t.pend[t.bindings[b].client], b) == {};
  }

  lemma NoLeasesLeft(t: Routes)
    requires LeasesInv(t) && forall b | 0 <= b < |t.bindings| :: t.bindings[b].releases == 1
    ensures t.runs == map[] && NoIdle(t)
  {
    assert forall run | run in t.runs :: LeaseOk(t, run);
    assert t.runs.Keys == {};
  }
}
