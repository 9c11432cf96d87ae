/** Active-run slots, ownership and the bounded terminal cache of the run host
    (daemon/run_host_state.go, daemon/run_host_lifecycle.go). */
module HostSlots {
  /** One reservation of an active-run slot. */
  datatype Phase = Fresh | Binding(run: string) | Bound(run: string) | Published | Released

  datatype Slot = Slot(client: string, phase: Phase)

  /** `reservations` maps a reserved run ID to the slot that claims it. */
  datatype Host = Host(limit: nat, closing: bool, activeReserved: nat, reservations: map<string, nat>,
                       owners: map<string, string>, active: map<string, string>, slots: seq<Slot>, cache: Cache)

  /** The terminal cache: envelope sizes by run, oldest first, with their byte count. */
  datatype Cache = Cache(maxRuns: nat, maxBytes: nat, terminal: map<string, nat>, order: seq<string>, terminalBytes: int)

  predicate ValidConfig(limit: nat, maxRuns: nat, maxBytes: nat) {
    limit >= 1 && 1 <= maxRuns <= 65536 && 1 <= maxBytes <= 1073741824
  }

  function NewHost(limit: nat, maxRuns: nat, maxBytes: nat): (h: Host) {
    Host(limit, false, 0, map[], map[], map[], [], Cache(maxRuns, maxBytes, map[], [], 0))
  }

  function SetSlot(h: Host, i: nat, phase: Phase): (r: Host)
    requires i < |h.slots|
  {
    h.(slots := h.slots[i := h.slots[i].(phase := phase)])
  }

  function Minus1(n: nat): (r: nat) {
    if n > 0 then n - 1 else 0
  }

  // ---------------------------------------------------------------------------
  // Slots
  // ---------------------------------------------------------------------------

  function Reserve(h: Host, client: string): (r: Host) {
    if h.closing || h.activeReserved >= h.limit then h
    else h.(activeReserved := h.activeReserved + 1, slots := h.slots + [Slot(client, Fresh)])
  }

  /** Claim a run ID, unless it is owned or reserved. */
  function BeginBind(h: Host, i: nat, run: string): (r: Host) {
    if i < |h.slots| && h.slots[i].phase.Fresh? && !h.closing && run !in h.owners && run !in h.reservations then
      SetSlot(h, i, Binding(run)).(reservations := h.reservations[run := i])
    else h
  }

  /** The hub accepted the binding or refused it. */
  function EndBind(h: Host, i: nat, ok: bool): (r: Host) {
    if i < |h.slots| && h.slots[i].phase.Binding? then
      if ok then SetSlot(h, i, Bound(h.slots[i].phase.run))
      else SetSlot(h, i, Fresh).(reservations := h.reservations - {h.slots[i].phase.run})
    else h
  }

  function Release(h: Host, i: nat): (r: Host) {
    if i < |h.slots| && (h.slots[i].phase.Fresh? || h.slots[i].phase.Bound?) then
      SetSlot(h, i, Released).(activeReserved := Minus1(h.activeReserved),
                               reservations := if h.slots[i].phase.Bound? then h.reservations - {h.slots[i].phase.run}
                                               else h.reservations)
    else h
  }

  /** The reserved run becomes an owned, active one. */
  function Publish(h: Host, i: nat): (r: Host) {
    if i < |h.slots| && h.slots[i].phase.Bound? then
      var run := h.slots[i].phase.run;
      SetSlot(h, i, Published).(reservations := h.reservations - {run}, active := h.active[run := h.slots[i].client],
                                owners := h.owners[run := h.slots[i].client])
    else h
  }

  /** Ownership outlives the run until its interactions are drained. */
  function Disown(h: Host, run: string): (r: Host) {
    if run in h.owners && run !in h.active then h.(owners := h.owners - {run}) else h
  }

  // ---------------------------------------------------------------------------
  // The terminal cache
  // ---------------------------------------------------------------------------

  /** How many of the oldest cached runs to drop: one at a time while a bound is exceeded. */
  function Drop(h: Cache, bytes: int, i: nat): (k: nat)
    requires i <= |h.order|
    ensures i <= k <= |h.order|
    decreases |h.order| - i
  {
    if i == |h.order| || (|h.order| - i <= h.maxRuns && bytes <= h.maxBytes) then i
    else Drop(h, bytes - Cost(h, i), i + 1)
  }

  /** A run is among the first `n` listed. */
  predicate Among(order: seq<string>, n: nat, run: string)
    requires n <= |order|
  {
    exists j | 0 <= j < n :: order[j] == run
  }

  /** What dropping an entry gives back; an entry already dropped gives nothing. */
  function Cost(h: Cache, i: nat): (n: nat)
    requires i < |h.order|
  {
    if h.order[i] in h.terminal && !Among(h.order, i, h.order[i]) then h.terminal[h.order[i]] else 0
  }

  function Costs(h: Cache, lo: nat, hi: nat): (n: nat)
    requires lo <= hi <= |h.order|
    decreases hi
  {
    if lo == hi then 0 else Costs(h, lo, hi - 1) + Cost(h, hi - 1)
  }

  function Evict(h: Cache): (r: Cache) {
    var k := Drop(h, h.terminalBytes, 0);
    h.(order := h.order[k..], terminalBytes := h.terminalBytes - Costs(h, 0, k),
       terminal := map run | run in h.terminal && !Among(h.order, k, run) :: h.terminal[run])
  }

  /** Cache a run as the newest terminal. */
  function Record(h: Cache, run: string, bytes: nat): (r: Cache) {
    h.(terminal := h.terminal[run := bytes], order := h.order + [run], terminalBytes := h.terminalBytes + bytes)
  }

  /** An envelope over the byte bound is not kept. */
  function Kept(h: Cache, bytes: nat): (n: nat) {
    if bytes > h.maxBytes then 0 else bytes
  }

  /** A run ended: free its slot, cache it and evict what exceeds the bounds. */
  function FinishRun(h: Host, run: string, bytes: nat): (r: Host) {
    if run in h.active then
      h.(active := h.active - {run}, activeReserved := Minus1(h.activeReserved),
         cache := Evict(Record(h.cache, run, Kept(h.cache, bytes))))
    else h
  }

  datatype Step =
    | DoReserve(client: string)
    | DoBeginBind(slot: nat, run: string)
    | DoEndBind(slot: nat, ok: bool)
    | DoRelease(slot: nat)
    | DoPublish(slot: nat)
    | DoFinish(run: string, bytes: nat)
    | DoDisown(run: string)
    | DoClose

  function Apply(h: Host, s: Step): (r: Host) {
    match s
    case DoReserve(client) => Reserve(h, client)
    case DoBeginBind(i, run) => BeginBind(h, i, run)
    case DoEndBind(i, ok) => EndBind(h, i, ok)
    case DoRelease(i) => Release(h, i)
    case DoPublish(i) => Publish(h, i)
    case DoFinish(run, bytes) => FinishRun(h, run, bytes)
    case DoDisown(run) => Disown(h, run)
    case DoClose => h.(closing := true)
  }

  function Exec(h: Host, steps: seq<Step>): (r: Host) {
    if steps == [] then h else Apply(Exec(h, steps[..|steps| - 1]), steps[|steps| - 1])
  }

  // ---------------------------------------------------------------------------
  // Slot conservation
  // ---------------------------------------------------------------------------

  /** A slot that still counts as reserved. */
  predicate Holding(x: Slot) {
    !x.phase.Published? && !x.phase.Released?
  }

  function SlotsHeld(slots: seq<Slot>, n: nat): (k: nat)
    requires n <= |slots|
  {
    if n == 0 then 0 else SlotsHeld(slots, n - 1) + (if Holding(slots[n - 1]) then 1 else 0)
  }

  predicate Claims(x: Slot, run: string) {
    (x.phase.Binding? || x.phase.Bound?) && x.phase.run == run
  }

  /** Reservations are exactly the runs claimed by unfinished slots, each by one of them. */
  predicate ClaimsInv(slots: seq<Slot>, reservations: map<string, nat>) {
    && (forall i | 0 <= i < |slots| && (slots[i].phase.Binding? || slots[i].phase.Bound?) ::
          slots[i].phase.run in reservations && reservations[slots[i].phase.run] == i)
    && (forall run | run in reservations :: reservations[run] < |slots| && Claims(slots[reservations[run]], run))
  }

  /** No run is both reserved and owned, and every active run is owned by the same client. */
  predicate OwnersInv(h: Host) {
    && (forall run | run in h.reservations :: run !in h.owners)
    && (forall run | run in h.active :: run in h.owners && h.owners[run] == h.active[run])
  }

  predicate SlotsInv(h: Host) {
    && ClaimsInv(h.slots, h.reservations) && OwnersInv(h)
    && h.activeReserved == |h.active| + SlotsHeld(h.slots, |h.slots|) <= h.limit
  }

  lemma {:induction false} HeldUpdate(slots: seq<Slot>, i: nat, x: Slot, n: nat)
    requires i < |slots| && n <= |slots|
    ensures SlotsHeld(slots[i := x], n)
            == SlotsHeld(slots, n) + (if i < n then (if Holding(x) then 1 else 0) - (if Holding(slots[i]) then 1 else 0) else 0)
  {
    if n > 0 { HeldUpdate(slots, i, x, n - 1); }
  }

  lemma {:induction false} HeldExtends(slots: seq<Slot>, x: Slot, n: nat)
    requires n <= |slots|
    ensures SlotsHeld(slots + [x], n) == SlotsHeld(slots, n)
  {
    if n > 0 { HeldExtends(slots, x, n - 1); }
  }

  lemma {:induction false} HeldAtLeast(slots: seq<Slot>, i: nat, n: nat)
    requires i < n <= |slots| && Holding(slots[i])
    ensures SlotsHeld(slots, n) >= 1
  {
    if i < n - 1 { HeldAtLeast(slots, i, n - 1); }
  }

  lemma ClaimsGrow(slots: seq<Slot>, reservations: map<string, nat>, x: Slot)
    requires ClaimsInv(slots, reservations) && x.phase.Fresh?
    ensures ClaimsInv(slots + [x], reservations)
  {
  }

  /** A slot that gives up its run leaves the other claims as they were. */
  lemma ClaimEnds(slots: seq<Slot>, reservations: map<string, nat>, i: nat, x: Slot)
    requires ClaimsInv(slots, reservations) && i < |slots| && (slots[i].phase.Binding? || slots[i].phase.Bound?)
    requires !x.phase.Binding? && !x.phase.Bound?
    ensures ClaimsInv(slots[i := x], reservations - {slots[i].phase.run})
  {
  }

  lemma ReserveKeeps(h: Host, client: string)
    requires SlotsInv(h)
    ensures SlotsInv(Reserve(h, client))
  {
    HeldExtends(h.slots, Slot(client, Fresh), |h.slots|);
    ClaimsGrow(h.slots, h.reservations, Slot(client, Fresh));
  }

  lemma BeginBindKeeps(h: Host, i: nat, run: string)
    requires SlotsInv(h)
    ensures SlotsInv(BeginBind(h, i, run))
  {
    if i < |h.slots| { HeldUpdate(h.slots, i, h.slots[i].(phase := Binding(run)), |h.slots|); }
  }

  lemma BoundKeeps(h: Host, i: nat)
    requires SlotsInv(h) && i < |h.slots| && h.slots[i].phase.Binding?
    ensures SlotsInv(SetSlot(h, i, Bound(h.slots[i].phase.run)))
  {
    HeldUpdate(h.slots, i, h.slots[i].(phase := Bound(h.slots[i].phase.run)), |h.slots|);
  }

  lemma UnboundKeeps(h: Host, i: nat)
    requires SlotsInv(h) && i < |h.slots| && h.slots[i].phase.Binding?
    ensures SlotsInv(SetSlot(h, i, Fresh).(reservations := h.reservations - {h.slots[i].phase.run}))
  {
    HeldUpdate(h.slots, i, h.slots[i].(phase := Fresh), |h.slots|);
    ClaimEnds(h.slots, h.reservations, i, h.slots[i].(phase := Fresh));
  }

  lemma EndBindKeeps(h: Host, i: nat, ok: bool)
    requires SlotsInv(h)
    ensures SlotsInv(EndBind(h, i, ok))
  {
    if i < |h.slots| && h.slots[i].phase.Binding? {
      if ok { BoundKeeps(h, i); } else { UnboundKeeps(h, i); }
    }
  }

  lemma ReleaseKeeps(h: Host, i: nat)
    requires SlotsInv(h)
    ensures SlotsInv(Release(h, i))
  {
    if i < |h.slots| && (h.slots[i].phase.Fresh? || h.slots[i].phase.Bound?) {
      HeldAtLeast(h.slots, i, |h.slots|);
      HeldUpdate(h.slots, i, h.slots[i].(phase := Released), |h.slots|);
      if h.slots[i].phase.Bound? { ClaimEnds(h.slots, h.reservations, i, h.slots[i].(phase := Released)); }
    }
  }

  lemma PublishKeeps(h: Host, i: nat)
    requires SlotsInv(h)
    ensures SlotsInv(Publish(h, i))
  {
    if i < |h.slots| && h.slots[i].phase.Bound? {
      var run := h.slots[i].phase.run;
      HeldUpdate(h.slots, i, h.slots[i].(phase := Published), |h.slots|);
      ClaimEnds(h.slots, h.reservations, i, h.slots[i].(phase := Published));
      assert run !in h.active;
      assert h.active[run := h.slots[i].client].Keys == h.active.Keys + {run};
    }
  }

  lemma FinishSlots(h: Host, run: string, bytes: nat)
    requires SlotsInv(h) && run in h.active
    ensures SlotsInv(FinishRun(h, run, bytes))
  {
    assert (h.active - {run}).Keys == h.active.Keys - {run};
  }

  lemma SlotsFrame(h: Host, h1: Host)
    requires SlotsInv(h) && h1.slots == h.slots && h1.reservations == h.reservations && h1.owners == h.owners
    requires h1.active == h.active && h1.activeReserved == h.activeReserved && h1.limit == h.limit
    ensures SlotsInv(h1)
  {
  }

  lemma DisownKeeps(h: Host, run: string)
    requires SlotsInv(h)
    ensures SlotsInv(Disown(h, run))
  {
  }

  /** Every step conserves slots. */
  /** The later steps, written out. */
  lemma ApplyIs(h: Host, s: Step)
    ensures s.DoRelease? ==> Apply(h, s) == Release(h, s.slot)
    ensures s.DoPublish? ==> Apply(h, s) == Publish(h, s.slot)
    ensures s.DoFinish? ==> Apply(h, s) == FinishRun(h, s.run, s.bytes)
    ensures s.DoDisown? ==> Apply(h, s) == Disown(h, s.run)
    ensures s.DoClose? ==> Apply(h, s) == h.(closing := true)
  {
  }

  lemma ApplySlots(h: Host, s: Step)
    requires SlotsInv(h)
    ensures SlotsInv(Apply(h, s))
  {
    ApplyIs(h, s);
    match s
    case DoReserve(client) => ReserveKeeps(h, client);
    case DoBeginBind(i, run) => BeginBindKeeps(h, i, run);
    case DoEndBind(i, ok) => EndBindKeeps(h, i, ok);
    case DoRelease(i) => ReleaseKeeps(h, i);
    case DoPublish(i) => PublishKeeps(h, i);
    case DoFinish(run, bytes) => if run in h.active { FinishSlots(h, run, bytes); }
    case DoDisown(run) => DisownKeeps(h, run);
    case DoClose => SlotsFrame(h, h.(closing := true));
  }

  /** In every run, the slots in use are the active runs and the unreleased reservations, never more
      than the limit, and no run is both reserved and owned. */
  lemma {:induction false} SlotsAlways(limit: nat, maxRuns: nat, maxBytes: nat, steps: seq<Step>)
    ensures SlotsInv(Exec(NewHost(limit, maxRuns, maxBytes), steps))
  {
    if steps != [] {
      SlotsAlways(limit, maxRuns, maxBytes, steps[..|steps| - 1]);
      ApplySlots(Exec(NewHost(limit, maxRuns, maxBytes), steps[..|steps| - 1]), steps[|steps| - 1]);
    }
  }

  // ---------------------------------------------------------------------------
  // The terminal cache is exact and bounded
  // ---------------------------------------------------------------------------

  predicate Distinct(order: seq<string>) {
    forall i | 0 <= i < |order| :: !Among(order, i, order[i])
  }

  /** The cache holds exactly the listed runs. */
  predicate Lists(h: Cache) {
    && Distinct(h.order)
    && (forall i | 0 <= i < |h.order| :: h.order[i] in h.terminal)
    && (forall run | run in h.terminal :: run in h.order)
  }

  /** The byte counter is the sum over cached runs. */
  predicate Exact(h: Cache) {
    h.terminalBytes == Costs(h, 0, |h.order|)
  }

  predicate Small(h: Cache) {
    forall run | run in h.terminal :: h.terminal[run] <= h.maxBytes
  }

  predicate CacheInv(h: Cache) {
    Lists(h) && Exact(h) && Small(h) && |h.order| <= h.maxRuns && h.terminalBytes <= h.maxBytes
  }

  lemma {:induction false} CostsSplit(h: Cache, lo: nat, mid: nat, hi: nat)
    requires lo <= mid <= hi <= |h.order|
    ensures Costs(h, lo, hi) == Costs(h, lo, mid) + Costs(h, mid, hi)
    decreases hi
  {
    if mid < hi { CostsSplit(h, lo, mid, hi - 1); }
  }

  /** Dropping stops at the first suffix within both bounds. */
  lemma {:induction false} DropStops(h: Cache, bytes: int, i: nat)
    requires i <= |h.order| && bytes == Costs(h, i, |h.order|)
    ensures var k := Drop(h, bytes, i);
            && |h.order| - k <= h.maxRuns && (k < |h.order| ==> Costs(h, k, |h.order|) <= h.maxBytes)
            && forall j | i <= j < k :: |h.order| - j > h.maxRuns || Costs(h, j, |h.order|) > h.maxBytes
    decreases |h.order| - i
  {
    if !(i == |h.order| || (|h.order| - i <= h.maxRuns && bytes <= h.maxBytes)) {
      CostsSplit(h, i, i + 1, |h.order|);
      assert Costs(h, i, i + 1) == Cost(h, i);
      DropStops(h, bytes - Cost(h, i), i + 1);
    }
  }

  /** A listed run's cost is its own size, so the newest alone fits and is never dropped. */
  lemma {:induction false} NewestStays(h: Cache)
    requires Lists(h) && Exact(h) && Small(h) && h.order != [] && h.maxRuns >= 1
    ensures Drop(h, h.terminalBytes, 0) < |h.order|
  {
    var n := |h.order| - 1;
    DropStops(h, h.terminalBytes, 0);
    assert Costs(h, n, n + 1) == Cost(h, n);
    assert h.order[n] in h.terminal && Cost(h, n) == h.terminal[h.order[n]];
  }

  lemma CostShift(h: Cache, h1: Cache, k: nat, i: nat)
    requires Lists(h) && k + i < |h.order| && h1.order == h.order[k..] && Lists(h1)
    requires forall run | run in h1.terminal :: run in h.terminal && h1.terminal[run] == h.terminal[run]
    ensures Cost(h1, i) == Cost(h, k + i)
  {
    assert h1.order[i] == h.order[k + i];
    assert h1.order[i] in h1.terminal;
  }

  /** Entry `i` of `h1` costs what entry `k + i` of `h` costs. */
  predicate Shifted(h: Cache, h1: Cache, k: nat) {
    k + |h1.order| == |h.order| && forall i | 0 <= i < |h1.order| :: Cost(h1, i) == Cost(h, k + i)
  }

  lemma {:induction false} CostsShift(h: Cache, h1: Cache, k: nat, n: nat)
    requires Shifted(h, h1, k) && n <= |h1.order|
    ensures Costs(h1, 0, n) == Costs(h, k, k + n)
  {
    if n > 0 {
      CostsShift(h, h1, k, n - 1);
      assert Cost(h1, n - 1) == Cost(h, k + (n - 1));
    }
  }

  lemma AmongSuffix(order: seq<string>, rest: seq<string>, k: nat, i: nat, run: string)
    requires k + i <= |order| && rest == order[k..]
    ensures Among(order, k + i, run) <==> Among(order, k, run) || Among(rest, i, run)
  {
    if Among(rest, i, run) {
      var j :| 0 <= j < i && rest[j] == run;
      assert order[k + j] == run;
    }
    if Among(order, k + i, run) {
      var j :| 0 <= j < k + i && order[j] == run;
      if j >= k { assert rest[j - k] == run; }
    }
  }

  lemma EvictLists(h: Cache, k: nat, h1: Cache)
    requires Lists(h) && k <= |h.order| && h1.order == h.order[k..]
    requires h1.terminal == map run | run in h.terminal && !Among(h.order, k, run) :: h.terminal[run]
    ensures Lists(h1)
  {
    forall i | 0 <= i < |h1.order| ensures h1.order[i] in h1.terminal && !Among(h1.order, i, h1.order[i]) {
      var run := h1.order[i];
      assert run == h.order[k + i];
      AmongSuffix(h.order, h1.order, k, i, run);
    }
    forall run | run in h1.terminal ensures run in h1.order {
      assert Among(h.order, |h.order|, run);
      AmongSuffix(h.order, h1.order, k, |h1.order|, run);
    }
  }

  /** What is kept costs what it cost before. */
  lemma EvictShifted(h: Cache, k: nat, h1: Cache)
    requires Lists(h) && k <= |h.order| && Lists(h1) && h1.order == h.order[k..]
    requires h1.terminal == map run | run in h.terminal && !Among(h.order, k, run) :: h.terminal[run]
    ensures Shifted(h, h1, k)
  {
    EvictAgrees(h, k, h1);
    forall i | 0 <= i < |h1.order| ensures Cost(h1, i) == Cost(h, k + i) { CostShift(h, h1, k, i); }
  }

  lemma EvictAgrees(h: Cache, k: nat, h1: Cache)
    requires k <= |h.order|
    requires h1.terminal == map run | run in h.terminal && !Among(h.order, k, run) :: h.terminal[run]
    ensures forall run | run in h1.terminal :: run in h.terminal && h1.terminal[run] == h.terminal[run]
  {
  }

  lemma {:induction false} EvictExact(h: Cache, k: nat, h1: Cache)
    requires Exact(h) && Shifted(h, h1, k) && h1.terminalBytes == h.terminalBytes - Costs(h, 0, k)
    ensures Exact(h1) && h1.terminalBytes == Costs(h, k, |h.order|)
  {
    CostsShift(h, h1, k, |h1.order|);
    CostsSplit(h, 0, k, |h.order|);
  }

  /** Eviction drops the fewest oldest runs that bring the cache within both bounds. */
  lemma {:induction false} EvictFewest(h: Cache)
    requires Exact(h)
    ensures var k := |h.order| - |Evict(h).order|;
            && 0 <= k && Evict(h).order == h.order[k..]
            && forall j | 0 <= j < k :: |h.order| - j > h.maxRuns || Costs(h, j, |h.order|) > h.maxBytes
  {
    DropStops(h, h.terminalBytes, 0);
  }

  /** Eviction keeps the cache exact, brings it within both bounds and keeps the newest run. */
  lemma {:induction false} EvictKeeps(h: Cache, k: nat, h1: Cache)
    requires Lists(h) && Exact(h) && Small(h) && h.order != [] && h.maxRuns >= 1
    requires k == Drop(h, h.terminalBytes, 0) && h1 == Evict(h)
    ensures CacheInv(h1) && h.order[|h.order| - 1] in h1.terminal
  {
    NewestStays(h);
    DropStops(h, h.terminalBytes, 0);
    EvictLists(h, k, h1);
    EvictShifted(h, k, h1);
    EvictExact(h, k, h1);
    assert h1.order[|h1.order| - 1] in h1.terminal;
  }

  // ---------------------------------------------------------------------------
  // Finishing a run
  // ---------------------------------------------------------------------------

  lemma AmongPrefix(order: seq<string>, longer: seq<string>, n: nat, run: string)
    requires n <= |order| <= |longer| && longer[..|order|] == order
    ensures Among(longer, n, run) <==> Among(order, n, run)
  {
    assert forall j | 0 <= j < n :: longer[j] == longer[..|order|][j];
  }

  lemma {:induction false} CostsExtend(h: Cache, h1: Cache, run: string, n: nat)
    requires n <= |h.order| && h1.order == h.order + [run] && run !in h.order
    requires forall x | x != run ::
               (x in h1.terminal <==> x in h.terminal) && (x in h.terminal ==> h1.terminal[x] == h.terminal[x])
    ensures Costs(h1, 0, n) == Costs(h, 0, n)
  {
    if n > 0 {
      CostsExtend(h, h1, run, n - 1);
      AmongPrefix(h.order, h1.order, n - 1, h.order[n - 1]);
      assert h1.order[n - 1] == h.order[n - 1] && h.order[n - 1] in h.order;
    }
  }

  lemma RecordLists(h: Cache, run: string, bytes: nat, h1: Cache)
    requires Lists(h) && run !in h.terminal && h1 == Record(h, run, bytes)
    ensures Lists(h1) && run !in h.order
  {
    var n := |h.order|;
    assert run !in h.order;
    assert h1.order[..n] == h.order;
    forall i | 0 <= i < n + 1 ensures !Among(h1.order, i, h1.order[i]) && h1.order[i] in h1.terminal {
      AmongPrefix(h.order, h1.order, i, h1.order[i]);
      if i < n { assert h1.order[i] == h.order[i]; }
    }
    forall x | x in h1.terminal ensures x in h1.order {
      if x == run { assert h1.order[n] == x; } else { assert x in h.order; }
    }
  }

  /** Recording a run that is not cached keeps the byte count exact. */
  lemma RecordFresh(h: Cache, run: string, bytes: nat, h1: Cache)
    requires Lists(h) && Exact(h) && run !in h.terminal && h1 == Record(h, run, bytes)
    ensures Lists(h1) && Exact(h1)
  {
    var n := |h.order|;
    RecordLists(h, run, bytes, h1);
    CostsExtend(h, h1, run, n);
  }

  lemma RecordSmall(h: Cache, run: string, bytes: nat, h1: Cache)
    requires Small(h) && h1 == Record(h, run, Kept(h, bytes))
    ensures Small(h1)
  {
  }

  /** Finishing a run that is not cached keeps the cache exact and bounded, with that run in it. */
  lemma FinishKeeps(h: Cache, run: string, bytes: nat, h1: Cache)
    requires CacheInv(h) && h.maxRuns >= 1 && run !in h.terminal && h1 == Record(h, run, Kept(h, bytes))
    ensures CacheInv(Evict(h1)) && run in Evict(h1).terminal
  {
    RecordFresh(h, run, Kept(h, bytes), h1);
    RecordSmall(h, run, bytes, h1);
    EvictKeeps(h1, Drop(h1, h1.terminalBytes, 0), Evict(h1));
  }

  lemma ConfigStays(h: Host, s: Step)
    ensures Apply(h, s).limit == h.limit
    ensures Apply(h, s).cache.maxRuns == h.cache.maxRuns && Apply(h, s).cache.maxBytes == h.cache.maxBytes
  {
  }
}
