/** The run host's tables as the daemon keeps them: maps and counters changed in place under one lock. */
module HostTable {
  import opened HostSlots
  import opened HostAdmission
  import I = RunIdentity
  import A = HostAuthority

  /** Some run of the host, the engine and the authority leads here. */
  ghost predicate Reached(w: World) {
    exists maxEntries, maxCharge, steps: seq<HostAdmission.Step> ::
      w == HostAdmission.Exec(
             NewWorld(w.host.limit, w.host.cache.maxRuns, w.host.cache.maxBytes, maxEntries, maxCharge), steps)
  }

  lemma NewReached(limit: nat, maxRuns: nat, maxBytes: nat, maxEntries: nat, maxCharge: nat)
    ensures Reached(NewWorld(limit, maxRuns, maxBytes, maxEntries, maxCharge))
  {
    var w := NewWorld(limit, maxRuns, maxBytes, maxEntries, maxCharge);
    assert w == HostAdmission.Exec(w, []);
  }

  lemma StepReached(w: World, s: HostAdmission.Step, w1: World)
    requires Reached(w) && w1 == HostAdmission.Apply(w, s)
    ensures Reached(w1)
  {
    var maxEntries, maxCharge, steps: seq<HostAdmission.Step> :|
      w == HostAdmission.Exec(
             NewWorld(w.host.limit, w.host.cache.maxRuns, w.host.cache.maxBytes, maxEntries, maxCharge), steps);
    assert (steps + [s])[..|steps|] == steps;
    StepConfig(w, s);
    assert w1 == HostAdmission.Exec(
                   NewWorld(w1.host.limit, w1.host.cache.maxRuns, w1.host.cache.maxBytes, maxEntries, maxCharge), steps + [s]);
  }

  lemma ReachedInv(w: World)
    requires Reached(w) && ValidConfig(w.host.limit, w.host.cache.maxRuns, w.host.cache.maxBytes)
    ensures CacheInv(w.host.cache) && Uncached(w.host)
    ensures ActiveInv(w.host.active.Keys, w.engine.holders, w.hosted, w.done)
  {
    var maxEntries, maxCharge, steps: seq<HostAdmission.Step> :|
      w == HostAdmission.Exec(
             NewWorld(w.host.limit, w.host.cache.maxRuns, w.host.cache.maxBytes, maxEntries, maxCharge), steps);
    HostAdmission.ExecKeeps(w.host.limit, w.host.cache.maxRuns, w.host.cache.maxBytes, maxEntries, maxCharge, steps);
  }

  lemma FinishReached(w: World, holder: nat, bytes: nat, issued: bool, clean: bool, w1: World)
    requires Reached(w) && CanFinish(w, holder) && w1 == Finish(w, holder, bytes, issued, clean)
    ensures Reached(w1) && w1.host.limit == w.host.limit
    ensures w1.host.cache.maxRuns == w.host.cache.maxRuns && w1.host.cache.maxBytes == w.host.cache.maxBytes
  {
    StepConfig(w, Finishes(holder, bytes, issued, clean));
    StepReached(w, Finishes(holder, bytes, issued, clean), w1);
  }

  /** The cache after its `k` oldest entries were dropped. */
  function Dropped(c: Cache, k: nat): (r: Cache)
    requires k <= |c.order|
  {
    c.(order := c.order[k..], terminalBytes := c.terminalBytes - Costs(c, 0, k),
       terminal := map run | run in c.terminal && !Among(c.order, k, run) :: c.terminal[run])
  }

  /** The cache without its oldest entry. */
  function OneLess(c: Cache): (r: Cache)
    requires c.order != []
  {
    var run := c.order[0];
    c.(order := c.order[1..], terminal := c.terminal - {run},
       terminalBytes := if run in c.terminal then c.terminalBytes - c.terminal[run] else c.terminalBytes)
  }

  lemma DropsOne(c: Cache, k: nat)
    requires Lists(c) && k < |c.order|
    ensures OneLess(Dropped(c, k)) == Dropped(c, k + 1)
  {
    var run := c.order[k];
    assert !Among(c.order, k, run);
    forall x ensures Among(c.order, k + 1, x) <==> Among(c.order, k, x) || x == run {
      if x == run { assert c.order[k] == x; }
    }
    assert Dropped(c, k + 1).terminal == Dropped(c, k).terminal - {run};
    assert Dropped(c, k).terminal[run] == Cost(c, k);
  }

  predicate Within(c: Cache) {
    |c.order| <= c.maxRuns && c.terminalBytes <= c.maxBytes
  }

  /** Dropping the oldest entry again and again brings the cache within its bounds before it is empty. */
  predicate Drains(c: Cache)
    decreases |c.order|
  {
    Within(c) || (c.order != [] && Drains(OneLess(c)))
  }

  function Drain(c: Cache): (r: Cache)
    requires Drains(c)
    decreases |c.order|
  {
    if Within(c) then c else Drain(OneLess(c))
  }

  lemma {:induction false} DrainsTo(c: Cache, k: nat)
    requires Lists(c) && k <= |c.order| && Drop(c, Dropped(c, k).terminalBytes, k) < |c.order|
    ensures Drains(Dropped(c, k)) && Drain(Dropped(c, k)) == Dropped(c, Drop(c, Dropped(c, k).terminalBytes, k))
    decreases |c.order| - k
  {
    if !Within(Dropped(c, k)) {
      DropsOne(c, k);
      DrainsTo(c, k + 1);
    }
  }

  /** An exact cache, perhaps beyond its bounds. */
  predicate Loaded(c: Cache) {
    Lists(c) && Exact(c) && Small(c) && c.order != [] && c.maxRuns >= 1
  }

  lemma {:induction false} DrainIsEvict(c: Cache)
    requires Loaded(c)
    ensures Drains(c) && Drain(c) == Evict(c)
  {
    NewestStays(c);
    assert Dropped(c, 0) == c;
    DrainsTo(c, 0);
  }

  /** The run may be cached: what exceeds the bounds then can be dropped, and it stays. */
  ghost predicate Ready(c: Cache, run: string, bytes: nat) {
    var c1 := Record(c, run, Kept(c, bytes));
    Drains(c1) && Drain(c1) == Evict(c1) && run in Evict(c1).terminal
  }

  lemma RecordReady(c: Cache, run: string, bytes: nat, c1: Cache)
    requires CacheInv(c) && c.maxRuns >= 1 && run !in c.terminal && c1 == Record(c, run, Kept(c, bytes))
    ensures Ready(c, run, bytes)
  {
    RecordFresh(c, run, Kept(c, bytes), c1);
    RecordSmall(c, run, bytes, c1);
    FinishKeeps(c, run, bytes, c1);
    DrainIsEvict(c1);
  }

  /** The run of a generation that can be finished is active and may be cached. */
  lemma FinishIsReady(w: World, holder: nat, bytes: nat)
    requires Reached(w) && ValidConfig(w.host.limit, w.host.cache.maxRuns, w.host.cache.maxBytes) && CanFinish(w, holder)
    ensures w.engine.holders[holder].run in w.host.active
    ensures Ready(w.host.cache, w.engine.holders[holder].run, bytes)
  {
    var c, run := w.host.cache, w.engine.holders[holder].run;
    ReachedInv(w);
    RecordReady(c, run, bytes, Record(c, run, Kept(c, bytes)));
  }

  class RunTable {
    const limit: nat
    var closing: bool
    var activeReserved: nat
    var reservations: map<string, nat>
    var owners: map<string, string>
    var active: map<string, string>
    var slots: seq<Slot>
    var cache: Cache
    // What the engine and the authority hold; the host never reads it.
    ghost var engine: I.Engine
    ghost var records: map<string, A.Record>
    ghost var hosted: set<nat>
    ghost var done: map<nat, bool>

    function View(): (h: Host)
      reads this
    {
      Host(limit, closing, activeReserved, reservations, owners, active, slots, cache)
    }

    ghost function Whole(): (w: World)
      reads this
    {
      World(View(), engine, records, hosted, done)
    }

    ghost predicate Valid()
      reads this
    {
      ValidConfig(limit, cache.maxRuns, cache.maxBytes) && Reached(Whole())
    }

    constructor (limit: nat, maxRuns: nat, maxBytes: nat, ghost maxEntries: nat, ghost maxCharge: nat)
      requires ValidConfig(limit, maxRuns, maxBytes)
      ensures Valid() && Whole() == NewWorld(limit, maxRuns, maxBytes, maxEntries, maxCharge)
    {
      this.limit := limit;
      closing, activeReserved, reservations, owners, active, slots := false, 0, map[], map[], map[], [];
      cache := Cache(maxRuns, maxBytes, map[], [], 0);
      engine, records, hosted, done := I.NewEngine(maxEntries, maxCharge), map[], {}, map[];
      new;
      NewReached(limit, maxRuns, maxBytes, maxEntries, maxCharge);
    }

    /** Take an active-run slot, within the limit. */
    method ReserveSlot(client: string) returns (slot: nat, ok: bool)
      requires Valid()
      modifies this
      ensures Valid() && Whole() == old(Whole()).(host := Reserve(old(View()), client))
      ensures ok == (!old(closing) && old(activeReserved) < limit) && (ok ==> slot == |old(slots)| < |slots|)
    {
      slot, ok := |slots|, !closing && activeReserved < limit;
      if ok {
        activeReserved := activeReserved + 1;
        slots := slots + [Slot(client, Fresh)];
      }
      StepReached(old(Whole()), InHost(DoReserve(client)), Whole());
    }

    /** Release a reservation; releasing it again does nothing. */
    method ReleaseSlot(i: nat)
      requires Valid()
      modifies this
      ensures Valid() && Whole() == old(Whole()).(host := Release(old(View()), i))
    {
      if i < |slots| && (slots[i].phase.Fresh? || slots[i].phase.Bound?) {
        if slots[i].phase.Bound? {
          reservations := reservations - {slots[i].phase.run};
        }
        if activeReserved > 0 {
          activeReserved := activeReserved - 1;
        }
        slots := slots[i := slots[i].(phase := Released)];
      }
      StepReached(old(Whole()), InHost(DoRelease(i)), Whole());
    }

    /** Claim a run ID for a reservation, unless it is owned or reserved. */
    method ClaimRun(i: nat, run: string) returns (ok: bool)
      requires Valid() && i < |slots| && slots[i].phase.Fresh?
      modifies this
      ensures Valid() && Whole() == old(Whole()).(host := BeginBind(old(View()), i, run))
      ensures ok == (!closing && run !in old(owners) && run !in old(reservations))
    {
      ok := !closing && run !in owners && run !in reservations;
      if ok {
        reservations := reservations[run := i];
        slots := slots[i := slots[i].(phase := Binding(run))];
      }
      StepReached(old(Whole()), InHost(DoBeginBind(i, run)), Whole());
    }

    /** The bound run of a reservation becomes active and owned, once the authority and the kernel agreed. */
    method PublishSlot(i: nat, ghost holder: nat)
      requires Valid() && CanPublish(Whole(), i, holder)
      modifies this
      ensures Valid() && Whole() == old(Whole()).(host := Publish(old(View()), i), hosted := old(hosted) + {holder})
    {
      var run, client := slots[i].phase.run, slots[i].client;
      reservations := reservations - {run};
      active := active[run := client];
      owners := owners[run := client];
      slots := slots[i := slots[i].(phase := Published)];
      hosted := hosted + {holder};
      StepReached(old(Whole()), Publishes(i, holder), Whole());
    }

    method DropOldest()
      requires cache.order != []
      modifies `cache
      ensures cache == OneLess(old(cache))
    {
      var run := cache.order[0];
      var bytes := cache.terminalBytes;
      if run in cache.terminal {
        bytes := bytes - cache.terminal[run];
      }
      cache := cache.(order := cache.order[1..], terminalBytes := bytes, terminal := cache.terminal - {run});
    }

    /** Drop the oldest terminal runs while a bound is exceeded. */
    method EvictTerminals()
      requires Drains(cache)
      modifies `cache
      ensures cache == Drain(old(cache)) && (Loaded(old(cache)) ==> cache == Evict(old(cache)))
    {
      if Loaded(cache) { DrainIsEvict(cache); }
      while |cache.order| > cache.maxRuns || cache.terminalBytes > cache.maxBytes
        invariant Drains(cache) && Drain(cache) == Drain(old(cache))
        decreases |cache.order|
      {
        DropOldest();
      }
    }

    /** Cache a finished run as the newest terminal. */
    method CacheTerminal(run: string, bytes: nat)
      requires Ready(cache, run, bytes)
      modifies `cache
      ensures cache == Evict(Record(old(cache), run, Kept(old(cache), bytes))) && run in cache.terminal
    {
      var kept := if bytes > cache.maxBytes then 0 else bytes;
      cache := cache.(terminal := cache.terminal[run := kept], order := cache.order + [run],
                      terminalBytes := cache.terminalBytes + kept);
      EvictTerminals();
    }

    /** Move a run from the active table to the terminal cache. */
    method MoveToCache(run: string, size: nat)
      requires run in active && Ready(cache, run, size)
      modifies `active, `activeReserved, `cache
      ensures View() == HostSlots.FinishRun(old(View()), run, size) && run in cache.terminal
    {
      active := active - {run};
      if activeReserved > 0 {
        activeReserved := activeReserved - 1;
      }
      CacheTerminal(run, size);
    }

    /** The monitor's end: the run is cached, with its snapshot's bytes if the authority issued one. */
    method FinishRun(run: string, bytes: nat, issued: bool, ghost holder: nat, ghost clean: bool)
      requires Valid() && CanFinish(Whole(), holder) && engine.holders[holder].run == run
      modifies this
      ensures Valid() && Whole() == Finish(old(Whole()), holder, bytes, issued, clean) && run in cache.terminal
    {
      ghost var before := Whole();
      FinishIsReady(before, holder, if issued then bytes else 0);
      MoveToCache(run, if issued then bytes else 0);
      done := done[holder := issued && clean];
      records := if issued then records[run := A.Tombstone] else records;
      FinishReached(before, holder, bytes, issued, clean, Whole());
    }

    /** The engine and the authority move on their own. */
    ghost method Elsewhere(s: HostAdmission.Step)
      requires Valid() && (s.InEngine? || s.Moves? || s.Retires?)
      modifies `engine, `records
      ensures Valid() && Whole() == HostAdmission.Apply(old(Whole()), s)
    {
      var w := HostAdmission.Apply(Whole(), s);
      engine, records := w.engine, w.records;
      StepReached(old(Whole()), s, Whole());
    }
  }
}
