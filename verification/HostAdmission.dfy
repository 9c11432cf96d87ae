/** Why no run finishes while it is still in the terminal cache: the host's tables together with the engine's run
    identities and the authority's records (daemon/run_host_mutations.go, daemon/run_host_lifecycle.go). */
module HostAdmission {
  import H = HostSlots
  import I = RunIdentity
  import opened HostAuthority

  /** `hosted` are the generations the host published, and `done` those its monitor finished, with whether it may
      retire their identity. */
  datatype World = World(host: H.Host, engine: I.Engine, records: map<string, Record>, hosted: set<nat>, done: map<nat, bool>)

  function NewWorld(limit: nat, maxRuns: nat, maxBytes: nat, maxEntries: nat, maxCharge: nat): (w: World) {
    World(H.NewHost(limit, maxRuns, maxBytes), I.NewEngine(maxEntries, maxCharge), map[], {}, map[])
  }

  function RecordOf(records: map<string, Record>, run: string): (r: Record) {
    if run in records then records[run] else NoRecord
  }

  predicate Running(stage: I.Stage) {
    stage.Executing? || stage.Completed?
  }

  /** The authority made the run active, the kernel activated this generation of it, and it was not published. */
  predicate CanPublish(w: World, slot: nat, holder: nat) {
    && slot < |w.host.slots| && w.host.slots[slot].phase.Bound? && holder < |w.engine.holders|
    && w.engine.holders[holder].run == w.host.slots[slot].phase.run && Running(w.engine.holders[holder].stage)
    && RecordOf(w.records, w.host.slots[slot].phase.run) == Active && holder !in w.hosted
  }

  /** A hosted run has ended and its monitor has not finished it yet. */
  predicate CanFinish(w: World, holder: nat) {
    holder in w.hosted && holder !in w.done && holder < |w.engine.holders| && w.engine.holders[holder].stage.Completed?
  }

  datatype Step =
    | InHost(host: H.Step)
    | InEngine(engine: I.Step)
    | Moves(run: string, record: Record)
    | Publishes(slot: nat, holder: nat)
    | Finishes(holder: nat, bytes: nat, issued: bool, clean: bool)
    | Retires(holder: nat)

  /** Issuing the terminal snapshot buries the run; without it the run is cached without bytes and its identity is
      never retired. */
  function Finish(w: World, holder: nat, bytes: nat, issued: bool, clean: bool): (r: World)
    requires CanFinish(w, holder)
  {
    var run := w.engine.holders[holder].run;
    w.(host := H.FinishRun(w.host, run, if issued then bytes else 0), done := w.done[holder := issued && clean],
       records := if issued then w.records[run := Tombstone] else w.records)
  }

  function Apply(w: World, s: Step): (r: World) {
    match s
    case InHost(x) => if x.DoPublish? || x.DoFinish? then w else w.(host := H.Apply(w.host, x))
    case InEngine(x) => if x.DoRetire? then w else w.(engine := I.Apply(w.engine, x))
    case Moves(run, record) =>
      if RecordOf(w.records, run) == Tombstone then w else w.(records := w.records[run := record])
    case Publishes(i, j) =>
      if CanPublish(w, i, j) then w.(host := H.Publish(w.host, i), hosted := w.hosted + {j}) else w
    case Finishes(j, bytes, issued, clean) => if CanFinish(w, j) then Finish(w, j, bytes, issued, clean) else w
    case Retires(j) => if j in w.done && w.done[j] then w.(engine := I.Retire(w.engine, j)) else w
  }

  function Exec(w: World, steps: seq<Step>): (r: World) {
    if steps == [] then w else Apply(Exec(w, steps[..|steps| - 1]), steps[|steps| - 1])
  }

  // ---------------------------------------------------------------------------
  // What every run keeps
  // ---------------------------------------------------------------------------

  /** Some finished generation of the run still holds its identity. */
  ghost predicate Unretired(holders: seq<I.Holder>, done: map<nat, bool>, run: string) {
    exists j | j in done :: j < |holders| && holders[j] == I.Holder(run, I.Completed)
  }

  /** Published generations run, have ended or are retired; a clean finish left a terminal record. */
  predicate HostedInv(holders: seq<I.Holder>, records: map<string, Record>, hosted: set<nat>, done: map<nat, bool>) {
    && done.Keys <= hosted
    && (forall j | j in hosted :: j < |holders| && (Running(holders[j].stage) || holders[j].stage.Retired?))
    && (forall j | j in done :: j < |holders| && (done[j] ==> RecordOf(records, holders[j].run) == Tombstone))
  }

  /** Published generations that the monitor did not finish are running, and their runs are active. */
  predicate ActiveInv(active: set<string>, holders: seq<I.Holder>, hosted: set<nat>, done: map<nat, bool>) {
    forall j | j in hosted && j !in done :: j < |holders| && Running(holders[j].stage) && holders[j].run in active
  }

  /** A cached run can come back neither through the authority nor through the engine. */
  ghost predicate BarredInv(terminal: set<string>, holders: seq<I.Holder>, records: map<string, Record>,
                            done: map<nat, bool>) {
    forall run | run in terminal :: RecordOf(records, run) == Tombstone || Unretired(holders, done, run)
  }

  /** No run that the host executes is cached. */
  predicate Uncached(h: H.Host) {
    h.active.Keys !! h.cache.terminal.Keys
  }

  ghost predicate Barred(w: World) {
    && HostedInv(w.engine.holders, w.records, w.hosted, w.done)
    && BarredInv(w.host.cache.terminal.Keys, w.engine.holders, w.records, w.done)
  }

  ghost predicate Inv(w: World) {
    && I.Inv(w.engine) && H.CacheInv(w.host.cache) && w.host.cache.maxRuns >= 1 && Barred(w) && Uncached(w.host)
    && ActiveInv(w.host.active.Keys, w.engine.holders, w.hosted, w.done)
  }

  // ---------------------------------------------------------------------------
  // The engine moves
  // ---------------------------------------------------------------------------

  predicate Onward(a: I.Holder, b: I.Holder) {
    && b.run == a.run && (Running(a.stage) ==> Running(b.stage))
    && (a.stage.Completed? || a.stage.Retired? ==> b.stage == a.stage)
  }

  /** Running generations go on running, finished ones stay, and none changes its run. */
  predicate Advances(before: seq<I.Holder>, after: seq<I.Holder>) {
    |before| <= |after| && forall j | 0 <= j < |before| :: Onward(before[j], after[j])
  }

  lemma StageAdvances(holders: seq<I.Holder>, i: nat, stage: I.Stage)
    requires i < |holders| && Onward(holders[i], holders[i].(stage := stage))
    ensures Advances(holders, holders[i := holders[i].(stage := stage)])
  {
  }

  lemma CommitAdvances(e: I.Engine, i: nat, immediately: bool)
    ensures Advances(e.holders, I.Commit(e, i, immediately).holders)
  {
    if i < |e.holders| && e.holders[i].stage.Prepared? {
      StageAdvances(e.holders, i, I.Executing);
      StageAdvances(e.holders, i, I.Paused);
      StageAdvances(e.holders, i, I.Aborted);
    }
  }

  lemma ActivateAdvances(e: I.Engine, i: nat)
    ensures Advances(e.holders, I.Activate(e, i).holders) && Advances(e.holders, I.Complete(e, i).holders)
  {
    if i < |e.holders| && e.holders[i].stage.Paused? { StageAdvances(e.holders, i, I.Executing); }
    if i < |e.holders| && e.holders[i].stage.Executing? { StageAdvances(e.holders, i, I.Completed); }
  }

  lemma AbortAdvances(e: I.Engine, i: nat)
    ensures Advances(e.holders, I.AbortPrepared(e, i).holders) && Advances(e.holders, I.AbortPaused(e, i).holders)
  {
    if i < |e.holders| && (e.holders[i].stage.Prepared? || e.holders[i].stage.Paused?) {
      StageAdvances(e.holders, i, I.Aborted);
    }
  }

  lemma EngineAdvances(e: I.Engine, s: I.Step)
    requires !s.DoRetire?
    ensures Advances(e.holders, I.Apply(e, s).holders)
  {
    match s
    case DoPrepare(_) =>
    case DoAbortPrepared(i) => AbortAdvances(e, i);
    case DoCommit(i, immediately) => CommitAdvances(e, i, immediately);
    case DoActivate(i) => ActivateAdvances(e, i);
    case DoAbortPaused(i) => AbortAdvances(e, i);
    case DoComplete(i) => ActivateAdvances(e, i);
    case DoClose =>
  }

  lemma AdvancesBarred(terminal: set<string>, before: seq<I.Holder>, after: seq<I.Holder>, records: map<string, Record>,
                       hosted: set<nat>, done: map<nat, bool>)
    requires HostedInv(before, records, hosted, done) && BarredInv(terminal, before, records, done) && Advances(before, after)
    ensures HostedInv(after, records, hosted, done) && BarredInv(terminal, after, records, done)
  {
    forall j | j in hosted ensures j < |after| && (Running(after[j].stage) || after[j].stage.Retired?) {
      assert Onward(before[j], after[j]);
    }
    forall j | j in done ensures j < |after| && (done[j] ==> RecordOf(records, after[j].run) == Tombstone) {
      assert Onward(before[j], after[j]);
    }
    forall run | run in terminal && RecordOf(records, run) != Tombstone ensures Unretired(after, done, run) {
      var j :| j in done && j < |before| && before[j] == I.Holder(run, I.Completed);
      assert Onward(before[j], after[j]);
    }
  }

  lemma AdvancesActive(active: set<string>, before: seq<I.Holder>, after: seq<I.Holder>, hosted: set<nat>,
                       done: map<nat, bool>)
    requires ActiveInv(active, before, hosted, done) && Advances(before, after)
    ensures ActiveInv(active, after, hosted, done)
  {
    forall j | j in hosted && j !in done ensures j < |after| && Running(after[j].stage) && after[j].run in active {
      assert Onward(before[j], after[j]);
    }
  }

  lemma EngineKeeps(w: World, s: I.Step)
    requires Inv(w) && !s.DoRetire?
    ensures Inv(w.(engine := I.Apply(w.engine, s)))
  {
    I.ApplyKeeps(w.engine, s);
    EngineAdvances(w.engine, s);
    AdvancesBarred(w.host.cache.terminal.Keys, w.engine.holders, I.Apply(w.engine, s).holders, w.records, w.hosted, w.done);
    AdvancesActive(w.host.active.Keys, w.engine.holders, I.Apply(w.engine, s).holders, w.hosted, w.done);
  }

  lemma RetireBarred(terminal: set<string>, before: seq<I.Holder>, k: nat, records: map<string, Record>, hosted: set<nat>,
                     done: map<nat, bool>)
    requires HostedInv(before, records, hosted, done) && BarredInv(terminal, before, records, done)
    requires k < |before| && k in done && done[k]
    ensures var after := before[k := before[k].(stage := I.Retired)];
            HostedInv(after, records, hosted, done) && BarredInv(terminal, after, records, done)
  {
    var after := before[k := before[k].(stage := I.Retired)];
    forall run | run in terminal && RecordOf(records, run) != Tombstone ensures Unretired(after, done, run) {
      var j :| j in done && j < |before| && before[j] == I.Holder(run, I.Completed);
      assert after[j] == before[j];
    }
  }

  lemma RetiredHolders(e: I.Engine, j: nat)
    requires j < |e.holders|
    ensures I.Retire(e, j).holders == e.holders || I.Retire(e, j).holders == e.holders[j := e.holders[j].(stage := I.Retired)]
  {
  }

  lemma RetireKeepsEngine(e: I.Engine, j: nat, e1: I.Engine)
    requires I.Inv(e) && j < |e.holders| && e1 == I.Retire(e, j)
    ensures I.Inv(e1) && (e1.holders == e.holders || e1.holders == e.holders[j := e.holders[j].(stage := I.Retired)])
  {
    I.RetireKeeps(e, j);
    RetiredHolders(e, j);
  }

  lemma RetireKeepsWorld(w: World, j: nat, w1: World)
    requires Inv(w) && j in w.done && w.done[j] && w1 == w.(engine := I.Retire(w.engine, j))
    ensures Inv(w1)
  {
    RetireKeepsEngine(w.engine, j, w1.engine);
    RetireBarred(w.host.cache.terminal.Keys, w.engine.holders, j, w.records, w.hosted, w.done);
  }

  // ---------------------------------------------------------------------------
  // The authority and the host move
  // ---------------------------------------------------------------------------

  /** Records may move except from a terminal one. */
  lemma RecordBarred(terminal: set<string>, holders: seq<I.Holder>, records: map<string, Record>, hosted: set<nat>,
                     done: map<nat, bool>, run: string, record: Record)
    requires HostedInv(holders, records, hosted, done) && BarredInv(terminal, holders, records, done)
    requires RecordOf(records, run) == Tombstone ==> record == Tombstone
    ensures HostedInv(holders, records[run := record], hosted, done)
    ensures BarredInv(terminal, holders, records[run := record], done)
  {
    var records1 := records[run := record];
    forall x | RecordOf(records, x) == Tombstone ensures RecordOf(records1, x) == Tombstone {
    }
  }

  lemma MovesKeep(w: World, run: string, record: Record)
    requires Inv(w) && RecordOf(w.records, run) != Tombstone
    ensures Inv(w.(records := w.records[run := record]))
  {
    RecordBarred(w.host.cache.terminal.Keys, w.engine.holders, w.records, w.hosted, w.done, run, record);
  }

  /** The run of a generation that can be published is not cached. */
  lemma PublishIsFresh(w: World, i: nat, j: nat)
    requires Inv(w) && CanPublish(w, i, j)
    ensures w.host.slots[i].phase.run !in w.host.cache.terminal
  {
    var run := w.host.slots[i].phase.run;
    if run in w.host.cache.terminal {
      var k :| k in w.done && k < |w.engine.holders| && w.engine.holders[k] == I.Holder(run, I.Completed);
      I.OneGeneration(w.engine.ledger.records, w.engine.holders, j, k);
    }
  }

  lemma PublishActive(active: map<string, string>, holders: seq<I.Holder>, hosted: set<nat>, done: map<nat, bool>, j: nat,
                      client: string)
    requires ActiveInv(active.Keys, holders, hosted, done) && j < |holders| && Running(holders[j].stage)
    ensures ActiveInv(active[holders[j].run := client].Keys, holders, hosted + {j}, done)
  {
  }

  lemma PublishKeepsWorld(w: World, i: nat, j: nat, w1: World)
    requires Inv(w) && CanPublish(w, i, j) && w1 == w.(host := H.Publish(w.host, i), hosted := w.hosted + {j})
    ensures Inv(w1)
  {
    PublishIsFresh(w, i, j);
    PublishActive(w.host.active, w.engine.holders, w.hosted, w.done, j, w.host.slots[i].client);
  }

  lemma HostIsApart(h: H.Host, s: H.Step)
    requires !s.DoPublish? && !s.DoFinish?
    ensures H.Apply(h, s).cache == h.cache && H.Apply(h, s).active == h.active
  {
  }

  lemma HostKeeps(w: World, s: H.Step)
    requires Inv(w) && !s.DoPublish? && !s.DoFinish?
    ensures Inv(w.(host := H.Apply(w.host, s)))
  {
    HostIsApart(w.host, s);
  }

  /** What a finish leaves in the cache: the run itself and nothing that was not there. */
  lemma FinishCaches(h: H.Host, run: string, bytes: nat, h1: H.Host)
    requires H.CacheInv(h.cache) && h.cache.maxRuns >= 1 && run in h.active && run !in h.cache.terminal
    requires h1 == H.FinishRun(h, run, bytes)
    ensures H.CacheInv(h1.cache) && run in h1.cache.terminal && h1.cache.maxRuns == h.cache.maxRuns
    ensures h1.active.Keys == h.active.Keys - {run} && h1.cache.terminal.Keys <= h.cache.terminal.Keys + {run}
  {
    H.FinishKeeps(h.cache, run, bytes, H.Record(h.cache, run, H.Kept(h.cache, bytes)));
  }

  /** A finished generation bars its run by its identity, and by its record once the snapshot was issued. */
  lemma FinishBarred(terminal: set<string>, terminal1: set<string>, holders: seq<I.Holder>, records: map<string, Record>,
                     hosted: set<nat>, done: map<nat, bool>, j: nat, clean: bool)
    requires HostedInv(holders, records, hosted, done) && BarredInv(terminal, holders, records, done)
    requires j in hosted && holders[j].stage.Completed? && terminal1 <= terminal + {holders[j].run}
    requires clean ==> RecordOf(records, holders[j].run) == Tombstone
    ensures HostedInv(holders, records, hosted, done[j := clean]) && BarredInv(terminal1, holders, records, done[j := clean])
  {
    var done1 := done[j := clean];
    forall run | run in terminal1 && RecordOf(records, run) != Tombstone ensures Unretired(holders, done1, run) {
      if run == holders[j].run {
        assert j in done1;
      } else {
        var k :| k in done && k < |holders| && holders[k] == I.Holder(run, I.Completed);
        assert k in done1;
      }
    }
  }

  /** Finishing a generation takes its run from the active table, which no other unfinished generation shares. */
  lemma FinishActive(records: map<string, I.Record>, active: set<string>, holders: seq<I.Holder>, hosted: set<nat>,
                     done: map<nat, bool>, j: nat, clean: bool)
    requires I.GenerationsInv(records, holders) && ActiveInv(active, holders, hosted, done)
    requires j in hosted && j !in done && j < |holders|
    ensures ActiveInv(active - {holders[j].run}, holders, hosted, done[j := clean])
  {
    forall k | k in hosted && k !in done && k != j ensures holders[k].run != holders[j].run {
      if holders[k].run == holders[j].run { I.OneGeneration(records, holders, j, k); }
    }
  }

  lemma FinishKeepsWorld(w: World, j: nat, bytes: nat, issued: bool, clean: bool, w1: World)
    requires Inv(w) && CanFinish(w, j) && w1 == Finish(w, j, bytes, issued, clean)
    ensures Inv(w1) && w.engine.holders[j].run in w1.host.cache.terminal
  {
    var run := w.engine.holders[j].run;
    FinishCaches(w.host, run, if issued then bytes else 0, w1.host);
    if issued { RecordBarred(w.host.cache.terminal.Keys, w.engine.holders, w.records, w.hosted, w.done, run, Tombstone); }
    FinishActive(w.engine.ledger.records, w.host.active.Keys, w.engine.holders, w.hosted, w.done, j, issued && clean);
    FinishBarred(w.host.cache.terminal.Keys, w1.host.cache.terminal.Keys, w.engine.holders, w1.records, w.hosted, w.done, j,
                 issued && clean);
  }

  lemma OthersKeep(w: World, s: Step)
    requires Inv(w) && (s.InHost? || s.InEngine? || s.Moves?)
    ensures Inv(Apply(w, s))
  {
    match s
    case InHost(x) => if !x.DoPublish? && !x.DoFinish? { HostKeeps(w, x); }
    case InEngine(x) => if !x.DoRetire? { EngineKeeps(w, x); }
    case Moves(run, record) => if RecordOf(w.records, run) != Tombstone { MovesKeep(w, run, record); }
  }

  /** The monitor's steps, written out. */
  lemma StepIs(w: World, s: Step)
    ensures s.Publishes? && CanPublish(w, s.slot, s.holder) ==>
              Apply(w, s) == w.(host := H.Publish(w.host, s.slot), hosted := w.hosted + {s.holder})
    ensures s.Finishes? && CanFinish(w, s.holder) ==> Apply(w, s) == Finish(w, s.holder, s.bytes, s.issued, s.clean)
    ensures s.Retires? && s.holder in w.done && w.done[s.holder] ==> Apply(w, s) == w.(engine := I.Retire(w.engine, s.holder))
  {
  }

  lemma MonitorKeeps(w: World, s: Step)
    requires Inv(w) && (s.Publishes? || s.Finishes? || s.Retires?)
    ensures Inv(Apply(w, s))
  {
    StepIs(w, s);
    match s
    case Publishes(i, j) => if CanPublish(w, i, j) { PublishKeepsWorld(w, i, j, Apply(w, s)); }
    case Finishes(j, bytes, issued, clean) =>
      if CanFinish(w, j) { FinishKeepsWorld(w, j, bytes, issued, clean, Apply(w, s)); }
    case Retires(j) => if j in w.done && w.done[j] { RetireKeepsWorld(w, j, Apply(w, s)); }
  }

  lemma ApplyKeeps(w: World, s: Step)
    requires Inv(w)
    ensures Inv(Apply(w, s))
  {
    if s.InHost? || s.InEngine? || s.Moves? { OthersKeep(w, s); } else { MonitorKeeps(w, s); }
  }

  lemma {:induction false} ExecKeeps(limit: nat, maxRuns: nat, maxBytes: nat, maxEntries: nat, maxCharge: nat,
                                     steps: seq<Step>)
    requires H.ValidConfig(limit, maxRuns, maxBytes)
    ensures Inv(Exec(NewWorld(limit, maxRuns, maxBytes, maxEntries, maxCharge), steps))
  {
    var w0 := NewWorld(limit, maxRuns, maxBytes, maxEntries, maxCharge);
    if steps == [] {
      I.ExecKeeps(maxEntries, maxCharge, []);
    } else {
      ExecKeeps(limit, maxRuns, maxBytes, maxEntries, maxCharge, steps[..|steps| - 1]);
      ApplyKeeps(Exec(w0, steps[..|steps| - 1]), steps[|steps| - 1]);
    }
  }

  lemma {:induction false} ConfigStays(w: World, steps: seq<Step>)
    ensures var w1 := Exec(w, steps);
            w1.host.limit == w.host.limit && w1.host.cache.maxRuns == w.host.cache.maxRuns
            && w1.host.cache.maxBytes == w.host.cache.maxBytes
  {
    if steps != [] {
      ConfigStays(w, steps[..|steps| - 1]);
      StepConfig(Exec(w, steps[..|steps| - 1]), steps[|steps| - 1]);
    }
  }

  lemma StepConfig(w: World, s: Step)
    ensures var h, h1 := w.host, Apply(w, s).host;
            h1.limit == h.limit && h1.cache.maxRuns == h.cache.maxRuns && h1.cache.maxBytes == h.cache.maxBytes
  {
    match s
    case InHost(x) => H.ConfigStays(w.host, x);
    case Publishes(i, _) => H.ConfigStays(w.host, H.DoPublish(i));
    case Finishes(j, bytes, issued, _) =>
      if CanFinish(w, j) { H.ConfigStays(w.host, H.DoFinish(w.engine.holders[j].run, if issued then bytes else 0)); }
    case _ =>
  }

  /** In every run the terminal byte count is the sum over cached runs and both cache bounds hold; a run that the
      host executes is never cached; and every finish leaves its run in the cache, as the newest. */
  lemma {:induction false} CacheAlways(limit: nat, maxRuns: nat, maxBytes: nat, maxEntries: nat, maxCharge: nat,
                                       steps: seq<Step>, w: World)
    requires H.ValidConfig(limit, maxRuns, maxBytes)
    requires w == Exec(NewWorld(limit, maxRuns, maxBytes, maxEntries, maxCharge), steps)
    ensures H.CacheInv(w.host.cache) && w.host.cache.maxRuns == maxRuns && w.host.cache.maxBytes == maxBytes
    ensures Uncached(w.host)
    ensures forall j: nat, bytes: nat, issued, clean | CanFinish(w, j) ::
              w.engine.holders[j].run in Finish(w, j, bytes, issued, clean).host.cache.terminal
  {
    ExecKeeps(limit, maxRuns, maxBytes, maxEntries, maxCharge, steps);
    ConfigStays(NewWorld(limit, maxRuns, maxBytes, maxEntries, maxCharge), steps);
    forall j: nat, bytes: nat, issued, clean | CanFinish(w, j)
      ensures w.engine.holders[j].run in Finish(w, j, bytes, issued, clean).host.cache.terminal
    {
      FinishKeepsWorld(w, j, bytes, issued, clean, Finish(w, j, bytes, issued, clean));
    }
  }

  /** A run that was ever finished by the host is never published again while it is cached. */
  lemma {:induction false} CachedIsBarred(limit: nat, maxRuns: nat, maxBytes: nat, maxEntries: nat, maxCharge: nat,
                                          steps: seq<Step>, w: World, i: nat, j: nat)
    requires H.ValidConfig(limit, maxRuns, maxBytes)
    requires w == Exec(NewWorld(limit, maxRuns, maxBytes, maxEntries, maxCharge), steps) && CanPublish(w, i, j)
    ensures w.host.slots[i].phase.run !in w.host.cache.terminal
  {
    ExecKeeps(limit, maxRuns, maxBytes, maxEntries, maxCharge, steps);
    PublishIsFresh(w, i, j);
  }
}
