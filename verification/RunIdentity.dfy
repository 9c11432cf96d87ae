/** The run identity ledger (agent/run_identity.go) and the engine's registry that draws on it
    (agent/prepared_execution.go, agent/agent.go). */
module RunIdentity {
  import opened Basics

  const ENTRY_BYTES := 128

  datatype State = Reserved | Active | Tombstone

  datatype Record = Record(token: nat, charge: nat, state: State)

  datatype Ledger = Ledger(maxEntries: nat, maxBytes: nat, records: map<string, Record>, nextToken: nat, bytes: int,
                           reserved: int, active: int, tombstones: int)

  function NewLedger(maxEntries: nat, maxBytes: nat): (l: Ledger) {
    Ledger(maxEntries, maxBytes, map[], 0, 0, 0, 0, 0)
  }

  function ChargeOf(run: string): (n: nat) {
    ENTRY_BYTES + |run|
  }

  function Entries(l: Ledger): (n: int) {
    l.reserved + l.active + l.tombstones
  }

  predicate CanReserve(l: Ledger, run: string) {
    && run !in l.records && Entries(l) + 1 <= l.maxEntries && l.bytes + ChargeOf(run) <= l.maxBytes
    && l.nextToken < MAX_UINT64
  }

  function Reserve(l: Ledger, run: string): (r: Ledger)
    requires CanReserve(l, run)
  {
    l.(nextToken := l.nextToken + 1, records := l.records[run := Record(l.nextToken + 1, ChargeOf(run), Reserved)],
       bytes := l.bytes + ChargeOf(run), reserved := l.reserved + 1)
  }

  /** The named generation of a run is in this state. */
  predicate Holds(l: Ledger, run: string, token: nat, state: State) {
    run in l.records && l.records[run].token == token && l.records[run].state == state
  }

  function Less(l: Ledger, s: State): (r: Ledger) {
    match s
    case Reserved => l.(reserved := l.reserved - 1)
    case Active => l.(active := l.active - 1)
    case Tombstone => l.(tombstones := l.tombstones - 1)
  }

  function More(l: Ledger, s: State): (r: Ledger) {
    match s
    case Reserved => l
    case Active => l.(active := l.active + 1)
    case Tombstone => l.(tombstones := l.tombstones + 1)
  }

  /** Move a generation to a later state; anything but the exact generation in the exact state is refused. */
  function Transition(l: Ledger, run: string, token: nat, from: State, to: State): (r: Ledger)
    requires Holds(l, run, token, from) && !to.Reserved?
  {
    More(Less(l, from), to).(records := l.records[run := l.records[run].(state := to)])
  }

  /** Remove a generation: an aborted reservation or a retired tombstone. */
  function Remove(l: Ledger, run: string, token: nat, from: State): (r: Ledger)
    requires Holds(l, run, token, from)
  {
    Less(l, from).(records := l.records - {run}, bytes := l.bytes - l.records[run].charge)
  }

  // ---------------------------------------------------------------------------
  // Exact counters
  // ---------------------------------------------------------------------------

  function InState(records: map<string, Record>, s: State): (r: set<string>) {
    set run | run in records && records[run].state == s
  }

  ghost function Charges(records: map<string, Record>): (n: nat)
    decreases |records|
  {
    if records == map[] then 0 else
      var run := Pick(records);
      records[run].charge + Charges(records - {run})
  }

  lemma {:induction false} ChargesAt(records: map<string, Record>, run: string)
    requires run in records
    ensures Charges(records) == records[run].charge + Charges(records - {run})
    decreases |records|
  {
    var x := Pick(records);
    if x != run {
      ChargesAt(records - {x}, run);
      ChargesAt(records - {run}, x);
      assert records - {x} - {run} == records - {run} - {x};
    }
  }

  lemma ChargesPut(records: map<string, Record>, run: string, rec: Record)
    ensures Charges(records[run := rec]) == rec.charge + Charges(records - {run})
  {
    ChargesAt(records[run := rec], run);
    assert records[run := rec] - {run} == records - {run};
  }

  /** Counters are the numbers of records in each state, bytes the sum of their charges, both within
      the limits. */
  ghost predicate Exact(l: Ledger) {
    && l.reserved == |InState(l.records, Reserved)| && l.active == |InState(l.records, Active)|
    && l.tombstones == |InState(l.records, Tombstone)|
    && l.bytes == Charges(l.records) <= l.maxBytes && Entries(l) <= l.maxEntries
  }

  lemma InStatePut(records: map<string, Record>, run: string, rec: Record, s: State)
    ensures |InState(records[run := rec], s)|
            == |InState(records - {run}, s)| + (if rec.state == s then 1 else 0)
  {
    if rec.state == s {
      assert InState(records[run := rec], s) == InState(records - {run}, s) + {run};
    } else {
      assert InState(records[run := rec], s) == InState(records - {run}, s);
    }
  }

  lemma InStateRemove(records: map<string, Record>, run: string, s: State)
    requires run in records
    ensures |InState(records - {run}, s)| == |InState(records, s)| - (if records[run].state == s then 1 else 0)
  {
    if records[run].state == s {
      assert InState(records - {run}, s) == InState(records, s) - {run};
    } else {
      assert InState(records - {run}, s) == InState(records, s);
    }
  }

  lemma ReserveExact(l: Ledger, run: string)
    requires Exact(l) && CanReserve(l, run)
    ensures Exact(Reserve(l, run))
  {
    var rec := Record(l.nextToken + 1, ChargeOf(run), Reserved);
    assert l.records - {run} == l.records;
    ChargesPut(l.records, run, rec);
    forall s: State ensures |InState(l.records[run := rec], s)| == |InState(l.records, s)| + (if s.Reserved? then 1 else 0) {
      InStatePut(l.records, run, rec, s);
    }
  }

  lemma TransitionExact(l: Ledger, run: string, token: nat, from: State, to: State)
    requires Exact(l) && Holds(l, run, token, from) && !to.Reserved?
    ensures Exact(Transition(l, run, token, from, to))
  {
    var rec := l.records[run].(state := to);
    ChargesPut(l.records, run, rec);
    ChargesAt(l.records, run);
    forall s: State
      ensures |InState(l.records[run := rec], s)|
              == |InState(l.records, s)| - (if s == from then 1 else 0) + (if s == to then 1 else 0)
    {
      InStatePut(l.records, run, rec, s);
      InStateRemove(l.records, run, s);
    }
  }

  lemma RemoveExact(l: Ledger, run: string, token: nat, from: State)
    requires Exact(l) && Holds(l, run, token, from)
    ensures Exact(Remove(l, run, token, from))
  {
    ChargesAt(l.records, run);
    forall s: State
      ensures |InState(l.records - {run}, s)| == |InState(l.records, s)| - (if s == from then 1 else 0)
    {
      InStateRemove(l.records, run, s);
    }
  }

  // ---------------------------------------------------------------------------
  // The engine
  // ---------------------------------------------------------------------------

  /** One prepared execution and the run it becomes. */
  datatype Stage = Prepared | Paused | Executing | Completed | Aborted | Retired

  datatype Holder = Holder(run: string, stage: Stage)

  /** Holder `i` owns token `i + 1`. `drained` says whether the current drained channel is closed;
      `faults` counts refused ledger operations and second closes of one channel. */
  datatype Engine = Engine(ledger: Ledger, closed: bool, registered: map<string, nat>, drained: bool, holders: seq<Holder>,
                           faults: nat)

  function NewEngine(maxEntries: nat, maxBytes: nat): (e: Engine) {
    Engine(NewLedger(maxEntries, maxBytes), false, map[], true, [], 0)
  }

  function SetStage(e: Engine, i: nat, stage: Stage): (r: Engine)
    requires i < |e.holders|
  {
    e.(holders := e.holders[i := e.holders[i].(stage := stage)])
  }

  function Fault(e: Engine): (r: Engine) {
    e.(faults := e.faults + 1)
  }

  function Prepare(e: Engine, run: string): (r: Engine) {
    if e.closed || !CanReserve(e.ledger, run) then e
    else e.(ledger := Reserve(e.ledger, run), holders := e.holders + [Holder(run, Prepared)])
  }

  /** Remove a holder's own generation from the ledger, or count a fault. */
  function Drop(e: Engine, i: nat, from: State): (r: Engine)
    requires i < |e.holders|
  {
    if Holds(e.ledger, e.holders[i].run, i + 1, from) then e.(ledger := Remove(e.ledger, e.holders[i].run, i + 1, from))
    else Fault(e)
  }

  function Promote(e: Engine, i: nat, from: State, to: State): (r: Engine)
    requires i < |e.holders| && !to.Reserved?
  {
    if Holds(e.ledger, e.holders[i].run, i + 1, from) then
      e.(ledger := Transition(e.ledger, e.holders[i].run, i + 1, from, to))
    else Fault(e)
  }

  function AbortPrepared(e: Engine, i: nat): (r: Engine) {
    if i < |e.holders| && e.holders[i].stage.Prepared? then SetStage(Drop(e, i, Reserved), i, Aborted) else e
  }

  /** Register a run; the first one opens a new drained channel. */
  function Register(e: Engine, i: nat): (r: Engine)
    requires i < |e.holders|
  {
    e.(registered := e.registered[e.holders[i].run := i], drained := if e.registered == map[] then false else e.drained)
  }

  function Commit(e: Engine, i: nat, immediately: bool): (r: Engine) {
    if i >= |e.holders| || !e.holders[i].stage.Prepared? then e
    else if e.closed then AbortPrepared(e, i)
    else if immediately then SetStage(Register(Promote(e, i, Reserved, Active), i), i, Executing)
    else SetStage(Register(e, i), i, Paused)
  }

  function Activate(e: Engine, i: nat): (r: Engine) {
    if i < |e.holders| && e.holders[i].stage.Paused? then SetStage(Promote(e, i, Reserved, Active), i, Executing) else e
  }

  /** Unregister a run; the last one closes the drained channel. */
  function Unregister(e: Engine, i: nat): (r: Engine)
    requires i < |e.holders|
  {
    var rest := e.registered - {e.holders[i].run};
    if rest != map[] then e.(registered := rest)
    else if e.drained then Fault(e.(registered := rest))
    else e.(registered := rest, drained := true)
  }

  function AbortPaused(e: Engine, i: nat): (r: Engine) {
    if i < |e.holders| && e.holders[i].stage.Paused? then SetStage(Unregister(Drop(e, i, Reserved), i), i, Aborted) else e
  }

  function Complete(e: Engine, i: nat): (r: Engine) {
    if i < |e.holders| && e.holders[i].stage.Executing? then
      SetStage(Unregister(Promote(e, i, Active, Tombstone), i), i, Completed)
    else e
  }

  /** The retirement capability of one generation; a stale or early use changes nothing. */
  function Retire(e: Engine, i: nat): (r: Engine) {
    if i < |e.holders| && Holds(e.ledger, e.holders[i].run, i + 1, Tombstone) then SetStage(Drop(e, i, Tombstone), i, Retired)
    else e
  }

  datatype Step =
    | DoPrepare(run: string)
    | DoAbortPrepared(holder: nat)
    | DoCommit(holder: nat, immediately: bool)
    | DoActivate(holder: nat)
    | DoAbortPaused(holder: nat)
    | DoComplete(holder: nat)
    | DoRetire(holder: nat)
    | DoClose

  function Apply(e: Engine, s: Step): (r: Engine) {
    match s
    case DoPrepare(run) => Prepare(e, run)
    case DoAbortPrepared(i) => AbortPrepared(e, i)
    case DoCommit(i, immediately) => Commit(e, i, immediately)
    case DoActivate(i) => Activate(e, i)
    case DoAbortPaused(i) => AbortPaused(e, i)
    case DoComplete(i) => Complete(e, i)
    case DoRetire(i) => Retire(e, i)
    case DoClose => e.(closed := true)
  }

  function Exec(e: Engine, steps: seq<Step>): (r: Engine) {
    if steps == [] then e else Apply(Exec(e, steps[..|steps| - 1]), steps[|steps| - 1])
  }

  // ---------------------------------------------------------------------------
  // What every run keeps
  // ---------------------------------------------------------------------------

  predicate Live(stage: Stage) {
    !stage.Aborted? && !stage.Retired?
  }

  function StateOf(stage: Stage): (s: State) {
    match stage
    case Executing => Active
    case Completed => Tombstone
    case _ => Reserved
  }

  /** A live holder's record is its own generation, in its own state. */
  predicate HolderOk(records: map<string, Record>, x: Holder, i: nat) {
    Live(x.stage) ==> x.run in records && records[x.run].token == i + 1 && records[x.run].state == StateOf(x.stage)
  }

  predicate RecordOk(records: map<string, Record>, holders: seq<Holder>, run: string)
    requires run in records
  {
    var t := records[run].token;
    1 <= t <= |holders| && holders[t - 1].run == run && Live(holders[t - 1].stage) && records[run].charge == ChargeOf(run)
  }

  predicate OnBoard(stage: Stage) {
    stage.Paused? || stage.Executing?
  }

  predicate GenerationsInv(records: map<string, Record>, holders: seq<Holder>) {
    && (forall i | 0 <= i < |holders| :: HolderOk(records, holders[i], i))
    && (forall run | run in records :: RecordOk(records, holders, run))
  }

  /** The registry lists exactly the paused and executing runs. */
  predicate RegistryInv(registered: map<string, nat>, holders: seq<Holder>) {
    && (forall run | run in registered ::
          registered[run] < |holders| && holders[registered[run]].run == run && OnBoard(holders[registered[run]].stage))
    && (forall i | 0 <= i < |holders| && OnBoard(holders[i].stage) ::
          holders[i].run in registered && registered[holders[i].run] == i)
  }

  ghost predicate Inv(e: Engine) {
    && Exact(e.ledger) && e.ledger.nextToken == |e.holders|
    && GenerationsInv(e.ledger.records, e.holders) && RegistryInv(e.registered, e.holders)
    && e.drained == (e.registered == map[]) && e.faults == 0
  }

  /** Two live holders of one run are the same holder. */
  lemma OneGeneration(records: map<string, Record>, holders: seq<Holder>, i: nat, j: nat)
    requires GenerationsInv(records, holders) && i < |holders| && j < |holders|
    requires Live(holders[i].stage) && Live(holders[j].stage) && holders[i].run == holders[j].run
    ensures i == j
  {
    assert HolderOk(records, holders[i], i) && HolderOk(records, holders[j], j);
  }

  /** A new holder with the next token, and its record. */
  lemma AddGenerations(records: map<string, Record>, holders: seq<Holder>, run: string)
    requires GenerationsInv(records, holders) && run !in records
    ensures GenerationsInv(records[run := Record(|holders| + 1, ChargeOf(run), Reserved)], holders + [Holder(run, Prepared)])
  {
    var records1, holders1 := records[run := Record(|holders| + 1, ChargeOf(run), Reserved)], holders + [Holder(run, Prepared)];
    forall i | 0 <= i < |holders1| ensures HolderOk(records1, holders1[i], i) {
      if i < |holders| { assert HolderOk(records, holders[i], i); }
    }
    forall x | x in records1 ensures RecordOk(records1, holders1, x) {
      if x != run { assert RecordOk(records, holders, x); }
    }
  }

  lemma RegistryGrows(registered: map<string, nat>, holders: seq<Holder>, x: Holder)
    requires RegistryInv(registered, holders) && !OnBoard(x.stage)
    ensures RegistryInv(registered, holders + [x])
  {
  }

  lemma ReserveLedger(l: Ledger, run: string, l1: Ledger)
    requires Exact(l) && CanReserve(l, run) && l1 == Reserve(l, run)
    ensures Exact(l1) && l1.nextToken == l.nextToken + 1
    ensures l1.records == l.records[run := Record(l.nextToken + 1, ChargeOf(run), Reserved)]
  {
    ReserveExact(l, run);
  }

  lemma ReservedKeeps(e: Engine, run: string, r: Engine)
    requires Inv(e) && CanReserve(e.ledger, run)
    requires r == e.(ledger := Reserve(e.ledger, run), holders := e.holders + [Holder(run, Prepared)])
    ensures Inv(r)
  {
    ReserveLedger(e.ledger, run, r.ledger);
    AddGenerations(e.ledger.records, e.holders, run);
    RegistryGrows(e.registered, e.holders, Holder(run, Prepared));
  }

  lemma PrepareKeeps(e: Engine, run: string)
    requires Inv(e)
    ensures Inv(Prepare(e, run))
  {
    if !e.closed && CanReserve(e.ledger, run) { ReservedKeeps(e, run, Prepare(e, run)); }
  }

  /** Removing a live holder's record with the holder. */
  lemma RemoveGenerations(records: map<string, Record>, holders: seq<Holder>, i: nat, stage: Stage)
    requires GenerationsInv(records, holders) && i < |holders| && Live(holders[i].stage) && !Live(stage)
    ensures GenerationsInv(records - {holders[i].run}, holders[i := holders[i].(stage := stage)])
  {
    var run := holders[i].run;
    var holders1 := holders[i := holders[i].(stage := stage)];
    assert HolderOk(records, holders[i], i);
    forall j | 0 <= j < |holders1| ensures HolderOk(records - {run}, holders1[j], j) {
      assert HolderOk(records, holders[j], j);
      if Live(holders1[j].stage) && holders[j].run == run { OneGeneration(records, holders, i, j); }
    }
    forall x | x in records - {run} ensures RecordOk(records - {run}, holders1, x) { assert RecordOk(records, holders, x); }
  }

  /** Moving a live holder and its record together. */
  lemma MoveGenerations(records: map<string, Record>, holders: seq<Holder>, i: nat, stage: Stage)
    requires GenerationsInv(records, holders) && i < |holders| && Live(holders[i].stage) && Live(stage)
    requires holders[i].run in records
    ensures GenerationsInv(records[holders[i].run := records[holders[i].run].(state := StateOf(stage))],
                           holders[i := holders[i].(stage := stage)])
  {
    var run := holders[i].run;
    var records1 := records[run := records[run].(state := StateOf(stage))];
    var holders1 := holders[i := holders[i].(stage := stage)];
    assert HolderOk(records, holders[i], i);
    forall j | 0 <= j < |holders1| ensures HolderOk(records1, holders1[j], j) {
      assert HolderOk(records, holders[j], j);
      if j != i && Live(holders[j].stage) && holders[j].run == run { OneGeneration(records, holders, i, j); }
    }
    forall x | x in records1 ensures RecordOk(records1, holders1, x) { assert RecordOk(records, holders, x); }
  }

  lemma RegistryStage(registered: map<string, nat>, holders: seq<Holder>, i: nat, stage: Stage)
    requires RegistryInv(registered, holders) && i < |holders| && OnBoard(holders[i].stage) == OnBoard(stage)
    ensures RegistryInv(registered, holders[i := holders[i].(stage := stage)])
  {
  }

  /** A run about to be registered is not registered yet. */
  lemma NotYetOnBoard(records: map<string, Record>, registered: map<string, nat>, holders: seq<Holder>, i: nat)
    requires GenerationsInv(records, holders) && RegistryInv(registered, holders)
    requires i < |holders| && holders[i].stage.Prepared?
    ensures holders[i].run !in registered
  {
    if holders[i].run in registered { OneGeneration(records, holders, i, registered[holders[i].run]); }
  }

  lemma RegistryAdd(registered: map<string, nat>, holders: seq<Holder>, i: nat, stage: Stage)
    requires RegistryInv(registered, holders) && i < |holders| && holders[i].run !in registered && OnBoard(stage)
    ensures RegistryInv(registered[holders[i].run := i], holders[i := holders[i].(stage := stage)])
  {
  }

  lemma RegistryRemove(registered: map<string, nat>, holders: seq<Holder>, i: nat, stage: Stage)
    requires RegistryInv(registered, holders) && i < |holders| && OnBoard(holders[i].stage) && !OnBoard(stage)
    ensures RegistryInv(registered - {holders[i].run}, holders[i := holders[i].(stage := stage)])
  {
  }

  lemma AbortPreparedKeeps(e: Engine, i: nat)
    requires Inv(e)
    ensures Inv(AbortPrepared(e, i))
  {
    if i < |e.holders| && e.holders[i].stage.Prepared? {
      assert HolderOk(e.ledger.records, e.holders[i], i);
      RemoveExact(e.ledger, e.holders[i].run, i + 1, Reserved);
      RemoveGenerations(e.ledger.records, e.holders, i, Aborted);
      RegistryStage(e.registered, e.holders, i, Aborted);
    }
  }

  lemma CommitPausedKeeps(e: Engine, i: nat)
    requires Inv(e) && i < |e.holders| && e.holders[i].stage.Prepared?
    ensures Inv(SetStage(Register(e, i), i, Paused))
  {
    var run := e.holders[i].run;
    assert HolderOk(e.ledger.records, e.holders[i], i);
    NotYetOnBoard(e.ledger.records, e.registered, e.holders, i);
    MoveGenerations(e.ledger.records, e.holders, i, Paused);
    assert e.ledger.records[run := e.ledger.records[run].(state := Reserved)] == e.ledger.records;
    RegistryAdd(e.registered, e.holders, i, Paused);
  }

  lemma CommitActiveKeeps(e: Engine, i: nat)
    requires Inv(e) && i < |e.holders| && e.holders[i].stage.Prepared?
    ensures Inv(SetStage(Register(Promote(e, i, Reserved, Active), i), i, Executing))
  {
    assert HolderOk(e.ledger.records, e.holders[i], i);
    NotYetOnBoard(e.ledger.records, e.registered, e.holders, i);
    TransitionExact(e.ledger, e.holders[i].run, i + 1, Reserved, Active);
    MoveGenerations(e.ledger.records, e.holders, i, Executing);
    RegistryAdd(e.registered, e.holders, i, Executing);
  }

  lemma CommitKeeps(e: Engine, i: nat, immediately: bool)
    requires Inv(e)
    ensures Inv(Commit(e, i, immediately))
  {
    AbortPreparedKeeps(e, i);
    if i < |e.holders| && e.holders[i].stage.Prepared? {
      if immediately { CommitActiveKeeps(e, i); } else { CommitPausedKeeps(e, i); }
    }
  }

  lemma ActivateKeeps(e: Engine, i: nat)
    requires Inv(e)
    ensures Inv(Activate(e, i))
  {
    if i < |e.holders| && e.holders[i].stage.Paused? {
      assert HolderOk(e.ledger.records, e.holders[i], i);
      TransitionExact(e.ledger, e.holders[i].run, i + 1, Reserved, Active);
      MoveGenerations(e.ledger.records, e.holders, i, Executing);
      RegistryStage(e.registered, e.holders, i, Executing);
    }
  }

  /** Leaving the registry closes the drained channel exactly if it was the last run. */
  lemma UnregisterIs(e: Engine, i: nat, stage: Stage, r: Engine)
    requires i < |e.holders| && e.holders[i].run in e.registered && !e.drained
    requires r == SetStage(Unregister(e, i), i, stage)
    ensures r.ledger == e.ledger && r.registered == e.registered - {e.holders[i].run}
    ensures r.holders == e.holders[i := e.holders[i].(stage := stage)]
    ensures r.drained == (r.registered == map[]) && r.faults == e.faults
  {
  }

  lemma AbortPausedKeeps(e: Engine, i: nat)
    requires Inv(e)
    ensures Inv(AbortPaused(e, i))
  {
    if i < |e.holders| && e.holders[i].stage.Paused? {
      assert HolderOk(e.ledger.records, e.holders[i], i);
      assert e.holders[i].run in e.registered;
      RemoveExact(e.ledger, e.holders[i].run, i + 1, Reserved);
      RemoveGenerations(e.ledger.records, e.holders, i, Aborted);
      RegistryRemove(e.registered, e.holders, i, Aborted);
      UnregisterIs(Drop(e, i, Reserved), i, Aborted, AbortPaused(e, i));
    }
  }

  lemma CompleteKeeps(e: Engine, i: nat)
    requires Inv(e)
    ensures Inv(Complete(e, i))
  {
    if i < |e.holders| && e.holders[i].stage.Executing? {
      assert HolderOk(e.ledger.records, e.holders[i], i);
      assert e.holders[i].run in e.registered;
      TransitionExact(e.ledger, e.holders[i].run, i + 1, Active, Tombstone);
      MoveGenerations(e.ledger.records, e.holders, i, Completed);
      RegistryRemove(e.registered, e.holders, i, Completed);
      UnregisterIs(Promote(e, i, Active, Tombstone), i, Completed, Complete(e, i));
    }
  }

  lemma RetireKeeps(e: Engine, i: nat)
    requires Inv(e)
    ensures Inv(Retire(e, i))
  {
    if i < |e.holders| && Holds(e.ledger, e.holders[i].run, i + 1, Tombstone) {
      assert RecordOk(e.ledger.records, e.holders, e.holders[i].run) && HolderOk(e.ledger.records, e.holders[i], i);
      RemoveExact(e.ledger, e.holders[i].run, i + 1, Tombstone);
      RemoveGenerations(e.ledger.records, e.holders, i, Retired);
      RegistryStage(e.registered, e.holders, i, Retired);
    }
  }

  lemma CloseKeeps(e: Engine)
    requires Inv(e)
    ensures Inv(e.(closed := true))
  {
  }

  /** The later steps, written out. */
  lemma ApplyIs(e: Engine, s: Step)
    ensures s.DoActivate? ==> Apply(e, s) == Activate(e, s.holder)
    ensures s.DoAbortPaused? ==> Apply(e, s) == AbortPaused(e, s.holder)
    ensures s.DoComplete? ==> Apply(e, s) == Complete(e, s.holder)
    ensures s.DoRetire? ==> Apply(e, s) == Retire(e, s.holder)
    ensures s.DoClose? ==> Apply(e, s) == e.(closed := true)
  {
  }

  lemma ApplyKeeps(e: Engine, s: Step)
    requires Inv(e)
    ensures Inv(Apply(e, s))
  {
    ApplyIs(e, s);
    match s
    case DoPrepare(run) => PrepareKeeps(e, run);
    case DoAbortPrepared(i) => AbortPreparedKeeps(e, i);
    case DoCommit(i, immediately) => CommitKeeps(e, i, immediately);
    case DoActivate(i) => ActivateKeeps(e, i);
    case DoAbortPaused(i) => AbortPausedKeeps(e, i);
    case DoComplete(i) => CompleteKeeps(e, i);
    case DoRetire(i) => RetireKeeps(e, i);
    case DoClose => CloseKeeps(e);
  }

  lemma {:induction false} ExecKeeps(maxEntries: nat, maxBytes: nat, steps: seq<Step>)
    ensures Inv(Exec(NewEngine(maxEntries, maxBytes), steps))
  {
    if steps == [] {
      assert InState(map[], Reserved) == {} && InState(map[], Active) == {} && InState(map[], Tombstone) == {};
    } else {
      ExecKeeps(maxEntries, maxBytes, steps[..|steps| - 1]);
      ApplyKeeps(Exec(NewEngine(maxEntries, maxBytes), steps[..|steps| - 1]), steps[|steps| - 1]);
    }
  }

  /** In every run, the counters equal the records in each state and the bytes their charges, within
      the limits; every registered run has a reserved or active record; the drained channel is closed
      exactly when nothing is registered; and no ledger operation is ever refused nor a channel closed
      twice. */
  lemma {:induction false} LedgerAlways(maxEntries: nat, maxBytes: nat, steps: seq<Step>, e: Engine)
    requires e == Exec(NewEngine(maxEntries, maxBytes), steps)
    ensures Exact(e.ledger) && e.faults == 0 && e.drained == (e.registered == map[])
    ensures forall run | run in e.registered ::
              run in e.ledger.records && (e.ledger.records[run].state == Reserved || e.ledger.records[run].state == Active)
  {
    ExecKeeps(maxEntries, maxBytes, steps);
    forall run | run in e.registered
      ensures run in e.ledger.records && (e.ledger.records[run].state == Reserved || e.ledger.records[run].state == Active)
    {
      assert HolderOk(e.ledger.records, e.holders[e.registered[run]], e.registered[run]);
    }
  }

  /** The generation a step ends, if it is one that ends a generation in this state. */
  predicate Ends(s: Step, i: nat, state: State) {
    match s
    case DoAbortPrepared(j) => i == j && state.Reserved?
    case DoCommit(j, _) => i == j && state.Reserved?
    case DoAbortPaused(j) => i == j && state.Reserved?
    case DoRetire(j) => i == j && state.Tombstone?
    case _ => false
  }

  /** The record of a run stays with the same generation, and a tombstone as it is. */
  predicate Stays(before: map<string, Record>, after: map<string, Record>, run: string)
    requires run in before
  {
    run in after && after[run].token == before[run].token && (before[run].state.Tombstone? ==> after[run] == before[run])
  }

  lemma DropStays(e: Engine, i: nat, from: State, run: string)
    requires i < |e.holders| && run in e.ledger.records
    ensures Stays(e.ledger.records, Drop(e, i, from).ledger.records, run)
         || (e.ledger.records[run].token == i + 1 && e.ledger.records[run].state == from)
  {
  }

  lemma PromoteStays(e: Engine, i: nat, from: State, to: State, run: string)
    requires i < |e.holders| && !to.Reserved? && !from.Tombstone? && run in e.ledger.records
    ensures Stays(e.ledger.records, Promote(e, i, from, to).ledger.records, run)
  {
  }

  /** From any state, a step takes a generation's record from the ledger only if it is its own holder's: a
      reservation by its abort, a tombstone by its own retirement, and an active record never. */
  lemma RecordsLeaveByTheirOwn(e: Engine, s: Step, run: string)
    requires run in e.ledger.records
    ensures Stays(e.ledger.records, Apply(e, s).ledger.records, run)
         || (e.ledger.records[run].token >= 1 && Ends(s, e.ledger.records[run].token - 1, e.ledger.records[run].state))
  {
    match s
    case DoPrepare(_) =>
    case DoAbortPrepared(i) => if i < |e.holders| { DropStays(e, i, Reserved, run); }
    case DoCommit(i, _) =>
      if i < |e.holders| {
        DropStays(e, i, Reserved, run);
        PromoteStays(e, i, Reserved, Active, run);
      }
    case DoActivate(i) => if i < |e.holders| { PromoteStays(e, i, Reserved, Active, run); }
    case DoAbortPaused(i) => if i < |e.holders| { DropStays(e, i, Reserved, run); }
    case DoComplete(i) => if i < |e.holders| { PromoteStays(e, i, Active, Tombstone, run); }
    case DoRetire(i) => if i < |e.holders| { DropStays(e, i, Tombstone, run); }
    case DoClose =>
  }

  lemma AbsentEarlier<T>(x: T, s: seq<T>)
    requires s != [] && x !in s
    ensures x !in s[..|s| - 1] && s[|s| - 1] != x
  {
  }

  lemma TombstoneStep(e: Engine, s: Step, run: string, rec: Record)
    requires run in e.ledger.records && e.ledger.records[run] == rec && rec.state.Tombstone? && rec.token >= 1
    requires s != DoRetire(rec.token - 1)
    ensures run in Apply(e, s).ledger.records && Apply(e, s).ledger.records[run] == rec
  {
    RecordsLeaveByTheirOwn(e, s, run);
  }

  /** So over any continuation in which a tombstone's own capability is not used, its run stays barred. */
  lemma {:induction false} TombstonesBar(e: Engine, steps: seq<Step>, run: string)
    requires run in e.ledger.records && e.ledger.records[run].state.Tombstone? && e.ledger.records[run].token >= 1
    requires DoRetire(e.ledger.records[run].token - 1) !in steps
    ensures run in Exec(e, steps).ledger.records && Exec(e, steps).ledger.records[run] == e.ledger.records[run]
    ensures !CanReserve(Exec(e, steps).ledger, run)
  {
    if steps != [] {
      var rec := e.ledger.records[run];
      AbsentEarlier(DoRetire(rec.token - 1), steps);
      TombstonesBar(e, steps[..|steps| - 1], run);
      TombstoneStep(Exec(e, steps[..|steps| - 1]), steps[|steps| - 1], run, rec);
    }
  }

  /** Tokens are never reused: a new generation's token is larger than every token in the ledger. */
  lemma {:induction false} TokensAreFresh(maxEntries: nat, maxBytes: nat, steps: seq<Step>, e: Engine, run: string,
                                          other: string)
    requires e == Exec(NewEngine(maxEntries, maxBytes), steps) && !e.closed && CanReserve(e.ledger, run)
    requires other in e.ledger.records
    ensures Prepare(e, run).ledger.records[run].token > e.ledger.records[other].token
  {
    ExecKeeps(maxEntries, maxBytes, steps);
    assert RecordOk(e.ledger.records, e.holders, other);
  }
}

/** The identity ledger as the engine keeps it: a map and counters changed in place. */
module RunIdentityTable {
  import opened Basics
  import opened RunIdentity

  class IdentityLedger {
    const maxEntries: nat
    const maxBytes: nat
    var records: map<string, Record>
    var nextToken: nat
    var bytes: int
    var reserved: int
    var active: int
    var tombstones: int

    function View(): (l: Ledger)
      reads this
    {
      Ledger(maxEntries, maxBytes, records, nextToken, bytes, reserved, active, tombstones)
    }

    ghost predicate Valid()
      reads this
    {
      Exact(View())
    }

    constructor (maxEntries: nat, maxBytes: nat)
      ensures Valid() && View() == NewLedger(maxEntries, maxBytes)
    {
      this.maxEntries, this.maxBytes := maxEntries, maxBytes;
      records, nextToken, bytes, reserved, active, tombstones := map[], 0, 0, 0, 0, 0;
      new;
      assert InState(map[], Reserved) == {} && InState(map[], Active) == {} && InState(map[], Tombstone) == {};
    }

    /** Reserve a new generation of a run ID, or refuse and change nothing. */
    method ReserveRun(run: string) returns (token: Option<nat>)
      requires Valid()
      modifies this
      ensures Valid() && token.Some? == CanReserve(old(View()), run)
      ensures View() == if token.Some? then Reserve(old(View()), run) else old(View())
      ensures token.Some? ==> token.value == old(nextToken) + 1
    {
      if run in records {
        return None;
      }
      var charge := ENTRY_BYTES + |run|;
      if reserved + active + tombstones + 1 > maxEntries {
        return None;
      }
      if bytes + charge > maxBytes {
        return None;
      }
      if nextToken >= MAX_UINT64 {
        return None;
      }
      ReserveExact(View(), run);
      nextToken := nextToken + 1;
      records := records[run := Record(nextToken, charge, Reserved)];
      bytes := bytes + charge;
      reserved := reserved + 1;
      return Some(nextToken);
    }

    /** Move exactly this generation to a later state. */
    method Move(run: string, token: nat, from: State, to: State) returns (ok: bool)
      requires Valid()
      modifies this
      ensures Valid() && ok == (Holds(old(View()), run, token, from) && !to.Reserved?)
      ensures View() == if ok then Transition(old(View()), run, token, from, to) else old(View())
    {
      if run !in records || records[run].token != token || records[run].state != from {
        return false;
      }
      if to.Reserved? {
        return false;
      }
      TransitionExact(View(), run, token, from, to);
      match from {
        case Reserved => reserved := reserved - 1;
        case Active => active := active - 1;
        case Tombstone => tombstones := tombstones - 1;
      }
      if to.Active? {
        active := active + 1;
      } else {
        tombstones := tombstones + 1;
      }
      records := records[run := records[run].(state := to)];
      return true;
    }

    /** Remove exactly this generation: an aborted reservation or a retired tombstone. */
    method Discard(run: string, token: nat, from: State) returns (ok: bool)
      requires Valid() && !from.Active?
      modifies this
      ensures Valid() && ok == Holds(old(View()), run, token, from)
      ensures View() == if ok then Remove(old(View()), run, token, from) else old(View())
    {
      if run !in records || records[run].token != token || records[run].state != from {
        return false;
      }
      RemoveExact(View(), run, token, from);
      bytes := bytes - records[run].charge;
      records := records - {run};
      if from.Reserved? {
        reserved := reserved - 1;
      } else {
        tombstones := tombstones - 1;
      }
      return true;
    }
  }
}
