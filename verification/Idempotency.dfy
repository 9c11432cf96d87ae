/** The bounded idempotency ledger (daemon/idempotency.go): one owner per operation, duplicates that wait
    for its outcome, and retryable abandonment. */
module Idempotency {
  const MAX_DIMENSION := 1048576
  const MAX_OUTCOME := 1048576

  datatype Key = Key(client: string, operation: string)

  datatype OutcomeKind = NoKind | Success | Failure | Uncertain

  datatype Outcome = Outcome(kind: OutcomeKind, payload: string)

  predicate ValidOutcome(o: Outcome) {
    !o.kind.NoKind? && |o.payload| <= MAX_OUTCOME
  }

  predicate ZeroOutcome(o: Outcome) {
    o.kind.NoKind? && o.payload == ""
  }

  const UNCERTAIN := Outcome(Uncertain, "operation outcome uncertain")

  /** What an executor returns beside its outcome: nothing, the exact abandonment proof with or without
      a cause, or any other error, a wrapped abandonment and a panic included. */
  datatype Problem = NoProblem | Abandonment(cause: bool) | OtherProblem

  /** What the ledger makes of an execution. */
  datatype Verdict = Abandon | Commit(outcome: Outcome, failed: bool)

  function Judge(o: Outcome, problem: Problem): (v: Verdict) {
    if ZeroOutcome(o) && problem == Abandonment(true) then Abandon
    else if !problem.NoProblem? || !ValidOutcome(o) then Commit(UNCERTAIN, true)
    else Commit(o, false)
  }

  // ---------------------------------------------------------------------------
  // The ledger
  // ---------------------------------------------------------------------------

  datatype Phase = Running(owner: nat) | Committed(outcome: Outcome, failed: bool) | Abandoned

  datatype Entry = Entry(key: Key, kind: string, digest: string, phase: Phase)

  datatype Answer = Conflict | ContextDone | Full | Retryable | Result(outcome: Outcome, failed: bool, duplicate: bool)

  /** A caller of Do: about to look, executing its own entry, waiting on another's, or returned. */
  datatype Turn = Looking | Executing(entry: nat) | Waiting(entry: nat) | Returned(answer: Answer)

  datatype Caller = Caller(key: Key, kind: string, digest: string, contextDone: bool, turn: Turn)

  datatype Ledger = Ledger(maxClients: nat, maxPer: nat, table: map<Key, nat>, counts: map<string, nat>,
                           entries: seq<Entry>, callers: seq<Caller>)

  predicate ValidBounds(maxClients: nat, maxPer: nat) {
    && 1 <= maxClients <= MAX_DIMENSION && 1 <= maxPer <= MAX_DIMENSION
    && maxClients <= MAX_DIMENSION / maxPer
  }

  function NewLedger(maxClients: nat, maxPer: nat): (l: Ledger) {
    Ledger(maxClients, maxPer, map[], map[], [], [])
  }

  function SetTurn(l: Ledger, i: nat, t: Turn): (r: Ledger)
    requires i < |l.callers|
  {
    l.(callers := l.callers[i := l.callers[i].(turn := t)])
  }

  function CountOf(l: Ledger, client: string): (n: nat) {
    if client in l.counts then l.counts[client] else 0
  }

  predicate AtCapacity(l: Ledger, client: string) {
    (client !in l.counts && |l.counts| >= l.maxClients) || CountOf(l, client) >= l.maxPer
  }

  function Create(l: Ledger, i: nat): (r: Ledger)
    requires i < |l.callers|
  {
    var x, id := l.callers[i], |l.entries|;
    SetTurn(l, i, Executing(id)).(entries := l.entries + [Entry(x.key, x.kind, x.digest, Running(i))],
                                  table := l.table[x.key := id],
                                  counts := l.counts[x.key.client := CountOf(l, x.key.client) + 1])
  }

  /** One turn of the retry loop under the lock. */
  function Look(l: Ledger, i: nat): (r: Ledger) {
    if i >= |l.callers| || !l.callers[i].turn.Looking? then l
    else
      var x := l.callers[i];
      if x.key in l.table then
        var id := l.table[x.key];
        if id < |l.entries| && l.entries[id].kind == x.kind && l.entries[id].digest == x.digest then SetTurn(l, i, Waiting(id))
        else SetTurn(l, i, Returned(Conflict))
      else if x.contextDone then SetTurn(l, i, Returned(ContextDone))
      else if AtCapacity(l, x.key.client) then SetTurn(l, i, Returned(Full))
      else Create(l, i)
  }

  function Settle(l: Ledger, id: nat, phase: Phase): (r: Ledger)
    requires id < |l.entries|
  {
    l.(entries := l.entries[id := l.entries[id].(phase := phase)])
  }

  /** Remove an abandoned entry and give its count back. */
  function Forget(l: Ledger, key: Key, id: nat): (r: Ledger) {
    if key in l.table && l.table[key] == id then
      l.(table := l.table - {key},
         counts := if CountOf(l, key.client) <= 1 then l.counts - {key.client}
                   else l.counts[key.client := CountOf(l, key.client) - 1])
    else l
  }

  /** The owner's execution ended. */
  function Finish(l: Ledger, i: nat, o: Outcome, problem: Problem): (r: Ledger) {
    if i < |l.callers| && l.callers[i].turn.Executing? && l.callers[i].turn.entry < |l.entries| then
      var id := l.callers[i].turn.entry;
      match Judge(o, problem)
      case Abandon => SetTurn(Settle(Forget(l, l.callers[i].key, id), id, Abandoned), i, Returned(Retryable))
      case Commit(outcome, failed) =>
        SetTurn(Settle(l, id, Committed(outcome, failed)), i, Returned(Result(outcome, failed, false)))
    else l
  }

  /** A duplicate sees its entry done, or gives up with its own context. */
  function Wake(l: Ledger, i: nat): (r: Ledger) {
    if i < |l.callers| && l.callers[i].turn.Waiting? && l.callers[i].turn.entry < |l.entries| then
      match l.entries[l.callers[i].turn.entry].phase
      case Running(_) => if l.callers[i].contextDone then SetTurn(l, i, Returned(ContextDone)) else l
      case Abandoned => SetTurn(l, i, if l.callers[i].contextDone then Returned(ContextDone) else Looking)
      case Committed(outcome, failed) => SetTurn(l, i, Returned(Result(outcome, failed, true)))
    else l
  }

  datatype Step =
    | DoCall(key: Key, kind: string, digest: string)
    | DoLook(caller: nat)
    | DoFinish(caller: nat, outcome: Outcome, problem: Problem)
    | DoWake(caller: nat)
    | DoEndContext(caller: nat)

  function Apply(l: Ledger, s: Step): (r: Ledger) {
    match s
    case DoCall(key, kind, digest) => l.(callers := l.callers + [Caller(key, kind, digest, false, Looking)])
    case DoLook(i) => Look(l, i)
    case DoFinish(i, outcome, problem) => Finish(l, i, outcome, problem)
    case DoWake(i) => Wake(l, i)
    case DoEndContext(i) =>
      if i < |l.callers| then l.(callers := l.callers[i := l.callers[i].(contextDone := true)]) else l
  }

  function Exec(l: Ledger, steps: seq<Step>): (r: Ledger) {
    if steps == [] then l else Apply(Exec(l, steps[..|steps| - 1]), steps[|steps| - 1])
  }

  // ---------------------------------------------------------------------------
  // The invariant
  // ---------------------------------------------------------------------------

  /** The table lists exactly the entries that were not abandoned. */
  predicate EntryOk(table: map<Key, nat>, e: Entry, id: nat) {
    !e.phase.Abandoned? <==> e.key in table && table[e.key] == id
  }

  predicate TableInv(table: map<Key, nat>, entries: seq<Entry>) {
    && (forall k | k in table :: table[k] < |entries| && entries[table[k]].key == k)
    && (forall id | 0 <= id < |entries| :: EntryOk(table, entries[id], id))
  }

  predicate Matches(x: Caller, e: Entry) {
    x.key == e.key && x.kind == e.kind && x.digest == e.digest
  }

  /** What a caller's turn says about its entry. */
  predicate CallerOk(table: map<Key, nat>, entries: seq<Entry>, x: Caller, i: nat) {
    match x.turn
    case Looking => true
    case Executing(id) => id < |entries| && Matches(x, entries[id]) && entries[id].phase == Running(i)
    case Waiting(id) => id < |entries| && Matches(x, entries[id])
    case Returned(answer) =>
      answer.Result? ==>
        x.key in table && table[x.key] < |entries| && Matches(x, entries[table[x.key]])
        && entries[table[x.key]].phase == Committed(answer.outcome, answer.failed)
  }

  predicate OwnerOk(callers: seq<Caller>, e: Entry, id: nat) {
    e.phase.Running? ==> e.phase.owner < |callers| && callers[e.phase.owner].turn == Executing(id)
  }

  predicate CallersInv(l: Ledger) {
    && (forall i | 0 <= i < |l.callers| :: CallerOk(l.table, l.entries, l.callers[i], i))
    && (forall id | 0 <= id < |l.entries| :: OwnerOk(l.callers, l.entries[id], id))
  }

  /** One client's listed operations. */
  function KeysOf(table: map<Key, nat>, client: string): (r: set<Key>) {
    set k | k in table && k.client == client
  }

  /** Counts are exact, positive and bounded. */
  predicate CountsInv(l: Ledger) {
    && |l.counts| <= l.maxClients
    && (forall k | k in l.table :: k.client in l.counts)
    && (forall c | c in l.counts :: 0 < l.counts[c] == |KeysOf(l.table, c)| <= l.maxPer)
  }

  predicate Inv(l: Ledger) {
    TableInv(l.table, l.entries) && CallersInv(l) && CountsInv(l)
  }

  // ---------------------------------------------------------------------------
  // Every step
  // ---------------------------------------------------------------------------

  lemma KeysMore(table: map<Key, nat>, k: Key, id: nat, c: string)
    requires k !in table
    ensures |KeysOf(table[k := id], c)| == |KeysOf(table, c)| + (if k.client == c then 1 else 0)
  {
    if k.client == c {
      assert KeysOf(table[k := id], c) == KeysOf(table, c) + {k};
    } else {
      assert KeysOf(table[k := id], c) == KeysOf(table, c);
    }
  }

  lemma KeysLess(table: map<Key, nat>, k: Key, c: string)
    requires k in table
    ensures |KeysOf(table - {k}, c)| == |KeysOf(table, c)| - (if k.client == c then 1 else 0)
  {
    if k.client == c {
      assert KeysOf(table - {k}, c) == KeysOf(table, c) - {k};
    } else {
      assert KeysOf(table - {k}, c) == KeysOf(table, c);
    }
  }

  /** Changing one caller's turn to another sound one keeps everything, unless it was executing. */
  lemma TurnKeeps(l: Ledger, i: nat, t: Turn)
    requires Inv(l) && i < |l.callers| && !l.callers[i].turn.Executing?
    requires CallerOk(l.table, l.entries, l.callers[i].(turn := t), i)
    ensures Inv(SetTurn(l, i, t))
  {
    var r := SetTurn(l, i, t);
    forall id | 0 <= id < |r.entries| ensures OwnerOk(r.callers, r.entries[id], id) {
      assert OwnerOk(l.callers, l.entries[id], id);
    }
  }

  lemma CreateTable(l: Ledger, i: nat, r: Ledger)
    requires TableInv(l.table, l.entries) && i < |l.callers| && l.callers[i].key !in l.table && r == Create(l, i)
    ensures TableInv(r.table, r.entries)
  {
    forall id | 0 <= id < |r.entries| ensures EntryOk(r.table, r.entries[id], id) {
      if id < |l.entries| { assert EntryOk(l.table, l.entries[id], id); }
    }
  }

  lemma CreateCallers(l: Ledger, i: nat, r: Ledger)
    requires CallersInv(l) && i < |l.callers| && l.callers[i].turn.Looking? && l.callers[i].key !in l.table && r == Create(l, i)
    ensures CallersInv(r)
  {
    forall j | 0 <= j < |r.callers| ensures CallerOk(r.table, r.entries, r.callers[j], j) {
      assert CallerOk(l.table, l.entries, l.callers[j], j);
    }
    forall id | 0 <= id < |r.entries| ensures OwnerOk(r.callers, r.entries[id], id) {
      if id < |l.entries| { assert OwnerOk(l.callers, l.entries[id], id); }
    }
  }

  lemma CreateCounts(l: Ledger, i: nat, r: Ledger)
    requires CountsInv(l) && i < |l.callers| && l.callers[i].key !in l.table && r == Create(l, i)
    requires !AtCapacity(l, l.callers[i].key.client)
    ensures CountsInv(r)
  {
    var k := l.callers[i].key;
    forall c | c in r.counts ensures 0 < r.counts[c] == |KeysOf(r.table, c)| <= r.maxPer {
      KeysMore(l.table, k, |l.entries|, c);
      if c == k.client && c !in l.counts { assert KeysOf(l.table, c) == {}; }
    }
    if k.client in l.counts {
      assert r.counts.Keys == l.counts.Keys;
    } else {
      assert r.counts.Keys == l.counts.Keys + {k.client};
    }
  }

  lemma LookKeeps(l: Ledger, i: nat)
    requires Inv(l)
    ensures Inv(Look(l, i))
  {
    if i < |l.callers| && l.callers[i].turn.Looking? {
      var x := l.callers[i];
      if x.key in l.table {
        var id := l.table[x.key];
        if l.entries[id].kind == x.kind && l.entries[id].digest == x.digest {
          TurnKeeps(l, i, Waiting(id));
        } else {
          TurnKeeps(l, i, Returned(Conflict));
        }
      } else if x.contextDone {
        TurnKeeps(l, i, Returned(ContextDone));
      } else if AtCapacity(l, x.key.client) {
        TurnKeeps(l, i, Returned(Full));
      } else {
        CreateTable(l, i, Create(l, i));
        CreateCallers(l, i, Create(l, i));
        CreateCounts(l, i, Create(l, i));
      }
    }
  }

  /** The owner of a running entry settles it. */
  predicate Owns(l: Ledger, i: nat, id: nat) {
    i < |l.callers| && l.callers[i].turn == Executing(id) && id < |l.entries|
  }

  lemma CommitCallers(l: Ledger, i: nat, id: nat, o: Outcome, failed: bool, r: Ledger)
    requires TableInv(l.table, l.entries) && CallersInv(l) && Owns(l, i, id)
    requires r == SetTurn(Settle(l, id, Committed(o, failed)), i, Returned(Result(o, failed, false)))
    ensures CallersInv(r) && TableInv(r.table, r.entries)
  {
    assert CallerOk(l.table, l.entries, l.callers[i], i) && EntryOk(l.table, l.entries[id], id);
    forall j | 0 <= j < |r.callers| ensures CallerOk(r.table, r.entries, r.callers[j], j) {
      assert CallerOk(l.table, l.entries, l.callers[j], j);
    }
    forall n | 0 <= n < |r.entries| ensures OwnerOk(r.callers, r.entries[n], n) && EntryOk(r.table, r.entries[n], n) {
      assert OwnerOk(l.callers, l.entries[n], n) && EntryOk(l.table, l.entries[n], n);
    }
  }

  lemma AbandonCallers(l: Ledger, i: nat, id: nat, r: Ledger)
    requires TableInv(l.table, l.entries) && CallersInv(l) && Owns(l, i, id)
    requires r == SetTurn(Settle(Forget(l, l.callers[i].key, id), id, Abandoned), i, Returned(Retryable))
    ensures CallersInv(r) && TableInv(r.table, r.entries) && r.table == l.table - {l.callers[i].key}
  {
    assert CallerOk(l.table, l.entries, l.callers[i], i) && EntryOk(l.table, l.entries[id], id);
    forall j | 0 <= j < |r.callers| ensures CallerOk(r.table, r.entries, r.callers[j], j) {
      assert CallerOk(l.table, l.entries, l.callers[j], j);
    }
    forall n | 0 <= n < |r.entries| ensures OwnerOk(r.callers, r.entries[n], n) && EntryOk(r.table, r.entries[n], n) {
      assert OwnerOk(l.callers, l.entries[n], n) && EntryOk(l.table, l.entries[n], n);
    }
  }

  /** One key of a client with others goes. */
  lemma ForgetOne(l: Ledger, key: Key, r: Ledger)
    requires CountsInv(l) && key in l.table && CountOf(l, key.client) > 1
    requires r == l.(table := l.table - {key}, counts := l.counts[key.client := CountOf(l, key.client) - 1])
    ensures CountsInv(r)
  {
    assert r.counts.Keys == l.counts.Keys;
    forall c | c in r.counts ensures 0 < r.counts[c] == |KeysOf(r.table, c)| <= r.maxPer { KeysLess(l.table, key, c); }
  }

  /** A client's last key goes, and its count with it. */
  lemma ForgetLast(l: Ledger, key: Key, r: Ledger)
    requires CountsInv(l) && key in l.table && CountOf(l, key.client) <= 1
    requires r == l.(table := l.table - {key}, counts := l.counts - {key.client})
    ensures CountsInv(r)
  {
    assert r.counts.Keys == l.counts.Keys - {key.client};
    forall c | c in r.counts ensures 0 < r.counts[c] == |KeysOf(r.table, c)| <= r.maxPer { KeysLess(l.table, key, c); }
    KeysLess(l.table, key, key.client);
    assert KeysOf(r.table, key.client) == {};
    forall k | k in r.table ensures k.client in r.counts {
      assert k in KeysOf(r.table, k.client);
    }
  }

  lemma ForgetCounts(l: Ledger, key: Key, id: nat)
    requires CountsInv(l) && key in l.table && l.table[key] == id
    ensures CountsInv(Forget(l, key, id))
  {
    if CountOf(l, key.client) <= 1 { ForgetLast(l, key, Forget(l, key, id)); } else { ForgetOne(l, key, Forget(l, key, id)); }
  }

  lemma FinishKeeps(l: Ledger, i: nat, o: Outcome, problem: Problem)
    requires Inv(l)
    ensures Inv(Finish(l, i, o, problem))
  {
    if i < |l.callers| && l.callers[i].turn.Executing? && l.callers[i].turn.entry < |l.entries| {
      var id := l.callers[i].turn.entry;
      match Judge(o, problem)
      case Commit(outcome, failed) => CommitCallers(l, i, id, outcome, failed, Finish(l, i, o, problem));
      case Abandon =>
        AbandonCallers(l, i, id, Finish(l, i, o, problem));
        assert CallerOk(l.table, l.entries, l.callers[i], i) && EntryOk(l.table, l.entries[id], id);
        ForgetCounts(l, l.callers[i].key, id);
    }
  }

  lemma WakeKeeps(l: Ledger, i: nat)
    requires Inv(l)
    ensures Inv(Wake(l, i))
  {
    if i < |l.callers| && l.callers[i].turn.Waiting? && l.callers[i].turn.entry < |l.entries| {
      var id := l.callers[i].turn.entry;
      assert CallerOk(l.table, l.entries, l.callers[i], i) && EntryOk(l.table, l.entries[id], id);
      match l.entries[id].phase
      case Running(_) => TurnKeeps(l, i, Returned(ContextDone));
      case Abandoned =>
        TurnKeeps(l, i, Returned(ContextDone));
        TurnKeeps(l, i, Looking);
      case Committed(outcome, failed) => TurnKeeps(l, i, Returned(Result(outcome, failed, true)));
    }
  }

  /** Changing callers alone keeps the table and the counts. */
  lemma OthersKeep(l: Ledger, r: Ledger)
    requires Inv(l) && r == l.(callers := r.callers) && |l.callers| <= |r.callers|
    requires forall j | 0 <= j < |l.callers| ::
               r.callers[j] == l.callers[j] || r.callers[j] == l.callers[j].(contextDone := true)
    requires forall j | |l.callers| <= j < |r.callers| :: r.callers[j].turn.Looking?
    ensures Inv(r)
  {
    forall j | 0 <= j < |r.callers| ensures CallerOk(r.table, r.entries, r.callers[j], j) {
      if j < |l.callers| { assert CallerOk(l.table, l.entries, l.callers[j], j); }
    }
    forall n | 0 <= n < |r.entries| ensures OwnerOk(r.callers, r.entries[n], n) {
      assert OwnerOk(l.callers, l.entries[n], n);
    }
  }

  lemma CallKeeps(l: Ledger, x: Caller)
    requires Inv(l) && x.turn.Looking?
    ensures Inv(l.(callers := l.callers + [x]))
  {
    OthersKeep(l, l.(callers := l.callers + [x]));
  }

  lemma EndContextKeeps(l: Ledger, i: nat)
    requires Inv(l) && i < |l.callers|
    ensures Inv(l.(callers := l.callers[i := l.callers[i].(contextDone := true)]))
  {
    OthersKeep(l, l.(callers := l.callers[i := l.callers[i].(contextDone := true)]));
  }

  /** The later steps, written out. */
  lemma ApplyIs(l: Ledger, s: Step)
    ensures s.DoFinish? ==> Apply(l, s) == Finish(l, s.caller, s.outcome, s.problem)
    ensures s.DoWake? ==> Apply(l, s) == Wake(l, s.caller)
    ensures s.DoEndContext? ==>
              Apply(l, s) == if s.caller < |l.callers| then
                               l.(callers := l.callers[s.caller := l.callers[s.caller].(contextDone := true)])
                             else l
  {
  }

  lemma ApplyKeeps(l: Ledger, s: Step)
    requires Inv(l)
    ensures Inv(Apply(l, s))
  {
    ApplyIs(l, s);
    match s
    case DoCall(key, kind, digest) => CallKeeps(l, Caller(key, kind, digest, false, Looking));
    case DoLook(i) => LookKeeps(l, i);
    case DoFinish(i, outcome, problem) => FinishKeeps(l, i, outcome, problem);
    case DoWake(i) => WakeKeeps(l, i);
    case DoEndContext(i) => if i < |l.callers| { EndContextKeeps(l, i); }
  }

  lemma {:induction false} ExecKeeps(maxClients: nat, maxPer: nat, steps: seq<Step>)
    ensures Inv(Exec(NewLedger(maxClients, maxPer), steps))
  {
    if steps != [] {
      ExecKeeps(maxClients, maxPer, steps[..|steps| - 1]);
      ApplyKeeps(Exec(NewLedger(maxClients, maxPer), steps[..|steps| - 1]), steps[|steps| - 1]);
    }
  }

  // ---------------------------------------------------------------------------
  // Guarantees
  // ---------------------------------------------------------------------------

  /** At most one executor is in flight for an operation. */
  lemma {:induction false} OneExecutor(maxClients: nat, maxPer: nat, steps: seq<Step>, l: Ledger, i: nat, j: nat)
    requires l == Exec(NewLedger(maxClients, maxPer), steps) && i < |l.callers| && j < |l.callers|
    requires l.callers[i].turn.Executing? && l.callers[j].turn.Executing? && l.callers[i].key == l.callers[j].key
    ensures i == j
  {
    ExecKeeps(maxClients, maxPer, steps);
    assert CallerOk(l.table, l.entries, l.callers[i], i) && CallerOk(l.table, l.entries, l.callers[j], j);
    var a, b := l.callers[i].turn.entry, l.callers[j].turn.entry;
    assert EntryOk(l.table, l.entries[a], a) && EntryOk(l.table, l.entries[b], b);
  }

  /** Everyone who gets a result for an operation gets the same one, owner and duplicates alike. */
  lemma {:induction false} DuplicatesAgree(maxClients: nat, maxPer: nat, steps: seq<Step>, l: Ledger, i: nat, j: nat)
    requires l == Exec(NewLedger(maxClients, maxPer), steps) && i < |l.callers| && j < |l.callers|
    requires l.callers[i].turn.Returned? && l.callers[i].turn.answer.Result?
    requires l.callers[j].turn.Returned? && l.callers[j].turn.answer.Result? && l.callers[i].key == l.callers[j].key
    ensures var a, b := l.callers[i].turn.answer, l.callers[j].turn.answer; a.outcome == b.outcome && a.failed == b.failed
    ensures l.callers[i].kind == l.callers[j].kind && l.callers[i].digest == l.callers[j].digest
  {
    ExecKeeps(maxClients, maxPer, steps);
    assert CallerOk(l.table, l.entries, l.callers[i], i) && CallerOk(l.table, l.entries, l.callers[j], j);
  }

  /** Committed entries stay committed, with the same outcome, and stay listed. */
  predicate Lasts(before: seq<Entry>, after: seq<Entry>) {
    && |before| <= |after|
    && forall id | 0 <= id < |before| :: before[id].phase.Committed? ==> after[id] == before[id]
  }

  lemma FinishLasts(l: Ledger, i: nat, o: Outcome, problem: Problem)
    requires Inv(l)
    ensures Lasts(l.entries, Finish(l, i, o, problem).entries)
  {
    if i < |l.callers| { assert CallerOk(l.table, l.entries, l.callers[i], i); }
  }

  lemma LookLasts(l: Ledger, i: nat)
    ensures Lasts(l.entries, Look(l, i).entries)
  {
  }

  lemma WakeLasts(l: Ledger, i: nat)
    ensures Wake(l, i).entries == l.entries
  {
  }

  lemma ApplyLasts(l: Ledger, s: Step)
    requires Inv(l)
    ensures Lasts(l.entries, Apply(l, s).entries)
  {
    match s
    case DoLook(i) => LookLasts(l, i);
    case DoWake(i) => WakeLasts(l, i);
    case DoFinish(i, outcome, problem) => FinishLasts(l, i, outcome, problem);
    case _ =>
  }

  lemma {:induction false} CommittedForever(maxClients: nat, maxPer: nat, steps: seq<Step>, n: nat)
    requires n <= |steps|
    ensures var before, l := Exec(NewLedger(maxClients, maxPer), steps[..n]), Exec(NewLedger(maxClients, maxPer), steps);
            Lasts(before.entries, l.entries) && TableInv(l.table, l.entries)
    decreases |steps|
  {
    ExecKeeps(maxClients, maxPer, steps);
    if n < |steps| {
      var shorter := steps[..|steps| - 1];
      assert shorter[..n] == steps[..n];
      CommittedForever(maxClients, maxPer, shorter, n);
      ExecKeeps(maxClients, maxPer, shorter);
      ApplyLasts(Exec(NewLedger(maxClients, maxPer), shorter), steps[|steps| - 1]);
    } else {
      assert steps[..n] == steps;
    }
  }

  // ---------------------------------------------------------------------------
  // Where an entry's end comes from
  // ---------------------------------------------------------------------------

  /** What the executor returned explains how its entry ended: abandoned only by an exact abandonment without a
      result, committed as it is only for a valid outcome without an error, and as uncertain otherwise. */
  predicate Explains(o: Outcome, problem: Problem, phase: Phase) {
    var abandoned := ZeroOutcome(o) && problem == Abandonment(true);
    var good := ValidOutcome(o) && problem.NoProblem?;
    match phase
    case Running(_) => false
    case Abandoned => abandoned
    case Committed(outcome, failed) => !abandoned && ValidOutcome(outcome) && (if good then outcome == o && !failed
                                                                              else outcome == UNCERTAIN && failed)
  }

  /** Caller `i` is executing entry `id`. */
  predicate Executes(l: Ledger, i: nat, id: nat) {
    i < |l.callers| && l.callers[i].turn == Executing(id) && id < |l.entries|
  }

  lemma FinishExplains(l: Ledger, i: nat, o: Outcome, problem: Problem, id: nat)
    requires id < |l.entries|
    ensures var r := Finish(l, i, o, problem);
            |r.entries| == |l.entries|
            && (r.entries[id].phase == l.entries[id].phase || (Executes(l, i, id) && Explains(o, problem, r.entries[id].phase)))
  {
  }

  /** A step adds running entries only, and ends one only as its own executor's return explains. */
  lemma StepExplains(l: Ledger, s: Step, id: nat)
    requires id < |Apply(l, s).entries| && !Apply(l, s).entries[id].phase.Running?
    ensures id < |l.entries|
    ensures Apply(l, s).entries[id].phase == l.entries[id].phase
         || (s.DoFinish? && Executes(l, s.caller, id) && Explains(s.outcome, s.problem, Apply(l, s).entries[id].phase))
  {
    if s.DoFinish? && id < |l.entries| { FinishExplains(l, s.caller, s.outcome, s.problem, id); }
  }

  /** In every run, whatever ended an entry is the return of the one caller that executed it. */
  lemma {:induction false} EndsAreExplained(maxClients: nat, maxPer: nat, steps: seq<Step>, l: Ledger,
                                            id: nat) returns (m: nat)
    requires l == Exec(NewLedger(maxClients, maxPer), steps) && id < |l.entries| && !l.entries[id].phase.Running?
    ensures m < |steps| && steps[m].DoFinish?
    ensures Executes(Exec(NewLedger(maxClients, maxPer), steps[..m]), steps[m].caller, id)
    ensures Explains(steps[m].outcome, steps[m].problem, l.entries[id].phase)
    decreases |steps|
  {
    m := |steps| - 1;
    var before := steps[..m];
    var l0 := Exec(NewLedger(maxClients, maxPer), before);
    StepExplains(l0, steps[m], id);
    if l0.entries[id].phase == l.entries[id].phase {
      m := EndsAreExplained(maxClients, maxPer, before, l0, id);
      assert before[..m] == steps[..m] && before[m] == steps[m];
    }
  }

  /** Abandoning removes exactly the owner's own entry. */
  lemma AbandonRemovesItsOwn(l: Ledger, i: nat, problem: Problem)
    requires Inv(l) && i < |l.callers| && l.callers[i].turn.Executing? && problem == Abandonment(true)
    ensures Finish(l, i, Outcome(NoKind, ""), problem).table == l.table - {l.callers[i].key}
    ensures l.callers[i].key in l.table && l.table[l.callers[i].key] == l.callers[i].turn.entry
  {
    assert CallerOk(l.table, l.entries, l.callers[i], i);
    var id := l.callers[i].turn.entry;
    assert EntryOk(l.table, l.entries[id], id);
  }

  function KeysOfAll(table: map<Key, nat>, clients: set<string>): (r: set<Key>) {
    set k | k in table && k.client in clients
  }

  lemma {:induction false} ClientsBound(l: Ledger, clients: set<string>)
    requires CountsInv(l) && clients <= l.counts.Keys
    ensures |KeysOfAll(l.table, clients)| <= |clients| * l.maxPer
    decreases clients
  {
    if clients == {} {
      assert KeysOfAll(l.table, clients) == {};
    } else {
      var c :| c in clients;
      var rest := clients - {c};
      ClientsBound(l, rest);
      assert KeysOfAll(l.table, clients) == KeysOfAll(l.table, rest) + KeysOf(l.table, c);
      assert KeysOfAll(l.table, rest) !! KeysOf(l.table, c);
      OneMore(|rest|, l.maxPer);
    }
  }

  lemma OneMore(n: nat, per: nat)
    ensures (n + 1) * per == n * per + per
  {
  }

  lemma Fits(clients: nat, maxClients: nat, per: nat)
    requires per >= 1 && clients <= maxClients <= MAX_DIMENSION / per
    ensures clients * per <= MAX_DIMENSION
  {
    assert (MAX_DIMENSION / per) * per <= MAX_DIMENSION;
    assert (MAX_DIMENSION / per - clients) * per >= 0;
  }

  /** Counts are exact and the whole ledger never holds more than 2^20 operations. */
  lemma {:induction false} CapacityAlways(maxClients: nat, maxPer: nat, steps: seq<Step>, l: Ledger)
    requires ValidBounds(maxClients, maxPer) && l == Exec(NewLedger(maxClients, maxPer), steps)
    ensures CountsInv(l) && |l.table| <= MAX_DIMENSION
  {
    ExecKeeps(maxClients, maxPer, steps);
    BoundsStay(maxClients, maxPer, steps);
    assert KeysOfAll(l.table, l.counts.Keys) == l.table.Keys;
    ClientsBound(l, l.counts.Keys);
    Fits(|l.counts|, maxClients, maxPer);
  }

  lemma {:induction false} BoundsStay(maxClients: nat, maxPer: nat, steps: seq<Step>)
    ensures var l := Exec(NewLedger(maxClients, maxPer), steps); l.maxClients == maxClients && l.maxPer == maxPer
  {
    if steps != [] { BoundsStay(maxClients, maxPer, steps[..|steps| - 1]); }
  }
}

/** The ledger as the daemon keeps it: two maps changed in place under one lock. */
module IdempotencyTable {
  import opened Idempotency

  ghost predicate Reached(l: Ledger) {
    exists steps: seq<Step> :: l == Exec(NewLedger(l.maxClients, l.maxPer), steps)
  }

  lemma NewReached(maxClients: nat, maxPer: nat)
    ensures Reached(NewLedger(maxClients, maxPer))
  {
    assert Exec(NewLedger(maxClients, maxPer), []) == NewLedger(maxClients, maxPer);
  }

  lemma BoundsKept(l: Ledger, s: Step)
    ensures Apply(l, s).maxClients == l.maxClients && Apply(l, s).maxPer == l.maxPer
  {
  }

  lemma StepReached(l: Ledger, s: Step, l1: Ledger)
    requires Reached(l) && l1 == Apply(l, s)
    ensures Reached(l1)
  {
    var steps: seq<Step> :| l == Exec(NewLedger(l.maxClients, l.maxPer), steps);
    assert (steps + [s])[..|steps|] == steps;
    BoundsKept(l, s);
    assert l1 == Exec(NewLedger(l.maxClients, l.maxPer), steps + [s]);
  }

  lemma ReachedWaiter(l: Ledger, i: nat)
    requires Reached(l) && i < |l.callers| && l.callers[i].turn.Waiting?
    ensures l.callers[i].turn.entry < |l.entries|
  {
    var steps: seq<Step> :| l == Exec(NewLedger(l.maxClients, l.maxPer), steps);
    ExecKeeps(l.maxClients, l.maxPer, steps);
    assert CallerOk(l.table, l.entries, l.callers[i], i);
  }

  /** An executing caller's entry is the one listed for its key. */
  lemma ReachedOwner(l: Ledger, i: nat)
    requires Reached(l) && i < |l.callers| && l.callers[i].turn.Executing?
    ensures l.callers[i].turn.entry < |l.entries|
    ensures l.callers[i].key in l.table && l.table[l.callers[i].key] == l.callers[i].turn.entry
    ensures CountOf(l, l.callers[i].key.client) >= 1
  {
    var steps: seq<Step> :| l == Exec(NewLedger(l.maxClients, l.maxPer), steps);
    ExecKeeps(l.maxClients, l.maxPer, steps);
    assert CallerOk(l.table, l.entries, l.callers[i], i);
    var id := l.callers[i].turn.entry;
    assert EntryOk(l.table, l.entries[id], id);
  }

  lemma ReachedListed(l: Ledger, k: Key)
    requires Reached(l) && k in l.table
    ensures l.table[k] < |l.entries|
  {
    var steps: seq<Step> :| l == Exec(NewLedger(l.maxClients, l.maxPer), steps);
    ExecKeeps(l.maxClients, l.maxPer, steps);
  }

  class Operations {
    const maxClients: nat
    const maxPer: nat
    var table: map<Key, nat>
    var counts: map<string, nat>
    var entries: seq<Entry>
    var callers: seq<Caller>

    function View(): (l: Ledger)
      reads this
    {
      Ledger(maxClients, maxPer, table, counts, entries, callers)
    }

    ghost predicate Valid()
      reads this
    {
      Reached(View())
    }

    constructor (maxClients: nat, maxPer: nat)
      ensures Valid() && View() == NewLedger(maxClients, maxPer)
    {
      this.maxClients, this.maxPer := maxClients, maxPer;
      table, counts, entries, callers := map[], map[], [], [];
      new;
      NewReached(maxClients, maxPer);
    }

    /** One turn of the retry loop: conflict, wait, refuse or become the owner. */
    method TakeTurn(i: nat)
      requires Valid() && i < |callers| && callers[i].turn.Looking?
      modifies this
      ensures Valid() && View() == Look(old(View()), i)
    {
      var x := callers[i];
      var turn := Returned(Conflict);
      if x.key in table {
        ReachedListed(View(), x.key);
        var id := table[x.key];
        if entries[id].kind == x.kind && entries[id].digest == x.digest {
          turn := Waiting(id);
        }
      } else if x.contextDone {
        turn := Returned(ContextDone);
      } else {
        var count := if x.key.client in counts then counts[x.key.client] else 0;
        if (x.key.client !in counts && |counts| >= maxClients) || count >= maxPer {
          turn := Returned(Full);
        } else {
          turn := Executing(|entries|);
          table := table[x.key := |entries|];
          counts := counts[x.key.client := count + 1];
          entries := entries + [Entry(x.key, x.kind, x.digest, Running(i))];
        }
      }
      callers := callers[i := x.(turn := turn)];
      StepReached(old(View()), DoLook(i), View());
    }

    /** Remove an uncommitted entry and give its client's count back. */
    method AbandonEntry(key: Key, id: nat)
      requires id < |entries| && CountOf(View(), key.client) >= 1
      modifies `table, `counts, `entries
      ensures View() == Settle(Forget(old(View()), key, id), id, Abandoned)
    {
      if key in table && table[key] == id {
        table := table - {key};
        var remaining := counts[key.client] - 1;
        if remaining == 0 {
          counts := counts - {key.client};
        } else {
          counts := counts[key.client := remaining];
        }
      }
      entries := entries[id := entries[id].(phase := Abandoned)];
    }

    /** A duplicate's wait: it gets the committed outcome, looks again after an abandonment, or gives up with its own
        context. */
    method AwaitExisting(i: nat)
      requires Valid() && i < |callers| && callers[i].turn.Waiting?
      modifies this
      ensures Valid() && View() == Wake(old(View()), i)
    {
      ReachedWaiter(View(), i);
      var x := callers[i];
      match entries[x.turn.entry].phase {
        case Committed(outcome, failed) => callers := callers[i := x.(turn := Returned(Result(outcome, failed, true)))];
        case Abandoned =>
          if x.contextDone {
            callers := callers[i := x.(turn := Returned(ContextDone))];
          } else {
            callers := callers[i := x.(turn := Looking)];
          }
        case Running(_) =>
          if x.contextDone { callers := callers[i := x.(turn := Returned(ContextDone))]; }
      }
      StepReached(old(View()), DoWake(i), View());
    }

    /** Commit or abandon the owner's entry once its executor returned. */
    method FinishExecution(i: nat, o: Outcome, problem: Problem) returns (answer: Answer)
      requires Valid() && i < |callers| && callers[i].turn.Executing?
      modifies this
      ensures Valid() && View() == Finish(old(View()), i, o, problem) && callers[i].turn == Returned(answer)
    {
      ReachedOwner(View(), i);
      var x := callers[i];
      var id := x.turn.entry;
      if o.kind.NoKind? && o.payload == "" && problem == Abandonment(true) {
        AbandonEntry(x.key, id);
        answer := Retryable;
      } else {
        var outcome, failed := o, false;
        if !problem.NoProblem? || !ValidOutcome(o) {
          outcome, failed := UNCERTAIN, true;
        }
        entries := entries[id := entries[id].(phase := Committed(outcome, failed))];
        answer := Result(outcome, failed, false);
      }
      callers := callers[i := x.(turn := Returned(answer))];
      StepReached(old(View()), DoFinish(i, o, problem), View());
    }
  }
}
