/** Exporting a suspended run as a portable snapshot and importing it again (agent/snapshot.go,
    agent/prepared_execution.go and the run state of agent/agent.go). */
module Snapshots {
  import opened Basics
  import opened ToolHistory
  import opened HistoryCheck
  import opened ToolRounds

  const MAX_MESSAGES := 4096
  const MAX_INTERACTIONS := 4096
  const MAX_RUN_ID := 96
  const MAX_TURNS := 1000

  // ---------------------------------------------------------------------------
  // Sorted identities
  // ---------------------------------------------------------------------------

  /** Bytewise lexicographic order. */
  predicate Less(a: string, b: string) {
    b != "" && (a == "" || a[0] < b[0] || (a[0] == b[0] && Less(a[1..], b[1..])))
  }

  lemma {:induction false} LessIrreflexive(a: string)
    ensures !Less(a, a)
  {
    if a != "" { LessIrreflexive(a[1..]); }
  }

  lemma {:induction false} LessTransitive(a: string, b: string, c: string)
    requires Less(a, b) && Less(b, c)
    ensures Less(a, c)
  {
    if a != "" && a[0] == b[0] == c[0] { LessTransitive(a[1..], b[1..], c[1..]); }
  }

  lemma {:induction false} LessTotal(a: string, b: string)
    ensures a == b || Less(a, b) || Less(b, a)
  {
    if a != "" && b != "" && a[0] == b[0] {
      LessTotal(a[1..], b[1..]);
      if a[1..] == b[1..] { assert a == [a[0]] + a[1..] && b == [b[0]] + b[1..]; }
    }
  }

  predicate Increasing(ids: seq<string>) {
    forall i | 0 < i < |ids| :: Less(ids[i - 1], ids[i])
  }

  function Elements(ids: seq<string>): (s: set<string>) {
    set id | id in ids
  }

  /** `slices.Sorted(maps.Keys(seen))`. */
  predicate SortedKeys(ids: seq<string>, seen: set<string>) {
    Increasing(ids) && Elements(ids) == seen
  }

  lemma {:induction false} IncreasingPairs(ids: seq<string>, i: nat, j: nat)
    requires Increasing(ids) && i < j < |ids|
    ensures Less(ids[i], ids[j]) && ids[i] != ids[j]
  {
    if i + 1 < j {
      IncreasingPairs(ids, i, j - 1);
      LessTransitive(ids[i], ids[j - 1], ids[j]);
    }
    LessIrreflexive(ids[i]);
  }

  lemma {:induction false} IncreasingCount(ids: seq<string>)
    requires Increasing(ids)
    ensures |Elements(ids)| == |ids|
  {
    if ids == [] {
      assert Elements(ids) == {};
    } else {
      var n := |ids| - 1;
      IncreasingCount(ids[..n]);
      forall i | 0 <= i < n ensures ids[i] != ids[n] { IncreasingPairs(ids, i, n); }
      assert Elements(ids) == Elements(ids[..n]) + {ids[n]} by {
        forall id | id in Elements(ids) ensures id in Elements(ids[..n]) + {ids[n]} {
          var i :| 0 <= i < |ids| && ids[i] == id;
          if i < n { assert id == ids[..n][i]; }
        }
      }
      assert ids[n] !in Elements(ids[..n]);
    }
  }

  /** The largest element is the last one. */
  lemma {:induction false} LastIsLargest(ids: seq<string>, id: string)
    requires Increasing(ids) && ids != [] && id in ids
    ensures id == ids[|ids| - 1] || Less(id, ids[|ids| - 1])
  {
    var i :| 0 <= i < |ids| && ids[i] == id;
    if i < |ids| - 1 { IncreasingPairs(ids, i, |ids| - 1); }
  }

  lemma {:induction false} Shorter(ids: seq<string>)
    requires Increasing(ids) && ids != []
    ensures Increasing(ids[..|ids| - 1]) && Elements(ids[..|ids| - 1]) == Elements(ids) - {ids[|ids| - 1]}
  {
    var n := |ids| - 1;
    forall i | 0 <= i < n ensures ids[i] != ids[n] { IncreasingPairs(ids, i, n); }
    forall id | id in Elements(ids) - {ids[n]} ensures id in Elements(ids[..n]) {
      var i :| 0 <= i < |ids| && ids[i] == id;
      assert id == ids[..n][i];
    }
  }

  /** A set has one sorted listing, so an export is determined by the run. */
  lemma {:induction false} SortedUnique(a: seq<string>, b: seq<string>)
    requires Increasing(a) && Increasing(b) && Elements(a) == Elements(b)
    ensures a == b
    decreases |a|
  {
    IncreasingCount(a);
    IncreasingCount(b);
    if a != [] {
      var n := |a| - 1;
      assert a[n] in Elements(b) && b[n] in Elements(a);
      LastIsLargest(a, b[n]);
      LastIsLargest(b, a[n]);
      if Less(a[n], b[n]) && Less(b[n], a[n]) {
        LessTransitive(a[n], b[n], a[n]);
        LessIrreflexive(a[n]);
      }
      Shorter(a);
      Shorter(b);
      SortedUnique(a[..n], b[..n]);
      assert a == a[..n] + [a[n]] && b == b[..n] + [b[n]];
    }
  }

  /** Keys put in order one by one. */
  method SortKeys(seen: set<string>) returns (ids: seq<string>)
    ensures SortedKeys(ids, seen)
  {
    ids := [];
    var rest := seen;
    while rest != {}
      invariant Increasing(ids) && rest <= seen && Elements(ids) == seen - rest
      decreases |rest|
    {
      var id :| id in rest;
      ids := Insert(ids, id);
      rest := rest - {id};
    }
  }

  lemma {:induction false} Inserted(ids: seq<string>, n: nat, id: string)
    requires Increasing(ids) && n <= |ids| && id !in ids
    requires n > 0 ==> Less(ids[n - 1], id)
    requires n < |ids| ==> !Less(ids[n], id)
    ensures Increasing(ids[..n] + [id] + ids[n..])
    ensures Elements(ids[..n] + [id] + ids[n..]) == Elements(ids) + {id}
  {
    var r := ids[..n] + [id] + ids[n..];
    if n < |ids| { LessTotal(ids[n], id); }
    forall i | 0 < i < |r| ensures Less(r[i - 1], r[i]) {
      if i < n { assert Less(ids[i - 1], ids[i]); } else if i > n + 1 { assert Less(ids[i - 2], ids[i - 1]); }
    }
    forall x | x in Elements(ids) + {id} ensures x in r {
      if x == id { assert r[n] == id; } else {
        var i :| 0 <= i < |ids| && ids[i] == x;
        assert r[if i < n then i else i + 1] == x;
      }
    }
  }

  method Insert(ids: seq<string>, id: string) returns (r: seq<string>)
    requires Increasing(ids) && id !in ids
    ensures Increasing(r) && Elements(r) == Elements(ids) + {id}
  {
    var n := |ids|;
    while n > 0 && Less(id, ids[n - 1])
      invariant 0 <= n <= |ids| && (n < |ids| ==> Less(id, ids[n]))
    {
      n := n - 1;
    }
    if n > 0 { LessTotal(ids[n - 1], id); }
    if n < |ids| && Less(ids[n], id) {
      LessTransitive(id, ids[n], id);
      LessIrreflexive(id);
    }
    Inserted(ids, n, id);
    r := ids[..n] + [id] + ids[n..];
  }

  // ---------------------------------------------------------------------------
  // Snapshots
  // ---------------------------------------------------------------------------

  datatype Status = Suspended | Completed | Failed | Cancelled

  datatype Definition = Definition(name: string, model: string, maxTurns: nat)

  const VERSION := "spice.agent.snapshot/v1alpha3"

  /** A plan identity and whether its fields pass their format checks. */
  datatype Plan = Plan(compiled: seq<string>, compatibility: string, workspace: string, toolPlan: string,
                       fingerprint: string, valid: bool)

  datatype Snapshot = Snapshot(version: string, run: string, definition: Definition, completedTurns: nat,
                               history: seq<Message>, plan: Plan, interactions: seq<string>, lastSequence: nat, status: Status)

  predicate ValidDefinition(d: Definition) {
    Trimmed(d.name) && Trimmed(d.model) && 1 <= d.maxTurns <= MAX_TURNS
  }

  predicate ValidInteractions(ids: seq<string>) {
    |ids| <= MAX_INTERACTIONS && (forall i | 0 <= i < |ids| :: Token(ids[i], MAX_ID)) && Increasing(ids)
  }

  predicate ValidSnapshot(s: Snapshot) {
    && s.version == VERSION && Token(s.run, MAX_RUN_ID) && ValidDefinition(s.definition) && s.plan.valid
    && s.completedTurns <= s.definition.maxTurns
    && 0 < |s.history| <= MAX_MESSAGES
    && 0 < s.lastSequence < MAX_UINT64
    && (s.status.Suspended? ==> 0 < s.completedTurns < s.definition.maxTurns)
    && ValidInteractions(s.interactions)
    && Sound(s.history) && HistoryBytes(s.history) <= MAX_SNAPSHOT_BYTES
  }

  method ValidateInteractions(ids: seq<string>) returns (ok: bool)
    ensures ok <==> ValidInteractions(ids)
  {
    if |ids| > MAX_INTERACTIONS { return false; }
    for i := 0 to |ids|
      invariant forall k | 0 <= k < i :: Token(ids[k], MAX_ID)
      invariant forall k | 0 < k < i :: Less(ids[k - 1], ids[k])
    {
      if !Token(ids[i], MAX_ID) { return false; }
      if i > 0 && !Less(ids[i - 1], ids[i]) { return false; }
    }
    ok := true;
  }

  /** interactionIDSet and snapshotMessageIDs. */
  method InteractionSet(ids: seq<string>) returns (s: set<string>)
    ensures s == Elements(ids)
  {
    s := {};
    for i := 0 to |ids|
      invariant s == Elements(ids[..i])
    {
      assert ids[..i + 1] == ids[..i] + [ids[i]];
      s := s + {ids[i]};
    }
    assert ids[..|ids|] == ids;
  }

  method MessageIdSet(h: seq<Message>) returns (s: set<string>)
    ensures s == Ids(h)
  {
    s := {};
    for i := 0 to |h|
      invariant s == FirstIds(h, i)
    {
      s := s + {h[i].id};
    }
    forall id ensures id in FirstIds(h, |h|) <==> id in Ids(h) { FirstIdsAre(h, |h|, id); }
  }

  method Validate(s: Snapshot) returns (ok: bool)
    ensures ok <==> ValidSnapshot(s)
  {
    if s.version != VERSION { return false; }
    if !Token(s.run, MAX_RUN_ID) || !ValidDefinition(s.definition) || s.completedTurns > s.definition.maxTurns {
      return false;
    }
    if |s.history| == 0 || |s.history| > MAX_MESSAGES { return false; }
    if !s.plan.valid { return false; }
    if s.lastSequence == 0 || s.lastSequence >= MAX_UINT64 { return false; }
    if s.status.Suspended? && (s.completedTurns == 0 || s.completedTurns >= s.definition.maxTurns) { return false; }
    ok := ValidateInteractions(s.interactions);
    if ok { ok := ValidateHistory(s.history); }
  }

  // ---------------------------------------------------------------------------
  // The live run
  // ---------------------------------------------------------------------------

  /** `turn` is the turn that runs next, `next` the sequence of the next event, a 64-bit counter. */
  datatype Live = Live(run: string, definition: Definition, plan: Plan, book: Book, completedTurns: nat, turn: nat,
                       seen: set<string>, lastSequence: nat, next: nat, over: bool)

  function Begin(run: string, definition: Definition, plan: Plan, input: Message): (l: Live) {
    Live(run, definition, plan, Started(input), 0, 1, {}, 0, 1, false)
  }

  /** One committed event. Sequence zero is not a valid event. */
  function Emit(l: Live): (r: Live) {
    if l.next == 0 then l else l.(lastSequence := l.next, next := if l.next < MAX_UINT64 then l.next + 1 else 0)
  }

  function Interact(l: Live, id: string): (r: Live) {
    if Token(id, MAX_ID) && id !in l.seen then l.(seen := l.seen + {id}) else l
  }

  /** One turn up to its boundary, with its TurnCompleted event. A failed turn, a turn without calls and the
      turn limit end the run. */
  function TakeTurn(l: Live, t: Turn): (r: Live)
    requires WellFormed(t)
  {
    if l.over || l.turn > l.definition.maxTurns then l.(over := true)
    else
      var p := Round(l.book, l.run, t);
      if !p.ok || l.next == 0 then l.(book := p.book, over := true)
      else
        Emit(l).(book := p.book, completedTurns := l.turn, turn := if t.calls == [] then l.turn else l.turn + 1,
                 over := t.calls == [])
  }

  datatype Step = DoEmit | DoInteract(id: string) | DoTurn(turn: Turn)

  predicate StepOk(s: Step) {
    s.DoTurn? ==> WellFormed(s.turn)
  }

  predicate StepsOk(steps: seq<Step>) {
    forall i | 0 <= i < |steps| :: StepOk(steps[i])
  }

  function Apply(l: Live, s: Step): (r: Live)
    requires StepOk(s)
  {
    match s
    case DoEmit => Emit(l)
    case DoInteract(id) => Interact(l, id)
    case DoTurn(t) => TakeTurn(l, t)
  }

  function Exec(l: Live, steps: seq<Step>): (r: Live)
    requires StepsOk(steps)
  {
    if steps == [] then l else Apply(Exec(l, steps[..|steps| - 1]), steps[|steps| - 1])
  }

  // ---------------------------------------------------------------------------
  // Export and import
  // ---------------------------------------------------------------------------

  /** ExportSnapshot of a run suspended at a boundary; `ids` are its interactions in order. */
  function Export(l: Live, ids: seq<string>): (s: Option<Snapshot>)
    requires SortedKeys(ids, l.seen)
  {
    var s := Snapshot(VERSION, l.run, l.definition, l.completedTurns, l.book.history, l.plan, ids, l.lastSequence, Suspended);
    if ValidSnapshot(s) then Some(s) else None
  }

  /** PrepareResumeSnapshot and the commit that follows, on an engine with plan `engine`. */
  function Import(s: Snapshot, engine: Plan): (l: Option<Live>) {
    if !ValidSnapshot(s) || !s.status.Suspended? || engine.compatibility == "" || s.plan != engine then None
    else Some(Live(s.run, s.definition, engine, Book(s.history, Ids(s.history)), s.completedTurns, s.completedTurns + 1,
                   Elements(s.interactions), s.lastSequence, s.lastSequence + 1, false))
  }

  // ---------------------------------------------------------------------------
  // What every step of a live run keeps
  // ---------------------------------------------------------------------------

  /** Counters: the next event follows the last one, the next turn follows the completed ones. */
  predicate Counted(l: Live) {
    && (l.next == if l.lastSequence < MAX_UINT64 then l.lastSequence + 1 else 0)
    && (!l.over ==> l.turn == l.completedTurns + 1)
    && l.completedTurns <= l.definition.maxTurns
    && (l.completedTurns > 0 ==> l.lastSequence > 0)
    && forall id | id in l.seen :: Token(id, MAX_ID)
  }

  /** Messages: in order, and safe between turns exactly when the input is plain. */
  predicate Recorded(l: Live, input: Message) {
    && Kept(l.book) && l.book.history[0] == input
    && (!l.over ==> (Safe(l.book) <==> PlainInput(input)))
  }

  /** What never changes. */
  predicate SameRun(l: Live, l0: Live) {
    l.run == l0.run && l.definition == l0.definition && l.plan == l0.plan
  }

  lemma {:induction false} ApplyCounts(l: Live, s: Step)
    requires Counted(l) && StepOk(s)
    ensures Counted(Apply(l, s)) && SameRun(Apply(l, s), l)
  {
  }

  lemma {:induction false} RoundRecords(b: Book, run: string, turn: Turn, input: Message, p: Progress)
    requires WellFormed(turn) && Kept(b) && b.history[0] == input && (Safe(b) <==> PlainInput(input))
    requires p == Round(b, run, turn)
    ensures Kept(p.book) && p.book.history[0] == input && (p.ok ==> (Safe(p.book) <==> PlainInput(input)))
  {
    RoundExtends(b, run, turn);
    if Safe(b) { RoundKeeps(b, run, turn); } else { UnplainStaysUnsafe(p.book); }
  }

  lemma {:induction false} TurnRecords(l: Live, turn: Turn, input: Message)
    requires Recorded(l, input) && WellFormed(turn)
    ensures Recorded(TakeTurn(l, turn), input)
  {
    if !l.over { RoundRecords(l.book, l.run, turn, input, Round(l.book, l.run, turn)); }
  }

  lemma {:induction false} ApplyRecords(l: Live, s: Step, input: Message)
    requires Recorded(l, input) && StepOk(s)
    ensures Recorded(Apply(l, s), input)
  {
    if s.DoTurn? { TurnRecords(l, s.turn, input); }
  }

  /** A run started as PrepareStart starts it. */
  predicate Startable(l: Live, input: Message) {
    && l == Begin(l.run, l.definition, l.plan, input)
    && Token(l.run, MAX_RUN_ID) && ValidDefinition(l.definition) && l.plan.valid && ValidMessage(input) && input.role.User?
  }

  lemma {:induction false} ExecKeeps(l0: Live, input: Message, steps: seq<Step>)
    requires Startable(l0, input) && StepsOk(steps)
    ensures Counted(Exec(l0, steps)) && Recorded(Exec(l0, steps), input) && SameRun(Exec(l0, steps), l0)
  {
    if steps == [] {
      StartedSafe(input);
    } else {
      var init, last := steps[..|steps| - 1], steps[|steps| - 1];
      ExecKeeps(l0, input, init);
      ApplyCounts(Exec(l0, init), last);
      ApplyRecords(Exec(l0, init), last, input);
    }
  }

  // ---------------------------------------------------------------------------
  // The theorems
  // ---------------------------------------------------------------------------

  /** The caps a snapshot has to stay within, and the turn it has to leave. */
  predicate WithinCaps(l: Live) {
    && l.completedTurns < l.definition.maxTurns
    && |l.book.history| <= MAX_MESSAGES && HistoryBytes(l.book.history) <= MAX_SNAPSHOT_BYTES
    && |l.seen| <= MAX_INTERACTIONS
    && l.lastSequence < MAX_UINT64
  }

  /** Exactly when a run suspended after some turn can be exported. */
  lemma {:induction false} ExportExactly(l0: Live, input: Message, steps: seq<Step>, ids: seq<string>)
    requires Startable(l0, input) && StepsOk(steps)
    requires !Exec(l0, steps).over && Exec(l0, steps).completedTurns > 0 && SortedKeys(ids, Exec(l0, steps).seen)
    ensures Export(Exec(l0, steps), ids).Some? <==> WithinCaps(Exec(l0, steps)) && PlainInput(input)
  {
    ExecKeeps(l0, input, steps);
    IncreasingCount(ids);
    forall i | 0 <= i < |ids| ensures Token(ids[i], MAX_ID) { assert ids[i] in Elements(ids); }
  }

  lemma {:induction false} ImportsExport(l: Live, input: Message, ids: seq<string>)
    requires Counted(l) && Recorded(l, input) && !l.over && SortedKeys(ids, l.seen)
    requires l.plan.compatibility != "" && Export(l, ids).Some?
    ensures Import(Export(l, ids).value, l.plan) == Some(l)
  {
  }

  /** Whenever the export succeeds, importing it on an engine with the same plan rebuilds the suspended run:
      the same history, next turn, next event sequence, used interactions and used message identities. */
  lemma {:induction false} PortableResume(l0: Live, input: Message, steps: seq<Step>, ids: seq<string>)
    requires Startable(l0, input) && StepsOk(steps)
    requires !Exec(l0, steps).over && SortedKeys(ids, Exec(l0, steps).seen)
    requires l0.plan.compatibility != "" && Export(Exec(l0, steps), ids).Some?
    ensures Import(Export(Exec(l0, steps), ids).value, l0.plan) == Some(Exec(l0, steps))
  {
    ExecKeeps(l0, input, steps);
    ImportsExport(Exec(l0, steps), input, ids);
  }
}
