/** The per-client session gate (daemon/session.go, session_gate.go, session_reconnect.go) as a state
    machine: mutation commits in arrival order, stream leases, and reconnects that fence both. */
module SessionGate {
  import opened Basics

  const MAX_WAITERS := 64
  const MAX_STREAMS := 256

  datatype Kind = Mutation | Stream(maximum: nat) | Reconnect

  datatype Outcome = Advanced(epoch: nat) | Released | Stale | StoreClosed | ContextDone | Capacity | Overflow

  /** A claimant is about to poll, blocked on one generation of its gate's change channel, holding its
      lease, or finished. */
  datatype Phase = Ready | Blocked(gen: nat) | Holding | Finished(outcome: Outcome)

  datatype Claim = Claim(kind: Kind, client: string, epoch: nat, contextDone: bool, phase: Phase)

  /** One client's state. Claims are known by their arrival number; `gen` counts how often the change
      channel was replaced; `stopped` are streams whose context was cancelled by a fence; `grants` and
      `advances` record the commit leases given and the reconnects that moved the epoch. */
  datatype Gate = Gate(epoch: nat, gen: nat, active: Option<nat>, mutations: seq<nat>, reconnects: seq<nat>,
                       fencing: set<nat>, streamWaiters: seq<nat>, streams: set<nat>, stopped: set<nat>,
                       grants: seq<nat>, advances: seq<nat>)

  datatype Store = Store(maximum: nat, sessions: map<string, Gate>, claims: seq<Claim>, closed: bool, rootDone: bool,
                         drains: nat)

  function NewStore(maximum: nat): (s: Store) {
    Store(maximum, map[], [], false, false, 0)
  }

  const NEW_GATE := Gate(1, 0, None, [], [], {}, [], {}, {}, [], [])

  // ---------------------------------------------------------------------------
  // Waiter lists
  // ---------------------------------------------------------------------------

  /** A list without the first occurrence of an element. */
  function Without(s: seq<nat>, id: nat): (r: seq<nat>) {
    if s == [] then [] else if s[0] == id then s[1..] else [s[0]] + Without(s[1..], id)
  }

  predicate Ascending(s: seq<nat>) {
    forall i, j | 0 <= i < j < |s| :: s[i] < s[j]
  }

  lemma {:induction false} WithoutKeeps(s: seq<nat>, id: nat)
    requires Ascending(s)
    ensures Ascending(Without(s, id)) && |Without(s, id)| == |s| - (if id in s then 1 else 0)
    ensures forall x :: x in Without(s, id) <==> x in s && x != id
    ensures s != [] && s[0] != id ==> Without(s, id) != [] && Without(s, id)[0] == s[0]
  {
    if s != [] {
      assert s == [s[0]] + s[1..];
      if s[0] != id { WithoutKeeps(s[1..], id); }
    }
  }

  lemma AppendKeeps(s: seq<nat>, id: nat)
    requires Ascending(s) && forall x | x in s :: x < id
    ensures Ascending(s + [id])
  {
    assert forall i | 0 <= i < |s| :: s[i] in s;
  }

  // ---------------------------------------------------------------------------
  // The gate
  // ---------------------------------------------------------------------------

  /** Close the change channel and replace it: every claimant blocked on it wakes. */
  function Signal(g: Gate): (r: Gate) {
    g.(gen := g.gen + 1)
  }

  function Waiters(g: Gate): (n: nat) {
    |g.mutations| + |g.reconnects| + |g.streamWaiters|
  }

  predicate Idle(g: Gate) {
    g.active.None? && g.mutations == [] && g.reconnects == [] && g.streamWaiters == [] && g.streams == {}
  }

  /** Remove a claim from the list of its kind; a removal signals. */
  function Leave(g: Gate, kind: Kind, id: nat): (r: Gate) {
    match kind
    case Mutation => if id in g.mutations then Signal(g.(mutations := Without(g.mutations, id))) else g
    case Stream(_) => if id in g.streamWaiters then Signal(g.(streamWaiters := Without(g.streamWaiters, id))) else g
    case Reconnect =>
      if id in g.reconnects then Signal(g.(reconnects := Without(g.reconnects, id), fencing := g.fencing - {id})) else g
  }

  function Grant(g: Gate, id: nat): (r: Gate) {
    g.(active := Some(id), grants := g.grants + [id])
  }

  datatype Reply = Reply(gate: Gate, phase: Phase)

  /** Wait for the next change of the gate. */
  function Wait(g: Gate): (r: Reply) {
    Reply(g, Blocked(g.gen))
  }

  /** A first attempt at the commit lease: taken at once only if nobody holds or waits for anything. */
  function ArriveMutation(g: Gate, id: nat): (r: Reply) {
    if g.active.None? && g.mutations == [] && g.reconnects == [] then Reply(Grant(g, id), Holding)
    else if Waiters(g) >= MAX_WAITERS then Reply(g, Finished(Capacity))
    else PollMutation(g.(mutations := g.mutations + [id]), id)
  }

  /** A queued attempt: only the head, with no holder and no reconnect, is granted. */
  function PollMutation(g: Gate, id: nat): (r: Reply)
    requires g.mutations != []
  {
    if g.reconnects != [] || g.active.Some? || g.mutations[0] != id then Wait(g)
    else Reply(Grant(Signal(g.(mutations := g.mutations[1..])), id), Holding)
  }

  function TakeStream(g: Gate, id: nat, maximum: nat): (r: Reply) {
    if |g.streams| >= maximum then Reply(g, Finished(Capacity)) else Reply(g.(streams := g.streams + {id}), Holding)
  }

  function ArriveStream(g: Gate, id: nat, maximum: nat): (r: Reply) {
    if g.reconnects == [] then TakeStream(g, id, maximum)
    else if Waiters(g) >= MAX_WAITERS then Reply(g, Finished(Capacity))
    else Wait(g.(streamWaiters := g.streamWaiters + [id]))
  }

  function PollStream(g: Gate, id: nat, maximum: nat): (r: Reply) {
    if g.reconnects == [] then TakeStream(Leave(g, Stream(maximum), id), id, maximum) else Wait(g)
  }

  function ArriveReconnect(g: Gate, id: nat, expected: nat): (r: Reply) {
    if expected == MAX_UINT64 then Reply(g, Finished(Overflow))
    else if Waiters(g) >= MAX_WAITERS then Reply(g, Finished(Capacity))
    else Reply(Signal(g.(reconnects := g.reconnects + [id])), Ready)
  }

  /** Move to the next epoch. */
  function Advance(g: Gate, id: nat): (r: Gate)
    requires g.reconnects != []
  {
    Signal(g.(epoch := g.epoch + 1, reconnects := g.reconnects[1..], fencing := g.fencing - {id},
              advances := g.advances + [id]))
  }

  /** The head reconnect waits for the commit lease, then cancels the streams once, then waits for
      them to close, and only then advances. */
  function PollReconnect(g: Gate, id: nat): (r: Reply)
    requires g.reconnects != []
  {
    if g.reconnects[0] != id || g.active.Some? then Wait(g)
    else if id !in g.fencing && g.streams != {} then
      Reply(g.(fencing := g.fencing + {id}, stopped := g.stopped + g.streams), Ready)
    else if g.streams != {} then Wait(g)
    else Reply(Advance(g, id), Finished(Advanced(g.epoch + 1)))
  }

  // ---------------------------------------------------------------------------
  // The store
  // ---------------------------------------------------------------------------

  predicate Shut(s: Store) {
    s.closed || s.rootDone
  }

  predicate AllIdle(sessions: map<string, Gate>) {
    forall c | c in sessions :: Idle(sessions[c])
  }

  /** Report the drain once, when a closed store has no holder and no waiter left. */
  function MaybeDrained(s: Store): (r: Store) {
    if s.closed && AllIdle(s.sessions) && s.drains == 0 then s.(drains := 1) else s
  }

  function Put(s: Store, c: string, g: Gate): (r: Store) {
    s.(sessions := s.sessions[c := g])
  }

  function SetPhase(s: Store, id: nat, phase: Phase): (r: Store)
    requires id < |s.claims|
  {
    s.(claims := s.claims[id := s.claims[id].(phase := phase)])
  }

  function Fresh(s: Store, c: string): (r: Store) {
    if Shut(s) || |s.sessions| >= s.maximum || c in s.sessions then s else Put(s, c, NEW_GATE)
  }

  /** Why the store turns a claim away, if it does. */
  function Refusal(s: Store, c: string, epoch: nat): (r: Option<Outcome>) {
    if Shut(s) then Some(StoreClosed)
    else if c !in s.sessions || epoch == 0 || s.sessions[c].epoch != epoch then Some(Stale)
    else None
  }

  function ArriveAt(g: Gate, kind: Kind, id: nat, epoch: nat): (r: Reply) {
    match kind
    case Mutation => ArriveMutation(g, id)
    case Stream(maximum) => ArriveStream(g, id, maximum)
    case Reconnect => ArriveReconnect(g, id, epoch)
  }

  /** A claimant's first turn under the lock. */
  function Arrive(s: Store, kind: Kind, c: string, epoch: nat): (r: Store) {
    match Refusal(s, c, epoch)
    case Some(outcome) => s.(claims := s.claims + [Claim(kind, c, epoch, false, Finished(outcome))])
    case None =>
      var reply := ArriveAt(s.sessions[c], kind, |s.claims|, epoch);
      Put(s, c, reply.gate).(claims := s.claims + [Claim(kind, c, epoch, false, reply.phase)])
  }

  predicate Waiting(x: Claim) {
    x.phase.Ready? || x.phase.Blocked?
  }

  /** A waiting claimant runs unless it is blocked on the current generation with nothing cancelled. */
  predicate CanRun(s: Store, id: nat) {
    && id < |s.claims| && Waiting(s.claims[id]) && s.claims[id].client in s.sessions
    && (s.claims[id].phase.Blocked? ==>
          s.claims[id].contextDone || s.rootDone || s.sessions[s.claims[id].client].gen != s.claims[id].phase.gen)
  }

  function Depart(s: Store, id: nat, outcome: Outcome): (r: Store)
    requires id < |s.claims| && s.claims[id].client in s.sessions
  {
    var x := s.claims[id];
    MaybeDrained(SetPhase(Put(s, x.client, Leave(s.sessions[x.client], x.kind, id)), id, Finished(outcome)))
  }

  function PollAt(g: Gate, kind: Kind, id: nat): (r: Reply)
    requires id in g.mutations || id in g.streamWaiters || id in g.reconnects
  {
    match kind
    case Mutation => if g.mutations == [] then Wait(g) else PollMutation(g, id)
    case Stream(maximum) => PollStream(g, id, maximum)
    case Reconnect => if g.reconnects == [] then Wait(g) else PollReconnect(g, id)
  }

  predicate Listed(g: Gate, id: nat) {
    id in g.mutations || id in g.streamWaiters || id in g.reconnects
  }

  /** A later turn under the lock. `late` says whether the context ended only after the claimant had
      looked at it on the way in. */
  function Poll(s: Store, id: nat, late: bool): (r: Store)
    requires CanRun(s, id)
  {
    var x := s.claims[id];
    var g := s.sessions[x.client];
    if x.contextDone && !late then Depart(s, id, ContextDone)
    else if Shut(s) then Depart(s, id, StoreClosed)
    else if g.epoch != x.epoch then Depart(s, id, Stale)
    else if x.contextDone && !x.kind.Reconnect? then Depart(s, id, ContextDone)
    else if !Listed(g, id) then s
    else
      var reply := PollAt(g, x.kind, id);
      SetPhase(Put(s, x.client, reply.gate), id, reply.phase)
  }

  /** Give up a lease. */
  function Release(s: Store, id: nat): (r: Store) {
    if id < |s.claims| && s.claims[id].phase.Holding? && s.claims[id].client in s.sessions then
      var x := s.claims[id];
      var g := s.sessions[x.client];
      var g1 := if x.kind.Mutation? then g.(active := None) else g.(streams := g.streams - {id});
      MaybeDrained(SetPhase(Put(s, x.client, Signal(g1)), id, Finished(Released)))
    else s
  }

  function SignalAll(sessions: map<string, Gate>): (r: map<string, Gate>) {
    map c | c in sessions :: Signal(sessions[c])
  }

  function Close(s: Store): (r: Store) {
    if s.closed then s else MaybeDrained(s.(closed := true, sessions := SignalAll(s.sessions)))
  }

  datatype Step =
    | DoFresh(client: string)
    | DoArrive(kind: Kind, client: string, epoch: nat)
    | DoPoll(claim: nat, late: bool)
    | DoEndContext(claim: nat)
    | DoRelease(claim: nat)
    | DoEndRoot
    | DoClose

  function Apply(s: Store, step: Step): (r: Store) {
    match step
    case DoFresh(c) => Fresh(s, c)
    case DoArrive(kind, c, epoch) =>
      if kind.Stream? && !(1 <= kind.maximum <= MAX_STREAMS) then s else Arrive(s, kind, c, epoch)
    case DoPoll(id, late) => if CanRun(s, id) then Poll(s, id, late) else s
    case DoEndContext(id) =>
      if id < |s.claims| then s.(claims := s.claims[id := s.claims[id].(contextDone := true)]) else s
    case DoRelease(id) => Release(s, id)
    case DoEndRoot => s.(rootDone := true)
    case DoClose => Close(s)
  }

  function Exec(s: Store, steps: seq<Step>): (r: Store) {
    if steps == [] then s else Apply(Exec(s, steps[..|steps| - 1]), steps[|steps| - 1])
  }
}
