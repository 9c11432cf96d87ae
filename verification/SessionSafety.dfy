/** What every run of the session gate keeps. */
module SessionSafety {
  import opened Basics
  import opened SessionGate

  // ---------------------------------------------------------------------------
  // The invariant
  // ---------------------------------------------------------------------------

  predicate IsWaiting(claims: seq<Claim>, id: nat, c: string) {
    id < |claims| && claims[id].client == c && Waiting(claims[id])
  }

  predicate IsHolding(claims: seq<Claim>, id: nat, c: string, epoch: nat) {
    id < |claims| && claims[id].client == c && claims[id].phase.Holding? && claims[id].epoch == epoch
  }

  /** Lists hold waiting claims of their own kind, in arrival order. */
  ghost predicate ListsInv(c: string, g: Gate, claims: seq<Claim>) {
    && Ascending(g.mutations) && Ascending(g.reconnects) && Ascending(g.streamWaiters)
    && (forall id | id in g.mutations :: IsWaiting(claims, id, c) && claims[id].kind.Mutation?)
    && (forall id | id in g.reconnects :: IsWaiting(claims, id, c) && claims[id].kind.Reconnect? && claims[id].epoch < MAX_UINT64)
    && (forall id | id in g.streamWaiters :: IsWaiting(claims, id, c) && claims[id].kind.Stream?)
    && Waiters(g) <= MAX_WAITERS
  }

  /** Leases belong to the current epoch. */
  ghost predicate LeasesInv(c: string, g: Gate, claims: seq<Claim>) {
    && (g.active.Some? ==> IsHolding(claims, g.active.value, c, g.epoch) && claims[g.active.value].kind.Mutation?)
    && (forall id | id in g.streams :: IsHolding(claims, id, c, g.epoch) && claims[id].kind.Stream?)
    && |g.streams| <= MAX_STREAMS
  }

  /** Commit leases were granted in arrival order, and everyone still queued arrived later. */
  ghost predicate OrderInv(g: Gate, n: nat) {
    && Ascending(g.grants)
    && (g.grants != [] ==> g.grants[|g.grants| - 1] < n && forall id | id in g.mutations :: g.grants[|g.grants| - 1] < id)
    && (g.active.Some? ==> g.grants != [] && g.active.value == g.grants[|g.grants| - 1])
  }

  predicate Moved(claims: seq<Claim>, id: nat, c: string, epoch: nat) {
    && id < |claims| && claims[id].client == c && claims[id].kind.Reconnect? && claims[id].epoch == epoch - 1
    && claims[id].phase == Finished(Advanced(epoch))
  }

  /** Each epoch was entered by one reconnect, and a fencing reconnect has stopped every stream. */
  ghost predicate EpochInv(c: string, g: Gate, claims: seq<Claim>) {
    && g.epoch == |g.advances| + 1 <= MAX_UINT64
    && (forall i | 0 <= i < |g.advances| :: Moved(claims, g.advances[i], c, i + 2))
    && (forall id | id in g.fencing :: g.reconnects != [] && g.reconnects[0] == id)
    && (g.fencing != {} ==> g.streams <= g.stopped)
  }

  ghost predicate GateInv(c: string, g: Gate, claims: seq<Claim>) {
    ListsInv(c, g, claims) && LeasesInv(c, g, claims) && OrderInv(g, |claims|) && EpochInv(c, g, claims)
  }

  /** A poll of this claim would block again. */
  predicate Stuck(g: Gate, x: Claim, id: nat) {
    && g.epoch == x.epoch
    && match x.kind
       case Mutation => g.reconnects != [] || g.active.Some? || (g.mutations != [] && g.mutations[0] != id)
       case Stream(_) => g.reconnects != []
       case Reconnect =>
         g.reconnects != [] && (g.reconnects[0] != id || g.active.Some? || (id in g.fencing && g.streams != {}))
  }

  predicate ListedAs(g: Gate, kind: Kind, id: nat) {
    match kind
    case Mutation => id in g.mutations
    case Stream(_) => id in g.streamWaiters
    case Reconnect => id in g.reconnects
  }

  predicate HeldAs(g: Gate, kind: Kind, id: nat) {
    match kind
    case Mutation => g.active == Some(id)
    case Stream(_) => id in g.streams
    case Reconnect => false
  }

  /** What a claim's phase says about its gate. A claim blocked on the current generation is stuck: no
      wake-up was lost. */
  predicate ClaimOk(g: Gate, x: Claim, id: nat, closed: bool) {
    && (x.kind.Stream? ==> 1 <= x.kind.maximum <= MAX_STREAMS)
    && match x.phase
       case Ready => ListedAs(g, x.kind, id)
       case Blocked(gen) =>
         ListedAs(g, x.kind, id) && gen <= g.gen && (gen == g.gen ==> !closed && Stuck(g, x, id))
       case Holding => HeldAs(g, x.kind, id)
       case Finished(outcome) =>
         outcome.Advanced? ==> 2 <= outcome.epoch <= |g.advances| + 1 && g.advances[outcome.epoch - 2] == id
  }

  ghost predicate ClaimInv(s: Store, id: nat)
    requires id < |s.claims|
  {
    var x := s.claims[id];
    if x.client in s.sessions then ClaimOk(s.sessions[x.client], x, id, s.closed)
    else x.phase.Finished? && !x.phase.outcome.Advanced? && (x.kind.Stream? ==> 1 <= x.kind.maximum <= MAX_STREAMS)
  }

  ghost predicate GatesInv(sessions: map<string, Gate>, claims: seq<Claim>) {
    forall c | c in sessions :: GateInv(c, sessions[c], claims)
  }

  ghost predicate ClaimsInv(s: Store) {
    forall id | 0 <= id < |s.claims| :: ClaimInv(s, id)
  }

  /** Drained once, exactly when closed and idle. */
  predicate DrainInv(s: Store) {
    s.drains == (if s.closed && AllIdle(s.sessions) then 1 else 0)
  }

  ghost predicate Inv(s: Store) {
    GatesInv(s.sessions, s.claims) && ClaimsInv(s) && DrainInv(s) && |s.sessions| <= s.maximum
  }

  // ---------------------------------------------------------------------------
  // Changing one claim of one gate
  // ---------------------------------------------------------------------------

  /** What no step of claim `id` does to the other claims of its gate. */
  ghost predicate Apart(g: Gate, g1: Gate, id: nat) {
    && (forall j | j != id :: j in g1.mutations <==> j in g.mutations)
    && (forall j | j != id :: j in g1.reconnects <==> j in g.reconnects)
    && (forall j | j != id :: j in g1.streamWaiters <==> j in g.streamWaiters)
    && (forall j | j != id :: j in g1.streams <==> j in g.streams)
    && (forall j | j != id :: g.active == Some(j) ==> g1.active == Some(j))
    && |g.advances| <= |g1.advances| && (forall i | 0 <= i < |g.advances| :: g1.advances[i] == g.advances[i])
    && g.gen <= g1.gen
    && (g.gen == g1.gen ==> NoUnblock(g, g1))
  }

  /** Without a signal, whatever blocks a claim goes on blocking it. */
  predicate NoUnblock(g: Gate, g1: Gate) {
    && g1.epoch == g.epoch && g.fencing <= g1.fencing
    && (g.active.Some? ==> g1.active.Some?)
    && (g.streams != {} ==> g1.streams != {})
    && (g.reconnects != [] ==> g1.reconnects != [] && g1.reconnects[0] == g.reconnects[0])
    && (g.mutations != [] ==> g1.mutations != [] && g1.mutations[0] == g.mutations[0])
  }

  lemma OtherClaim(g: Gate, g1: Gate, id: nat, x: Claim, j: nat, closed: bool)
    requires Apart(g, g1, id) && ClaimOk(g, x, j, closed) && j != id
    ensures ClaimOk(g1, x, j, closed)
  {
  }

  /** Other gates do not notice a change of a claim that is not theirs. */
  lemma OtherGate(c: string, g: Gate, claims: seq<Claim>, claims1: seq<Claim>, id: nat)
    requires GateInv(c, g, claims) && |claims| <= |claims1| && id < |claims1| && claims1[id].client != c
    requires forall j | 0 <= j < |claims| && j != id :: claims1[j] == claims[j]
    requires id < |claims| ==> claims[id].client != c
    ensures GateInv(c, g, claims1)
  {
  }

  // ---------------------------------------------------------------------------
  // Arrivals
  // ---------------------------------------------------------------------------

  /** A gate keeps its invariant when a claim that is none of its own arrives. */
  lemma ArrivalOnly(c: string, g: Gate, claims: seq<Claim>, x: Claim)
    requires GateInv(c, g, claims)
    ensures GateInv(c, g, claims + [x])
  {
  }

  /** What an operation of claim `id`, which becomes `x`, must do to its gate. */
  ghost predicate Keeps(c: string, g: Gate, g1: Gate, claims1: seq<Claim>, id: nat) {
    && id < |claims1| && claims1[id].client == c
    && GateInv(c, g1, claims1) && Apart(g, g1, id) && ClaimOk(g1, claims1[id], id, false)
  }

  lemma ArriveGranted(c: string, g: Gate, claims: seq<Claim>, x: Claim, g1: Gate)
    requires GateInv(c, g, claims) && g.active.None? && g.mutations == [] && g.reconnects == []
    requires x.kind.Mutation? && x.client == c && x.epoch == g.epoch && x.phase.Holding? && g1 == Grant(g, |claims|)
    ensures Keeps(c, g, g1, claims + [x], |claims|)
  {
    var claims1 := claims + [x];
    assert forall i | 0 <= i < |g.grants| :: g.grants[i] < |claims|;
  }

  lemma ArriveQueued(c: string, g: Gate, claims: seq<Claim>, x: Claim, g1: Gate)
    requires GateInv(c, g, claims) && Waiters(g) < MAX_WAITERS
    requires g.reconnects != [] || g.active.Some? || g.mutations != []
    requires x.kind.Mutation? && x.client == c && x.epoch == g.epoch && x.phase == Blocked(g.gen)
    requires g1 == g.(mutations := g.mutations + [|claims|])
    ensures Keeps(c, g, g1, claims + [x], |claims|)
  {
    AppendKeeps(g.mutations, |claims|);
    assert g.mutations != [] ==> g.mutations[0] in g.mutations;
  }

  lemma ArriveMutationKeeps(c: string, g: Gate, claims: seq<Claim>, x: Claim)
    requires GateInv(c, g, claims) && x.kind.Mutation? && x.client == c && x.epoch == g.epoch
    requires x.phase == ArriveMutation(g, |claims|).phase
    ensures Keeps(c, g, ArriveMutation(g, |claims|).gate, claims + [x], |claims|)
  {
    var g1 := ArriveMutation(g, |claims|).gate;
    if g.active.None? && g.mutations == [] && g.reconnects == [] {
      ArriveGranted(c, g, claims, x, g1);
    } else if Waiters(g) < MAX_WAITERS {
      assert g.mutations != [] ==> g.mutations[0] in g.mutations;
      ArriveQueued(c, g, claims, x, g1);
    } else {
      ArrivalOnly(c, g, claims, x);
    }
  }

  lemma ArriveStreamKeeps(c: string, g: Gate, claims: seq<Claim>, x: Claim)
    requires GateInv(c, g, claims) && x.kind.Stream? && x.client == c && x.epoch == g.epoch
    requires 1 <= x.kind.maximum <= MAX_STREAMS && x.phase == ArriveStream(g, |claims|, x.kind.maximum).phase
    ensures Keeps(c, g, ArriveStream(g, |claims|, x.kind.maximum).gate, claims + [x], |claims|)
  {
    ArrivalOnly(c, g, claims, x);
    AppendKeeps(g.streamWaiters, |claims|);
  }

  lemma ArriveReconnectKeeps(c: string, g: Gate, claims: seq<Claim>, x: Claim)
    requires GateInv(c, g, claims) && x.kind.Reconnect? && x.client == c && x.epoch == g.epoch
    requires x.phase == ArriveReconnect(g, |claims|, x.epoch).phase
    ensures Keeps(c, g, ArriveReconnect(g, |claims|, x.epoch).gate, claims + [x], |claims|)
  {
    ArrivalOnly(c, g, claims, x);
    AppendKeeps(g.reconnects, |claims|);
  }

  // ---------------------------------------------------------------------------
  // Polls
  // ---------------------------------------------------------------------------

  /** The claims with one claim's phase changed. */
  function Rephased(claims: seq<Claim>, id: nat, phase: Phase): (r: seq<Claim>)
    requires id < |claims|
  {
    claims[id := claims[id].(phase := phase)]
  }

  /** A claim waiting at this gate, in the list of its kind. */
  predicate Queued(c: string, g: Gate, claims: seq<Claim>, id: nat) {
    IsWaiting(claims, id, c) && ListedAs(g, claims[id].kind, id)
  }

  lemma WaitKeeps(c: string, g: Gate, claims: seq<Claim>, id: nat)
    requires GateInv(c, g, claims) && Queued(c, g, claims, id) && Stuck(g, claims[id], id)
    requires claims[id].kind.Stream? ==> 1 <= claims[id].kind.maximum <= MAX_STREAMS
    ensures Keeps(c, g, g, Rephased(claims, id, Blocked(g.gen)), id)
  {
  }

  lemma GrantKeeps(c: string, g: Gate, claims: seq<Claim>, id: nat, g1: Gate)
    requires GateInv(c, g, claims) && Queued(c, g, claims, id) && claims[id].kind.Mutation? && claims[id].epoch == g.epoch
    requires g.reconnects == [] && g.active.None? && g.mutations[0] == id
    requires g1 == Grant(Signal(g.(mutations := g.mutations[1..])), id)
    ensures Keeps(c, g, g1, Rephased(claims, id, Holding), id)
  {
    TailKeeps(g.mutations);
    assert forall i | 0 <= i < |g.grants| :: g.grants[i] < id;
  }

  lemma TailKeeps(s: seq<nat>)
    requires Ascending(s) && s != []
    ensures Ascending(s[1..]) && (forall x :: x in s[1..] <==> x in s && x != s[0]) && forall x | x in s[1..] :: s[0] < x
  {
    assert s == [s[0]] + s[1..];
  }

  lemma PollMutationKeeps(c: string, g: Gate, claims: seq<Claim>, id: nat)
    requires GateInv(c, g, claims) && Queued(c, g, claims, id) && claims[id].kind.Mutation? && claims[id].epoch == g.epoch
    ensures Keeps(c, g, PollMutation(g, id).gate, Rephased(claims, id, PollMutation(g, id).phase), id)
  {
    if g.reconnects != [] || g.active.Some? || g.mutations[0] != id {
      WaitKeeps(c, g, claims, id);
    } else {
      GrantKeeps(c, g, claims, id, PollMutation(g, id).gate);
    }
  }

  lemma FenceKeeps(c: string, g: Gate, claims: seq<Claim>, id: nat, g1: Gate)
    requires GateInv(c, g, claims) && Queued(c, g, claims, id) && claims[id].kind.Reconnect?
    requires g.reconnects[0] == id && g1 == g.(fencing := g.fencing + {id}, stopped := g.stopped + g.streams)
    ensures Keeps(c, g, g1, Rephased(claims, id, Ready), id)
  {
  }

  lemma AdvanceKeeps(c: string, g: Gate, claims: seq<Claim>, id: nat, g1: Gate)
    requires GateInv(c, g, claims) && Queued(c, g, claims, id) && claims[id].kind.Reconnect? && claims[id].epoch == g.epoch
    requires g.reconnects[0] == id && g.active.None? && g.streams == {} && g1 == Advance(g, id)
    ensures Keeps(c, g, g1, Rephased(claims, id, Finished(Advanced(g.epoch + 1))), id)
  {
    TailKeeps(g.reconnects);
  }

  lemma PollReconnectKeeps(c: string, g: Gate, claims: seq<Claim>, id: nat)
    requires GateInv(c, g, claims) && Queued(c, g, claims, id) && claims[id].kind.Reconnect? && claims[id].epoch == g.epoch
    ensures Keeps(c, g, PollReconnect(g, id).gate, Rephased(claims, id, PollReconnect(g, id).phase), id)
  {
    if g.reconnects[0] != id || g.active.Some? {
      WaitKeeps(c, g, claims, id);
    } else if id !in g.fencing && g.streams != {} {
      FenceKeeps(c, g, claims, id, PollReconnect(g, id).gate);
    } else if g.streams != {} {
      WaitKeeps(c, g, claims, id);
    } else {
      AdvanceKeeps(c, g, claims, id, PollReconnect(g, id).gate);
    }
  }

  lemma LeaveMutation(c: string, g: Gate, claims: seq<Claim>, id: nat, outcome: Outcome)
    requires GateInv(c, g, claims) && Queued(c, g, claims, id) && !outcome.Advanced? && claims[id].kind.Mutation?
    ensures Keeps(c, g, Leave(g, claims[id].kind, id), Rephased(claims, id, Finished(outcome)), id)
  {
    WithoutKeeps(g.mutations, id);
  }

  lemma LeaveStream(c: string, g: Gate, claims: seq<Claim>, id: nat, outcome: Outcome)
    requires GateInv(c, g, claims) && Queued(c, g, claims, id) && !outcome.Advanced?
    requires claims[id].kind.Stream? && 1 <= claims[id].kind.maximum <= MAX_STREAMS
    ensures Keeps(c, g, Leave(g, claims[id].kind, id), Rephased(claims, id, Finished(outcome)), id)
  {
    WithoutKeeps(g.streamWaiters, id);
  }

  lemma LeaveReconnect(c: string, g: Gate, claims: seq<Claim>, id: nat, outcome: Outcome)
    requires GateInv(c, g, claims) && Queued(c, g, claims, id) && !outcome.Advanced? && claims[id].kind.Reconnect?
    ensures Keeps(c, g, Leave(g, claims[id].kind, id), Rephased(claims, id, Finished(outcome)), id)
  {
    WithoutKeeps(g.reconnects, id);
  }

  /** Leaving the queue, for whatever reason, wakes everyone else. */
  lemma LeaveKeeps(c: string, g: Gate, claims: seq<Claim>, id: nat, outcome: Outcome)
    requires GateInv(c, g, claims) && Queued(c, g, claims, id) && !outcome.Advanced?
    requires claims[id].kind.Stream? ==> 1 <= claims[id].kind.maximum <= MAX_STREAMS
    ensures Keeps(c, g, Leave(g, claims[id].kind, id), Rephased(claims, id, Finished(outcome)), id)
  {
    match claims[id].kind
    case Mutation => LeaveMutation(c, g, claims, id, outcome);
    case Stream(_) => LeaveStream(c, g, claims, id, outcome);
    case Reconnect => LeaveReconnect(c, g, claims, id, outcome);
  }

  lemma {:induction false} TakeStreamGate(c: string, g: Gate, claims: seq<Claim>, id: nat, g1: Gate)
    requires GateInv(c, g, claims) && Queued(c, g, claims, id) && claims[id].epoch == g.epoch
    requires claims[id].kind.Stream? && claims[id].kind.maximum <= MAX_STREAMS
    requires g.reconnects == [] && |g.streams| < claims[id].kind.maximum
    requires g1 == Signal(g.(streamWaiters := Without(g.streamWaiters, id), streams := g.streams + {id}))
    ensures GateInv(c, g1, Rephased(claims, id, Holding))
  {
    TakeStreamLists(c, g, claims, id, g1);
  }

  lemma {:induction false} TakeStreamLists(c: string, g: Gate, claims: seq<Claim>, id: nat, g1: Gate)
    requires ListsInv(c, g, claims) && Queued(c, g, claims, id) && claims[id].kind.Stream?
    requires g1 == Signal(g.(streamWaiters := Without(g.streamWaiters, id), streams := g.streams + {id}))
    ensures ListsInv(c, g1, Rephased(claims, id, Holding))
  {
    WithoutKeeps(g.streamWaiters, id);
  }

  lemma {:induction false} TakeStreamKeeps(c: string, g: Gate, claims: seq<Claim>, id: nat, g1: Gate)
    requires GateInv(c, g, claims) && Queued(c, g, claims, id) && claims[id].epoch == g.epoch
    requires claims[id].kind.Stream? && 1 <= claims[id].kind.maximum <= MAX_STREAMS
    requires g.reconnects == [] && |g.streams| < claims[id].kind.maximum
    requires g1 == Signal(g.(streamWaiters := Without(g.streamWaiters, id), streams := g.streams + {id}))
    ensures Keeps(c, g, g1, Rephased(claims, id, Holding), id)
  {
    TakeStreamGate(c, g, claims, id, g1);
    WithoutKeeps(g.streamWaiters, id);
  }

  lemma PollStreamKeeps(c: string, g: Gate, claims: seq<Claim>, id: nat, maximum: nat)
    requires GateInv(c, g, claims) && Queued(c, g, claims, id) && claims[id].epoch == g.epoch
    requires claims[id].kind == Stream(maximum) && 1 <= maximum <= MAX_STREAMS
    ensures Keeps(c, g, PollStream(g, id, maximum).gate, Rephased(claims, id, PollStream(g, id, maximum).phase), id)
  {
    if g.reconnects != [] {
      WaitKeeps(c, g, claims, id);
    } else if |g.streams| < maximum {
      TakeStreamKeeps(c, g, claims, id, PollStream(g, id, maximum).gate);
    } else {
      LeaveStream(c, g, claims, id, Capacity);
    }
  }

  lemma ReleaseMutation(c: string, g: Gate, claims: seq<Claim>, id: nat)
    requires GateInv(c, g, claims) && id < |claims| && claims[id].client == c && claims[id].kind.Mutation?
    requires g.active == Some(id)
    ensures Keeps(c, g, Signal(g.(active := None)), Rephased(claims, id, Finished(Released)), id)
  {
  }

  lemma ReleaseStream(c: string, g: Gate, claims: seq<Claim>, id: nat)
    requires GateInv(c, g, claims) && id < |claims| && claims[id].client == c && id in g.streams
    requires claims[id].kind.Stream? && 1 <= claims[id].kind.maximum <= MAX_STREAMS
    ensures Keeps(c, g, Signal(g.(streams := g.streams - {id})), Rephased(claims, id, Finished(Released)), id)
  {
  }

  // ---------------------------------------------------------------------------
  // Every step
  // ---------------------------------------------------------------------------

  /** Drop the drain count and look at what gates and claims keep. */
  ghost predicate Core(s: Store) {
    GatesInv(s.sessions, s.claims) && ClaimsInv(s)
  }

  /** Only claim `id` of client `c` differs between two claim lists. */
  ghost predicate OnlyClaim(claims: seq<Claim>, claims1: seq<Claim>, c: string, id: nat) {
    && |claims1| == (if id < |claims| then |claims| else |claims| + 1) && id <= |claims|
    && (forall j | 0 <= j < |claims| && j != id :: claims1[j] == claims[j])
    && (id < |claims| ==> claims[id].client == c) && claims1[id].client == c
  }

  lemma OneClaimGates(sessions: map<string, Gate>, claims: seq<Claim>, c: string, g1: Gate, claims1: seq<Claim>, id: nat)
    requires GatesInv(sessions, claims) && OnlyClaim(claims, claims1, c, id) && GateInv(c, g1, claims1)
    ensures GatesInv(sessions[c := g1], claims1)
  {
    var after := sessions[c := g1];
    forall d | d in after ensures GateInv(d, after[d], claims1) {
      if d != c { OtherGate(d, sessions[d], claims, claims1, id); }
    }
  }

  lemma OneClaimClaims(s: Store, c: string, g1: Gate, claims1: seq<Claim>, id: nat, s1: Store)
    requires ClaimsInv(s) && c in s.sessions && OnlyClaim(s.claims, claims1, c, id)
    requires Apart(s.sessions[c], g1, id) && ClaimOk(g1, claims1[id], id, s.closed)
    requires s1 == s.(sessions := s.sessions[c := g1], claims := claims1)
    ensures ClaimsInv(s1)
  {
    forall j | 0 <= j < |claims1| ensures ClaimInv(s1, j) {
      if j != id {
        assert ClaimInv(s, j);
        if s.claims[j].client == c { OtherClaim(s.sessions[c], g1, id, s.claims[j], j, s.closed); }
      }
    }
  }

  /** One claim of one gate changed; everyone else keeps. */
  lemma OneClaimCore(s: Store, c: string, g1: Gate, claims1: seq<Claim>, id: nat)
    requires Core(s) && c in s.sessions && OnlyClaim(s.claims, claims1, c, id) && Keeps(c, s.sessions[c], g1, claims1, id)
    requires !claims1[id].phase.Blocked? || !s.closed
    ensures Core(s.(sessions := s.sessions[c := g1], claims := claims1))
  {
    OneClaimGates(s.sessions, s.claims, c, g1, claims1, id);
    OneClaimClaims(s, c, g1, claims1, id, s.(sessions := s.sessions[c := g1], claims := claims1));
  }

  lemma CoreFrame(s: Store, s1: Store)
    requires Core(s) && s1.sessions == s.sessions && s1.claims == s.claims && s1.closed == s.closed
    ensures Core(s1)
  {
    forall j | 0 <= j < |s1.claims| ensures ClaimInv(s1, j) { assert ClaimInv(s, j); }
  }

  lemma MaybeDrainedKeeps(s: Store)
    requires Core(s) && s.drains == 0
    ensures Core(MaybeDrained(s)) && DrainInv(MaybeDrained(s))
  {
    CoreFrame(s, MaybeDrained(s));
  }

  /** A waiting claim is listed at its gate, so no list is ever indexed while empty. */
  lemma WaitingIsQueued(s: Store, id: nat)
    requires Core(s) && id < |s.claims| && Waiting(s.claims[id])
    ensures s.claims[id].client in s.sessions
    ensures Queued(s.claims[id].client, s.sessions[s.claims[id].client], s.claims, id)
    ensures s.claims[id].kind.Stream? ==> 1 <= s.claims[id].kind.maximum <= MAX_STREAMS
  {
    assert ClaimInv(s, id);
  }

  /** The same number of gates. */
  lemma PutKeys(sessions: map<string, Gate>, c: string, g: Gate)
    requires c in sessions
    ensures |sessions[c := g]| == |sessions|
  {
    assert sessions[c := g].Keys == sessions.Keys;
  }

  lemma DrainAfter(s: Store)
    requires Core(s) && s.drains == 0 && |s.sessions| <= s.maximum
    ensures Inv(MaybeDrained(s))
  {
    MaybeDrainedKeeps(s);
  }

  /** A gate with a waiter or a holder keeps the store from draining. */
  lemma NotDrained(s: Store, c: string)
    requires DrainInv(s) && c in s.sessions && !Idle(s.sessions[c])
    ensures s.drains == 0
  {
  }

  lemma DepartCore(s: Store, id: nat, outcome: Outcome, s1: Store)
    requires Core(s) && id < |s.claims| && Waiting(s.claims[id]) && s.claims[id].client in s.sessions && !outcome.Advanced?
    requires s1 == SetPhase(Put(s, s.claims[id].client, Leave(s.sessions[s.claims[id].client], s.claims[id].kind, id)), id,
                            Finished(outcome))
    ensures Core(s1) && !Idle(s.sessions[s.claims[id].client])
  {
    var x := s.claims[id];
    var c, g := x.client, s.sessions[x.client];
    WaitingIsQueued(s, id);
    LeaveKeeps(c, g, s.claims, id, outcome);
    OneClaimCore(s, c, Leave(g, x.kind, id), Rephased(s.claims, id, Finished(outcome)), id);
  }

  lemma DepartKeeps(s: Store, id: nat, outcome: Outcome)
    requires Inv(s) && id < |s.claims| && Waiting(s.claims[id]) && s.claims[id].client in s.sessions && !outcome.Advanced?
    ensures Inv(Depart(s, id, outcome))
  {
    var x := s.claims[id];
    var g1 := Leave(s.sessions[x.client], x.kind, id);
    var s1 := SetPhase(Put(s, x.client, g1), id, Finished(outcome));
    DepartCore(s, id, outcome, s1);
    AfterLease(s, x.client, g1, s1);
  }

  lemma PollAtKeeps(c: string, g: Gate, claims: seq<Claim>, id: nat)
    requires GateInv(c, g, claims) && Queued(c, g, claims, id) && claims[id].epoch == g.epoch
    requires claims[id].kind.Stream? ==> 1 <= claims[id].kind.maximum <= MAX_STREAMS
    ensures Keeps(c, g, PollAt(g, claims[id].kind, id).gate, Rephased(claims, id, PollAt(g, claims[id].kind, id).phase), id)
  {
    match claims[id].kind
    case Mutation => PollMutationKeeps(c, g, claims, id);
    case Stream(maximum) => PollStreamKeeps(c, g, claims, id, maximum);
    case Reconnect => PollReconnectKeeps(c, g, claims, id);
  }

  /** A turn under the lock that neither refuses nor departs. */
  lemma PollOpenCore(s: Store, id: nat, r: Reply)
    requires Core(s) && id < |s.claims| && Waiting(s.claims[id]) && !s.closed
    requires s.claims[id].client in s.sessions && s.sessions[s.claims[id].client].epoch == s.claims[id].epoch
    requires Listed(s.sessions[s.claims[id].client], id)
    requires r == PollAt(s.sessions[s.claims[id].client], s.claims[id].kind, id)
    ensures Core(SetPhase(Put(s, s.claims[id].client, r.gate), id, r.phase))
  {
    var c := s.claims[id].client;
    WaitingIsQueued(s, id);
    PollAtKeeps(c, s.sessions[c], s.claims, id);
    OneClaimCore(s, c, r.gate, Rephased(s.claims, id, r.phase), id);
  }

  lemma PollOpenKeeps(s: Store, id: nat)
    requires Inv(s) && id < |s.claims| && Waiting(s.claims[id]) && !s.closed
    requires s.claims[id].client in s.sessions && s.sessions[s.claims[id].client].epoch == s.claims[id].epoch
    ensures var x := s.claims[id];
            var g := s.sessions[x.client];
            && Listed(g, id)
            && Inv(SetPhase(Put(s, x.client, PollAt(g, x.kind, id).gate), id, PollAt(g, x.kind, id).phase))
  {
    var c := s.claims[id].client;
    WaitingIsQueued(s, id);
    var r := PollAt(s.sessions[c], s.claims[id].kind, id);
    PollOpenCore(s, id, r);
    PutKeys(s.sessions, c, r.gate);
  }

  lemma PollKeeps(s: Store, id: nat, late: bool)
    requires Inv(s) && CanRun(s, id)
    ensures Inv(Poll(s, id, late))
  {
    var x := s.claims[id];
    var g := s.sessions[x.client];
    if x.contextDone && !late {
      DepartKeeps(s, id, ContextDone);
    } else if Shut(s) {
      DepartKeeps(s, id, StoreClosed);
    } else if g.epoch != x.epoch {
      DepartKeeps(s, id, Stale);
    } else if x.contextDone && !x.kind.Reconnect? {
      DepartKeeps(s, id, ContextDone);
    } else {
      PollOpenKeeps(s, id);
    }
  }

  lemma ArriveAtKeeps(c: string, g: Gate, claims: seq<Claim>, x: Claim)
    requires GateInv(c, g, claims) && x.client == c && x.epoch == g.epoch
    requires x.kind.Stream? ==> 1 <= x.kind.maximum <= MAX_STREAMS
    requires x.phase == ArriveAt(g, x.kind, |claims|, x.epoch).phase
    ensures Keeps(c, g, ArriveAt(g, x.kind, |claims|, x.epoch).gate, claims + [x], |claims|)
  {
    match x.kind
    case Mutation => ArriveMutationKeeps(c, g, claims, x);
    case Stream(_) => ArriveStreamKeeps(c, g, claims, x);
    case Reconnect => ArriveReconnectKeeps(c, g, claims, x);
  }

  lemma RefusedArrival(s: Store, x: Claim)
    requires Inv(s) && x.phase.Finished? && !x.phase.outcome.Advanced?
    requires x.kind.Stream? ==> 1 <= x.kind.maximum <= MAX_STREAMS
    ensures Inv(s.(claims := s.claims + [x]))
  {
    var s1 := s.(claims := s.claims + [x]);
    forall c | c in s1.sessions ensures GateInv(c, s1.sessions[c], s1.claims) { ArrivalOnly(c, s.sessions[c], s.claims, x); }
    forall j | 0 <= j < |s1.claims| ensures ClaimInv(s1, j) {
      if j < |s.claims| { assert ClaimInv(s, j); }
    }
  }

  lemma ArriveKeeps(s: Store, kind: Kind, c: string, epoch: nat)
    requires Inv(s) && (kind.Stream? ==> 1 <= kind.maximum <= MAX_STREAMS)
    ensures Inv(Arrive(s, kind, c, epoch))
  {
    match Refusal(s, c, epoch)
    case Some(outcome) => RefusedArrival(s, Claim(kind, c, epoch, false, Finished(outcome)));
    case None =>
      var n, g := |s.claims|, s.sessions[c];
      var r := ArriveAt(g, kind, n, epoch);
      var x := Claim(kind, c, epoch, false, r.phase);
      ArriveAtKeeps(c, g, s.claims, x);
      OneClaimCore(s, c, r.gate, s.claims + [x], n);
      assert s.sessions[c := r.gate].Keys == s.sessions.Keys;
  }

  function Unheld(g: Gate, kind: Kind, id: nat): (r: Gate) {
    Signal(if kind.Mutation? then g.(active := None) else g.(streams := g.streams - {id}))
  }

  lemma ReleaseCore(s: Store, id: nat, s1: Store)
    requires Core(s) && id < |s.claims| && s.claims[id].phase.Holding? && s.claims[id].client in s.sessions
    requires s1 == SetPhase(Put(s, s.claims[id].client, Unheld(s.sessions[s.claims[id].client], s.claims[id].kind, id)), id,
                            Finished(Released))
    ensures Core(s1) && !Idle(s.sessions[s.claims[id].client])
  {
    var x := s.claims[id];
    var c, g := x.client, s.sessions[x.client];
    assert ClaimInv(s, id);
    if x.kind.Mutation? { ReleaseMutation(c, g, s.claims, id); } else { ReleaseStream(c, g, s.claims, id); }
    OneClaimCore(s, c, Unheld(g, x.kind, id), Rephased(s.claims, id, Finished(Released)), id);
  }

  lemma ReleaseStepKeeps(s: Store, id: nat)
    requires Inv(s)
    ensures Inv(Release(s, id))
  {
    if id < |s.claims| && s.claims[id].phase.Holding? && s.claims[id].client in s.sessions {
      var x := s.claims[id];
      var g1 := Unheld(s.sessions[x.client], x.kind, id);
      var s1 := SetPhase(Put(s, x.client, g1), id, Finished(Released));
      ReleaseCore(s, id, s1);
      AfterLease(s, x.client, g1, s1);
      ReleaseIs(s, id, g1, s1);
    }
  }

  lemma ReleaseIs(s: Store, id: nat, g1: Gate, s1: Store)
    requires id < |s.claims| && s.claims[id].phase.Holding? && s.claims[id].client in s.sessions
    requires g1 == Unheld(s.sessions[s.claims[id].client], s.claims[id].kind, id)
    requires s1 == SetPhase(Put(s, s.claims[id].client, g1), id, Finished(Released))
    ensures Release(s, id) == MaybeDrained(s1)
  {
  }

  lemma AfterLease(s: Store, c: string, g1: Gate, s1: Store)
    requires DrainInv(s) && |s.sessions| <= s.maximum && c in s.sessions && !Idle(s.sessions[c])
    requires Core(s1) && s1.sessions == s.sessions[c := g1] && s1.drains == s.drains && s1.maximum == s.maximum
    ensures Inv(MaybeDrained(s1))
  {
    NotDrained(s, c);
    PutKeys(s.sessions, c, g1);
    DrainAfter(s1);
  }

  lemma SignalKeeps(c: string, g: Gate, claims: seq<Claim>)
    requires GateInv(c, g, claims)
    ensures GateInv(c, Signal(g), claims)
  {
  }

  lemma CloseGates(sessions: map<string, Gate>, claims: seq<Claim>)
    requires GatesInv(sessions, claims)
    ensures GatesInv(SignalAll(sessions), claims)
  {
    forall c | c in SignalAll(sessions) ensures GateInv(c, SignalAll(sessions)[c], claims) {
      SignalKeeps(c, sessions[c], claims);
    }
  }

  lemma CloseClaims(s: Store, s1: Store)
    requires ClaimsInv(s) && s1 == s.(closed := true, sessions := SignalAll(s.sessions))
    ensures ClaimsInv(s1)
  {
    forall j | 0 <= j < |s1.claims| ensures ClaimInv(s1, j) { assert ClaimInv(s, j); }
  }

  lemma ClosedStore(s: Store, s1: Store)
    requires Inv(s) && !s.closed && s1 == s.(closed := true, sessions := SignalAll(s.sessions))
    ensures GatesInv(s1.sessions, s1.claims) && ClaimsInv(s1) && s1.drains == 0 && |s1.sessions| <= s1.maximum
  {
    CloseGates(s.sessions, s.claims);
    CloseClaims(s, s1);
    assert s1.sessions.Keys == s.sessions.Keys;
  }

  lemma CloseKeeps(s: Store)
    requires Inv(s)
    ensures Inv(Close(s))
  {
    if !s.closed {
      var s1 := s.(closed := true, sessions := SignalAll(s.sessions));
      ClosedStore(s, s1);
      DrainAfter(s1);
    }
  }

  lemma NewGateInv(c: string, claims: seq<Claim>)
    ensures GateInv(c, NEW_GATE, claims)
  {
  }

  lemma FreshClaims(s: Store, c: string, s1: Store)
    requires ClaimsInv(s) && c !in s.sessions && s1 == Put(s, c, NEW_GATE)
    ensures ClaimsInv(s1)
  {
    forall j | 0 <= j < |s1.claims| ensures ClaimInv(s1, j) { assert ClaimInv(s, j); }
  }

  lemma FreshKeeps(s: Store, c: string)
    requires Inv(s)
    ensures Inv(Fresh(s, c))
  {
    if !Shut(s) && |s.sessions| < s.maximum && c !in s.sessions {
      NewGateInv(c, s.claims);
      FreshGates(s.sessions, s.claims, c, NEW_GATE);
      FreshClaims(s, c, Put(s, c, NEW_GATE));
    }
  }

  lemma FreshGates(sessions: map<string, Gate>, claims: seq<Claim>, c: string, g: Gate)
    requires GatesInv(sessions, claims) && c !in sessions && GateInv(c, g, claims)
    ensures GatesInv(sessions[c := g], claims) && |sessions[c := g]| == |sessions| + 1
  {
    assert sessions[c := g].Keys == sessions.Keys + {c};
  }

  lemma EndContextGate(c: string, g: Gate, claims: seq<Claim>, id: nat)
    requires GateInv(c, g, claims) && id < |claims|
    ensures GateInv(c, g, claims[id := claims[id].(contextDone := true)])
  {
  }

  lemma EndContextClaims(s: Store, id: nat, s1: Store)
    requires ClaimsInv(s) && id < |s.claims| && s1 == s.(claims := s.claims[id := s.claims[id].(contextDone := true)])
    ensures ClaimsInv(s1)
  {
    forall j | 0 <= j < |s1.claims| ensures ClaimInv(s1, j) { assert ClaimInv(s, j); }
  }

  lemma EndContextKeeps(s: Store, id: nat)
    requires Inv(s) && id < |s.claims|
    ensures Inv(s.(claims := s.claims[id := s.claims[id].(contextDone := true)]))
  {
    var s1 := s.(claims := s.claims[id := s.claims[id].(contextDone := true)]);
    forall c | c in s1.sessions ensures GateInv(c, s1.sessions[c], s1.claims) { EndContextGate(c, s.sessions[c], s.claims, id); }
    EndContextClaims(s, id, s1);
  }

  /** The later steps, written out. */
  lemma ApplyIs(s: Store, step: Step)
    ensures step.DoPoll? ==> Apply(s, step) == if CanRun(s, step.claim) then Poll(s, step.claim, step.late) else s
    ensures step.DoEndContext? ==>
              Apply(s, step) == if step.claim < |s.claims| then
                                  s.(claims := s.claims[step.claim := s.claims[step.claim].(contextDone := true)])
                                else s
    ensures step.DoRelease? ==> Apply(s, step) == Release(s, step.claim)
    ensures step.DoEndRoot? ==> Apply(s, step) == s.(rootDone := true)
    ensures step.DoClose? ==> Apply(s, step) == Close(s)
  {
  }

  lemma EndRootKeeps(s: Store)
    requires Inv(s)
    ensures Inv(s.(rootDone := true))
  {
    CoreFrame(s, s.(rootDone := true));
  }

  /** Every step of the gate keeps its invariant. */
  lemma ApplyKeeps(s: Store, step: Step)
    requires Inv(s)
    ensures Inv(Apply(s, step))
  {
    ApplyIs(s, step);
    match step
    case DoFresh(c) => FreshKeeps(s, c);
    case DoArrive(kind, c, epoch) =>
      if kind.Stream? ==> 1 <= kind.maximum <= MAX_STREAMS { ArriveKeeps(s, kind, c, epoch); }
    case DoPoll(id, late) => if CanRun(s, id) { PollKeeps(s, id, late); }
    case DoEndContext(id) => if id < |s.claims| { EndContextKeeps(s, id); }
    case DoRelease(id) => ReleaseStepKeeps(s, id);
    case DoEndRoot => EndRootKeeps(s);
    case DoClose => CloseKeeps(s);
  }

  /** Every run keeps the invariant. */
  lemma {:induction false} ExecKeeps(maximum: nat, steps: seq<Step>)
    ensures Inv(Exec(NewStore(maximum), steps))
  {
    if steps != [] {
      ExecKeeps(maximum, steps[..|steps| - 1]);
      ApplyKeeps(Exec(NewStore(maximum), steps[..|steps| - 1]), steps[|steps| - 1]);
    }
  }
}
