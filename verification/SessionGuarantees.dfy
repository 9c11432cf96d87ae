/** What clients of the session store can rely on, over every run. */
module SessionGuarantees {
  import opened Basics
  import opened SessionGate
  import opened SessionSafety

  // ---------------------------------------------------------------------------
  // Wake-ups
  // ---------------------------------------------------------------------------

  lemma StuckBlocks(g: Gate, x: Claim, id: nat)
    requires Stuck(g, x, id) && ListedAs(g, x.kind, id)
    ensures Listed(g, id) && PollAt(g, x.kind, id) == Wait(g)
  {
  }

  /** No wake-up is lost: a claimant blocked on the current generation of its gate would block again
      if it looked now, in an open store and its own epoch. */
  lemma {:induction false} NoLostWakeup(maximum: nat, steps: seq<Step>, s: Store, id: nat)
    requires s == Exec(NewStore(maximum), steps) && id < |s.claims| && s.claims[id].phase.Blocked?
    ensures var x := s.claims[id];
            && x.client in s.sessions
            && (s.sessions[x.client].gen == x.phase.gen ==>
                  && !s.closed && s.sessions[x.client].epoch == x.epoch && Listed(s.sessions[x.client], id)
                  && PollAt(s.sessions[x.client], x.kind, id) == Wait(s.sessions[x.client]))
  {
    ExecKeeps(maximum, steps);
    assert ClaimInv(s, id);
    var x := s.claims[id];
    if s.sessions[x.client].gen == x.phase.gen { StuckBlocks(s.sessions[x.client], x, id); }
  }

  lemma FreeRuns(s: Store, id: nat)
    requires Core(s) && id < |s.claims| && Waiting(s.claims[id]) && s.claims[id].client in s.sessions
    requires !Stuck(s.sessions[s.claims[id].client], s.claims[id], id)
    ensures CanRun(s, id)
  {
    assert ClaimInv(s, id);
  }

  /** A gate whose leases are all released never deadlocks: if anyone waits, someone can run. */
  lemma SomeoneCanRun(maximum: nat, steps: seq<Step>, s: Store, c: string) returns (id: nat)
    requires s == Exec(NewStore(maximum), steps) && c in s.sessions
    requires s.sessions[c].active.None? && s.sessions[c].streams == {} && Waiters(s.sessions[c]) > 0
    ensures id < |s.claims| && s.claims[id].client == c && CanRun(s, id)
  {
    ExecKeeps(maximum, steps);
    var g := s.sessions[c];
    assert GateInv(c, g, s.claims);
    if g.reconnects != [] {
      id := g.reconnects[0];
    } else if g.mutations != [] {
      id := g.mutations[0];
    } else {
      id := g.streamWaiters[0];
    }
    assert IsWaiting(s.claims, id, c);
    FreeRuns(s, id);
  }

  // ---------------------------------------------------------------------------
  // Order, epochs and bounds
  // ---------------------------------------------------------------------------

  /** Commit leases are granted in arrival order; the holder is the latest grant and belongs to the
      current epoch, and so does every stream lease; and the lists stay within their bounds. */
  lemma {:induction false} GateAlways(maximum: nat, steps: seq<Step>, s: Store, c: string)
    requires s == Exec(NewStore(maximum), steps) && c in s.sessions
    ensures var g := s.sessions[c];
            && Ascending(g.grants) && OrderInv(g, |s.claims|) && LeasesInv(c, g, s.claims)
            && Waiters(g) <= MAX_WAITERS && |g.streams| <= MAX_STREAMS && |s.sessions| <= maximum
            && (g.fencing != {} ==> g.streams <= g.stopped)
  {
    ExecKeeps(maximum, steps);
    MaximumStays(maximum, steps);
    assert GateInv(c, s.sessions[c], s.claims);
  }

  lemma {:induction false} MaximumStays(maximum: nat, steps: seq<Step>)
    ensures Exec(NewStore(maximum), steps).maximum == maximum
  {
    if steps != [] { MaximumStays(maximum, steps[..|steps| - 1]); }
  }

  /** A reconnect that finished with an epoch is the one recorded for it. */
  lemma AdvancedBy(s: Store, id: nat)
    requires Sound(s) && id < |s.claims| && s.claims[id].phase.Finished? && s.claims[id].phase.outcome.Advanced?
    ensures var c, e := s.claims[id].client, s.claims[id].phase.outcome.epoch;
            && c in s.sessions && 2 <= e <= |s.sessions[c].advances| + 1 && s.sessions[c].advances[e - 2] == id
            && s.claims[id].epoch == e - 1
  {
    assert ClaimInv(s, id);
    var c, e := s.claims[id].client, s.claims[id].phase.outcome.epoch;
    assert EpochInv(c, s.sessions[c], s.claims);
    assert Moved(s.claims, s.sessions[c].advances[e - 2], c, e);
  }

  /** At most one reconnect enters each epoch, and it claimed the epoch before. */
  lemma {:induction false} OneReconnectPerEpoch(maximum: nat, steps: seq<Step>, s: Store, i: nat, j: nat)
    requires s == Exec(NewStore(maximum), steps) && i < |s.claims| && j < |s.claims|
    requires s.claims[i].phase.Finished? && s.claims[i].phase.outcome.Advanced?
    requires s.claims[j].phase == s.claims[i].phase && s.claims[j].client == s.claims[i].client
    ensures i == j && s.claims[i].epoch == s.claims[i].phase.outcome.epoch - 1
  {
    ExecKeeps(maximum, steps);
    OneAdvance(s, i, j);
  }

  lemma OneAdvance(s: Store, i: nat, j: nat)
    requires Sound(s) && i < |s.claims| && j < |s.claims|
    requires s.claims[i].phase.Finished? && s.claims[i].phase.outcome.Advanced?
    requires s.claims[j].phase == s.claims[i].phase && s.claims[j].client == s.claims[i].client
    ensures i == j && s.claims[i].epoch == s.claims[i].phase.outcome.epoch - 1
  {
    AdvancedBy(s, i);
    AdvancedBy(s, j);
  }

  /** Some store that keeps the invariant is `s`. */
  ghost predicate Sound(s: Store) {
    exists x :: Inv(x) && x == s
  }

  /** How one step may change a gate: an epoch ends only without leases, and while a reconnect is
      registered no lease is given. */
  predicate Fenced(g: Gate, g1: Gate) {
    && (g1.epoch != g.epoch ==>
          g1.epoch == g.epoch + 1 && g.active.None? && g.streams == {} && g1.active.None? && g1.streams == {})
    && (g.reconnects != [] ==> (g1.active == g.active || g1.active.None?) && g1.streams <= g.streams && g1.grants == g.grants)
  }

  lemma PollFenced(g: Gate, kind: Kind, id: nat)
    requires Listed(g, id)
    ensures Fenced(g, PollAt(g, kind, id).gate)
  {
  }

  lemma ArriveFenced(g: Gate, kind: Kind, id: nat, epoch: nat)
    ensures Fenced(g, ArriveAt(g, kind, id, epoch).gate)
  {
  }

  lemma LeaveFenced(g: Gate, kind: Kind, id: nat)
    ensures Fenced(g, Leave(g, kind, id))
  {
  }

  lemma DepartFenced(s: Store, id: nat, outcome: Outcome, c: string)
    requires c in s.sessions && id < |s.claims| && s.claims[id].client in s.sessions
    ensures c in Depart(s, id, outcome).sessions && Fenced(s.sessions[c], Depart(s, id, outcome).sessions[c])
  {
    LeaveFenced(s.sessions[s.claims[id].client], s.claims[id].kind, id);
  }

  lemma PollStepFenced(s: Store, id: nat, late: bool, c: string)
    requires c in s.sessions && CanRun(s, id)
    ensures c in Poll(s, id, late).sessions && Fenced(s.sessions[c], Poll(s, id, late).sessions[c])
  {
    DepartFenced(s, id, ContextDone, c);
    DepartFenced(s, id, StoreClosed, c);
    DepartFenced(s, id, Stale, c);
    var g := s.sessions[s.claims[id].client];
    if Listed(g, id) { PollFenced(g, s.claims[id].kind, id); }
  }

  lemma ArriveStepFenced(s: Store, kind: Kind, d: string, epoch: nat, c: string)
    requires c in s.sessions
    ensures c in Arrive(s, kind, d, epoch).sessions && Fenced(s.sessions[c], Arrive(s, kind, d, epoch).sessions[c])
  {
    if d in s.sessions { ArriveFenced(s.sessions[d], kind, |s.claims|, epoch); }
  }

  lemma ReleaseFenced(s: Store, id: nat, c: string)
    requires c in s.sessions
    ensures c in Release(s, id).sessions && Fenced(s.sessions[c], Release(s, id).sessions[c])
  {
  }

  /** Every step fences: an epoch ends only once its leases are gone, and a registered reconnect lets
      no lease be given. */
  lemma StepFenced(s: Store, step: Step, c: string)
    requires c in s.sessions
    ensures c in Apply(s, step).sessions && Fenced(s.sessions[c], Apply(s, step).sessions[c])
  {
    match step
    case DoPoll(id, late) => if CanRun(s, id) { PollStepFenced(s, id, late, c); }
    case DoArrive(kind, d, epoch) => ArriveStepFenced(s, kind, d, epoch, c);
    case DoRelease(id) => ReleaseFenced(s, id, c);
    case _ =>
  }

  // ---------------------------------------------------------------------------
  // Shutdown
  // ---------------------------------------------------------------------------

  /** The store reports its drain exactly when it is closed and no gate has a holder or a waiter. */
  lemma {:induction false} DrainAlways(maximum: nat, steps: seq<Step>, s: Store)
    requires s == Exec(NewStore(maximum), steps)
    ensures s.drains == (if s.closed && AllIdle(s.sessions) then 1 else 0)
  {
    ExecKeeps(maximum, steps);
  }

  /** Nothing is granted, queued or advanced in a closed store: every step only empties gates. */
  predicate OnlyEmpties(g: Gate, g1: Gate) {
    && g1.epoch == g.epoch && g1.grants == g.grants && (g1.active == g.active || g1.active.None?) && g1.streams <= g.streams
    && |g1.mutations| <= |g.mutations| && |g1.reconnects| <= |g.reconnects| && |g1.streamWaiters| <= |g.streamWaiters|
  }

  lemma {:induction false} WithoutShrinks(s: seq<nat>, id: nat)
    ensures |Without(s, id)| <= |s|
  {
    if s != [] && s[0] != id { WithoutShrinks(s[1..], id); }
  }

  lemma LeaveEmpties(g: Gate, kind: Kind, id: nat)
    ensures OnlyEmpties(g, Leave(g, kind, id))
  {
    WithoutShrinks(g.mutations, id);
    WithoutShrinks(g.reconnects, id);
    WithoutShrinks(g.streamWaiters, id);
  }

  lemma ClosedPoll(s: Store, id: nat, late: bool, c: string)
    requires s.closed && c in s.sessions && CanRun(s, id)
    ensures Poll(s, id, late).closed && c in Poll(s, id, late).sessions
    ensures OnlyEmpties(s.sessions[c], Poll(s, id, late).sessions[c])
  {
    LeaveEmpties(s.sessions[s.claims[id].client], s.claims[id].kind, id);
  }

  lemma ClosedOnlyEmpties(s: Store, step: Step, c: string)
    requires s.closed && c in s.sessions
    ensures Apply(s, step).closed && c in Apply(s, step).sessions
    ensures OnlyEmpties(s.sessions[c], Apply(s, step).sessions[c])
  {
    match step
    case DoPoll(id, late) => if CanRun(s, id) { ClosedPoll(s, id, late, c); }
    case _ =>
  }

  lemma ClosedAddsNoGate(s: Store, step: Step)
    requires s.closed
    ensures Apply(s, step).sessions.Keys == s.sessions.Keys
  {
  }

  lemma StaysIdle(s: Store, step: Step)
    requires s.closed && AllIdle(s.sessions)
    ensures Apply(s, step).closed && AllIdle(Apply(s, step).sessions)
  {
    ClosedAddsNoGate(s, step);
    forall c | c in Apply(s, step).sessions ensures Idle(Apply(s, step).sessions[c]) {
      ClosedOnlyEmpties(s, step, c);
    }
    if s.sessions == map[] { ClosedStays(s, step); } else { var c :| c in s.sessions; ClosedOnlyEmpties(s, step, c); }
  }

  lemma ClosedStays(s: Store, step: Step)
    requires s.closed
    ensures Apply(s, step).closed
  {
  }

  /** A reported drain is final: in every continuation the store stays closed and idle. */
  lemma {:induction false} DrainIsFinal(maximum: nat, steps: seq<Step>, n: nat)
    requires n <= |steps| && Exec(NewStore(maximum), steps[..n]).drains == 1
    ensures var s := Exec(NewStore(maximum), steps); s.drains == 1 && s.closed && AllIdle(s.sessions)
    decreases |steps|
  {
    if n == |steps| {
      assert steps[..n] == steps;
      DrainAlways(maximum, steps, Exec(NewStore(maximum), steps));
    } else {
      var before := steps[..|steps| - 1];
      assert before[..n] == steps[..n];
      DrainIsFinal(maximum, before, n);
      StaysIdle(Exec(NewStore(maximum), before), steps[|steps| - 1]);
      DrainAlways(maximum, steps, Exec(NewStore(maximum), steps));
    }
  }
}
