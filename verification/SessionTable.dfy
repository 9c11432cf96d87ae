/** The session store as the daemon runs it: maps and waiter lists changed in place under one lock,
    one method for each stretch of code that holds it. */
module SessionTable {
  import opened Basics
  import opened SessionGate
  import opened SessionSafety

  /** Some run of the state machine leads here. */
  ghost predicate Reached(s: Store) {
    exists steps: seq<Step> :: s == Exec(NewStore(s.maximum), steps)
  }

  lemma NewReached(maximum: nat)
    ensures Reached(NewStore(maximum))
  {
    assert Exec(NewStore(maximum), []) == NewStore(maximum);
  }

  lemma StepReached(s: Store, step: Step, s1: Store)
    requires Reached(s) && s1 == Apply(s, step)
    ensures Reached(s1)
  {
    var steps: seq<Step> :| s == Exec(NewStore(s.maximum), steps);
    assert (steps + [step])[..|steps|] == steps;
    assert s1 == Exec(NewStore(s.maximum), steps + [step]);
  }

  /** A waiting claim is in the list of its kind, so the lists it indexes are not empty. */
  lemma ReachedListed(s: Store, id: nat)
    requires Reached(s) && id < |s.claims| && Waiting(s.claims[id])
    ensures s.claims[id].client in s.sessions && ListedAs(s.sessions[s.claims[id].client], s.claims[id].kind, id)
  {
    var steps: seq<Step> :| s == Exec(NewStore(s.maximum), steps);
    ExecKeeps(s.maximum, steps);
    WaitingIsQueued(s, id);
  }

  /** Delete a waiter from its list by searching for it. */
  method Delete(list: seq<nat>, id: nat) returns (r: seq<nat>, found: bool)
    ensures r == Without(list, id) && found == (id in list)
  {
    var i := 0;
    while i < |list|
      invariant 0 <= i <= |list| && id !in list[..i]
    {
      if list[i] == id {
        DeletesFirst(list, id, i);
        return list[..i] + list[i + 1..], true;
      }
      i := i + 1;
    }
    NothingDeleted(list, id);
    return list, false;
  }

  lemma {:induction false} DeletesFirst(list: seq<nat>, id: nat, i: nat)
    requires i < |list| && list[i] == id && id !in list[..i]
    ensures Without(list, id) == list[..i] + list[i + 1..]
  {
    if i > 0 {
      assert list[0] in list[..i];
      assert list[1..][..i - 1] == list[..i][1..];
      DeletesFirst(list[1..], id, i - 1);
      assert list[..i] + list[i + 1..] == [list[0]] + (list[1..][..i - 1] + list[1..][i..]);
    }
  }

  lemma {:induction false} NothingDeleted(list: seq<nat>, id: nat)
    requires id !in list
    ensures Without(list, id) == list
  {
    if list != [] {
      NothingDeleted(list[1..], id);
      assert list == [list[0]] + list[1..];
    }
  }

  // ---------------------------------------------------------------------------
  // What a first turn means
  // ---------------------------------------------------------------------------

  /** The store takes claims of this client and epoch. */
  predicate Serves(s: Store, c: string, epoch: nat) {
    !Shut(s) && c in s.sessions && epoch != 0 && s.sessions[c].epoch == epoch
  }

  /** The lease is free for a newcomer: nobody holds or waits for the commit, or a stream is left, and no reconnect
      is registered. A reconnect always takes a turn first. */
  predicate Free(g: Gate, kind: Kind) {
    match kind
    case Mutation => g.active.None? && g.mutations == [] && g.reconnects == []
    case Stream(maximum) => g.reconnects == [] && |g.streams| < maximum
    case Reconnect => false
  }

  function ListOf(g: Gate, kind: Kind): (r: seq<nat>) {
    match kind
    case Mutation => g.mutations
    case Stream(_) => g.streamWaiters
    case Reconnect => g.reconnects
  }

  /** What became of the newest claim of a gate: it holds its lease exactly if it was free, and waits only as the
      last of its list, within the bound. */
  predicate Answered(g: Gate, kind: Kind, id: nat, g1: Gate, phase: Phase) {
    && (phase.Holding? <==> Free(g, kind)) && (phase.Holding? ==> HeldAs(g1, kind, id))
    && (phase.Ready? || phase.Blocked? ==>
          ListOf(g1, kind) == ListOf(g, kind) + [id] && Waiters(g1) == Waiters(g) + 1 <= MAX_WAITERS)
    && (phase.Blocked? ==> phase.gen == g1.gen)
    && (phase.Finished? ==> g1 == g)
  }

  lemma ArriveAtMeans(g: Gate, kind: Kind, id: nat, epoch: nat)
    requires id !in g.mutations
    ensures Answered(g, kind, id, ArriveAt(g, kind, id, epoch).gate, ArriveAt(g, kind, id, epoch).phase)
  {
  }

  lemma ReachedFresh(s: Store, c: string)
    requires Reached(s) && c in s.sessions
    ensures |s.claims| !in s.sessions[c].mutations
  {
    var steps: seq<Step> :| s == Exec(NewStore(s.maximum), steps);
    ExecKeeps(s.maximum, steps);
    assert GateInv(c, s.sessions[c], s.claims);
  }

  class Sessions {
    const maximum: nat
    var sessions: map<string, Gate>
    var claims: seq<Claim>
    var closed: bool
    var rootDone: bool
    var drains: nat

    function View(): (s: Store)
      reads this
    {
      Store(maximum, sessions, claims, closed, rootDone, drains)
    }

    ghost predicate Valid()
      reads this
    {
      Reached(View())
    }

    constructor (maximum: nat)
      ensures Valid() && View() == NewStore(maximum)
    {
      this.maximum := maximum;
      sessions, claims, closed, rootDone, drains := map[], [], false, false, 0;
      new;
      NewReached(maximum);
    }

    /** Close the drained channel once a closed store is idle. */
    method Drain()
      modifies `drains
      ensures View() == MaybeDrained(old(View()))
    {
      if !closed {
        return;
      }
      var rest := sessions.Keys;
      while rest != {}
        invariant rest <= sessions.Keys && forall c | c in sessions && c !in rest :: Idle(sessions[c])
        decreases |rest|
      {
        var c :| c in rest;
        if !Idle(sessions[c]) {
          return;
        }
        rest := rest - {c};
      }
      if drains == 0 {
        drains := 1;
      }
    }

    /** Take a claim out of its list; a removal signals. */
    method Remove(c: string, kind: Kind, id: nat)
      requires c in sessions
      modifies `sessions
      ensures View() == Put(old(View()), c, Leave(old(sessions[c]), kind, id))
    {
      var g := sessions[c];
      match kind {
        case Mutation =>
          var list, found := Delete(g.mutations, id);
          if found { g := Signal(g.(mutations := list)); }
        case Stream(_) =>
          var list, found := Delete(g.streamWaiters, id);
          if found { g := Signal(g.(streamWaiters := list)); }
        case Reconnect =>
          var list, found := Delete(g.reconnects, id);
          if found { g := Signal(g.(reconnects := list, fencing := g.fencing - {id})); }
      }
      sessions := sessions[c := g];
    }

    method GoAway(id: nat, outcome: Outcome)
      requires id < |claims| && claims[id].client in sessions
      modifies this
      ensures View() == Depart(old(View()), id, outcome)
    {
      var x := claims[id];
      Remove(x.client, x.kind, id);
      claims := claims[id := x.(phase := Finished(outcome))];
      Drain();
    }

    method Register(c: string) returns (ok: bool)
      requires Valid()
      modifies this
      ensures Valid() && View() == Fresh(old(View()), c) && ok == (c in sessions && c !in old(sessions))
    {
      ok := false;
      if !closed && !rootDone && |sessions| < maximum && c !in sessions {
        sessions := sessions[c := NEW_GATE];
        ok := true;
      }
      StepReached(old(View()), DoFresh(c), View());
    }

    /** One attempt at the commit lease, the first one or that of a queued claimant. */
    method TryMutation(c: string, id: nat, queued: bool) returns (phase: Phase)
      requires c in sessions && (queued ==> sessions[c].mutations != [])
      modifies `sessions
      ensures var r := if queued then PollMutation(old(sessions[c]), id) else ArriveMutation(old(sessions[c]), id);
              View() == Put(old(View()), c, r.gate) && phase == r.phase
    {
      var g := sessions[c];
      if !queued && g.active.None? && |g.mutations| == 0 && |g.reconnects| == 0 {
        sessions := sessions[c := Grant(g, id)];
        return Holding;
      }
      if !queued {
        if Waiters(g) >= MAX_WAITERS {
          assert sessions[c := g] == sessions;
          return Finished(Capacity);
        }
        g := g.(mutations := g.mutations + [id]);
        sessions := sessions[c := g];
      }
      if |g.reconnects| != 0 || g.active.Some? || g.mutations[0] != id {
        assert sessions[c := g] == sessions;
        return Blocked(g.gen);
      }
      sessions := sessions[c := Grant(Signal(g.(mutations := g.mutations[1..])), id)];
      return Holding;
    }

    /** One attempt at a stream lease: past any reconnect, within the stream bound. */
    method TryStream(c: string, id: nat, maximum: nat, queued: bool) returns (phase: Phase)
      requires c in sessions
      modifies `sessions
      ensures var r := if queued then PollStream(old(sessions[c]), id, maximum)
                       else ArriveStream(old(sessions[c]), id, maximum);
              View() == Put(old(View()), c, r.gate) && phase == r.phase
    {
      if |sessions[c].reconnects| == 0 {
        if queued { Remove(c, Stream(maximum), id); }
        var g := sessions[c];
        if |g.streams| >= maximum {
          assert sessions[c := g] == sessions;
          return Finished(Capacity);
        }
        sessions := sessions[c := g.(streams := g.streams + {id})];
        return Holding;
      }
      var g := sessions[c];
      if !queued {
        if Waiters(g) >= MAX_WAITERS {
          assert sessions[c := g] == sessions;
          return Finished(Capacity);
        }
        g := g.(streamWaiters := g.streamWaiters + [id]);
      }
      sessions := sessions[c := g];
      return Blocked(g.gen);
    }

    /** Register a reconnect intent. */
    method RegisterReconnect(c: string, id: nat, expected: nat) returns (phase: Phase)
      requires c in sessions
      modifies `sessions
      ensures var r := ArriveReconnect(old(sessions[c]), id, expected);
              View() == Put(old(View()), c, r.gate) && phase == r.phase
    {
      var g := sessions[c];
      assert sessions[c := g] == sessions;
      if expected == MAX_UINT64 {
        return Finished(Overflow);
      }
      if Waiters(g) >= MAX_WAITERS {
        return Finished(Capacity);
      }
      sessions := sessions[c := Signal(g.(reconnects := g.reconnects + [id]))];
      return Ready;
    }

    /** One step of a registered reconnect: wait for the commit, stop the streams, wait for them, advance. */
    method ReconnectStep(c: string, id: nat) returns (phase: Phase)
      requires c in sessions && sessions[c].reconnects != []
      modifies `sessions
      ensures var r := PollReconnect(old(sessions[c]), id); View() == Put(old(View()), c, r.gate) && phase == r.phase
    {
      var g := sessions[c];
      assert sessions[c := g] == sessions;
      if g.reconnects[0] != id || g.active.Some? {
        return Blocked(g.gen);
      }
      if id !in g.fencing && g.streams != {} {
        sessions := sessions[c := g.(fencing := g.fencing + {id}, stopped := g.stopped + g.streams)];
        return Ready;
      }
      if g.streams != {} {
        return Blocked(g.gen);
      }
      sessions := sessions[c := Advance(g, id)];
      return Finished(Advanced(g.epoch + 1));
    }

    /** A claimant's first turn: mutation commit, stream or reconnect. It gets its lease exactly if it was free,
        and waits only behind everyone of its kind. */
    method Acquire(kind: Kind, c: string, epoch: nat) returns (id: nat)
      requires Valid() && (kind.Stream? ==> 1 <= kind.maximum <= MAX_STREAMS)
      modifies this
      ensures Valid() && View() == Arrive(old(View()), kind, c, epoch) && id == |old(claims)| < |claims|
      ensures if Serves(old(View()), c, epoch)
              then c in sessions && Answered(old(sessions[c]), kind, id, sessions[c], claims[id].phase)
              else sessions == old(sessions) && claims[id].phase.Finished?
    {
      ghost var before := View();
      id := |claims|;
      var phase;
      if closed || rootDone {
        phase := Finished(StoreClosed);
      } else if c !in sessions || epoch == 0 || sessions[c].epoch != epoch {
        phase := Finished(Stale);
      } else {
        ReachedFresh(before, c);
        ArriveAtMeans(sessions[c], kind, id, epoch);
        match kind {
          case Mutation => phase := TryMutation(c, id, false);
          case Stream(maximum) => phase := TryStream(c, id, maximum, false);
          case Reconnect => phase := RegisterReconnect(c, id, epoch);
        }
      }
      claims := claims + [Claim(kind, c, epoch, false, phase)];
      StepReached(before, DoArrive(kind, c, epoch), View());
    }

    /** A later turn of a waiting claimant. */
    method Turn(id: nat, late: bool)
      requires Valid() && CanRun(View(), id)
      modifies this
      ensures Valid() && View() == Poll(old(View()), id, late)
    {
      ghost var before := View();
      ReachedListed(before, id);
      var x := claims[id];
      if x.contextDone && !late {
        GoAway(id, ContextDone);
      } else if closed || rootDone {
        GoAway(id, StoreClosed);
      } else if sessions[x.client].epoch != x.epoch {
        GoAway(id, Stale);
      } else if x.contextDone && !x.kind.Reconnect? {
        GoAway(id, ContextDone);
      } else {
        var phase := TakeTurn(x.client, x.kind, id);
        claims := claims[id := x.(phase := phase)];
      }
      StepReached(before, DoPoll(id, late), View());
    }

    method TakeTurn(c: string, kind: Kind, id: nat) returns (phase: Phase)
      requires c in sessions && ListedAs(sessions[c], kind, id)
      modifies `sessions
      ensures var r := PollAt(old(sessions[c]), kind, id); View() == Put(old(View()), c, r.gate) && phase == r.phase
    {
      match kind {
        case Mutation => phase := TryMutation(c, id, true);
        case Stream(maximum) => phase := TryStream(c, id, maximum, true);
        case Reconnect => phase := ReconnectStep(c, id);
      }
    }

    /** Close a lease; closing it again does nothing. */
    method CloseLease(id: nat)
      requires Valid()
      modifies this
      ensures Valid() && View() == Release(old(View()), id)
    {
      if id < |claims| && claims[id].phase.Holding? && claims[id].client in sessions {
        var x := claims[id];
        var g := sessions[x.client];
        if x.kind.Mutation? {
          g := g.(active := None);
        } else {
          g := g.(streams := g.streams - {id});
        }
        sessions := sessions[x.client := Signal(g)];
        claims := claims[id := x.(phase := Finished(Released))];
        Drain();
      }
      StepReached(old(View()), DoRelease(id), View());
    }

    method SignalEvery()
      modifies `sessions
      ensures View() == old(View()).(sessions := SignalAll(old(sessions)))
    {
      ghost var before := sessions;
      var rest := sessions.Keys;
      while rest != {}
        invariant rest <= before.Keys == sessions.Keys
        invariant forall c | c in before :: sessions[c] == if c in rest then before[c] else Signal(before[c])
        decreases |rest|
      {
        var c :| c in rest;
        sessions := sessions[c := Signal(sessions[c])];
        rest := rest - {c};
      }
      assert sessions == SignalAll(before);
    }

    method CloseAll()
      requires Valid()
      modifies this
      ensures Valid() && View() == Close(old(View())) && closed
    {
      if !closed {
        closed := true;
        SignalEvery();
        Drain();
      }
      StepReached(old(View()), DoClose, View());
    }
  }
}
