/** What the run lifecycle guarantees in every reachable state (agent/agent.go, agent/local_resume.go). */
module RunGuarantees {
  import opened Basics
  import opened RunLifecycle

  /** The states ExportSnapshot reads from. */
  predicate Boundaried(r: Run) {
    r.status.Suspended? || r.status.Terminal?
  }

  /** A snapshot is taken only while nothing can move past it: no interaction is active, and execution is
      done or held at the current, still open boundary. */
  lemma {:induction false} ExportIsQuiet(r0: Run, steps: seq<Step>)
    requires Begins(r0)
    requires Boundaried(Exec(r0, steps))
    ensures var r := Exec(r0, steps);
            && r.active == {}
            && (r.point.Finished? || (r.resumeSignal.Some? && SignalOf(r.point) == r.resumeSignal
                                      && r.resumeSignal.value < |r.signals| && r.signals[r.resumeSignal.value] == 0
                                      && r.resumeSignal.value !in r.passed))
  {
    ExecKeeps(r0, steps);
  }

  /** No channel is closed twice, every waiting caller is owed exactly one message, and boundaries are
      passed in order and only after they were released. */
  lemma {:induction false} ChannelsAlways(r0: Run, steps: seq<Step>)
    requires Begins(r0)
    ensures var r := Exec(r0, steps);
            && (forall i | 0 <= i < |r.signals| :: r.signals[i] <= 1)
            && (forall p | 0 <= p < |r.prepared| :: r.prepared[p].closes <= 1)
            && (forall c | 0 <= c < |r.callers| :: r.callers[c].messages <= 1)
            && (forall c | 0 <= c < |r.callers| :: !r.callers[c].returned ==> Due(r, c) == 1)
            && (forall i, j | 0 <= i < j < |r.passed| :: r.passed[i] < r.passed[j])
            && (forall i | 0 <= i < |r.passed| :: r.passed[i] < |r.signals| && r.signals[r.passed[i]] == 1)
  {
    ExecKeeps(r0, steps);
    var r := Exec(r0, steps);
    forall p | 0 <= p < |r.prepared| ensures r.prepared[p].closes <= 1 { assert DecisionOk(r.prepared[p]); }
    forall c | 0 <= c < |r.callers| ensures r.callers[c].messages <= 1 { assert Due(r, c) <= 1; }
  }

  // ---------------------------------------------------------------------------
  // Cancellation is latched
  // ---------------------------------------------------------------------------

  lemma {:induction false} ExecAppend(r0: Run, steps: seq<Step>, s: Step)
    ensures Exec(r0, steps + [s]) == Apply(Exec(r0, steps), s)
  {
    assert (steps + [s])[..|steps|] == steps;
  }

  lemma ApplyLatches(r: Run, s: Step)
    requires r.contextDone
    ensures Apply(r, s).contextDone && Apply(r, s).passed == r.passed
  {
  }

  /** Once the context ended, no boundary is ever passed again. */
  lemma {:induction false} CancelIsLatched(r0: Run, steps: seq<Step>, more: seq<Step>)
    requires Exec(r0, steps).contextDone
    ensures Exec(r0, steps + more).contextDone && Exec(r0, steps + more).passed == Exec(r0, steps).passed
  {
    if more == [] {
      assert steps + more == steps;
    } else {
      var init, last := more[..|more| - 1], more[|more| - 1];
      CancelIsLatched(r0, steps, init);
      assert steps + more == (steps + init) + [last];
      ExecAppend(r0, steps + init, last);
      ApplyLatches(Exec(r0, steps + init), last);
    }
  }

  // ---------------------------------------------------------------------------
  // Nobody is stranded at a boundary
  // ---------------------------------------------------------------------------

  function After(r: Run, steps: seq<Step>): (r1: Run)
    decreases |steps|
  {
    if steps == [] then r else After(Apply(r, steps[0]), steps[1..])
  }

  /** Steps that free a goroutine held at a boundary. */
  function Release(r: Run): (steps: seq<Step>) {
    match r.point
    case Telling(_, _, _) => [DoDeliver]
    case Parked(signal) =>
      if signal < |r.signals| && r.signals[signal] > 0 then [DoBoundaryResumed]
      else if r.contextDone then [DoBoundaryCancelled]
      else if r.localResume.Some? then [DoCommitResume(r.localResume.value), DoBoundaryResumed]
      else if r.lastSequence == MAX_UINT64 then [DoCancel, DoBoundaryCancelled]
      else [DoPrepareResume, DoCommitResume(|r.prepared|), DoBoundaryResumed]
    case Awaiting(p) =>
      if r.localResume.Some? then [DoAbortResume(r.localResume.value), DoDecisionMade] else [DoDecisionMade]
    case _ => []
  }

  predicate Freed(p: Point) {
    p.Working? || p.Leaving? || p.Awaiting?
  }

  lemma {:induction false} PendingIsFreed(r: Run, p: nat)
    requires r.point.Parked? && r.resumeSignal == Some(r.point.signal) && r.point.signal < |r.signals|
    requires !r.contextDone && Pending(r, p)
    ensures After(r, [DoCommitResume(p), DoBoundaryResumed]).point.Working?
  {
    var r1 := Apply(r, DoCommitResume(p));
    assert r1.signals[r.point.signal] > 0 && r1.point == r.point;
    assert After(r1, [DoBoundaryResumed]) == After(Apply(r1, DoBoundaryResumed), []);
    assert [DoCommitResume(p), DoBoundaryResumed][1..] == [DoBoundaryResumed];
  }

  lemma {:induction false} ParkedIsFreed(r: Run)
    requires Inv(r) && r.point.Parked?
    ensures Freed(After(r, Release(r)).point)
  {
    if r.signals[r.point.signal] == 0 && !r.contextDone {
      if r.localResume.Some? {
        PendingIsFreed(r, r.localResume.value);
      } else if r.lastSequence == MAX_UINT64 {
        var r1 := Apply(r, DoCancel);
        assert After(r1, [DoBoundaryCancelled]) == After(Apply(r1, DoBoundaryCancelled), []);
        assert Release(r)[1..] == [DoBoundaryCancelled];
      } else {
        var p := |r.prepared|;
        PendingIsFreed(Apply(r, DoPrepareResume), p);
        assert Release(r)[1..] == [DoCommitResume(p), DoBoundaryResumed];
      }
    }
  }

  lemma {:induction false} AwaitingIsFreed(r: Run)
    requires Inv(r) && r.point.Awaiting?
    ensures After(r, Release(r)).point.Leaving?
  {
    var p := r.point.prepared;
    assert DecisionOk(r.prepared[p]);
    if r.localResume.Some? {
      assert r.localResume == Some(p) && Pending(r, p);
      var r1 := Apply(r, DoAbortResume(p));
      assert r1.prepared[p].closes == 1 && r1.point == r.point;
      assert After(r1, [DoDecisionMade]) == After(Apply(r1, DoDecisionMade), []);
      assert Release(r)[1..] == [DoDecisionMade];
    }
  }

  /** Wherever a goroutine is held, the callers can free it: a closed signal, the ended context or a pending
      or new local resume takes it out of the boundary. */
  lemma {:induction false} NoStrandedRun(r0: Run, steps: seq<Step>)
    requires Begins(r0)
    ensures var r := Exec(r0, steps);
            && (r.point.Parked? ==> Freed(After(r, Release(r)).point))
            && (r.point.Awaiting? ==> After(r, Release(r)).point.Leaving?)
  {
    ExecKeeps(r0, steps);
    var r := Exec(r0, steps);
    if r.point.Parked? { ParkedIsFreed(r); }
    if r.point.Awaiting? { AwaitingIsFreed(r); }
  }

  // ---------------------------------------------------------------------------
  // Local resume
  // ---------------------------------------------------------------------------

  /** Preparing and aborting a local resume restores the suspended run exactly; preparing and committing is
      the direct resume. Only the record of the decision is added. */
  lemma {:induction false} ResumeRoundTrip(r0: Run, steps: seq<Step>)
    requires Begins(r0)
    requires Exec(r0, steps).status.Suspended? && !Exec(r0, steps).contextDone && Exec(r0, steps).lastSequence != MAX_UINT64
    ensures var r, p := Exec(r0, steps), |Exec(r0, steps).prepared|;
            && AbortResume(PrepareResume(r), p) == r.(prepared := r.prepared + [Prepared(Aborted, 1)])
            && CommitResume(PrepareResume(r), p) == ResumeLocked(r).(prepared := r.prepared + [Prepared(Committed, 1)])
  {
    ExecKeeps(r0, steps);
    var r, p := Exec(r0, steps), |Exec(r0, steps).prepared|;
    var r1 := PrepareResume(r);
    assert Pending(r1, p);
    assert r1.prepared[p := Prepared(Aborted, 1)] == r.prepared + [Prepared(Aborted, 1)];
    assert r1.prepared[p := Prepared(Committed, 1)] == r.prepared + [Prepared(Committed, 1)];
  }

  // ---------------------------------------------------------------------------
  // A cancelled Suspend call
  // ---------------------------------------------------------------------------

  /** The current suspension belongs to someone other than `c`. */
  predicate SuspendedByOther(r: Run, c: nat) {
    r.status.Suspended? && r.owner.Some? && r.owner != Some(c)
  }

  predicate Busy(r: Run, callers: seq<Caller>) {
    && r.status.Running? && r.started && !r.contextDone && r.point.Working? && r.waiter.None? && r.localResume.None?
    && r.active == {} && r.callers == callers && r.lastSequence == 0
  }

  lemma Started() returns (steps: seq<Step>)
    ensures Busy(Exec(FRESH_RUN, steps), []) && Exec(FRESH_RUN, steps).signals == []
  {
    steps := [DoStart];
    assert steps[..0] == [];
  }

  lemma FirstReached() returns (steps: seq<Step>)
    ensures var r := Exec(FRESH_RUN, steps);
            && r.status.Suspended? && r.started && !r.contextDone && r.point == Parked(0) && r.resumeSignal == Some(0)
            && r.waiter.None? && r.localResume.None? && r.active == {} && r.callers == [Caller(1, false)] && r.signals == [0]
            && r.lastSequence == 0
  {
    steps := Started();
    ExecAppend(FRESH_RUN, steps, DoSuspend);
    ExecAppend(FRESH_RUN, steps + [DoSuspend], DoBoundary);
    ExecAppend(FRESH_RUN, steps + [DoSuspend] + [DoBoundary], DoDeliver);
    steps := steps + [DoSuspend] + [DoBoundary] + [DoDeliver];
  }

  lemma FirstResumed() returns (steps: seq<Step>)
    ensures Busy(Exec(FRESH_RUN, steps), [Caller(1, false)])
  {
    steps := FirstReached();
    var p := |Exec(FRESH_RUN, steps).prepared|;
    ExecAppend(FRESH_RUN, steps, DoPrepareResume);
    ExecAppend(FRESH_RUN, steps + [DoPrepareResume], DoCommitResume(p));
    ExecAppend(FRESH_RUN, steps + [DoPrepareResume] + [DoCommitResume(p)], DoBoundaryResumed);
    steps := steps + [DoPrepareResume] + [DoCommitResume(p)] + [DoBoundaryResumed];
  }

  /** A Suspend call that ends by its own context can release a later caller's suspension: here caller 0 has
      not yet picked up its answer when caller 1 is suspended. */
  lemma StaleCancelReleases() returns (steps: seq<Step>)
    ensures SuspendedByOther(Exec(FRESH_RUN, steps), 0) && !Apply(Exec(FRESH_RUN, steps), DoCancelSuspend(0)).status.Suspended?
  {
    steps := FirstResumed();
    ExecAppend(FRESH_RUN, steps, DoSuspend);
    steps := steps + [DoSuspend];
    ExecAppend(FRESH_RUN, steps, DoBoundary);
    steps := steps + [DoBoundary];
  }

  /** It happens exactly when the caller was answered before and has not returned yet. */
  lemma {:induction false} CancelSparesOthers(r0: Run, steps: seq<Step>, c: nat)
    requires Begins(r0)
    requires SuspendedByOther(Exec(r0, steps), c)
    ensures var r := Exec(r0, steps);
            CancelSuspend(r, c).status.Suspended?
            <==> !(c < |r.callers| && !r.callers[c].returned && r.callers[c].messages == 1)
  {
    ExecKeeps(r0, steps);
    var r := Exec(r0, steps);
    if c < |r.callers| { assert Due(r, c) <= 1; }
  }
}
