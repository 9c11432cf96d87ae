/** The mutable run of agent/agent.go and agent/local_resume.go: each method is one section under the
    state lock, or one channel operation, and refines its step of the lifecycle. */
module RunObject {
  import opened Basics
  import opened RunLifecycle

  ghost predicate Reachable(r: Run) {
    exists r0, steps :: Begins(r0) && r == Exec(r0, steps)
  }

  lemma InitialReachable(r0: Run)
    requires Begins(r0)
    ensures Reachable(r0)
  {
    assert r0 == Exec(r0, []);
  }

  lemma StepReachable(r: Run, s: Step, r1: Run)
    requires Reachable(r) && r1 == Apply(r, s)
    ensures Reachable(r1)
  {
    var r0, steps :| Begins(r0) && r == Exec(r0, steps);
    assert (steps + [s])[..|steps|] == steps;
    assert r1 == Exec(r0, steps + [s]);
  }

  lemma Pointers(r: Run)
    requires Reachable(r)
    ensures r.resumeSignal.Some? ==> r.resumeSignal.value < |r.signals|
    ensures r.waiter.Some? ==> r.waiter.value < |r.callers| && !r.status.Running?
    ensures r.active <= r.seen
  {
    var r0, steps :| Begins(r0) && r == Exec(r0, steps);
    ExecKeeps(r0, steps);
  }

  lemma Resumable(r: Run)
    requires Reachable(r) && r.status.Suspended?
    ensures r.resumeSignal.Some? && r.localResume.None? && r.active == {}
  {
    var r0, steps :| Begins(r0) && r == Exec(r0, steps);
    ExecKeeps(r0, steps);
  }

  lemma Undecided(r: Run, p: nat)
    requires Reachable(r) && p < |r.prepared| && r.prepared[p].decision.Ready?
    ensures r.localResume == Some(p) && r.status.ResumePending? && r.resumeSignal.Some?
  {
    var r0, steps :| Begins(r0) && r == Exec(r0, steps);
    ExecKeeps(r0, steps);
  }

  class KernelRun {
    var status: Status
    var started: bool
    var contextDone: bool
    var waiter: Option<nat>
    var resumeSignal: Option<nat>
    var localResume: Option<nat>
    var active: set<string>
    var seen: set<string>
    var point: Point
    var callers: seq<Caller>
    var prepared: seq<Prepared>
    var signals: seq<nat>
    ghost var owner: Option<nat>
    ghost var passed: seq<nat>
    var lastSequence: nat

    ghost function View(): (r: Run)
      reads this
    {
      Run(status, started, contextDone, waiter, resumeSignal, localResume, active, seen, point, callers, prepared,
          signals, owner, passed, lastSequence)
    }

    ghost predicate Valid()
      reads this
    {
      Reachable(View())
    }

    constructor ()
      ensures Valid() && View() == FRESH_RUN
    {
      status, started, contextDone, waiter, resumeSignal, localResume := Created, false, false, None, None, None;
      active, seen, point, callers, prepared, signals := {}, {}, Working, [], [], [];
      owner, passed, lastSequence := None, [], 0;
      new;
      InitialReachable(View());
    }

    /** A run committed from an imported snapshot. */
    constructor Imported(used: set<string>, last: nat)
      ensures Valid() && View() == ImportedRun(used, last)
    {
      status, started, contextDone, waiter, resumeSignal, localResume := Running, true, false, None, None, None;
      active, seen, point, callers, prepared, signals := {}, used, Working, [], [], [];
      owner, passed, lastSequence := None, [], last;
      new;
      InitialReachable(View());
    }

    /** Let the parked goroutine go on: the boundary is no longer exportable before its signal is closed. */
    method OpenBoundary()
      requires resumeSignal.Some? && resumeSignal.value < |signals|
      modifies `status, `resumeSignal, `signals
      ensures View() == old(View()).(status := Running, resumeSignal := None,
                                     signals := RunLifecycle.Close(old(signals), old(resumeSignal.value)))
    {
      var signal := resumeSignal.value;
      status := Running;
      resumeSignal := None;
      signals := signals[signal := signals[signal] + 1];
    }

    /** Close the decision of a prepared local resume. */
    method Decide(p: nat, d: Decision)
      requires p < |prepared|
      modifies `prepared, `localResume
      ensures View() == RunLifecycle.Decide(old(View()), p, d)
    {
      prepared := prepared[p := Prepared(d, prepared[p].closes + 1)];
      localResume := None;
    }

    /** Put a message into a waiting caller's channel. */
    method TellCaller(c: nat)
      requires c < |callers|
      modifies `callers
      ensures View() == Tell(old(View()), c)
    {
      callers := callers[c := callers[c].(messages := callers[c].messages + 1)];
    }

    method ReserveInteraction(id: string) returns (ok: bool)
      requires Valid()
      modifies this
      ensures Valid() && View() == RunLifecycle.ReserveInteraction(old(View()), id)
      ensures ok <==> old(status.Running? && started && id !in seen)
    {
      ghost var before := View();
      Pointers(before);
      ok := status.Running? && started && id !in active && id !in seen;
      if ok {
        seen := seen + {id};
        active := active + {id};
      }
      StepReachable(before, DoReserve(id), View());
    }

    method ReleaseInteraction(id: string)
      requires Valid()
      modifies this
      ensures Valid() && View() == RunLifecycle.ReleaseInteraction(old(View()), id)
    {
      ghost var before := View();
      active := active - {id};
      StepReachable(before, DoRelease(id), View());
    }

    /** The first section of Suspend: the new waiter, unless the run is not plainly running. */
    method Suspend() returns (caller: Option<nat>)
      requires Valid()
      modifies this
      ensures Valid() && View() == RunLifecycle.Suspend(old(View()))
      ensures caller == if old(status.Running? && started) then Some(old(|callers|)) else None
    {
      ghost var before := View();
      Pointers(before);
      if !status.Running? || !started || waiter.Some? {
        callers := callers + [Caller(0, true)];
        caller := None;
      } else {
        caller := Some(|callers|);
        waiter := caller;
        callers := callers + [Caller(0, false)];
        status := Suspending;
      }
      StepReachable(before, DoSuspend, View());
    }

    /** The caller's context ended before it took its answer. */
    method CancelSuspend(caller: nat)
      requires Valid() && caller < |callers| && !callers[caller].returned
      modifies this
      ensures Valid() && View() == RunLifecycle.CancelSuspend(old(View()), caller)
    {
      ghost var before := View();
      Pointers(before);
      callers := callers[caller := callers[caller].(returned := true)];
      if waiter == Some(caller) {
        waiter := None;
        status := Running;
      } else if status.Suspended? && resumeSignal.Some? {
        OpenBoundary();
      }
      StepReachable(before, DoCancelSuspend(caller), View());
    }

    /** The first section of suspendAtBoundary, up to the message to the waiter. */
    method ReachBoundary()
      requires Valid() && point.Working? && started
      modifies this
      ensures Valid() && View() == RunLifecycle.Boundary(old(View()))
    {
      ghost var before := View();
      if waiter.Some? {
        var caller := waiter.value;
        waiter := None;
        if active != {} {
          status := Running;
          point := Telling(caller, Unsafe, 0);
        } else {
          status := Suspended;
          resumeSignal := Some(|signals|);
          point := Telling(caller, Reached, |signals|);
          signals := signals + [0];
          owner := Some(caller);
        }
      }
      StepReachable(before, DoBoundary, View());
    }

    /** The parked goroutine sees its context done. */
    method LeaveBoundary()
      requires Valid() && point.Parked? && contextDone
      modifies this
      ensures Valid() && View() == RunLifecycle.BoundaryCancelled(old(View()))
    {
      ghost var before := View();
      if localResume.None? {
        status := Finishing;
        point := Leaving;
      } else {
        point := Awaiting(localResume.value);
      }
      StepReachable(before, DoBoundaryCancelled, View());
    }

    /** The parked goroutine sees its resume signal closed. */
    method PassBoundary()
      requires Valid() && point.Parked? && point.signal < |signals| && signals[point.signal] > 0
      modifies this
      ensures Valid() && View() == RunLifecycle.BoundaryResumed(old(View()))
    {
      ghost var before := View();
      if contextDone {
        point := Leaving;
      } else {
        passed := passed + [point.signal];
        point := Working;
      }
      StepReachable(before, DoBoundaryResumed, View());
    }

    method PrepareLocalResume() returns (p: Option<nat>)
      requires Valid()
      modifies this
      ensures Valid() && View() == RunLifecycle.PrepareResume(old(View()))
      ensures p == if old(!contextDone && status.Suspended? && lastSequence != MAX_UINT64) then Some(old(|prepared|)) else None
    {
      ghost var before := View();
      if status.Suspended? { Resumable(before); }
      if contextDone || !status.Suspended? || resumeSignal.None? || localResume.Some? || active != {} {
        p := None;
      } else if lastSequence == MAX_UINT64 {
        p := None;
      } else {
        p := Some(|prepared|);
        prepared := prepared + [Prepared(Ready, 0)];
        localResume := p;
        status := ResumePending;
      }
      StepReachable(before, DoPrepareResume, View());
    }

    /** Commit of a prepared local resume; it succeeds once and only while undecided. */
    method Commit(p: nat) returns (ok: bool)
      requires Valid() && p < |prepared|
      modifies this
      ensures Valid() && View() == RunLifecycle.CommitResume(old(View()), p)
      ensures ok <==> old(prepared[p].decision.Ready?)
    {
      ghost var before := View();
      if prepared[p].decision.Ready? { Undecided(before, p); }
      Pointers(before);
      ok := prepared[p].decision.Ready? && localResume == Some(p) && status.ResumePending? && resumeSignal.Some?;
      if ok {
        Decide(p, Committed);
        OpenBoundary();
      }
      StepReachable(before, DoCommitResume(p), View());
    }

    /** Abort of a prepared local resume: a committed one is refused, an aborted one stays aborted. */
    method Abort(p: nat) returns (ok: bool)
      requires Valid() && p < |prepared|
      modifies this
      ensures Valid() && View() == RunLifecycle.AbortResume(old(View()), p)
      ensures ok <==> !old(prepared[p].decision.Committed?)
    {
      ghost var before := View();
      if prepared[p].decision.Ready? { Undecided(before, p); }
      if prepared[p].decision.Aborted? {
        ok := true;
      } else {
        ok := prepared[p].decision.Ready? && localResume == Some(p) && status.ResumePending? && resumeSignal.Some?;
        if ok {
          Decide(p, Aborted);
          status := if contextDone then Finishing else Suspended;
        }
      }
      StepReachable(before, DoAbortResume(p), View());
    }

    /** Refuse a pending suspension. */
    method DismissWaiter()
      requires waiter.Some? ==> waiter.value < |callers|
      modifies `callers, `waiter
      ensures View() == (if old(waiter.Some?) then Tell(old(View()), old(waiter.value)) else old(View())).(waiter := None)
    {
      if waiter.Some? {
        TellCaller(waiter.value);
        waiter := None;
      }
    }

    method StopWork()
      modifies `status, `contextDone, `point
      ensures View() == old(View()).(status := Finishing, contextDone := true, point := Draining)
    {
      status := Finishing;
      contextDone := true;
      point := Draining;
    }

    /** beginFinalization up to the wait for interactions. */
    method BeginFinalization()
      requires Valid() && (point.Working? || point.Leaving?)
      modifies this
      ensures Valid() && View() == RunLifecycle.BeginFinalization(old(View()))
    {
      ghost var before := View();
      Pointers(before);
      DismissWaiter();
      StopWork();
      StepReachable(before, DoFinalize, View());
    }
  }
}
