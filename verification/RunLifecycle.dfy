/** The lifecycle of one kernel run (agent/agent.go, agent/local_resume.go): suspension at turn
    boundaries, local resume, interactions, cancellation and finalization, step by step. */
module RunLifecycle {
  import opened Basics

  datatype Status = Created | Running | Suspending | Suspended | ResumePending | Finishing | Terminal

  datatype Message = Reached | Unsafe

  /** A caller of Suspend: waiting with the messages its channel got, or returned. */
  datatype Caller = Caller(messages: nat, returned: bool)

  datatype Decision = Ready | Committed | Aborted

  /** A prepared local resume and how often its decision channel was closed. */
  datatype Prepared = Prepared(decision: Decision, closes: nat)

  /** Where the execution goroutine stands: working on a turn, telling a suspend waiter, parked at a
      boundary on a resume signal, waiting for a pending decision, leaving, draining interactions, done. */
  datatype Point =
    | Working
    | Telling(caller: nat, message: Message, signal: nat)
    | Parked(signal: nat)
    | Awaiting(prepared: nat)
    | Leaving
    | Draining
    | Finished

  /** `signals[i]` counts how often resume signal `i` was closed, `owner` is the caller whose suspension
      is current, and `passed` lists the signals of boundaries that execution went past. */
  datatype Run = Run(status: Status, started: bool, contextDone: bool, waiter: Option<nat>, resumeSignal: Option<nat>,
                     localResume: Option<nat>, active: set<string>, seen: set<string>, point: Point,
                     callers: seq<Caller>, prepared: seq<Prepared>, signals: seq<nat>, owner: Option<nat>, passed: seq<nat>,
                     lastSequence: nat)

  const FRESH_RUN := Run(Created, false, false, None, None, None, {}, {}, Working, [], [], [], None, [], 0)

  /** A run imported from a snapshot is running from the start, and remembers which interactions were used. */
  function ImportedRun(used: set<string>, lastSequence: nat): (r: Run) {
    FRESH_RUN.(status := Running, started := true, seen := used, lastSequence := lastSequence)
  }

  /** How a run begins: fresh, or imported. */
  predicate Begins(r: Run) {
    r == FRESH_RUN || r == ImportedRun(r.seen, r.lastSequence)
  }

  // ---------------------------------------------------------------------------
  // Steps
  // ---------------------------------------------------------------------------

  function MarkStarted(r: Run): (r1: Run) {
    if r.status.Created? && r.point.Working? then r.(started := true, status := Running) else r
  }

  function ReserveInteraction(r: Run, id: string): (r1: Run) {
    if r.status.Running? && r.started && id !in r.active && id !in r.seen then
      r.(active := r.active + {id}, seen := r.seen + {id})
    else r
  }

  function ReleaseInteraction(r: Run, id: string): (r1: Run) {
    r.(active := r.active - {id})
  }

  /** A new Suspend call: it becomes the waiter or returns at once. */
  function Suspend(r: Run): (r1: Run) {
    if r.status.Running? && r.started && r.waiter.None? then
      r.(status := Suspending, waiter := Some(|r.callers|), callers := r.callers + [Caller(0, false)])
    else r.(callers := r.callers + [Caller(0, true)])
  }

  function Close(signals: seq<nat>, i: nat): (r: seq<nat>) {
    if i < |signals| then signals[i := signals[i] + 1] else signals
  }

  /** Release the current boundary. */
  function ResumeLocked(r: Run): (r1: Run) {
    if r.status.Suspended? && r.resumeSignal.Some? then
      r.(status := Running, resumeSignal := None, signals := Close(r.signals, r.resumeSignal.value))
    else r
  }

  /** The caller's context ended while it waited. */
  function CancelSuspend(r: Run, c: nat): (r1: Run) {
    if c < |r.callers| && !r.callers[c].returned then
      var r1 := r.(callers := r.callers[c := r.callers[c].(returned := true)]);
      if r.waiter == Some(c) then r1.(waiter := None, status := Running) else ResumeLocked(r1)
    else r
  }

  function ReceiveMessage(r: Run, c: nat): (r1: Run) {
    if c < |r.callers| && !r.callers[c].returned && r.callers[c].messages > 0 then
      r.(callers := r.callers[c := r.callers[c].(returned := true)])
    else r
  }

  function Tell(r: Run, c: nat): (r1: Run) {
    if c < |r.callers| then r.(callers := r.callers[c := r.callers[c].(messages := r.callers[c].messages + 1)]) else r
  }

  /** A fully finalized turn: pass, refuse the pending suspension, or suspend. */
  function Boundary(r: Run): (r1: Run) {
    if !r.point.Working? || !r.started then r
    else if r.waiter.None? then r
    else if r.active != {} then r.(waiter := None, status := Running, point := Telling(r.waiter.value, Unsafe, 0))
    else r.(waiter := None, status := Suspended, resumeSignal := Some(|r.signals|), signals := r.signals + [0],
            owner := r.waiter, point := Telling(r.waiter.value, Reached, |r.signals|))
  }

  function DeliverMessage(r: Run): (r1: Run) {
    if r.point.Telling? then
      Tell(r, r.point.caller).(point := if r.point.message.Reached? then Parked(r.point.signal) else Working)
    else r
  }

  /** The parked goroutine sees its context end. */
  function BoundaryCancelled(r: Run): (r1: Run) {
    if r.point.Parked? && r.contextDone then
      if r.localResume.None? then r.(status := Finishing, point := Leaving) else r.(point := Awaiting(r.localResume.value))
    else r
  }

  function DecisionMade(r: Run): (r1: Run) {
    if r.point.Awaiting? && r.point.prepared < |r.prepared| && r.prepared[r.point.prepared].closes > 0 then
      r.(point := Leaving)
    else r
  }

  /** The parked goroutine sees its resume signal closed; a context that ended first wins. */
  function BoundaryResumed(r: Run): (r1: Run) {
    if r.point.Parked? && r.point.signal < |r.signals| && r.signals[r.point.signal] > 0 then
      if r.contextDone then r.(point := Leaving) else r.(point := Working, passed := r.passed + [r.point.signal])
    else r
  }

  function PrepareResume(r: Run): (r1: Run) {
    if !r.contextDone && r.status.Suspended? && r.resumeSignal.Some? && r.localResume.None? && r.active == {}
       && r.lastSequence != MAX_UINT64 then
      r.(status := ResumePending, localResume := Some(|r.prepared|), prepared := r.prepared + [Prepared(Ready, 0)])
    else r
  }

  function Decide(r: Run, p: nat, d: Decision): (r1: Run)
    requires p < |r.prepared|
  {
    r.(prepared := r.prepared[p := Prepared(d, r.prepared[p].closes + 1)], localResume := None)
  }

  predicate Pending(r: Run, p: nat) {
    && p < |r.prepared| && r.prepared[p].decision.Ready? && r.localResume == Some(p)
    && r.status.ResumePending? && r.resumeSignal.Some?
  }

  function CommitResume(r: Run, p: nat): (r1: Run) {
    if Pending(r, p) then
      Decide(r, p, Committed).(status := Running, resumeSignal := None, signals := Close(r.signals, r.resumeSignal.value))
    else r
  }

  function AbortResume(r: Run, p: nat): (r1: Run) {
    if Pending(r, p) then Decide(r, p, Aborted).(status := if r.contextDone then Finishing else Suspended) else r
  }

  /** Work ended or the boundary was left: refuse a pending suspension and stop the context. */
  function BeginFinalization(r: Run): (r1: Run) {
    if r.point.Working? || r.point.Leaving? then
      var r1 := if r.waiter.Some? then Tell(r, r.waiter.value) else r;
      r1.(status := Finishing, waiter := None, contextDone := true, point := Draining)
    else r
  }

  function RecordTerminal(r: Run): (r1: Run) {
    if r.point.Draining? && r.active == {} then r.(status := Terminal, point := Finished) else r
  }

  datatype Step =
    | DoStart | DoReserve(id: string) | DoRelease(id: string) | DoSuspend | DoCancelSuspend(caller: nat)
    | DoReceive(caller: nat) | DoBoundary | DoDeliver | DoBoundaryCancelled | DoDecisionMade | DoBoundaryResumed
    | DoPrepareResume | DoCommitResume(prepared: nat) | DoAbortResume(prepared: nat) | DoCancel | DoFinalize | DoTerminal
    | DoRecord(sequence: nat)

  function Apply(r: Run, s: Step): (r1: Run) {
    match s
    case DoStart => MarkStarted(r)
    case DoReserve(id) => ReserveInteraction(r, id)
    case DoRelease(id) => ReleaseInteraction(r, id)
    case DoSuspend => Suspend(r)
    case DoCancelSuspend(c) => CancelSuspend(r, c)
    case DoReceive(c) => ReceiveMessage(r, c)
    case DoBoundary => Boundary(r)
    case DoDeliver => DeliverMessage(r)
    case DoBoundaryCancelled => BoundaryCancelled(r)
    case DoDecisionMade => DecisionMade(r)
    case DoBoundaryResumed => BoundaryResumed(r)
    case DoPrepareResume => PrepareResume(r)
    case DoCommitResume(p) => CommitResume(r, p)
    case DoAbortResume(p) => AbortResume(r, p)
    case DoCancel => r.(contextDone := true)
    case DoFinalize => BeginFinalization(r)
    case DoTerminal => RecordTerminal(r)
    case DoRecord(sequence) => r.(lastSequence := sequence)
  }

  function Exec(r0: Run, steps: seq<Step>): (r: Run) {
    if steps == [] then r0 else Apply(Exec(r0, steps[..|steps| - 1]), steps[|steps| - 1])
  }

  // ---------------------------------------------------------------------------
  // What every run keeps
  // ---------------------------------------------------------------------------

  /** Suspended, resume-pending and terminal runs have no active interaction; a suspension is requested
      while suspending, or briefly while leaving; a local resume is pending exactly while resume-pending. */
  predicate StatusInv(r: Run) {
    && (r.status.Suspended? || r.status.ResumePending? || r.status.Terminal? ==> r.active == {})
    && (r.status.Suspending? ==> r.waiter.Some?)
    && (r.waiter.Some? ==> r.status.Suspending? || (r.status.Finishing? && r.point.Leaving?))
    && (r.localResume.Some? <==> r.status.ResumePending?)
    && (r.status.Suspended? || r.status.ResumePending? ==> r.resumeSignal.Some?)
    && (r.status.Created? ==> !r.started)
    && (!r.started ==> r.waiter.None? && r.resumeSignal.None? && r.active == {}
                       && if r.point.Working? then r.status.Created? else r.point.Draining? || r.point.Finished?)
    && (r.status.Terminal? <==> r.point.Finished?)
    && (r.point.Draining? ==> r.status.Finishing?)
    && (r.point.Awaiting? || r.point.Leaving? ==> r.contextDone && !r.status.Suspended?)
    && (r.point.Leaving? ==> !r.status.ResumePending?)
    && (r.point.Awaiting? && r.status.ResumePending? ==> r.localResume == Some(r.point.prepared))
    && r.active <= r.seen
  }

  /** The boundary the goroutine is parked at, if any. */
  function SignalOf(p: Point): (s: Option<nat>) {
    match p
    case Telling(_, Reached, signal) => Some(signal)
    case Parked(signal) => Some(signal)
    case _ => None
  }

  /** Each resume signal is closed at most once; the current one is still open, and it is the one the
      goroutine is parked at, unless that was cancelled. */
  predicate SignalsInv(r: Run) {
    && (forall i | 0 <= i < |r.signals| :: r.signals[i] <= 1)
    && (r.resumeSignal.Some? ==> r.resumeSignal.value < |r.signals| && r.signals[r.resumeSignal.value] == 0)
    && (SignalOf(r.point).Some? ==> SignalOf(r.point).value < |r.signals|)
    && (r.point.Working? && r.started ==> r.resumeSignal.None?)
    && (r.point.Telling? && r.point.message.Unsafe? ==> r.resumeSignal.None?)
    && (r.resumeSignal.Some? && SignalOf(r.point).Some? ==> SignalOf(r.point) == r.resumeSignal)
    && (forall i | 0 <= i < |r.passed| :: r.passed[i] < |r.signals| && r.signals[r.passed[i]] == 1)
  }

  predicate DecisionOk(p: Prepared) {
    p.closes == (if p.decision.Ready? then 0 else 1)
  }

  /** Each decision is closed at most once, and only a pending one is undecided. */
  predicate DecisionsInv(r: Run) {
    && (forall p | 0 <= p < |r.prepared| :: DecisionOk(r.prepared[p]))
    && (forall p | 0 <= p < |r.prepared| :: r.prepared[p].decision.Ready? ==> r.localResume == Some(p))
    && (r.localResume.Some? ==> r.localResume.value < |r.prepared| && r.prepared[r.localResume.value].decision.Ready?)
    && (r.point.Awaiting? ==> r.point.prepared < |r.prepared|)
  }

  /** What a waiter's channel got and may still get: one message at most. */
  function Due(r: Run, c: nat): (n: nat)
    requires c < |r.callers|
  {
    r.callers[c].messages + (if r.waiter == Some(c) then 1 else 0)
    + (if r.point.Telling? && r.point.caller == c then 1 else 0)
  }

  /** Every caller that still waits is owed exactly one message. */
  predicate WaitersInv(r: Run) {
    && (forall c | 0 <= c < |r.callers| :: Due(r, c) <= 1 && (!r.callers[c].returned ==> Due(r, c) == 1))
    && (r.waiter.Some? ==> r.waiter.value < |r.callers|)
    && (r.point.Telling? ==> r.point.caller < |r.callers|)
  }

  /** A goroutine held at an open boundary can be released: the run is suspended or resume-pending there,
      or its context ended. The boundary belongs to the caller whose suspension reached it. */
  predicate BoundaryInv(r: Run) {
    && (SignalOf(r.point).Some? ==> SignalOf(r.point).value == |r.signals| - 1)
    && (SignalOf(r.point).Some? && r.signals[|r.signals| - 1] == 0 ==>
          r.resumeSignal == SignalOf(r.point)
          && (r.status.Suspended? || r.status.ResumePending? || (r.status.Finishing? && r.contextDone)))
    && (r.status.Suspended? || r.status.ResumePending? ==> r.owner.Some?)
    && (r.point.Telling? && r.point.message.Reached? ==> r.owner == Some(r.point.caller))
  }

  /** Boundaries are passed in order, each at most once. */
  predicate PassedInv(r: Run) {
    && (forall i, j | 0 <= i < j < |r.passed| :: r.passed[i] < r.passed[j])
    && (forall i | 0 <= i < |r.passed| :: r.passed[i] < |r.signals| - (if SignalOf(r.point).Some? then 1 else 0))
  }

  predicate Inv(r: Run) {
    StatusInv(r) && SignalsInv(r) && DecisionsInv(r) && WaitersInv(r) && BoundaryInv(r) && PassedInv(r)
  }

  // ---------------------------------------------------------------------------
  // Every step
  // ---------------------------------------------------------------------------

  lemma StartKeeps(r: Run)
    requires Inv(r)
    ensures Inv(MarkStarted(r))
  {
  }

  /** The pieces of the invariant that speak of channels, and not of the status or the interactions. */
  predicate ChannelsInv(r: Run) {
    SignalsInv(r) && DecisionsInv(r) && WaitersInv(r) && PassedInv(r)
  }

  /** Interactions leave all channels alone. */
  lemma ActiveFrame(r: Run, active: set<string>, seen: set<string>)
    requires ChannelsInv(r) && BoundaryInv(r)
    ensures ChannelsInv(r.(active := active, seen := seen)) && BoundaryInv(r.(active := active, seen := seen))
  {
    var r1 := r.(active := active, seen := seen);
    forall c | 0 <= c < |r.callers| ensures Due(r1, c) == Due(r, c) {
    }
  }

  lemma ReserveKeeps(r: Run, id: string)
    requires Inv(r)
    ensures Inv(ReserveInteraction(r, id))
  {
    ActiveFrame(r, r.active + {id}, r.seen + {id});
  }

  lemma ReleaseKeeps(r: Run, id: string)
    requires Inv(r)
    ensures Inv(ReleaseInteraction(r, id))
  {
    ActiveFrame(r, r.active - {id}, r.seen);
  }

  lemma RefusedKeeps(r: Run)
    requires Inv(r)
    ensures Inv(r.(callers := r.callers + [Caller(0, true)]))
  {
    var r1 := r.(callers := r.callers + [Caller(0, true)]);
    forall c | 0 <= c < |r.callers| ensures Due(r1, c) == Due(r, c) && r1.callers[c] == r.callers[c] {
    }
  }

  lemma RequestedKeeps(r: Run)
    requires Inv(r) && r.status.Running? && r.started && r.waiter.None?
    ensures Inv(r.(status := Suspending, waiter := Some(|r.callers|), callers := r.callers + [Caller(0, false)]))
  {
    var r1 := r.(status := Suspending, waiter := Some(|r.callers|), callers := r.callers + [Caller(0, false)]);
    forall c | 0 <= c < |r.callers| ensures Due(r1, c) == Due(r, c) && r1.callers[c] == r.callers[c] {
    }
  }

  lemma SuspendKeeps(r: Run)
    requires Inv(r)
    ensures Inv(Suspend(r))
  {
    if r.status.Running? && r.started && r.waiter.None? { RequestedKeeps(r); } else { RefusedKeeps(r); }
  }

  lemma ResumeLockedKeeps(r: Run)
    requires Inv(r)
    ensures Inv(ResumeLocked(r))
  {
    forall c | 0 <= c < |r.callers| ensures Due(ResumeLocked(r), c) == Due(r, c) {
    }
  }

  /** A caller that returned is owed nothing more. */
  lemma ReturnKeeps(r: Run, c: nat)
    requires Inv(r) && c < |r.callers|
    ensures Inv(r.(callers := r.callers[c := r.callers[c].(returned := true)]))
  {
    var r1 := r.(callers := r.callers[c := r.callers[c].(returned := true)]);
    forall i | 0 <= i < |r.callers| ensures Due(r1, i) == Due(r, i) {
    }
  }

  lemma WithdrawKeeps(r: Run, c: nat)
    requires Inv(r) && c < |r.callers| && r.callers[c].returned && r.waiter == Some(c)
    ensures Inv(r.(waiter := None, status := Running))
  {
    var r1 := r.(waiter := None, status := Running);
    forall i | 0 <= i < |r.callers| ensures Due(r1, i) == Due(r, i) - (if i == c then 1 else 0) {
    }
  }

  lemma CancelSuspendKeeps(r: Run, c: nat)
    requires Inv(r)
    ensures Inv(CancelSuspend(r, c)) && Inv(ReceiveMessage(r, c))
  {
    if c < |r.callers| && !r.callers[c].returned {
      var r1 := r.(callers := r.callers[c := r.callers[c].(returned := true)]);
      ReturnKeeps(r, c);
      if r.waiter == Some(c) { WithdrawKeeps(r1, c); } else { ResumeLockedKeeps(r1); }
    }
  }

  lemma BoundaryKeeps(r: Run)
    requires Inv(r)
    ensures Inv(Boundary(r))
  {
    forall c | 0 <= c < |r.callers| ensures Due(Boundary(r), c) == Due(r, c) {
    }
  }

  lemma DeliverKeeps(r: Run)
    requires Inv(r)
    ensures Inv(DeliverMessage(r))
  {
    forall c | 0 <= c < |r.callers| ensures Due(DeliverMessage(r), c) == Due(r, c) {
    }
  }

  lemma LeaveKeeps(r: Run)
    requires Inv(r)
    ensures Inv(BoundaryCancelled(r)) && Inv(DecisionMade(r))
  {
    if r.point.Awaiting? { assert DecisionOk(r.prepared[r.point.prepared]); }
    forall c | 0 <= c < |r.callers| ensures Due(BoundaryCancelled(r), c) == Due(r, c) && Due(DecisionMade(r), c) == Due(r, c) {
    }
  }

  lemma ResumedKeeps(r: Run)
    requires Inv(r)
    ensures Inv(BoundaryResumed(r))
  {
    forall c | 0 <= c < |r.callers| ensures Due(BoundaryResumed(r), c) == Due(r, c) {
    }
  }

  lemma PrepareKeeps(r: Run)
    requires Inv(r)
    ensures Inv(PrepareResume(r))
  {
    forall c | 0 <= c < |r.callers| ensures Due(PrepareResume(r), c) == Due(r, c) {
    }
  }

  lemma CommitKeeps(r: Run, p: nat)
    requires Inv(r)
    ensures Inv(CommitResume(r, p))
  {
    forall c | 0 <= c < |r.callers| ensures Due(CommitResume(r, p), c) == Due(r, c) {
    }
  }

  lemma AbortKeeps(r: Run, p: nat)
    requires Inv(r)
    ensures Inv(AbortResume(r, p))
  {
    forall c | 0 <= c < |r.callers| ensures Due(AbortResume(r, p), c) == Due(r, c) {
    }
  }

  lemma FinalizeKeeps(r: Run)
    requires Inv(r)
    ensures Inv(BeginFinalization(r))
  {
    if r.point.Working? || r.point.Leaving? {
      forall c | 0 <= c < |r.callers| ensures Due(BeginFinalization(r), c) == Due(r, c) {
      }
    }
  }

  lemma CancelKeeps(r: Run)
    requires Inv(r)
    ensures Inv(r.(contextDone := true))
  {
    forall c | 0 <= c < |r.callers| ensures Due(r.(contextDone := true), c) == Due(r, c) {
    }
  }

  lemma TerminalKeeps(r: Run)
    requires Inv(r)
    ensures Inv(RecordTerminal(r))
  {
    forall c | 0 <= c < |r.callers| ensures Due(RecordTerminal(r), c) == Due(r, c) {
    }
  }

  lemma SequenceKeeps(r: Run, sequence: nat)
    requires Inv(r)
    ensures Inv(r.(lastSequence := sequence))
  {
    forall c | 0 <= c < |r.callers| ensures Due(r.(lastSequence := sequence), c) == Due(r, c) {
    }
  }

  /** A step of the execution goroutine itself. */
  predicate OfGoroutine(s: Step) {
    s.DoStart? || s.DoBoundary? || s.DoDeliver? || s.DoBoundaryCancelled? || s.DoDecisionMade? || s.DoBoundaryResumed?
    || s.DoFinalize? || s.DoTerminal?
  }

  lemma GoroutineKeeps(r: Run, s: Step)
    requires Inv(r) && OfGoroutine(s)
    ensures Inv(Apply(r, s))
  {
    match s
    case DoStart => StartKeeps(r);
    case DoBoundary => BoundaryKeeps(r);
    case DoDeliver => DeliverKeeps(r);
    case DoBoundaryCancelled => LeaveKeeps(r);
    case DoDecisionMade => LeaveKeeps(r);
    case DoBoundaryResumed => ResumedKeeps(r);
    case DoFinalize => FinalizeKeeps(r);
    case DoTerminal => TerminalKeeps(r);
  }

  lemma CallerKeeps(r: Run, s: Step)
    requires Inv(r) && !OfGoroutine(s)
    ensures Inv(Apply(r, s))
  {
    match s
    case DoReserve(id) => ReserveKeeps(r, id);
    case DoRelease(id) => ReleaseKeeps(r, id);
    case DoSuspend => SuspendKeeps(r);
    case DoCancelSuspend(c) => CancelSuspendKeeps(r, c);
    case DoReceive(c) => CancelSuspendKeeps(r, c);
    case DoPrepareResume => PrepareKeeps(r);
    case DoCommitResume(p) => CommitKeeps(r, p);
    case DoAbortResume(p) => AbortKeeps(r, p);
    case DoCancel => CancelKeeps(r);
    case DoRecord(sequence) => SequenceKeeps(r, sequence);
  }

  /** Every step keeps the invariant. */
  lemma ApplyKeeps(r: Run, s: Step)
    requires Inv(r)
    ensures Inv(Apply(r, s))
  {
    if OfGoroutine(s) { GoroutineKeeps(r, s); } else { CallerKeeps(r, s); }
  }

  lemma {:induction false} ExecKeeps(r0: Run, steps: seq<Step>)
    requires Begins(r0)
    ensures Inv(Exec(r0, steps))
  {
    if steps != [] {
      ExecKeeps(r0, steps[..|steps| - 1]);
      ApplyKeeps(Exec(r0, steps[..|steps| - 1]), steps[|steps| - 1]);
    }
  }
}
