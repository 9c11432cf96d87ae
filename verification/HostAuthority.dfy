/** The order between the durable run authority and kernel execution (daemon/run_host_mutations.go), for
    one run: every authority reply, kernel failure and cancellation at every point of start, import,
    suspend, resume and cancel. */
module HostAuthority {
  import opened HostErrors

  /** The authority's record of a run. */
  datatype Record = NoRecord | Active | Suspended | Importing | Tombstone

  /** The kernel's execution of it: reserved and paused runs are inert, a boundary run is suspended, and
      an inert run was aborted without being joined. */
  datatype Kernel = Absent | Reserved | Paused | Running | Boundary | ResumePending | Over | Inert

  /** Where the operation that owns the run stands. */
  datatype Point =
    | Rest
    | StartPrepared | StartPaused | StartLeased | StartAuthorized
    | ImportVerified | ImportLeased | ImportConsumed | ImportPaused | ImportAuthorized
    | SuspendWaiting | SuspendReached | SuspendLeased
    | ResumePrepared | ResumeLeased | ResumeAuthorized

  datatype Exposure = Hidden | Live | Parked | Ended

  function ExposureOf(k: Kernel): (e: Exposure) {
    match k
    case Running => Live
    case Boundary => Parked
    case ResumePending => Parked
    case Over => Ended
    case _ => Hidden
  }

  /** What an operation sees when it begins and when it ends. */
  datatype Mark = Mark(record: Record, exposure: Exposure)

  datatype Ending = Ending(outcome: Outcome, before: Mark, after: Mark)

  /** `decided` is set once a paused candidate was aborted by shutdown; `endings` records every
      operation's outcome. */
  datatype Run = Run(record: Record, kernel: Kernel, cancelled: bool, hosted: bool, decided: bool, point: Point,
                     since: Mark, endings: seq<Ending>)

  const NEW_RUN := Run(NoRecord, Absent, false, false, false, Rest, Mark(NoRecord, Hidden), [])

  /** The authority's reply to a transition. `moved` says whether the record advanced. */
  datatype Reply = Done | Unsure(moved: bool) | Refused(err: Err, moved: bool)

  /** The authority's contract at start, import and resume: success advances the record, uncertainty may have, and
      any other error leaves it alone, with two exceptions. An ended context joined with other causes can hide
      uncertainty, and closing the lease of a terminal record can fail after the record was written. */
  predicate Honest(reply: Reply, terminal: bool) {
    reply.Refused? ==>
      !Has(reply.err, {AuthorityUncertain}) && (reply.moved ==> terminal || (EndsContext(reply.err) && !Isolated(reply.err)))
  }

  /** Its contract when it issues a snapshot, where an ended context is reported alone. */
  predicate HonestIssue(reply: Reply, terminal: bool) {
    reply.Refused? ==> !Has(reply.err, {AuthorityUncertain}) && (reply.moved ==> terminal)
  }

  /** The reply the host sees for an error of the authority's store. */
  function ReplyTo(err: Err, moved: bool): (r: Reply) {
    if PublicAuthority(err) == Leaf(Bare(AuthorityUncertain)) then Unsure(moved) else Refused(PublicAuthority(err), moved)
  }

  /** In terms of store errors: the contract is that a record moves only under an error that the authority reports
      as uncertain or that joins an ended context with something else. */
  lemma {:induction false} HonestStore(err: Err, moved: bool)
    requires !Has(err, {AuthorityUncertain})
    ensures Honest(ReplyTo(err, moved), false) <==>
            (moved ==> if EndsContext(err) then !Isolated(err)
                       else Has(err, {RecordUncertain}) && !Has(err, {RecordBusy}) && !Has(err, {RecordVerification}))
    ensures ReplyError(ReplyTo(err, moved)) == PublicAuthority(err)
  {
    PublicAuthorityIsPlain(err);
    if !EndsContext(err) {
      SingleFinds(PublicAuthority(err), {Canceled});
      SingleFinds(PublicAuthority(err), {Deadline});
    }
  }

  function ReplyError(reply: Reply): (err: Err)
    requires !reply.Done?
  {
    if reply.Unsure? then Leaf(Bare(AuthorityUncertain)) else reply.err
  }

  function Recorded(old0: Record, next: Record, reply: Reply): (r: Record) {
    if reply.Done? || reply.moved then next else old0
  }

  function MarkOf(s: Run): (m: Mark) {
    Mark(s.record, ExposureOf(s.kernel))
  }

  function Begin(s: Run, p: Point): (r: Run) {
    s.(point := p, since := MarkOf(s), decided := false)
  }

  function End(s: Run, o: Outcome): (r: Run) {
    s.(point := Rest, endings := s.endings + [Ending(o, s.since, MarkOf(s))])
  }

  const UNSURE := Failed(Leaf(Bare(HostUncertain)))
  const SUCCESS := Plain(Success, Ok)

  /** Abort a prepared or paused run; a failed abort makes the outcome uncertain. */
  function AbortRun(s: Run, o: Outcome, ok: bool): (r: Run) {
    if ok then End(s.(kernel := Absent), o) else End(s.(kernel := Inert), UNSURE)
  }

  /** Release a suspended run again, or cancel it if that fails. */
  function Restore(s: Run, o: Outcome, ok: bool): (r: Run) {
    if ok && s.kernel.Boundary? && !s.cancelled then End(s.(kernel := Running), o) else End(s.(cancelled := true), UNSURE)
  }

  /** Give a prepared resume back: the run is suspended again, or finalizes if it was cancelled. */
  function AbortResume(s: Run, o: Outcome): (r: Run) {
    End(s.(kernel := if s.cancelled then Over else Boundary), o)
  }

  /** A failed suspension wait: the kernel returns to running if it had reached the boundary. */
  function SuspendError(err: Err): (o: Outcome) {
    if Isolated(err) then Abandoned(err)
    else if EndsContext(err) then UNSURE
    else Failed(Leaf(Public(err)))
  }

  function CommitError(err: Err): (o: Outcome) {
    if Isolated(err) then Abandoned(Leaf(Public(err)))
    else if EndsContext(err) then UNSURE
    else if Has(err, {HostClosed}) then Abandoned(Leaf(Public(err)))
    else Failed(Leaf(Public(err)))
  }

  datatype StartStep =
    | BeginStart
    | StartBindFails(err: Err, ok: bool)
    | StartCommit
    | StartCommitFails(err: Err, ok: bool)
    | StartLease
    | StartLeaseFails(err: Err, ok: bool)
    | StartRootGone(ok: bool)
    | StartAuthority(reply: Reply, ok: bool)
    | StartActivate
    | StartActivateFails(reply: Reply, ok: bool)

  datatype ImportStep =
    | ImportRefused(reply: Reply)
    | BeginImport
    | ImportPreparationFails(err: Err, ok: bool)
    | ImportLease
    | ImportLeaseFails(err: Err, ok: bool)
    | ImportConsume(reply: Reply, ok: bool)
    | ImportCommit
    | ImportCommitFails(ok: bool)
    | ImportRootGone(ok: bool)
    | ImportActivate(reply: Reply, ok: bool)
    | ImportRelease
    | ImportReleaseFails(reply: Reply, ok: bool)

  datatype SuspendStep =
    | BeginSuspend
    | SuspendFails(err: Err)
    | SuspendReady
    | SuspendLease
    | SuspendLeaseFails(err: Err, ok: bool)
    | SuspendExportFails(ok: bool)
    | SuspendIssue(reply: Reply, ok: bool)

  datatype ResumeStep =
    | BeginResume
    | ResumeLease
    | ResumeLeaseFails(err: Err)
    | ResumeAuthority(reply: Reply)
    | ResumeCommit

  datatype OtherStep =
    | LockFails(err: Err)
    | CancelRun
    | KernelReaches
    | KernelFinishes
    | ContextEnds
    | ShutdownAborts(ok: bool)
    | MonitorFinishes(reply: Reply)

  datatype Step =
    | InStart(start: StartStep)
    | InImport(imports: ImportStep)
    | InSuspend(suspend: SuspendStep)
    | InResume(resume: ResumeStep)
    | InOther(other: OtherStep)

  // ---------------------------------------------------------------------------
  // The operations
  // ---------------------------------------------------------------------------

  function StepStart(s: Run, step: StartStep): (r: Run) {
    match step
    case BeginStart =>
      if s.point.Rest? && s.kernel.Absent? && !s.hosted then
        Begin(s, StartPrepared).(kernel := Reserved, cancelled := false)
      else s
    case StartBindFails(err, ok) => if s.point.StartPrepared? then AbortRun(s, Binding(err), ok) else s
    case StartCommit => if s.point.StartPrepared? then s.(kernel := Paused, point := StartPaused) else s
    case StartCommitFails(err, ok) => if s.point.StartPrepared? then AbortRun(s, CommitError(err), ok) else s
    case StartLease => if s.point.StartPaused? then s.(point := StartLeased) else s
    case StartLeaseFails(err, ok) => if s.point.StartPaused? then AbortRun(s, PrecommitOperation(err), ok) else s
    case StartRootGone(ok) =>
      if s.point.StartLeased? then AbortRun(s, Abandoned(Leaf(Bare(HostClosed))), ok) else s
    case StartAuthority(reply, ok) =>
      if !s.point.StartLeased? || s.decided then s
      else
        var s1 := s.(record := Recorded(s.record, Active, reply));
        if reply.Done? then s1.(point := StartAuthorized) else AbortRun(s1, PrecommitAuthority(ReplyError(reply)), ok)
    case StartActivate =>
      if s.point.StartAuthorized? then End(s.(kernel := Running, hosted := true), SUCCESS) else s
    case StartActivateFails(reply, ok) =>
      if s.point.StartAuthorized? then
        End(s.(kernel := if ok then Absent else Inert, record := Recorded(s.record, Tombstone, reply)), UNSURE)
      else s
  }

  function StepImport(s: Run, step: ImportStep): (r: Run) {
    match step
    case ImportRefused(reply) =>
      if s.point.Rest? && s.kernel.Absent? && !s.hosted && !reply.Done? then
        End(Begin(s, Rest), PrecommitAuthority(ReplyError(reply)))
      else s
    case BeginImport =>
      if s.point.Rest? && s.kernel.Absent? && !s.hosted && s.record.Suspended? then
        Begin(s, ImportVerified).(kernel := Reserved, cancelled := false)
      else s
    case ImportPreparationFails(err, ok) => if s.point.ImportVerified? then AbortRun(s, Preparation(err), ok) else s
    case ImportLease => if s.point.ImportVerified? then s.(point := ImportLeased) else s
    case ImportLeaseFails(err, ok) => if s.point.ImportVerified? then AbortRun(s, PrecommitOperation(err), ok) else s
    case ImportConsume(reply, ok) =>
      if !s.point.ImportLeased? then s
      else
        var s1 := s.(record := Recorded(s.record, Importing, reply));
        if reply.Done? then s1.(point := ImportConsumed)
        else AbortRun(s1, PrecommitAuthority(ReplyError(reply)), ok)
    case ImportCommit => if s.point.ImportConsumed? then s.(kernel := Paused, point := ImportPaused) else s
    case ImportCommitFails(ok) => if s.point.ImportConsumed? then AbortRun(s, UNSURE, ok) else s
    case ImportRootGone(ok) => if s.point.ImportPaused? then AbortRun(s, UNSURE, ok) else s
    case ImportActivate(reply, ok) =>
      if !s.point.ImportPaused? || s.decided then s
      else
        var s1 := s.(record := Recorded(s.record, Active, reply));
        if reply.Done? then s1.(point := ImportAuthorized) else AbortRun(s1, UNSURE, ok)
    case ImportRelease =>
      if s.point.ImportAuthorized? then End(s.(kernel := Running, hosted := true), SUCCESS) else s
    case ImportReleaseFails(reply, ok) =>
      if s.point.ImportAuthorized? then
        End(s.(kernel := if ok then Absent else Inert, record := Recorded(s.record, Tombstone, reply)), UNSURE)
      else s
  }

  function StepSuspend(s: Run, step: SuspendStep): (r: Run) {
    match step
    case BeginSuspend =>
      if !s.point.Rest? || !s.hosted then s
      else if !s.kernel.Running? then End(Begin(s, Rest), Failed(Leaf(Bare(HostState))))
      else Begin(s, SuspendWaiting)
    case SuspendFails(err) =>
      if s.point.SuspendWaiting? then
        End(s.(kernel := if s.kernel.Boundary? then Running else s.kernel), SuspendError(err))
      else s
    case SuspendReady => if s.point.SuspendWaiting? && s.kernel.Boundary? then s.(point := SuspendReached) else s
    case SuspendLease => if s.point.SuspendReached? then s.(point := SuspendLeased) else s
    case SuspendLeaseFails(err, ok) => if s.point.SuspendReached? then Restore(s, PrecommitOperation(err), ok) else s
    case SuspendExportFails(ok) =>
      if s.point.SuspendLeased? then Restore(s, Failed(Leaf(Bare(HostState))), ok) else s
    case SuspendIssue(reply, ok) =>
      if !s.point.SuspendLeased? then s
      else
        var s1 := s.(record := Recorded(s.record, if s.kernel.Over? then Tombstone else Suspended, reply));
        match reply
        case Done => End(s1, SUCCESS)
        case Unsure(_) => End(s1.(cancelled := true), UNSURE)
        case Refused(err, _) => Restore(s1, PrecommitAuthority(err), ok)
  }

  function StepResume(s: Run, step: ResumeStep): (r: Run) {
    match step
    case BeginResume =>
      if !s.point.Rest? || !s.hosted then s
      else if !s.kernel.Boundary? || s.cancelled then End(Begin(s, Rest), Failed(Leaf(Bare(HostState))))
      else Begin(s, ResumePrepared).(kernel := ResumePending)
    case ResumeLease => if s.point.ResumePrepared? then s.(point := ResumeLeased) else s
    case ResumeLeaseFails(err) => if s.point.ResumePrepared? then AbortResume(s, PrecommitOperation(err)) else s
    case ResumeAuthority(reply) =>
      if !s.point.ResumeLeased? then s
      else
        var s1 := s.(record := Recorded(s.record, Active, reply));
        (match reply
         case Done => s1.(point := ResumeAuthorized)
         case Unsure(_) => AbortResume(s1.(cancelled := true), UNSURE)
         case Refused(err, _) => AbortResume(s1, PrecommitAuthority(err)))
    case ResumeCommit => if s.point.ResumeAuthorized? then End(s.(kernel := Running), SUCCESS) else s
  }

  /** A caller that gives up waiting for the run's lock, at whatever point its holder is; cancellation, the kernel's
      own progress, shutdown, and the terminal monitor. */
  function StepOther(s: Run, step: OtherStep): (r: Run) {
    match step
    case LockFails(err) => s.(endings := s.endings + [Ending(PrecommitOperation(err), MarkOf(s), MarkOf(s))])
    case CancelRun => if s.hosted && s.point.Rest? then End(Begin(s, Rest).(cancelled := true), SUCCESS) else s
    case KernelReaches => if s.point.SuspendWaiting? && s.kernel.Running? then s.(kernel := Boundary) else s
    case KernelFinishes =>
      if s.kernel.Running? || (s.kernel.Boundary? && s.cancelled) then s.(kernel := Over) else s
    case ContextEnds => s.(cancelled := true)
    case ShutdownAborts(ok) =>
      if (s.point.StartPaused? || s.point.StartLeased? || s.point.ImportPaused?) && s.kernel.Paused? then
        s.(decided := true, kernel := if ok then Absent else Inert)
      else s
    case MonitorFinishes(reply) =>
      if s.hosted && s.point.Rest? && s.kernel.Over? then
        s.(record := Recorded(s.record, Tombstone, reply), hosted := false, kernel := Absent)
      else s
  }

  function Apply(s: Run, step: Step): (r: Run) {
    match step
    case InStart(x) => StepStart(s, x)
    case InImport(x) => StepImport(s, x)
    case InSuspend(x) => StepSuspend(s, x)
    case InResume(x) => StepResume(s, x)
    case InOther(x) => StepOther(s, x)
  }

  /** The steps an honest authority allows; it starts only a run it has no record of. */
  predicate Allowed(s: Run, step: Step) {
    match step
    case InStart(StartAuthority(reply, _)) => Honest(reply, false) && (reply.Done? || reply.moved ==> s.record.NoRecord?)
    case InStart(StartActivateFails(reply, _)) => Honest(reply, true)
    case InImport(ImportRefused(reply)) => Honest(reply, false)
    case InImport(ImportConsume(reply, _)) => Honest(reply, false)
    case InImport(ImportActivate(reply, _)) => Honest(reply, false)
    case InImport(ImportReleaseFails(reply, _)) => Honest(reply, true)
    case InSuspend(SuspendIssue(reply, _)) => HonestIssue(reply, s.kernel.Over?)
    case InResume(ResumeAuthority(reply)) => Honest(reply, false)
    case InOther(MonitorFinishes(reply)) => Honest(reply, true)
    case _ => true
  }

  function Exec(steps: seq<Step>): (r: Run) {
    if steps == [] then NEW_RUN else
      var s := Exec(steps[..|steps| - 1]);
      if Allowed(s, steps[|steps| - 1]) then Apply(s, steps[|steps| - 1]) else s
  }

  // ---------------------------------------------------------------------------
  // What every run keeps
  // ---------------------------------------------------------------------------

  /** The record of a run that the host holds suspended: a failed resume may have moved it. */
  predicate Standing(r: Record) {
    r == Suspended || r == Active
  }

  /** What each point of an operation implies about the record and the kernel. */
  predicate AtPoint(s: Run) {
    match s.point
    case Rest =>
      && (s.kernel.Absent? || s.kernel.Inert? ==> !s.hosted)
      && (s.kernel.Running? || s.kernel.Boundary? || s.kernel.Over? ==> s.hosted)
      && !s.kernel.Reserved? && !s.kernel.Paused? && !s.kernel.ResumePending?
      && (s.kernel.Boundary? && !s.cancelled ==> Standing(s.record))
    case StartPrepared => s.kernel.Reserved? && !s.hosted && !s.decided
    case StartPaused => (if s.decided then s.kernel.Absent? || s.kernel.Inert? else s.kernel.Paused?) && !s.hosted
    case StartLeased => (if s.decided then s.kernel.Absent? || s.kernel.Inert? else s.kernel.Paused?) && !s.hosted
    case StartAuthorized => s.kernel.Paused? && !s.hosted && s.record == Active
    case ImportVerified => s.kernel.Reserved? && !s.hosted && !s.decided && s.record == Suspended
    case ImportLeased => s.kernel.Reserved? && !s.hosted && !s.decided && s.record == Suspended
    case ImportConsumed => s.kernel.Reserved? && !s.hosted && !s.decided && s.record == Importing
    case ImportPaused =>
      (if s.decided then s.kernel.Absent? || s.kernel.Inert? else s.kernel.Paused?) && !s.hosted && s.record == Importing
    case ImportAuthorized => s.kernel.Paused? && !s.hosted && s.record == Active
    case SuspendWaiting =>
      && (s.kernel.Running? || s.kernel.Boundary? || s.kernel.Over?) && s.hosted
      && (s.kernel.Boundary? && !s.cancelled ==> s.record == Active)
    case SuspendReached =>
      (s.kernel.Boundary? || s.kernel.Over?) && s.hosted && (s.kernel.Boundary? && !s.cancelled ==> s.record == Active)
    case SuspendLeased =>
      (s.kernel.Boundary? || s.kernel.Over?) && s.hosted && (s.kernel.Boundary? && !s.cancelled ==> s.record == Active)
    case ResumePrepared => s.kernel.ResumePending? && s.hosted && (!s.cancelled ==> Standing(s.record))
    case ResumeLeased => s.kernel.ResumePending? && s.hosted && (!s.cancelled ==> Standing(s.record))
    case ResumeAuthorized => s.kernel.ResumePending? && s.hosted && s.record == Active
  }

  /** The exposure an operation at this point began with. */
  function Began(p: Point): (e: Exposure) {
    match p
    case SuspendWaiting => Live
    case SuspendReached => Live
    case SuspendLeased => Live
    case ResumePrepared => Parked
    case ResumeLeased => Parked
    case ResumeAuthorized => Parked
    case _ => Hidden
  }

  /** The authority transition of the operation succeeded. */
  predicate Crossed(p: Point) {
    p.StartAuthorized? || p.ImportConsumed? || p.ImportPaused? || p.ImportAuthorized? || p.ResumeAuthorized?
  }

  /** Until an operation's authority transition succeeds, the record is the one it began with. */
  predicate SinceInv(s: Run) {
    !s.point.Rest? ==> s.since.exposure == Began(s.point) && (!Crossed(s.point) ==> s.record == s.since.record)
  }

  /** A retryable outcome left the record and the kernel's exposure as they were, unless the run ended
      by itself meanwhile. */
  predicate Undone(e: Ending) {
    Retryable(e.outcome) ==>
      e.after.record == e.before.record && (e.after.exposure == e.before.exposure || e.after.exposure == Ended)
  }

  /** Execution that is released and not cancelled has an active record. */
  predicate Authorized(s: Run) {
    s.kernel.Running? && !s.cancelled ==> s.record == Active
  }

  /** A tombstoned run does not execute. */
  predicate Buried(s: Run) {
    s.record == Tombstone ==> !s.kernel.Running? && !s.kernel.Boundary? && !s.kernel.ResumePending?
  }

  predicate Core(s: Run) {
    AtPoint(s) && SinceInv(s) && Authorized(s) && Buried(s)
  }

  predicate Inv(s: Run) {
    Core(s) && forall i | 0 <= i < |s.endings| :: Undone(s.endings[i])
  }

  // ---------------------------------------------------------------------------
  // Outcomes
  // ---------------------------------------------------------------------------

  lemma UnsureIsNotRetried()
    ensures !Retryable(UNSURE) && !Retryable(SUCCESS) && !Retryable(Failed(Leaf(Bare(HostState))))
  {
    FailedUncertain();
  }

  /** A retried authority reply did not move the record. */
  lemma RetriedReplyDidNotMove(reply: Reply, terminal: bool)
    requires !reply.Done? && Honest(reply, terminal) && Retryable(PrecommitAuthority(ReplyError(reply)))
    ensures reply.Refused? && (!terminal ==> !reply.moved)
  {
    if reply.Unsure? {
      SingleFinds(ReplyError(reply), {AuthorityUncertain});
      UncertaintyIsNotRetried(ReplyError(reply));
    }
  }

  /** Only the steps that end an operation add an ending, and only one. */
  predicate EndsOnce(s: Run, r: Run) {
    r.endings == s.endings || (|r.endings| == |s.endings| + 1 && r.endings[..|s.endings|] == s.endings)
  }

  predicate NewUndone(s: Run, r: Run) {
    |r.endings| > |s.endings| ==> Undone(r.endings[|r.endings| - 1])
  }

  lemma EndUndone(s: Run, o: Outcome)
    requires Retryable(o) ==> s.record == s.since.record && (ExposureOf(s.kernel) == s.since.exposure || s.kernel.Over?)
    ensures EndsOnce(s, End(s, o)) && NewUndone(s, End(s, o))
  {
  }

  lemma AbortRunKeeps(s: Run, o: Outcome, ok: bool)
    requires s.since.exposure == Hidden && !s.hosted && (Retryable(o) ==> s.record == s.since.record)
    ensures var r := AbortRun(s, o, ok); Core(r) && EndsOnce(s, r) && NewUndone(s, r)
  {
    UnsureIsNotRetried();
    EndUndone(s.(kernel := Absent), o);
    EndUndone(s.(kernel := Inert), UNSURE);
  }

  lemma RestoreKeeps(s: Run, o: Outcome, ok: bool)
    requires s.since.exposure == Live && s.hosted && (s.kernel.Boundary? || s.kernel.Over?) && Buried(s)
    requires s.kernel.Boundary? && !s.cancelled && ok ==> s.record == s.since.record == Active
    ensures var r := Restore(s, o, ok); Core(r) && EndsOnce(s, r) && NewUndone(s, r)
  {
    UnsureIsNotRetried();
    EndUndone(s.(cancelled := true), UNSURE);
    if ok && s.kernel.Boundary? && !s.cancelled { EndUndone(s.(kernel := Running), o); }
  }

  lemma AbortResumeKeeps(s: Run, o: Outcome)
    requires s.since.exposure == Parked && s.hosted && (Retryable(o) ==> s.record == s.since.record)
    requires (!s.cancelled ==> Standing(s.record)) && Buried(s)
    ensures var r := AbortResume(s, o); Core(r) && EndsOnce(s, r) && NewUndone(s, r)
  {
    EndUndone(s.(kernel := if s.cancelled then Over else Boundary), o);
  }

  // ---------------------------------------------------------------------------
  // Every step
  // ---------------------------------------------------------------------------

  ghost predicate StepKeeps(s: Run, r: Run) {
    Core(r) && EndsOnce(s, r) && NewUndone(s, r)
  }

  lemma StartKeeps(s: Run, x: StartStep)
    requires Core(s) && Allowed(s, InStart(x))
    ensures StepKeeps(s, StepStart(s, x))
  {
    UnsureIsNotRetried();
    match x
    case StartBindFails(err, ok) => if s.point.StartPrepared? { AbortRunKeeps(s, Binding(err), ok); }
    case StartCommitFails(err, ok) => if s.point.StartPrepared? { AbortRunKeeps(s, CommitError(err), ok); }
    case StartLeaseFails(err, ok) => if s.point.StartPaused? { AbortRunKeeps(s, PrecommitOperation(err), ok); }
    case StartRootGone(ok) => if s.point.StartLeased? { AbortRunKeeps(s, Abandoned(Leaf(Bare(HostClosed))), ok); }
    case StartAuthority(reply, ok) =>
      if s.point.StartLeased? && !s.decided && !reply.Done? { StartRefused(s, reply, ok); }
    case _ =>
  }

  lemma StartRefused(s: Run, reply: Reply, ok: bool)
    requires Core(s) && s.point.StartLeased? && !reply.Done? && Honest(reply, false)
    ensures StepKeeps(s, AbortRun(s.(record := Recorded(s.record, Active, reply)), PrecommitAuthority(ReplyError(reply)), ok))
  {
    if Retryable(PrecommitAuthority(ReplyError(reply))) { RetriedReplyDidNotMove(reply, false); }
    AbortRunKeeps(s.(record := Recorded(s.record, Active, reply)), PrecommitAuthority(ReplyError(reply)), ok);
  }

  lemma ImportConsumeKeeps(s: Run, reply: Reply, ok: bool)
    requires Core(s) && s.point.ImportLeased? && !reply.Done? && Honest(reply, false)
    ensures StepKeeps(s, AbortRun(s.(record := Recorded(s.record, Importing, reply)), PrecommitAuthority(ReplyError(reply)),
                                  ok))
  {
    if Retryable(PrecommitAuthority(ReplyError(reply))) { RetriedReplyDidNotMove(reply, false); }
    AbortRunKeeps(s.(record := Recorded(s.record, Importing, reply)), PrecommitAuthority(ReplyError(reply)), ok);
  }

  /** An import the authority refuses to prepare changes nothing. */
  lemma ImportRefusedKeeps(s: Run, reply: Reply)
    requires Core(s)
    ensures StepKeeps(s, StepImport(s, ImportRefused(reply)))
  {
  }

  lemma ImportReleasesKeep(s: Run, x: ImportStep)
    requires Core(s) && (x.BeginImport? || x.ImportLease? || x.ImportCommit? || x.ImportRelease? || x.ImportReleaseFails?)
    ensures StepKeeps(s, StepImport(s, x))
  {
    UnsureIsNotRetried();
  }

  lemma ImportActivateKeeps(s: Run, reply: Reply, ok: bool)
    requires Core(s)
    ensures StepKeeps(s, StepImport(s, ImportActivate(reply, ok)))
  {
    UnsureIsNotRetried();
    if s.point.ImportPaused? && !s.decided && !reply.Done? {
      AbortRunKeeps(s.(record := Recorded(s.record, Active, reply)), UNSURE, ok);
    }
  }

  lemma ImportKeeps(s: Run, x: ImportStep)
    requires Core(s) && Allowed(s, InImport(x))
    ensures StepKeeps(s, StepImport(s, x))
  {
    UnsureIsNotRetried();
    match x
    case ImportRefused(reply) => ImportRefusedKeeps(s, reply);
    case ImportPreparationFails(err, ok) => if s.point.ImportVerified? { AbortRunKeeps(s, Preparation(err), ok); }
    case ImportLeaseFails(err, ok) => if s.point.ImportVerified? { AbortRunKeeps(s, PrecommitOperation(err), ok); }
    case ImportConsume(reply, ok) => if s.point.ImportLeased? && !reply.Done? { ImportConsumeKeeps(s, reply, ok); }
    case ImportCommitFails(ok) => if s.point.ImportConsumed? { AbortRunKeeps(s, UNSURE, ok); }
    case ImportRootGone(ok) => if s.point.ImportPaused? { AbortRunKeeps(s, UNSURE, ok); }
    case ImportActivate(reply, ok) => ImportActivateKeeps(s, reply, ok);
    case _ => ImportReleasesKeep(s, x);
  }

  lemma SuspendIssueKeeps(s: Run, reply: Reply, ok: bool)
    requires Core(s) && s.point.SuspendLeased? && HonestIssue(reply, s.kernel.Over?)
    ensures StepKeeps(s, StepSuspend(s, SuspendIssue(reply, ok)))
  {
    UnsureIsNotRetried();
    if reply.Refused? {
      var s1 := s.(record := Recorded(s.record, if s.kernel.Over? then Tombstone else Suspended, reply));
      RestoreKeeps(s1, PrecommitAuthority(reply.err), ok);
    }
  }

  lemma SuspendWaits(s: Run, x: SuspendStep)
    requires Core(s) && (x.BeginSuspend? || x.SuspendFails? || x.SuspendReady? || x.SuspendLease?)
    ensures StepKeeps(s, StepSuspend(s, x))
  {
    UnsureIsNotRetried();
  }

  lemma SuspendKeeps(s: Run, x: SuspendStep)
    requires Core(s) && Allowed(s, InSuspend(x))
    ensures StepKeeps(s, StepSuspend(s, x))
  {
    match x
    case SuspendLeaseFails(err, ok) => if s.point.SuspendReached? { RestoreKeeps(s, PrecommitOperation(err), ok); }
    case SuspendExportFails(ok) => if s.point.SuspendLeased? { RestoreKeeps(s, Failed(Leaf(Bare(HostState))), ok); }
    case SuspendIssue(reply, ok) => if s.point.SuspendLeased? { SuspendIssueKeeps(s, reply, ok); }
    case _ => SuspendWaits(s, x);
  }

  lemma ResumeAuthorityKeeps(s: Run, reply: Reply)
    requires Core(s) && s.point.ResumeLeased? && Honest(reply, false)
    ensures StepKeeps(s, StepResume(s, ResumeAuthority(reply)))
  {
    UnsureIsNotRetried();
    var s1 := s.(record := Recorded(s.record, Active, reply));
    match reply
    case Done =>
    case Unsure(_) => AbortResumeKeeps(s1.(cancelled := true), UNSURE);
    case Refused(err, _) =>
      if Retryable(PrecommitAuthority(err)) { RetriedReplyDidNotMove(reply, false); }
      AbortResumeKeeps(s1, PrecommitAuthority(err));
  }

  lemma ResumeKeeps(s: Run, x: ResumeStep)
    requires Core(s) && Allowed(s, InResume(x))
    ensures StepKeeps(s, StepResume(s, x))
  {
    UnsureIsNotRetried();
    match x
    case ResumeLeaseFails(err) => if s.point.ResumePrepared? { AbortResumeKeeps(s, PrecommitOperation(err)); }
    case ResumeAuthority(reply) => if s.point.ResumeLeased? { ResumeAuthorityKeeps(s, reply); }
    case _ =>
  }

  lemma OtherKeeps(s: Run, x: OtherStep)
    requires Core(s)
    ensures StepKeeps(s, StepOther(s, x))
  {
    UnsureIsNotRetried();
  }

  lemma ApplyStep(s: Run, step: Step)
    requires Core(s) && Allowed(s, step)
    ensures StepKeeps(s, Apply(s, step))
  {
    match step
    case InStart(x) => StartKeeps(s, x);
    case InImport(x) => ImportKeeps(s, x);
    case InSuspend(x) => SuspendKeeps(s, x);
    case InResume(x) => ResumeKeeps(s, x);
    case InOther(x) => OtherKeeps(s, x);
  }

  lemma ApplyKeeps(s: Run, step: Step)
    requires Inv(s) && Allowed(s, step)
    ensures Inv(Apply(s, step))
  {
    ApplyStep(s, step);
    EndingsKeep(s, Apply(s, step));
  }

  lemma EndingsKeep(s: Run, r: Run)
    requires Inv(s) && StepKeeps(s, r)
    ensures Inv(r)
  {
    forall i | 0 <= i < |r.endings| ensures Undone(r.endings[i]) {
      if i < |s.endings| { assert r.endings[..|s.endings|][i] == s.endings[i]; }
    }
  }

  lemma {:induction false} ExecKeeps(steps: seq<Step>)
    ensures Inv(Exec(steps))
  {
    if steps != [] {
      var before := steps[..|steps| - 1];
      ExecKeeps(before);
      if Allowed(Exec(before), steps[|steps| - 1]) { ApplyKeeps(Exec(before), steps[|steps| - 1]); }
    }
  }

  /** In every run, released and uncancelled execution has an ACTIVE record, and every operation
      classified as retryable left the record and the kernel as it found them. */
  lemma {:induction false} AuthorityBeforeExecution(steps: seq<Step>, s: Run, i: nat)
    requires s == Exec(steps)
    ensures s.kernel.Running? && !s.cancelled ==> s.record == Active
    ensures i < |s.endings| ==> Undone(s.endings[i])
  {
    ExecKeeps(steps);
  }

  /** A tombstone is final: no later step of any operation changes it. */
  lemma TombstoneStays(s: Run, step: Step)
    requires Core(s) && Allowed(s, step) && s.record == Tombstone
    ensures Apply(s, step).record == Tombstone
  {
    match step
    case InStart(x) => StartLeavesTombstone(s, x);
    case InImport(x) => ImportLeavesTombstone(s, x);
    case _ =>
  }

  lemma StartLeavesTombstone(s: Run, x: StartStep)
    requires Core(s) && Allowed(s, InStart(x)) && s.record == Tombstone
    ensures StepStart(s, x).record == Tombstone
  {
  }

  lemma ImportLeavesTombstone(s: Run, x: ImportStep)
    requires Core(s) && Allowed(s, InImport(x)) && s.record == Tombstone
    ensures StepImport(s, x).record == Tombstone
  {
  }

  lemma {:induction false} NeverReadmitted(steps: seq<Step>, n: nat)
    requires n <= |steps| && Exec(steps[..n]).record == Tombstone
    ensures Exec(steps).record == Tombstone
    decreases |steps|
  {
    if n == |steps| {
      assert steps[..n] == steps;
    } else {
      var before := steps[..|steps| - 1];
      assert before[..n] == steps[..n];
      NeverReadmitted(before, n);
      ExecKeeps(before);
      if Allowed(Exec(before), steps[|steps| - 1]) { TombstoneStays(Exec(before), steps[|steps| - 1]); }
    }
  }
}
