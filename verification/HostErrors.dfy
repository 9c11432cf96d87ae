/** Error classification and stored outcomes of the run host (daemon/run_host_state.go,
    run_host_mutations.go, run_host_outcome.go). */
module HostErrors {
  import opened Basics

  /** The sentinels and typed errors the host tells apart. */
  datatype Tag =
    | Canceled | Deadline | HostClosed | HostCapacity | CapacityFact | IdentityCapacity | RunMissing | HostUncertain
    | HostUnavailable | HostState | StoreClosed | HubClosed | Stale | StaleFact | GateFull | GateFact
    | AuthorityUncertain | AuthorityUnavailable | AuthorityBusy | AuthorityState | AuthorityVerification
    | BindingFull | PendingFull | ObserverFull | NotBound | NotPending
    | RecordBusy | RecordVerification | RecordUncertain | RecordState | RecordClosed | RecordConfiguration | Other

  /** One error value; typed errors carry a name and two numbers: resource, limit and observation, or
      client, expected and observed epoch. */
  datatype Fault = Fault(tag: Tag, name: string, first: nat, second: nat)

  function Bare(tag: Tag): (f: Fault) {
    Fault(tag, "", 0, 0)
  }

  /** An error: one fault, a wrapped error, or several errors joined. */
  datatype Err = Leaf(fault: Fault) | Wrap(inner: Err) | Join(parts: seq<Err>)

  /** The first fault of an error that satisfies a test, in the order errors are searched. */
  function Find(err: Err, tags: set<Tag>): (r: Option<Fault>)
    ensures r.Some? ==> r.value.tag in tags
    decreases err, 0
  {
    match err
    case Leaf(fault) => if fault.tag in tags then Some(fault) else None
    case Wrap(inner) => Find(inner, tags)
    case Join(parts) => FindIn(parts, tags)
  }

  function FindIn(parts: seq<Err>, tags: set<Tag>): (r: Option<Fault>)
    ensures r.Some? ==> r.value.tag in tags
    decreases parts, |parts|
  {
    if parts == [] then None else
      var first := Find(parts[0], tags);
      if first.Some? then first else FindIn(parts[1..], tags)
  }

  predicate Has(err: Err, tags: set<Tag>) {
    Find(err, tags).Some?
  }

  predicate IsContext(f: Fault) {
    f.tag.Canceled? || f.tag.Deadline?
  }

  /** A cancellation reached through a chain of single causes. A join can carry uncertainty beside the
      cancellation and is not isolated. */
  predicate Isolated(err: Err) {
    match err
    case Leaf(fault) => IsContext(fault)
    case Wrap(inner) => Isolated(inner)
    case Join(_) => false
  }

  /** The chain walk, as a loop. */
  method IsIsolated(err: Err) returns (r: bool)
    ensures r == Isolated(err)
  {
    var e := err;
    while true
      invariant Isolated(e) == Isolated(err)
      decreases e
    {
      match e
      case Join(_) => return false;
      case Leaf(fault) => return IsContext(fault);
      case Wrap(inner) => e := inner;
    }
  }

  // ---------------------------------------------------------------------------
  // Public errors
  // ---------------------------------------------------------------------------

  const MAX_TOKEN := 128

  predicate Control(c: char) {
    c < ' ' || '\U{7f}' <= c <= '\U{9f}'
  }

  predicate Token(s: string) {
    0 < |s| <= MAX_TOKEN && s[0] != ' ' && s[|s| - 1] != ' ' && forall i | 0 <= i < |s| :: !Control(s[i])
  }

  function NewCapacity(resource: string, limit: nat, observed: nat): (f: Fault) {
    if !Token(resource) || limit == 0 || observed <= limit then Bare(HostCapacity)
    else Fault(CapacityFact, resource, limit, observed)
  }

  /** What a client may learn of an error. */
  function Public(err: Err): (f: Fault) {
    if Has(err, {Canceled}) then Bare(Canceled)
    else if Has(err, {Deadline}) then Bare(Deadline)
    else match Find(err, {CapacityFact})
         case Some(fact) => fact
         case None =>
           match Find(err, {IdentityCapacity})
           case Some(fact) => NewCapacity("run identities", fact.first, fact.second)
           case None => OwnerError(err)
  }

  function OwnerError(err: Err): (f: Fault) {
    if Has(err, {HostCapacity}) then Bare(HostCapacity)
    else if Has(err, {RunMissing}) then Bare(RunMissing)
    else if Has(err, {HostUncertain}) then Bare(HostUncertain)
    else if Has(err, {HostUnavailable}) then Bare(HostUnavailable)
    else if Has(err, {HostState}) then Bare(HostState)
    else if Has(err, {HostClosed, StoreClosed, HubClosed}) then Bare(HostClosed)
    else DependencyError(err)
  }

  function DependencyError(err: Err): (f: Fault) {
    match Find(err, {StaleFact})
    case Some(fact) => fact
    case None =>
      if Has(err, {Stale}) then Bare(Stale)
      else match Find(err, {GateFact})
           case Some(fact) => fact
           case None => Bare(DependencyTag(err))
  }

  function DependencyTag(err: Err): (t: Tag)
    ensures t in {HostCapacity, HostUncertain, HostUnavailable, HostState, RunMissing}
  {
    if Has(err, {GateFull}) then HostCapacity
    else if Has(err, {AuthorityUncertain}) then HostUncertain
    else if Has(err, {AuthorityUnavailable}) then HostUnavailable
    else if Has(err, {AuthorityBusy, AuthorityState, AuthorityVerification}) then HostState
    else if Has(err, {BindingFull, PendingFull, ObserverFull}) then HostCapacity
    else if Has(err, {NotBound, NotPending}) then RunMissing
    else HostState
  }

  // ---------------------------------------------------------------------------
  // Stored outcomes
  // ---------------------------------------------------------------------------

  datatype OutcomeKind = Success | Failure | Uncertain

  datatype Code = Ok | CanceledCode | DeadlineCode | ClosedCode | CapacityCode | MissingCode | DependencyCode | StateCode
                | StaleCode | UncertainCode | AbandonCode

  datatype CapacityKind = NoCapacity | OfHost | OfGate

  /** The record a mutation leaves in the idempotency ledger. */
  datatype Outcome = Outcome(kind: OutcomeKind, code: Code, abandoned: Code, capacity: CapacityKind, resource: string,
                             limit: nat, observed: nat, client: string, expected: nat, epoch: nat)

  const MAX_INT := 0x7FFF_FFFF_FFFF_FFFF

  function Plain(kind: OutcomeKind, code: Code): (o: Outcome) {
    Outcome(kind, code, Ok, NoCapacity, "", 0, 0, "", 0, 0)
  }

  function CodeOf(err: Err): (c: Code) {
    if Has(err, {Canceled}) then CanceledCode
    else if Has(err, {Deadline}) then DeadlineCode
    else if Has(err, {HostClosed}) then ClosedCode
    else if Has(err, {HostCapacity, CapacityFact}) then CapacityCode
    else if Has(err, {GateFull, GateFact}) then CapacityCode
    else if Has(err, {Stale, StaleFact}) then StaleCode
    else if Has(err, {RunMissing}) then MissingCode
    else if Has(err, {HostUncertain}) then UncertainCode
    else if Has(err, {HostUnavailable}) then DependencyCode
    else StateCode
  }

  /** Record a failure, with the facts of a typed error. */
  function Failed(err: Err): (o: Outcome) {
    var code := CodeOf(err);
    var plain := Plain(if code.UncertainCode? then Uncertain else Failure, code);
    match Find(err, {CapacityFact})
    case Some(fact) => plain.(capacity := OfHost, resource := fact.name, limit := fact.first, observed := fact.second)
    case None =>
      match Find(err, {GateFact})
      case Some(fact) => plain.(capacity := OfGate, resource := fact.name, limit := fact.first, observed := fact.first + 1)
      case None =>
        match Find(err, {StaleFact})
        case Some(fact) => plain.(client := fact.name, expected := fact.first, epoch := fact.second)
        case None => plain
  }

  /** Mark a failure as safely retryable. */
  function Abandoned(err: Err): (o: Outcome) {
    var failed := Failed(err);
    failed.(kind := Failure, abandoned := failed.code, code := AbandonCode)
  }

  function CapacityError(o: Outcome): (f: Fault) {
    if !Token(o.resource) || o.limit == 0 || o.observed <= o.limit then Bare(HostCapacity)
    else match o.capacity
         case OfHost => NewCapacity(o.resource, o.limit, o.observed)
         case OfGate => if o.limit > MAX_INT then Bare(HostCapacity) else Fault(GateFact, o.resource, o.limit, 0)
         case NoCapacity => Bare(HostCapacity)
  }

  function StaleError(o: Outcome): (f: Fault) {
    if Token(o.client) && o.expected != 0 && o.expected != o.epoch then Fault(StaleFact, o.client, o.expected, o.epoch)
    else Bare(Stale)
  }

  function ErrorFor(code: Code, o: Outcome): (f: Fault) {
    match code
    case CanceledCode => Bare(Canceled)
    case DeadlineCode => Bare(Deadline)
    case ClosedCode => Bare(HostClosed)
    case CapacityCode => CapacityError(o)
    case StaleCode => StaleError(o)
    case MissingCode => Bare(RunMissing)
    case DependencyCode => Bare(HostUnavailable)
    case UncertainCode => Bare(HostUncertain)
    case _ => Bare(HostState)
  }

  /** What a duplicate of a stored outcome returns; no error means success. */
  function Decode(o: Outcome): (r: Option<Fault>) {
    if o.kind.Uncertain? || o.code.UncertainCode? then Some(Bare(HostUncertain))
    else if o.kind.Success? && o.code.Ok? then None
    else Some(ErrorFor(o.code, o))
  }

  // ---------------------------------------------------------------------------
  // Round trips
  // ---------------------------------------------------------------------------

  const PUBLIC_TAGS := {Canceled, Deadline, HostClosed, HostCapacity, RunMissing, HostUncertain, HostUnavailable, HostState,
                        Stale}

  predicate Typed(f: Fault) {
    f.tag.CapacityFact? || f.tag.GateFact? || f.tag.StaleFact?
  }

  /** The faults a client can be told. */
  predicate PublicFault(f: Fault) {
    match f.tag
    case CapacityFact => Token(f.name) && 0 < f.first < f.second
    case GateFact => Token(f.name) && 0 < f.first <= MAX_INT && f.second == 0
    case StaleFact => Token(f.name) && f.first != 0 && f.first != f.second
    case tag => tag in PUBLIC_TAGS && f == Bare(tag)
  }

  /** Typed faults carry facts their constructors accepted. */
  predicate GoodFacts(err: Err)
    decreases err, 0
  {
    match err
    case Leaf(fault) => Typed(fault) ==> PublicFault(fault)
    case Wrap(inner) => GoodFacts(inner)
    case Join(parts) => AllGood(parts)
  }

  predicate AllGood(parts: seq<Err>)
    decreases parts, |parts|
  {
    parts == [] || (GoodFacts(parts[0]) && AllGood(parts[1..]))
  }

  lemma {:induction false} FoundIsGood(err: Err, tags: set<Tag>)
    requires GoodFacts(err) && Find(err, tags).Some?
    ensures var f := Find(err, tags).value; Typed(f) ==> PublicFault(f)
    decreases err, 0
  {
    match err
    case Leaf(_) =>
    case Wrap(inner) => FoundIsGood(inner, tags);
    case Join(parts) => FoundInIsGood(parts, tags);
  }

  lemma {:induction false} FoundInIsGood(parts: seq<Err>, tags: set<Tag>)
    requires AllGood(parts) && FindIn(parts, tags).Some?
    ensures var f := FindIn(parts, tags).value; Typed(f) ==> PublicFault(f)
    decreases parts, |parts|
  {
    if Find(parts[0], tags).Some? { FoundIsGood(parts[0], tags); } else { FoundInIsGood(parts[1..], tags); }
  }

  lemma {:induction false} FactIsPublic(err: Err, tag: Tag)
    requires GoodFacts(err) && (tag.CapacityFact? || tag.GateFact? || tag.StaleFact?)
    ensures Find(err, {tag}).Some? ==> PublicFault(Find(err, {tag}).value)
  {
    if Find(err, {tag}).Some? { FoundIsGood(err, {tag}); }
  }

  lemma BareIsPublic(tag: Tag)
    requires tag in {HostCapacity, HostUncertain, HostUnavailable, HostState, RunMissing, Stale}
    ensures PublicFault(Bare(tag))
  {
  }

  lemma {:induction false} DependencyIsPublic(err: Err)
    requires GoodFacts(err)
    ensures PublicFault(DependencyError(err))
  {
    BareIsPublic(DependencyTag(err));
    BareIsPublic(Stale);
    FactIsPublic(err, StaleFact);
    FactIsPublic(err, GateFact);
  }

  lemma {:induction false} OwnerIsPublic(err: Err)
    requires GoodFacts(err)
    ensures PublicFault(OwnerError(err))
  {
    DependencyIsPublic(err);
  }

  lemma NewCapacityIsPublic(resource: string, limit: nat, observed: nat)
    ensures PublicFault(NewCapacity(resource, limit, observed))
  {
  }

  /** Every error becomes a public fault. */
  lemma {:induction false} PublicIsPublic(err: Err)
    requires GoodFacts(err)
    ensures PublicFault(Public(err))
  {
    FactIsPublic(err, CapacityFact);
    OwnerIsPublic(err);
    if Find(err, {IdentityCapacity}).Some? {
      var fact := Find(err, {IdentityCapacity}).value;
      NewCapacityIsPublic("run identities", fact.first, fact.second);
    }
  }

  /** A public failure read back from the ledger is the same failure, facts included. */
  lemma FailureRoundTrip(f: Fault)
    requires PublicFault(f)
    ensures Decode(Failed(Leaf(f))) == Some(f)
  {
  }

  /** And so is the cause of an abandoned operation, which is never mistaken for anything else. */
  lemma AbandonRoundTrip(f: Fault)
    requires PublicFault(f)
    ensures Abandoned(Leaf(f)).code == AbandonCode && ErrorFor(Abandoned(Leaf(f)).abandoned, Abandoned(Leaf(f))) == f
  {
  }

  // ---------------------------------------------------------------------------
  // Which failures may be retried
  // ---------------------------------------------------------------------------

  predicate EndsContext(err: Err) {
    Has(err, {Canceled}) || Has(err, {Deadline})
  }

  /** A failure before any boundary was crossed, at the session gate. */
  function PrecommitOperation(err: Err): (o: Outcome) {
    if !Isolated(err) && EndsContext(err) then Failed(Leaf(Bare(HostUncertain))) else Abandoned(Leaf(Public(err)))
  }

  /** A failed authority transition that left the kernel restored. */
  function PrecommitAuthority(err: Err): (o: Outcome) {
    if Isolated(err) then Abandoned(err)
    else if EndsContext(err) then Failed(Leaf(Bare(HostUncertain)))
    else if Has(err, {AuthorityBusy}) || Has(err, {AuthorityUnavailable}) then Abandoned(Leaf(Public(err)))
    else Failed(Leaf(Public(err)))
  }

  /** A failed kernel preparation. */
  function Preparation(err: Err): (o: Outcome) {
    if Has(err, {IdentityCapacity}) then
      if IsolatedIdentity(err) then Abandoned(Leaf(Public(err))) else Failed(Leaf(Bare(HostUncertain)))
    else if Isolated(err) then Abandoned(err)
    else if EndsContext(err) then Failed(Leaf(Bare(HostUncertain)))
    else Failed(Leaf(Public(err)))
  }

  predicate IsolatedIdentity(err: Err) {
    match err
    case Leaf(fault) => fault.tag.IdentityCapacity?
    case Wrap(inner) => IsolatedIdentity(inner)
    case Join(_) => false
  }

  function Binding(err: Err): (o: Outcome) {
    if Has(err, {HostClosed}) || Has(err, {HostCapacity, CapacityFact}) then Abandoned(err) else Failed(err)
  }

  predicate Retryable(o: Outcome) {
    o.code == AbandonCode
  }

  /** No join anywhere: the error has one cause. */
  predicate Single(err: Err) {
    match err
    case Leaf(_) => true
    case Wrap(inner) => Single(inner)
    case Join(_) => false
  }

  function CauseOf(err: Err): (f: Fault)
    requires Single(err)
  {
    match err
    case Leaf(fault) => fault
    case Wrap(inner) => CauseOf(inner)
  }

  lemma {:induction false} SingleFinds(err: Err, tags: set<Tag>)
    requires Single(err)
    ensures Has(err, tags) <==> CauseOf(err).tag in tags
  {
    if err.Wrap? { SingleFinds(err.inner, tags); }
  }

  lemma {:induction false} SingleIsolated(err: Err)
    requires Single(err)
    ensures Isolated(err) <==> IsContext(CauseOf(err))
  {
    if err.Wrap? { SingleIsolated(err.inner); }
  }

  /** An authority failure with one cause is never retried when that cause is uncertainty. */
  lemma {:induction false} UncertaintyIsNotRetried(err: Err)
    requires Single(err) && Has(err, {AuthorityUncertain})
    ensures !Retryable(PrecommitAuthority(err)) && PrecommitAuthority(err).kind == Uncertain
  {
    SingleFinds(err, {AuthorityUncertain});
    SingleIsolated(err);
    SingleFinds(err, {AuthorityBusy});
    SingleFinds(err, {AuthorityUnavailable});
    SingleFinds(err, {Canceled});
    SingleFinds(err, {Deadline});
    PublicUncertain(err);
    FailedUncertain();
  }

  lemma FailedUncertain()
    ensures Failed(Leaf(Bare(HostUncertain))).kind == Uncertain && Failed(Leaf(Bare(HostUncertain))).code == UncertainCode
  {
  }

  lemma {:induction false} PublicUncertain(err: Err)
    requires Single(err) && CauseOf(err).tag == AuthorityUncertain
    ensures Public(err) == Bare(HostUncertain)
  {
    forall tags: set<Tag> ensures Find(err, tags).Some? <==> AuthorityUncertain in tags { SingleFinds(err, tags); }
  }

  // ---------------------------------------------------------------------------
  // Errors of the authority's own store
  // ---------------------------------------------------------------------------

  /** What the authority makes of an error of its store: one public sentinel, or the error itself if it ends a
      context. */
  function PublicAuthority(err: Err): (r: Err) {
    if EndsContext(err) then err
    else if Has(err, {RecordBusy}) then Leaf(Bare(AuthorityBusy))
    else if Has(err, {RecordVerification}) then Leaf(Bare(AuthorityVerification))
    else if Has(err, {RecordUncertain}) then Leaf(Bare(AuthorityUncertain))
    else if Has(err, {RecordState, RecordClosed, RecordConfiguration}) then Leaf(Bare(AuthorityState))
    else Leaf(Bare(AuthorityUnavailable))
  }

  /** The host retries a failed authority transition, judged by the error of the authority's store. */
  predicate RetriesStore(err: Err) {
    Retryable(PrecommitAuthority(PublicAuthority(err)))
  }

  /** A chain that ends in a cancellation carries nothing else. */
  lemma {:induction false} IsolatedFinds(err: Err, tags: set<Tag>)
    requires Isolated(err) && Canceled !in tags && Deadline !in tags
    ensures !Has(err, tags)
  {
    if err.Wrap? { IsolatedFinds(err.inner, tags); }
  }

  lemma {:induction false} IsolatedEnds(err: Err)
    requires Isolated(err)
    ensures EndsContext(err)
  {
    if err.Wrap? { IsolatedEnds(err.inner); }
  }

  lemma BareRetries(tag: Tag)
    requires tag in {AuthorityBusy, AuthorityVerification, AuthorityUncertain, AuthorityState, AuthorityUnavailable}
    ensures Retryable(PrecommitAuthority(Leaf(Bare(tag)))) <==> tag in {AuthorityBusy, AuthorityUnavailable}
  {
    SingleFinds(Leaf(Bare(tag)), {Canceled});
    SingleFinds(Leaf(Bare(tag)), {Deadline});
    SingleFinds(Leaf(Bare(tag)), {AuthorityBusy});
    SingleFinds(Leaf(Bare(tag)), {AuthorityUnavailable});
  }

  /** A store error that carries uncertainty is retried if and only if it also carries a busy record and ends no
      context: the busy record is looked for first. */
  lemma UncertaintyIsRetriedExactly(err: Err)
    requires Has(err, {RecordUncertain})
    ensures RetriesStore(err) <==> !EndsContext(err) && Has(err, {RecordBusy})
  {
    if EndsContext(err) {
      if Isolated(err) { IsolatedFinds(err, {RecordUncertain}); }
    } else {
      BareRetries(AuthorityBusy);
      BareRetries(AuthorityVerification);
      BareRetries(AuthorityUncertain);
    }
  }

  /** Uncertainty as the only cause, which is how the store reports it today, is never retried. */
  lemma {:induction false} LoneUncertaintyIsNotRetried(err: Err)
    requires Single(err) && Has(err, {RecordUncertain})
    ensures !RetriesStore(err)
  {
    SingleFinds(err, {RecordUncertain});
    SingleFinds(err, {RecordBusy});
    UncertaintyIsRetriedExactly(err);
  }

  lemma {:induction false} PairFinds(a: Tag, b: Tag, tags: set<Tag>)
    ensures Has(Join([Leaf(Bare(a)), Leaf(Bare(b))]), tags) <==> a in tags || b in tags
  {
    var parts := [Leaf(Bare(a)), Leaf(Bare(b))];
    var rest := parts[1..];
    assert rest == [Leaf(Bare(b))] && rest[1..] == [];
    assert FindIn(rest, tags).Some? <==> b in tags;
    assert FindIn(parts, tags).Some? <==> a in tags || b in tags;
  }

  /** Such an error: a busy record joined with an uncertain one. */
  lemma UncertaintyCanBeRetried()
    ensures var err := Join([Leaf(Bare(RecordBusy)), Leaf(Bare(RecordUncertain))]);
            Has(err, {RecordUncertain}) && RetriesStore(err)
  {
    var err := Join([Leaf(Bare(RecordBusy)), Leaf(Bare(RecordUncertain))]);
    PairFinds(RecordBusy, RecordUncertain, {RecordUncertain});
    PairFinds(RecordBusy, RecordUncertain, {RecordBusy});
    PairFinds(RecordBusy, RecordUncertain, {Canceled});
    PairFinds(RecordBusy, RecordUncertain, {Deadline});
    UncertaintyIsRetriedExactly(err);
  }

  /** A store error never reaches the host with the public uncertainty among other causes. */
  lemma PublicAuthorityIsPlain(err: Err)
    requires !Has(err, {AuthorityUncertain})
    ensures PublicAuthority(err) == Leaf(Bare(AuthorityUncertain)) || !Has(PublicAuthority(err), {AuthorityUncertain})
    ensures Single(PublicAuthority(err)) || EndsContext(PublicAuthority(err))
  {
  }
}
