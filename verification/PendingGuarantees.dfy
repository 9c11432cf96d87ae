/** What clients of the interaction hub can rely on, over every run. */
module PendingGuarantees {
  import opened Basics
  import opened PendingFeed
  import opened PendingPartition
  import opened PendingHub
  import opened PendingSafety
  import opened PendingRouting
  import opened PendingTheorems
  import opened PendingIsolation

  // ---------------------------------------------------------------------------
  // Discovery
  // ---------------------------------------------------------------------------

  /** The first `n` received deltas continue the snapshot without a gap: rebuilt from the two, the
      subscriber's view is the pending set at that revision. */
  ghost predicate Follows(w: Watcher, log: seq<Delta>, n: nat)
    requires n <= |w.sent|
  {
    && w.snapshotRevision + n <= |log|
    && Rebuild(w.snapshot, w.sent, n) == PendingAt(log, w.snapshotRevision + n)
    && (n > 0 ==> w.sent[n - 1].revision == w.snapshotRevision + n)
  }

  /** A live subscriber with nothing outstanding sees exactly what is pending now. */
  ghost predicate SeesNow(w: Watcher, p: Partition) {
    w.stop.Live? && w.queuedCount == 0 ==>
      Rebuild(w.snapshot, w.sent, |w.sent|) == Values(p.pending) && w.lastDelivered == p.revision
  }

  lemma WatcherFollows(caps: Caps, w: Watcher, log: seq<Delta>, n: nat)
    requires WatcherInv(caps, w, log) && Numbered(log) && n <= |w.sent|
    ensures Follows(w, log, n)
  {
    Discovery(caps, w, log, n);
  }

  lemma WatcherSeesNow(caps: Caps, w: Watcher, p: Partition)
    requires WatcherInv(caps, w, p.log) && Numbered(p.log) && p.revision == |p.log|
    requires Values(p.pending) == PendingAt(p.log, |p.log|)
    ensures SeesNow(w, p)
  {
    if w.stop.Live? && w.queuedCount == 0 { CaughtUp(caps, w, p.log); }
  }

  lemma PartitionDiscovery(l: Limits, p: Partition, i: nat, n: nat)
    requires StreamInv(l, p) && i < |p.watchers| && n <= |p.watchers[i].sent|
    ensures Follows(p.watchers[i], p.log, n) && SeesNow(p.watchers[i], p) && p.revision <= MAX_UINT64
  {
    assert WatcherInv(CapsOf(l), p.watchers[i], p.log);
    WatcherFollows(CapsOf(l), p.watchers[i], p.log, n);
    WatcherSeesNow(CapsOf(l), p.watchers[i], p);
  }

  /** In every run, every subscriber follows its partition, and revisions never wrap. */
  lemma {:induction false} DiscoveryAlways(l: Limits, steps: seq<Step>, h: Hub, c: string, i: nat, n: nat)
    requires ValidLimits(l) && h == Exec(NewHub(l), steps)
    requires c in h.partitions && i < |h.partitions[c].watchers| && n <= |h.partitions[c].watchers[i].sent|
    ensures var p := h.partitions[c];
            Follows(p.watchers[i], p.log, n) && SeesNow(p.watchers[i], p) && p.revision <= MAX_UINT64
  {
    ExecKeeps(l, steps);
    PartitionDiscovery(l, h.partitions[c], i, n);
  }

  // ---------------------------------------------------------------------------
  // Observer isolation
  // ---------------------------------------------------------------------------

  lemma IsolatedIn(h: Hub, c: string, i: nat, d: Delta)
    requires CountersInv(h) && ValidLimits(h.limits)
    requires c in h.partitions && i < |h.partitions[c].watchers| && h.partitions[c].watchers[i].stop.Live?
    requires Refusal(CapsOf(h.limits), h.partitions[c].watchers[i], d).Live?
    ensures AggregatesAdmit(h.limits, h.total, h.partitions[c].own, DeltaBytes(d))
    ensures |h.partitions[c].watchers[i].queue| < h.limits.queueEntries
  {
    SoundMeters(h.limits, h.partitions, h.total);
    assert Metered(h.limits, h.partitions[c]) && MeteredWatcher(h.limits, h.partitions[c].watchers[i]);
    Isolated(h.limits, h.partitions, c, i, h.total, DeltaBytes(d));
  }

  /** In every run, a delta that a watcher's own queue admits is never refused on account of other observers: the
      hub's and the client's limits admit it, and the delivery channel has room. */
  lemma {:induction false} ObserverIsolation(l: Limits, steps: seq<Step>, h: Hub, c: string, i: nat, d: Delta)
    requires ValidLimits(l) && h == Exec(NewHub(l), steps)
    requires c in h.partitions && i < |h.partitions[c].watchers| && h.partitions[c].watchers[i].stop.Live?
    requires Refusal(CapsOf(l), h.partitions[c].watchers[i], d).Live?
    ensures AggregatesAdmit(l, h.total, h.partitions[c].own, DeltaBytes(d))
    ensures |h.partitions[c].watchers[i].queue| < l.queueEntries
  {
    ExecKeeps(l, steps);
    IsolatedIn(h, c, i, d);
  }

  lemma ReservationIn(h: Hub, c: string)
    requires CountersInv(h) && ValidLimits(h.limits) && c in h.partitions
    ensures var p := h.partitions[c];
            AdmitsObserver(h.limits, h.total, p) <==>
              h.total.observers < h.limits.observers && p.own.observers < h.limits.observersPerClient
              && |p.watchers| < MAX_UINT64
  {
    var l, p := h.limits, h.partitions[c];
    SoundMeters(l, h.partitions, h.total);
    MeteredFunded(l, p);
    TotalFunded(l, h.partitions);
    if h.total.observers < l.observers { OneMoreFits(l, h.total, l.observers, l.reservedEntries, l.reservedBytes); }
    if p.own.observers < l.observersPerClient {
      OneMoreFits(l, p.own, l.observersPerClient, l.reservedEntriesPerClient, l.reservedBytesPerClient);
    }
  }

  /** In every run, an observer within the observer bounds is never refused for want of a reservation. */
  lemma {:induction false} ReservationNeverRefuses(l: Limits, steps: seq<Step>, h: Hub, c: string)
    requires ValidLimits(l) && h == Exec(NewHub(l), steps) && c in h.partitions
    ensures var p := h.partitions[c];
            AdmitsObserver(l, h.total, p) <==>
              h.total.observers < l.observers && p.own.observers < l.observersPerClient && |p.watchers| < MAX_UINT64
  {
    ExecKeeps(l, steps);
    ReservationIn(h, c);
  }

  lemma OneMoreFits(l: Limits, u: Usage, observers: int, entries: int, bytes: int)
    requires Funded(l, u) && u.observers < observers && l.queueEntries >= 1 && l.queueBytes >= 1
    requires observers <= entries / l.queueEntries && observers <= bytes / l.queueBytes
    ensures u.reserved.count <= entries - l.queueEntries && u.reserved.bytes <= bytes - l.queueBytes
  {
    QueuesFit(u.observers + 1, entries, l.queueEntries);
    QueuesFit(u.observers + 1, bytes, l.queueBytes);
    Distributes(u.observers, 1, l.queueEntries);
    Distributes(u.observers, 1, l.queueBytes);
  }

  /** The hub's counters are exact sums and stay within every configured bound. */
  lemma {:induction false} BoundsAlways(l: Limits, steps: seq<Step>, h: Hub)
    requires ValidLimits(l) && h == Exec(NewHub(l), steps)
    ensures h.total == Sum(h.partitions, OwnOf) && WithinHub(l, h.total) && Funded(l, h.total)
    ensures h.total.reserved.count <= l.reservedEntries && h.total.reserved.bytes <= l.reservedBytes
    ensures |h.partitions| <= l.clients && |h.runs| <= l.runs
  {
    ExecKeeps(l, steps);
    SoundMeters(l, h.partitions, h.total);
    TotalFunded(l, h.partitions);
    ReservedWithin(l, h.total, l.observers, l.reservedEntries, l.reservedBytes);
  }

  // ---------------------------------------------------------------------------
  // Calls and bindings
  // ---------------------------------------------------------------------------

  lemma CallCloses(h: Hub, id: nat)
    requires CallsInv(RoutesOf(h)) && id < |h.calls|
    ensures h.calls[id].closes <= 1
    ensures h.calls[id].returned.Some? ==> h.calls[id].closes == 1 && h.calls[id].returned == h.calls[id].result
  {
    assert CallOk(RoutesOf(h), id);
  }

  lemma CallListed(h: Hub, id: nat)
    requires RoutesInv(RoutesOf(h)) && id < |h.calls| && h.calls[id].result.None?
    ensures var c, k := h.calls[id].client, KeyOf(h.calls[id].value);
            StillPending(h, id) && Open(h, c, k) && k.run in h.runs && h.runs[k.run].client == c
  {
    var t, x := RoutesOf(h), h.calls[id];
    assert CallOk(t, id) && EntryOk(t, x.client, KeyOf(x.value));
  }

  lemma CallAnswerable(h: Hub, id: nat)
    requires Inv(h) && id < |h.calls| && h.calls[id].result.None?
    ensures StillPending(h, id) && RespondOutcomeOf(h, h.calls[id].client, KeyOf(h.calls[id].value)) == Responded
  {
    CallListed(h, id);
    OpenMeansOpen(h, h.calls[id].client, KeyOf(h.calls[id].value));
  }

  /** A finished call's done channel is closed at most once and its requester returns its result; an
      unfinished call is still pending for its own client, whose response is always accepted. */
  lemma {:induction false} CallsAlways(l: Limits, steps: seq<Step>, h: Hub, id: nat)
    requires ValidLimits(l) && h == Exec(NewHub(l), steps) && id < |h.calls|
    ensures h.calls[id].closes <= 1
    ensures h.calls[id].returned.Some? ==> h.calls[id].closes == 1 && h.calls[id].returned == h.calls[id].result
    ensures h.calls[id].result.None? ==>
              StillPending(h, id) && RespondOutcomeOf(h, h.calls[id].client, KeyOf(h.calls[id].value)) == Responded
  {
    ExecKeeps(l, steps);
    CallCloses(h, id);
    if h.calls[id].result.None? { CallAnswerable(h, id); }
  }

  /** A binding counts its pending calls exactly, and its release is signalled once: just when it
      stopped accepting and nothing is pending under it. */
  lemma {:induction false} BindingsAlways(l: Limits, steps: seq<Step>, h: Hub, b: nat)
    requires ValidLimits(l) && h == Exec(NewHub(l), steps) && b < |h.bindings|
    ensures var x := h.bindings[b];
            && x.client in h.partitions && x.active == |PendingOf(h.partitions[x.client].pending, b)|
            && x.releases == (if !x.accepting && x.active == 0 then 1 else 0)
            && (x.releases == 0 <==> x.run in h.runs && h.runs[x.run].binding == b)
  {
    ExecKeeps(l, steps);
    var t := RoutesOf(h);
    assert BindingOk(t, b) && Busy(t.bindings[b]);
    if h.bindings[b].run in h.runs { assert LeaseOk(t, h.bindings[b].run); }
  }

  // ---------------------------------------------------------------------------
  // Results are final
  // ---------------------------------------------------------------------------

  /** Calls are only added; a recorded result never changes. */
  predicate Settled(before: seq<Call>, after: seq<Call>) {
    && |before| <= |after|
    && forall id | 0 <= id < |before| ::
         after[id].value == before[id].value && after[id].client == before[id].client
         && (before[id].result.Some? ==> after[id].result == before[id].result)
         && (before[id].returned.Some? ==> after[id].returned == before[id].returned)
  }

  lemma SettledTrans(a: seq<Call>, b: seq<Call>, c: seq<Call>)
    requires Settled(a, b) && Settled(b, c)
    ensures Settled(a, c)
  {
  }

  lemma CloseSettles(t: Routes, c: string, k: Key, result: Result)
    requires EntriesInv(t) && OpenAt(t, c, k)
    ensures Settled(t.calls, FinishRoute(t, c, k, result).calls)
  {
    assert EntryOk(t, c, k);
  }

  /** Calls keep their value and client, and only the result `result` may be new. */
  predicate OnlyResult(before: seq<Call>, after: seq<Call>, result: Result) {
    && |after| == |before|
    && forall id | 0 <= id < |before| ::
         && after[id].value == before[id].value && after[id].client == before[id].client
         && (after[id].result == before[id].result || after[id].result == Some(result))
  }

  lemma CloseOnly(t: Routes, c: string, k: Key, result: Result)
    requires EntriesInv(t) && OpenAt(t, c, k)
    ensures OnlyResult(t.calls, FinishRoute(t, c, k, result).calls, result)
  {
    assert EntryOk(t, c, k);
  }

  /** What failing calls at shutdown may do to them. */
  predicate OnlyFails(before: seq<Call>, after: seq<Call>) {
    Settled(before, after) && OnlyResult(before, after, HubWasClosed)
  }

  lemma NextFails(t: Routes, order: seq<(string, Key)>, n: nat)
    requires RoutesInv(t) && n < |order|
    ensures OnlyFails(FinishRoutes(t, order, n).calls, FinishRoutes(t, order, n + 1).calls)
  {
    var t0 := FinishRoutes(t, order, n);
    FinishRoutesKeeps(t, order, n);
    if OpenAt(t0, order[n].0, order[n].1) {
      CloseSettles(t0, order[n].0, order[n].1, HubWasClosed);
      CloseOnly(t0, order[n].0, order[n].1, HubWasClosed);
    }
  }

  lemma FailsTrans(a: seq<Call>, b: seq<Call>, c: seq<Call>)
    requires OnlyFails(a, b) && OnlyFails(b, c)
    ensures OnlyFails(a, c)
  {
  }

  predicate FailSteps(calls: seq<seq<Call>>) {
    forall i | 0 <= i < |calls| - 1 :: OnlyFails(calls[i], calls[i + 1])
  }

  lemma {:induction false} FailsChain(calls: seq<seq<Call>>, n: nat)
    requires n < |calls| && FailSteps(calls)
    ensures OnlyFails(calls[0], calls[n])
  {
    if n > 0 {
      FailsChain(calls, n - 1);
      FailsTrans(calls[0], calls[n - 1], calls[n]);
    }
  }

  lemma {:induction false} RoutesFailSteps(t: Routes, order: seq<(string, Key)>, calls: seq<seq<Call>>)
    requires RoutesInv(t) && |calls| == |order| + 1
    requires forall i | 0 <= i <= |order| :: calls[i] == FinishRoutes(t, order, i).calls
    ensures FailSteps(calls)
  {
    forall i | 0 <= i < |calls| - 1 ensures OnlyFails(calls[i], calls[i + 1]) { NextFails(t, order, i); }
  }

  lemma {:induction false} FinishRoutesFail(t: Routes, order: seq<(string, Key)>, t1: Routes)
    requires RoutesInv(t) && t1 == FinishRoutes(t, order, |order|)
    ensures OnlyFails(t.calls, t1.calls)
  {
    var calls := seq(|order| + 1, i requires 0 <= i <= |order| => FinishRoutes(t, order, i).calls);
    RoutesFailSteps(t, order, calls);
    FailsChain(calls, |order|);
  }

  lemma {:induction false} RemoveRoutesCalls(t: Routes, n: nat)
    ensures RemoveRoutes(t, n).calls == t.calls
  {
    if n > 0 { RemoveRoutesCalls(t, n - 1); }
  }

  lemma CloseFailsOnly(h: Hub, order: seq<(string, Key)>, clients: seq<string>)
    requires Inv(h) && !h.closed && Lists(h, order, clients)
    ensures OnlyFails(h.calls, Close(h, order, clients).calls)
  {
    var h1 := FinishAll(Shut(h), order, |order|);
    var h2 := RemoveAll(h1, |h1.bindings|);
    ShutCore(h);
    FinishAllRoutes(Shut(h), order, |order|);
    FinishRoutesFail(RoutesOf(Shut(h)), order, RoutesOf(h1));
    RemoveAllRoutes(h1, |h1.bindings|);
    RemoveRoutesCalls(RoutesOf(h1), |h1.bindings|);
    EndAllCalls(h2, clients, |clients|);
  }

  lemma {:induction false} EndAllCalls(h: Hub, clients: seq<string>, n: nat)
    requires n <= |clients|
    ensures EndAll(h, clients, n).calls == h.calls
  {
    if n > 0 { EndAllCalls(h, clients, n - 1); }
  }

  lemma FinishSettles(h: Hub, c: string, k: Key, result: Result)
    requires Inv(h) && Open(h, c, k)
    ensures Settled(h.calls, FinishCall(h, c, k, result).calls)
  {
    FinishCallRoutes(h, c, k, result);
    CloseSettles(RoutesOf(h), c, k, result);
  }

  lemma ReturnSettles(h: Hub, id: nat)
    ensures Settled(h.calls, Return(h, id).calls)
  {
  }

  lemma CloseDoneSettles(h: Hub, id: nat)
    ensures Settled(h.calls, CloseDone(h, id).calls)
  {
  }

  lemma RequestSettles(h: Hub, v: Pending)
    ensures Settled(h.calls, Request(h, v).calls)
  {
  }

  lemma RespondSettles(h: Hub, c: string, k: Key, response: string)
    requires Inv(h)
    ensures Settled(h.calls, Respond(h, c, k, response).calls)
  {
    if RespondOutcomeOf(h, c, k).Responded? { FinishSettles(h, c, k, Answered(response)); }
  }

  lemma CancelSettles(h: Hub, id: nat)
    requires Inv(h)
    ensures Settled(h.calls, Cancel(h, id).calls)
  {
    if StillPending(h, id) { FinishSettles(h, h.calls[id].client, KeyOf(h.calls[id].value), ContextEnded); }
  }

  lemma CloseSettlesAll(h: Hub, order: seq<(string, Key)>, clients: seq<string>)
    requires Inv(h)
    ensures Settled(h.calls, Close(h, order, clients).calls)
  {
    if !h.closed && Lists(h, order, clients) { CloseFailsOnly(h, order, clients); }
  }

  lemma BindingSettles(h: Hub, c: string, run: string, b: nat)
    ensures BindRun(h, c, run).calls == h.calls && Release(h, b).calls == h.calls
  {
  }

  lemma CallStepSettles(h: Hub, s: Step)
    requires Inv(h)
    ensures Settled(h.calls, CallStep(h, s).calls)
  {
    CallStepIs(h, s);
    match s
    case DoBindRun(c, run) => BindingSettles(h, c, run, 0);
    case DoRequest(v) => RequestSettles(h, v);
    case DoRespond(c, k, response) => RespondSettles(h, c, k, response);
    case DoCancel(id) => CancelSettles(h, id);
    case DoRelease(b) => BindingSettles(h, "", "", b);
    case DoCloseDone(id) => CloseDoneSettles(h, id);
    case DoReturn(id) => ReturnSettles(h, id);
    case _ =>
  }

  /** Observers touch no call. */
  lemma ObserversSettle(h: Hub, s: Step)
    ensures ObserverStep(h, s).calls == h.calls
  {
  }

  /** No step changes a recorded result or what a requester already returned. */
  lemma ApplySettles(h: Hub, s: Step)
    requires Inv(h)
    ensures Settled(h.calls, Apply(h, s).calls)
  {
    if s.DoClose? {
      CloseSettlesAll(h, s.order, s.clients);
    } else if OfObservers(s) {
      ObserversSettle(h, s);
    } else {
      CallStepSettles(h, s);
    }
  }

  /** Once a call finishes, whichever of response, cancellation and shutdown came first decides it
      for the rest of the run. */
  lemma {:induction false} ResultsAreFinal(l: Limits, steps: seq<Step>, n: nat)
    requires ValidLimits(l) && n <= |steps|
    ensures Settled(Exec(NewHub(l), steps[..n]).calls, Exec(NewHub(l), steps).calls)
    decreases |steps|
  {
    if n < |steps| {
      var before := steps[..|steps| - 1];
      ResultsAreFinal(l, before, n);
      assert before[..n] == steps[..n];
      ExecKeeps(l, before);
      ApplySettles(Exec(NewHub(l), before), steps[|steps| - 1]);
      SettledTrans(Exec(NewHub(l), steps[..n]).calls, Exec(NewHub(l), before).calls, Exec(NewHub(l), steps).calls);
    } else {
      assert steps[..n] == steps;
    }
  }

  /** After Close, in every continuation: no lease, no pending call, no live observer. */
  lemma {:induction false} ClosedAlways(l: Limits, steps: seq<Step>, h: Hub)
    requires ValidLimits(l) && h == Exec(NewHub(l), steps) && h.closed
    ensures h.runs == map[] && forall c | c in h.partitions :: h.partitions[c].pending == map[] && AllEnded(h.partitions[c])
  {
    ExecKeeps(l, steps);
    forall c | c in h.partitions ensures h.partitions[c].pending == map[] {
      assert RoutesOf(h).pend[c] == map[];
    }
  }

  // ---------------------------------------------------------------------------
  // Answers come from the owner
  // ---------------------------------------------------------------------------

  /** Only a call pending under this client and key got a result, and it is `result`. */
  predicate FinishedOne(before: seq<Call>, after: seq<Call>, c: string, k: Key, result: Result) {
    && |after| == |before|
    && forall id | 0 <= id < |before| ::
         after[id].result == before[id].result
         || (after[id].result == Some(result) && before[id].client == c && KeyOf(before[id].value) == k)
  }

  lemma RouteFinishesOne(t: Routes, c: string, k: Key, result: Result)
    requires EntriesInv(t) && OpenAt(t, c, k)
    ensures FinishedOne(t.calls, FinishRoute(t, c, k, result).calls, c, k, result)
  {
    assert EntryOk(t, c, k);
  }

  lemma FinishesOne(h: Hub, c: string, k: Key, result: Result)
    requires Inv(h) && Open(h, c, k)
    ensures FinishedOne(h.calls, FinishCall(h, c, k, result).calls, c, k, result)
  {
    FinishCallRoutes(h, c, k, result);
    RouteFinishesOne(RoutesOf(h), c, k, result);
  }

  /** What a step may record as an answer: what was one already, or the response of the call's own client. */
  predicate AnswersOf(before: seq<Call>, after: seq<Call>, s: Step) {
    forall id | 0 <= id < |after| && after[id].result.Some? && after[id].result.value.Answered? ::
      && id < |before|
      && (after[id].result == before[id].result
          || s == DoRespond(before[id].client, KeyOf(before[id].value), after[id].result.value.response))
  }

  lemma RequestAnswers(h: Hub, v: Pending, s: Step)
    ensures AnswersOf(h.calls, Request(h, v).calls, s)
  {
  }

  lemma ReturnAnswers(h: Hub, id: nat, s: Step)
    ensures AnswersOf(h.calls, Return(h, id).calls, s) && AnswersOf(h.calls, CloseDone(h, id).calls, s)
  {
  }

  /** A response to the one call it finishes is an answer from the call's own client. */
  lemma OneAnswers(before: seq<Call>, after: seq<Call>, c: string, k: Key, response: string)
    requires FinishedOne(before, after, c, k, Answered(response))
    ensures AnswersOf(before, after, DoRespond(c, k, response))
  {
  }

  lemma RespondAnswers(h: Hub, c: string, k: Key, response: string)
    requires Inv(h)
    ensures AnswersOf(h.calls, Respond(h, c, k, response).calls, DoRespond(c, k, response))
  {
    if RespondOutcomeOf(h, c, k).Responded? {
      FinishesOne(h, c, k, Answered(response));
      OneAnswers(h.calls, FinishCall(h, c, k, Answered(response)).calls, c, k, response);
    }
  }

  lemma CancelAnswers(h: Hub, id: nat, s: Step)
    requires Inv(h)
    ensures AnswersOf(h.calls, Cancel(h, id).calls, s)
  {
    if StillPending(h, id) { FinishesOne(h, h.calls[id].client, KeyOf(h.calls[id].value), ContextEnded); }
  }

  lemma CloseAnswers(h: Hub, order: seq<(string, Key)>, clients: seq<string>, s: Step)
    requires Inv(h)
    ensures AnswersOf(h.calls, Close(h, order, clients).calls, s)
  {
    if !h.closed && Lists(h, order, clients) { CloseFailsOnly(h, order, clients); }
  }

  lemma CallStepAnswers(h: Hub, s: Step)
    requires Inv(h)
    ensures AnswersOf(h.calls, CallStep(h, s).calls, s)
  {
    CallStepIs(h, s);
    match s
    case DoBindRun(c, run) => BindingSettles(h, c, run, 0);
    case DoRequest(v) => RequestAnswers(h, v, s);
    case DoRespond(c, k, response) => RespondAnswers(h, c, k, response);
    case DoCancel(id) => CancelAnswers(h, id, s);
    case DoRelease(b) => BindingSettles(h, "", "", b);
    case DoCloseDone(id) => ReturnAnswers(h, id, s);
    case DoReturn(id) => ReturnAnswers(h, id, s);
    case _ =>
  }

  /** A step records an answer only if it is the response of the call's own client to this very call. */
  lemma StepAnswers(h: Hub, s: Step)
    requires Inv(h)
    ensures AnswersOf(h.calls, Apply(h, s).calls, s)
  {
    if s.DoClose? {
      CloseAnswers(h, s.order, s.clients, s);
    } else if OfObservers(s) {
      ObserversSettle(h, s);
    } else {
      CallStepAnswers(h, s);
    }
  }

  /** In every run, an answered call was answered by its own client, with that response. */
  lemma {:induction false} AnswersComeFromTheOwner(l: Limits, steps: seq<Step>, h: Hub, id: nat, response: string)
    returns (m: nat)
    requires ValidLimits(l) && h == Exec(NewHub(l), steps)
    requires id < |h.calls| && h.calls[id].result == Some(Answered(response))
    ensures m < |steps| && steps[m] == DoRespond(h.calls[id].client, KeyOf(h.calls[id].value), response)
    decreases |steps|
  {
    m := |steps| - 1;
    var before := steps[..m];
    var h0 := Exec(NewHub(l), before);
    ExecKeeps(l, before);
    StepAnswers(h0, steps[m]);
    ApplySettles(h0, steps[m]);
    if h0.calls[id].result == Some(Answered(response)) {
      m := AnswersComeFromTheOwner(l, before, h0, id, response);
      assert before[m] == steps[m];
    }
  }
}
