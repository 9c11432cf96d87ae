/** Subscriptions to an event log (event/log.go): every interleaving of appends, offers,
    delivery steps, cancellation and close, over any number of subscribers. */
module EventDelivery {
  import opened Basics
  import opened EventLog

  /** How a subscription ended; `Open` while it is live. */
  datatype End =
    | Open
    | Clean
    | Cancelled
    | Exhausted(lastDelivered: nat, resource: string, limit: int, observed: int)

  /** Where the delivery goroutine is: between iterations, holding the head of the queue while
      it selects, past a committed send but before it has the lock again, or finished. */
  datatype Phase = Waiting | Holding(entry: Envelope) | Sent(entry: Envelope) | Stopped

  /** One subscription. `received` is what the consumer has got since `cursor`, starting with
      the events of the page the tail was registered with, if any. */
  datatype Tail = Tail(cursor: nat, received: seq<Envelope>, queue: seq<Envelope>, queuedBytes: int,
                       maxEvents: int, maxBytes: int, end: End, lastDelivered: nat, phase: Phase, cancelled: bool)

  predicate Aborted(t: Tail) {
    t.end.Cancelled? || t.end.Exhausted?
  }

  // ---------------------------------------------------------------------------
  // The critical sections of a subscription
  // ---------------------------------------------------------------------------

  function Terminate(t: Tail, end: End): (r: Tail) {
    if t.end != Open then t else t.(end := end, queue := [], queuedBytes := 0)
  }

  function Offer(t: Tail, e: Envelope): (r: Tail) {
    if t.end != Open then t
    else if |t.queue| >= t.maxEvents then
      Terminate(t, Exhausted(t.lastDelivered, "event_subscription_events", t.maxEvents, |t.queue| + 1))
    else if e.size > t.maxBytes || t.queuedBytes > t.maxBytes - e.size then
      Terminate(t, Exhausted(t.lastDelivered, "event_subscription_bytes", t.maxBytes, t.queuedBytes + e.size))
    else t.(queue := t.queue + [e], queuedBytes := t.queuedBytes + e.size)
  }

  function Finish(t: Tail): (r: Tail) {
    if t.end == Open then t.(end := Clean) else t
  }

  function Take(t: Tail): (r: Tail) {
    if t.phase != Waiting then t
    else if t.queue != [] then t.(phase := Holding(t.queue[0]))
    else if t.end != Open then t.(phase := Stopped)
    else t
  }

  /** The select may commit the send even when the abort channel is closed too. */
  function Send(t: Tail): (r: Tail) {
    if t.phase.Holding? then t.(phase := Sent(t.phase.entry), received := t.received + [t.phase.entry]) else t
  }

  function Acknowledge(t: Tail): (r: Tail) {
    if !t.phase.Sent? then t else
      var e := t.phase.entry;
      var popped := if t.queue != [] && t.queue[0].sequence == e.sequence
                    then t.(queue := t.queue[1..], queuedBytes := t.queuedBytes - e.size) else t;
      popped.(lastDelivered := e.sequence,
              end := if t.end.Exhausted? then t.end.(lastDelivered := e.sequence) else t.end,
              phase := Waiting)
  }

  function StopAborted(t: Tail): (r: Tail) {
    if t.phase.Holding? && Aborted(t) then t.(phase := Stopped) else t
  }

  function StopCancelled(t: Tail): (r: Tail) {
    if t.phase.Holding? && t.cancelled then Terminate(t, Cancelled).(phase := Stopped) else t
  }

  datatype Action = DoTake | DoSend | DoAcknowledge | DoStopAborted | DoStopCancelled | CancelContext | RunAfterFunc

  function Act(t: Tail, a: Action): (r: Tail) {
    match a
    case DoTake => Take(t)
    case DoSend => Send(t)
    case DoAcknowledge => Acknowledge(t)
    case DoStopAborted => StopAborted(t)
    case DoStopCancelled => StopCancelled(t)
    case CancelContext => t.(cancelled := true)
    case RunAfterFunc => if t.cancelled then Terminate(t, Cancelled) else t
  }

  // ---------------------------------------------------------------------------
  // One subscription against the events it is owed
  // ---------------------------------------------------------------------------

  /** A committed send that the delivery loop has not accounted for yet. */
  function InFlight(t: Tail): (n: nat) {
    if t.phase.Sent? then 1 else 0
  }

  /** The consumer has the run of history from its cursor through the last delivered event, and
      unless the subscription was aborted, its queue is the rest of history. */
  ghost predicate Delivers(t: Tail, history: seq<Envelope>, base: nat) {
    var next := t.lastDelivered - base;
    && base <= t.cursor <= t.lastDelivered
    && |t.received| == t.lastDelivered - t.cursor + InFlight(t)
    && IsSlice(t.received, history, t.cursor - base)
    && (if Aborted(t) then t.queue == [] else IsSlice(t.queue, history, next) && next + |t.queue| == |history|)
    && (t.phase.Holding? || t.phase.Sent? ==> next < |history| && history[next] == t.phase.entry)
  }

  ghost predicate Accounts(t: Tail) {
    && t.maxEvents >= 1 && t.maxBytes >= 1
    && |t.queue| <= t.maxEvents
    && t.queuedBytes == Total(t.queue) <= t.maxBytes
    && (t.end.Exhausted? ==> t.end.lastDelivered == t.lastDelivered && t.end.observed > t.end.limit)
  }

  ghost predicate Ends(t: Tail, closed: bool) {
    && (t.end.Clean? ==> closed)
    && (t.end.Cancelled? ==> t.cancelled)
    && (t.phase.Stopped? ==> t.end != Open)
    && (t.phase.Stopped? && t.end.Clean? && t.queue != [] ==> t.cancelled)
  }

  ghost predicate TailInv(t: Tail, history: seq<Envelope>, base: nat, closed: bool) {
    Delivers(t, history, base) && Accounts(t) && Ends(t, closed)
  }

  lemma EnqueueKeeps(t: Tail, history: seq<Envelope>, base: nat, e: Envelope)
    requires TailInv(t, history, base, false) && t.end == Open
    requires |t.queue| < t.maxEvents && t.queuedBytes + e.size <= t.maxBytes
    ensures TailInv(t.(queue := t.queue + [e], queuedBytes := t.queuedBytes + e.size), history + [e], base, false)
  {
    TotalExtends(t.queue, e);
  }

  lemma TerminateKeeps(t: Tail, history: seq<Envelope>, base: nat, closed: bool, end: End)
    requires TailInv(t, history, base, closed)
    requires (end == Cancelled && t.cancelled)
          || (end.Exhausted? && end.lastDelivered == t.lastDelivered && end.observed > end.limit)
    ensures TailInv(Terminate(t, end), history, base, closed)
  {}

  lemma AbortedExtends(t: Tail, history: seq<Envelope>, base: nat, closed: bool, e: Envelope)
    requires TailInv(t, history, base, closed) && Aborted(t)
    ensures TailInv(t, history + [e], base, closed)
  {}

  lemma OfferKeeps(t: Tail, history: seq<Envelope>, base: nat, e: Envelope)
    requires TailInv(t, history, base, false)
    ensures TailInv(Offer(t, e), history + [e], base, false)
  {
    var r := Offer(t, e);
    if r.end == Open {
      EnqueueKeeps(t, history, base, e);
    } else {
      if t.end == Open { TerminateKeeps(t, history, base, false, r.end); }
      AbortedExtends(r, history, base, false, e);
    }
  }

  lemma TotalPops(es: seq<Envelope>)
    requires es != []
    ensures Total(es) == es[0].size + Total(es[1..])
  {
    BytesSplit(es, 0, 1, |es|);
    BytesSlice(es[1..], es, 1, 0, |es| - 1);
  }

  lemma AcknowledgeKeeps(t: Tail, history: seq<Envelope>, run: string, base: nat, closed: bool)
    requires TailInv(t, history, base, closed) && Numbered(history, run, base) && t.phase.Sent?
    ensures TailInv(Acknowledge(t), history, base, closed)
  {
    assert t.phase.entry.sequence == t.lastDelivered + 1;
    if !Aborted(t) {
      assert t.queue[0] == t.phase.entry;
      TotalPops(t.queue);
    }
  }

  lemma SendKeeps(t: Tail, history: seq<Envelope>, base: nat, closed: bool)
    requires TailInv(t, history, base, closed) && t.phase.Holding?
    ensures TailInv(Send(t), history, base, closed)
  {}

  lemma TakeKeeps(t: Tail, history: seq<Envelope>, base: nat, closed: bool)
    requires TailInv(t, history, base, closed) && t.phase == Waiting
    ensures TailInv(Take(t), history, base, closed)
  {}

  lemma ActKeeps(t: Tail, history: seq<Envelope>, run: string, base: nat, closed: bool, a: Action)
    requires TailInv(t, history, base, closed) && Numbered(history, run, base)
    ensures TailInv(Act(t, a), history, base, closed)
  {
    match a
    case DoTake => if t.phase == Waiting { TakeKeeps(t, history, base, closed); }
    case DoSend => if t.phase.Holding? { SendKeeps(t, history, base, closed); }
    case DoAcknowledge => if t.phase.Sent? { AcknowledgeKeeps(t, history, run, base, closed); }
    case DoStopAborted =>
    case DoStopCancelled => if t.cancelled { TerminateKeeps(t, history, base, closed, Cancelled); }
    case CancelContext =>
    case RunAfterFunc => if t.cancelled { TerminateKeeps(t, history, base, closed, Cancelled); }
  }

  lemma FinishKeeps(t: Tail, history: seq<Envelope>, base: nat, closed: bool)
    requires TailInv(t, history, base, closed)
    ensures TailInv(Finish(t), history, base, true)
  {}

  // ---------------------------------------------------------------------------
  // The log with all of its subscriptions
  // ---------------------------------------------------------------------------

  /** `history` is everything appended since the log was opened after sequence `base`. */
  datatype System = System(log: Log, base: nat, history: seq<Envelope>, nextTail: nat, tails: map<nat, Tail>)

  datatype Step =
    | Append(envelope: Envelope)
    | Subscribe(after: nat)
    | ReplayAndTail(from: nat, maxEvents: int, maxBytes: int)
    | Close
    | Deliver(id: nat, action: Action)

  function Open0(run: string, last: nat, limits: Limits): (r: System) {
    System(NewLogAfter(run, last, limits), last, [], 0, map[])
  }

  function NewTail(s: System, after: nat, page: seq<Envelope>, replay: seq<Envelope>): (r: Tail) {
    Tail(after, page, replay, Total(replay), s.log.limits.subscriberEvents, s.log.limits.subscriberBytes,
         if s.log.closed then Clean else Open, after + |page|, Waiting, false)
  }

  function Register(s: System, t: Tail): (r: System) {
    s.(nextTail := s.nextTail + 1, tails := s.tails[s.nextTail + 1 := t])
  }

  function OfferAll(tails: map<nat, Tail>, e: Envelope): (r: map<nat, Tail>) {
    map id | id in tails :: Offer(tails[id], e)
  }

  function Apply(s: System, step: Step): (r: System)
    requires ValidLimits(s.log.limits)
    ensures r.log.limits == s.log.limits
  {
    match step
    case Append(e) =>
      if AppendOutcome(s.log, e) != Appended then s
      else s.(log := AppendTo(s.log, e), history := s.history + [e], tails := OfferAll(s.tails, e))
    case Subscribe(after) =>
      var r := Replay(s.log, after, s.log.limits.subscriberEvents, s.log.limits.subscriberBytes);
      if r.Page? && !r.hasMore then Register(s, NewTail(s, after, [], r.events)) else s
    case ReplayAndTail(after, maxEvents, maxBytes) =>
      if !(1 <= maxEvents <= s.log.limits.subscriberEvents && 1 <= maxBytes <= s.log.limits.subscriberBytes) then s else
        var r := Replay(s.log, after, maxEvents, maxBytes);
        if r.Page? && !r.hasMore && !s.log.closed then Register(s, NewTail(s, after, r.events, [])) else s
    case Close => s.(log := s.log.(closed := true), tails := map id | id in s.tails :: Finish(s.tails[id]))
    case Deliver(id, a) => if id in s.tails then s.(tails := s.tails[id := Act(s.tails[id], a)]) else s
  }

  function Exec(s: System, steps: seq<Step>): (r: System)
    requires ValidLimits(s.log.limits)
    decreases |steps|
  {
    if steps == [] then s else Exec(Apply(s, steps[0]), steps[1..])
  }

  ghost predicate TailsInv(tails: map<nat, Tail>, history: seq<Envelope>, base: nat, closed: bool) {
    forall id | id in tails :: TailInv(tails[id], history, base, closed)
  }

  ghost predicate Inv(s: System) {
    && Retains(s.log, s.base, s.history)
    && TailsInv(s.tails, s.history, s.base, s.log.closed)
  }

  lemma OfferAllKeeps(tails: map<nat, Tail>, history: seq<Envelope>, base: nat, e: Envelope)
    requires TailsInv(tails, history, base, false)
    ensures TailsInv(OfferAll(tails, e), history + [e], base, false)
  {
    forall id | id in tails ensures TailInv(Offer(tails[id], e), history + [e], base, false) {
      OfferKeeps(tails[id], history, base, e);
    }
  }

  lemma FinishAllKeeps(tails: map<nat, Tail>, history: seq<Envelope>, base: nat, closed: bool)
    requires TailsInv(tails, history, base, closed)
    ensures TailsInv(map id | id in tails :: Finish(tails[id]), history, base, true)
  {
    forall id | id in tails ensures TailInv(Finish(tails[id]), history, base, true) {
      FinishKeeps(tails[id], history, base, closed);
    }
  }

  /** A final page queued for delivery, or already handed over, makes a correct new subscription. */
  lemma NewTailInv(s: System, after: nat, maxEvents: int, maxBytes: int, r: ReplayResult)
    requires PageCorrect(s.history, s.base, after, maxEvents, maxBytes, r) && !r.hasMore
    requires 1 <= maxEvents <= s.log.limits.subscriberEvents && 1 <= maxBytes <= s.log.limits.subscriberBytes
    ensures TailInv(NewTail(s, after, [], r.events), s.history, s.base, s.log.closed)
    ensures TailInv(NewTail(s, after, r.events, []), s.history, s.base, s.log.closed)
  {
    BytesSlice(r.events, s.history, after - s.base, 0, |r.events|);
  }

  lemma RegisterKeeps(s: System, after: nat, maxEvents: int, maxBytes: int)
    requires Inv(s)
    requires 1 <= maxEvents <= s.log.limits.subscriberEvents && 1 <= maxBytes <= s.log.limits.subscriberBytes
    ensures var r := Replay(s.log, after, maxEvents, maxBytes);
            r.Page? && !r.hasMore ==>
              Inv(Register(s, NewTail(s, after, [], r.events))) && Inv(Register(s, NewTail(s, after, r.events, [])))
  {
    var r := Replay(s.log, after, maxEvents, maxBytes);
    if r.Page? && !r.hasMore {
      ReplayCorrect(s.log, s.base, s.history, after, maxEvents, maxBytes);
      NewTailInv(s, after, maxEvents, maxBytes, r);
    }
  }

  lemma ApplyKeeps(s: System, step: Step)
    requires Inv(s)
    ensures Inv(Apply(s, step))
  {
    match step
    case Append(e) =>
      if AppendOutcome(s.log, e) == Appended {
        AppendRetains(s.log, s.base, s.history, e);
        OfferAllKeeps(s.tails, s.history, s.base, e);
      }
    case Subscribe(after) =>
      RegisterKeeps(s, after, s.log.limits.subscriberEvents, s.log.limits.subscriberBytes);
    case ReplayAndTail(after, maxEvents, maxBytes) =>
      if 1 <= maxEvents <= s.log.limits.subscriberEvents && 1 <= maxBytes <= s.log.limits.subscriberBytes {
        RegisterKeeps(s, after, maxEvents, maxBytes);
      }
    case Close => FinishAllKeeps(s.tails, s.history, s.base, s.log.closed);
    case Deliver(id, a) =>
      if id in s.tails { ActKeeps(s.tails[id], s.history, s.log.run, s.base, s.log.closed, a); }
  }

  lemma {:induction false} ExecKeeps(s: System, steps: seq<Step>)
    requires Inv(s)
    ensures Inv(Exec(s, steps))
    decreases |steps|
  {
    if steps != [] {
      ApplyKeeps(s, steps[0]);
      ExecKeeps(Apply(s, steps[0]), steps[1..]);
    }
  }

  /** What a consumer may rely on. */
  ghost predicate GapFree(t: Tail, history: seq<Envelope>, base: nat) {
    var c := t.cursor - base;
    && base <= t.cursor
    // Exactly the log's events after the cursor, in order, without a gap.
    && IsSlice(t.received, history, c)
    // A clean end misses exactly what was left in the queue, and only a cancelled consumer leaves any.
    && (t.phase.Stopped? && t.end.Clean? ==> c + |t.received| + |t.queue| == |history|)
    && (t.phase.Stopped? && t.end.Clean? && !t.cancelled ==> c + |t.received| == |history|)
    // Exhaustion reports the exact cursor to recover from, and a bound that was really exceeded.
    && (t.phase.Stopped? && t.end.Exhausted? ==> t.end.lastDelivered == t.cursor + |t.received|)
    && (t.end.Exhausted? ==> t.end.observed > t.end.limit)
    // The queue is exactly accounted and inside both bounds.
    && |t.queue| <= t.maxEvents && t.queuedBytes == Total(t.queue) <= t.maxBytes
  }

  /** In every run the log retains as specified and every subscription is delivered without gaps. */
  lemma {:induction false} GapFreeDelivery(run: string, last: nat, limits: Limits, steps: seq<Step>)
    requires ValidLimits(limits) && last < MAX_UINT64
    ensures var s := Exec(Open0(run, last, limits), steps);
            && Retains(s.log, s.base, s.history)
            && forall id | id in s.tails :: GapFree(s.tails[id], s.history, s.base)
  {
    NewLogRetains(run, last, limits);
    ExecKeeps(Open0(run, last, limits), steps);
    var s := Exec(Open0(run, last, limits), steps);
    forall id | id in s.tails ensures GapFree(s.tails[id], s.history, s.base) {
      assert TailInv(s.tails[id], s.history, s.base, s.log.closed);
    }
  }

  /** A clean end alone does not mean everything arrived: any consumer with queued events that is
      cancelled just after the log closed stops with no error and its whole queue undelivered. */
  lemma CancelledAfterClose(t: Tail)
    requires t.end == Open && t.phase == Waiting && t.queue != []
    ensures var u := Act(Act(Act(Finish(t), DoTake), CancelContext), DoStopCancelled);
            u.phase == Stopped && u.end == Clean && u.received == t.received && u.queue == t.queue
  {}
}
