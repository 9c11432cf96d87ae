/** The event log as the object the kernel appends to (event/log.go): fields updated in place,
    with the eviction, offer and replay loops of the source. */
module EventStore {
  import opened Basics
  import opened EventLog
  import opened EventDelivery

  datatype SubscribeResult =
    | Subscribed(id: nat)
    | Refused(reason: ReplayResult)
    | Overloaded(lastDelivered: nat, limit: int, observed: int)
    | NoRecoveryEntry

  /** Some sound log with its subscriptions is `s`. */
  ghost predicate Held(s: System) {
    exists x :: Inv(x) && x == s
  }

  lemma NewHeld(run: string, last: nat, limits: Limits)
    requires ValidLimits(limits) && last < MAX_UINT64
    ensures Held(Open0(run, last, limits))
  {
    NewLogRetains(run, last, limits);
    assert Inv(Open0(run, last, limits));
  }

  lemma StepHeld(s: System, step: Step, s1: System)
    requires Held(s) && ValidLimits(s.log.limits) && s1 == Apply(s, step)
    ensures Held(s1)
  {
    ApplyKeeps(s, step);
  }

  lemma HeldBytes(s: System)
    requires Held(s)
    ensures s.log.bytes == Total(s.log.entries)
  {
  }

  /** Where the retained entries pass an accepted cursor. */
  lemma CursorCut(log: Log, base: nat, history: seq<Envelope>, after: nat) returns (cut: nat)
    requires Retains(log, base, history) && InRange(log, after)
    ensures cut == CursorIndex(log.entries, 0, after)
    ensures forall j | 0 <= j < |log.entries| :: log.entries[j].sequence <= after <==> j < cut
  {
    InRangeCut(log, base, history, after);
    EntriesNumbered(log, base, history);
    cut := CursorIndex(log.entries, 0, after);
  }

  /** When a whole replay does not fit one page, the next retained entry breaks a bound. */
  lemma NextBreaksBound(log: Log, base: nat, history: seq<Envelope>, after: nat, r: ReplayResult)
    requires Retains(log, base, history) && r.Page? && r.hasMore && InRange(log, r.pageLast)
    requires PageCorrect(history, base, after, log.limits.subscriberEvents, log.limits.subscriberBytes, r)
    ensures var next := CursorIndex(log.entries, 0, r.pageLast);
            && next < |log.entries|
            && (|r.events| >= log.limits.subscriberEvents
                || Total(r.events) + log.entries[next].size > log.limits.subscriberBytes)
  {
    InRangeCut(log, base, history, r.pageLast);
    var next := CursorIndex(log.entries, 0, r.pageLast);
    assert log.entries[next] == history[log.evictedEvents + next];
    BytesSlice(r.events, history, after - base, 0, |r.events|);
  }

  lemma HeldCut(s: System, after: nat) returns (cut: nat)
    requires Held(s) && InRange(s.log, after)
    ensures cut == CursorIndex(s.log.entries, 0, after)
    ensures forall j | 0 <= j < |s.log.entries| :: s.log.entries[j].sequence <= after <==> j < cut
  {
    cut := CursorCut(s.log, s.base, s.history, after);
  }

  /** A refused subscription breaks a bound. */
  lemma HeldOverload(s: System, after: nat, r: ReplayResult)
    requires Held(s) && ValidLimits(s.log.limits)
    requires r == Replay(s.log, after, s.log.limits.subscriberEvents, s.log.limits.subscriberBytes) && r.Page? && r.hasMore
    ensures var next := CursorIndex(s.log.entries, 0, r.pageLast);
            && next < |s.log.entries|
            && (|r.events| >= s.log.limits.subscriberEvents
                || Total(r.events) + s.log.entries[next].size > s.log.limits.subscriberBytes)
  {
    OverloadBreaksBound(s.log, s.base, s.history, after, r);
  }

  lemma OverloadBreaksBound(log: Log, base: nat, history: seq<Envelope>, after: nat, r: ReplayResult)
    requires Retains(log, base, history)
    requires r == Replay(log, after, log.limits.subscriberEvents, log.limits.subscriberBytes) && r.Page? && r.hasMore
    ensures var next := CursorIndex(log.entries, 0, r.pageLast);
            && next < |log.entries|
            && (|r.events| >= log.limits.subscriberEvents
                || Total(r.events) + log.entries[next].size > log.limits.subscriberBytes)
  {
    ReplayCorrect(log, base, history, after, log.limits.subscriberEvents, log.limits.subscriberBytes);
    LaterInRange(log, base, history, after, r.pageLast);
    NextBreaksBound(log, base, history, after, r);
  }

  /** A page, and the tail registered with it if it was the last one. */
  lemma TailStep(s: System, after: nat, maxEvents: int, maxBytes: int, page: ReplayResult, s1: System)
    requires Held(s) && ValidLimits(s.log.limits)
    requires 1 <= maxEvents <= s.log.limits.subscriberEvents && 1 <= maxBytes <= s.log.limits.subscriberBytes
    requires page == Replay(s.log, after, maxEvents, maxBytes)
    requires s1 == if page.Page? && !page.hasMore && !s.log.closed then Register(s, NewTail(s, after, page.events, [])) else s
    ensures Held(s1) && s1 == Apply(s, Step.ReplayAndTail(after, maxEvents, maxBytes))
  {
    StepHeld(s, Step.ReplayAndTail(after, maxEvents, maxBytes), s1);
  }

  class LogStore {
    const run: string
    const limits: Limits
    var entries: seq<Envelope>
    var bytes: int
    var last: nat
    var closed: bool
    var evictedEvents: nat
    var evictedBytes: nat
    var nextTail: nat
    var tails: map<nat, Tail>
    ghost const base: nat
    ghost var history: seq<Envelope>

    function State(): (r: Log)
      reads this
    {
      Log(run, limits, entries, bytes, last, closed, evictedEvents, evictedBytes)
    }

    ghost function View(): (r: System)
      reads this
    {
      System(State(), base, history, nextTail, tails)
    }

    ghost predicate Valid()
      reads this
    {
      ValidLimits(limits) && Held(View())
    }

    constructor (run: string, last: nat, limits: Limits)
      requires ValidLimits(limits) && last < MAX_UINT64
      ensures Valid() && View() == Open0(run, last, limits)
    {
      this.run, this.limits, this.last := run, limits, last;
      entries, bytes, closed, evictedEvents, evictedBytes := [], 0, false, 0, 0;
      nextTail, tails, base, history := 0, map[], last, [];
      new;
      NewHeld(run, last, limits);
    }

    static method New(run: string, last: nat, limits: Limits) returns (r: LogStore?)
      ensures r != null <==> Trimmed(run) && ValidLimits(limits) && last < MAX_UINT64
      ensures r != null ==> fresh(r) && r.Valid() && r.View() == Open0(run, last, limits)
    {
      r := null;
      if Trimmed(run) && ValidLimits(limits) && last < MAX_UINT64 {
        r := new LogStore(run, last, limits);
      }
    }

    /** The eviction loop. */
    method Evict(maxEvents: int, maxBytes: int, size: int)
      requires maxEvents >= 1 && 0 <= size <= maxBytes && bytes == Total(entries)
      modifies this`entries, this`bytes, this`evictedEvents, this`evictedBytes
      ensures var k := EvictCount(old(entries), 0, maxEvents, maxBytes - size);
              && entries == old(entries)[k..] && bytes == Bytes(old(entries), k, |old(entries)|)
              && evictedEvents == old(evictedEvents) + k
              && evictedBytes == old(evictedBytes) + Bytes(old(entries), 0, k)
    {
      ghost var all := entries;
      ghost var k := 0;
      while |entries| >= maxEvents || bytes > maxBytes - size
        invariant k <= |all| && entries == all[k..] && bytes == Bytes(all, k, |all|)
        invariant EvictCount(all, 0, maxEvents, maxBytes - size) == EvictCount(all, k, maxEvents, maxBytes - size)
        invariant evictedEvents == old(evictedEvents) + k
        invariant evictedBytes == old(evictedBytes) + Bytes(all, 0, k)
        decreases |entries|
      {
        assert !Admits(all, k, maxEvents, maxBytes - size);
        BytesSplit(all, k, k + 1, |all|);
        evictedEvents := evictedEvents + 1;
        evictedBytes := evictedBytes + entries[0].size;
        bytes := bytes - entries[0].size;
        entries := entries[1..];
        k := k + 1;
      }
    }

    method OfferToAll(e: Envelope)
      modifies this`tails
      ensures tails == OfferAll(old(tails), e)
    {
      var rest := tails.Keys;
      while rest != {}
        invariant rest <= tails.Keys == old(tails).Keys
        invariant forall id | id in tails :: tails[id] == if id in rest then old(tails)[id] else Offer(old(tails)[id], e)
        decreases rest
      {
        var id :| id in rest;
        tails := tails[id := Offer(tails[id], e)];
        rest := rest - {id};
      }
    }

    /** Make room, add the event and offer it to every subscriber. */
    method Persist(e: Envelope, maxEvents: int, maxBytes: int)
      requires ValidLimits(limits) && AppendOutcome(State(), e) == Appended && bytes == Total(entries)
      requires maxEvents == EventCap(limits, e.terminal) && maxBytes == ByteCap(limits, e.terminal)
      modifies this
      ensures View() == Apply(old(View()), Step.Append(e))
    {
      Evict(maxEvents, maxBytes, e.size);
      entries := entries + [e];
      bytes := bytes + e.size;
      last := e.sequence;
      history := history + [e];
      OfferToAll(e);
    }

    /** Append persists one next-sequence event and then offers it to live subscribers. */
    method Append(e: Envelope) returns (r: AppendResult)
      requires Valid()
      modifies this
      ensures r == AppendOutcome(old(State()), e)
      ensures Valid() && View() == Apply(old(View()), Step.Append(e))
    {
      ghost var before := View();
      HeldBytes(before);
      StepHeld(before, Step.Append(e), Apply(before, Step.Append(e)));
      if closed { return LogClosed; }
      if e.run != run { return WrongRun; }
      if last == MAX_UINT64 || e.sequence != last + 1 { return WrongSequence; }
      var maxEvents, maxBytes := limits.maxEvents, limits.maxBytes;
      if !e.terminal {
        maxEvents := maxEvents - limits.reserveEvents;
        maxBytes := maxBytes - limits.reserveBytes;
      }
      if e.size > maxBytes { return LogExhausted(maxBytes, e.size); }
      Persist(e, maxEvents, maxBytes);
      return Appended;
    }

    /** One pass over the retained entries: skip those up to the cursor, then take entries until
        a bound is met. `refused` is a first entry that no page of this request can carry. */
    method Collect(after: nat, maxEvents: int, maxBytes: int, ghost cut: nat)
      returns (picked: seq<Envelope>, pageLast: nat, refused: bool, size: int)
      requires maxEvents >= 1 && maxBytes >= 1 && cut <= |entries|
      requires forall j | 0 <= j < |entries| :: entries[j].sequence <= after <==> j < cut
      ensures |picked| == Greedy(entries, cut, maxEvents, maxBytes) && IsSlice(picked, entries, cut)
      ensures pageLast == if picked == [] then after else entries[cut + |picked| - 1].sequence
      ensures refused == (picked == [] && cut < |entries|)
      ensures refused ==> size == entries[cut].size
    {
      picked, pageLast, refused, size := [], after, false, 0;
      var i := 0;
      while i < |entries|
        invariant 0 <= i <= |entries| && !refused
        invariant |picked| == (if i <= cut then 0 else i - cut) && IsSlice(picked, entries, cut)
        invariant |picked| <= maxEvents && 0 <= size <= maxBytes
        invariant pageLast == if picked == [] then after else entries[i - 1].sequence
        invariant Greedy(entries, cut, maxEvents, maxBytes)
               == |picked| + Greedy(entries, cut + |picked|, maxEvents - |picked|, maxBytes - size)
      {
        if entries[i].sequence <= after {
          i := i + 1;
          continue;
        }
        assert i == cut + |picked|;
        if |picked| == maxEvents { break; }
        if entries[i].size > maxBytes || size > maxBytes - entries[i].size {
          assert Greedy(entries, i, maxEvents - |picked|, maxBytes - size) == 0;
          if picked == [] { refused, size := true, entries[i].size; }
          break;
        }
        picked := picked + [entries[i]];
        size := size + entries[i].size;
        pageLast := entries[i].sequence;
        i := i + 1;
      }
    }

    method CutPage(after: nat, maxEvents: int, maxBytes: int, earliest: nat, ghost cut: nat) returns (r: ReplayResult)
      requires maxEvents >= 1 && maxBytes >= 1 && cut <= |entries|
      requires forall j | 0 <= j < |entries| :: entries[j].sequence <= after <==> j < cut
      ensures r == PageFrom(entries, cut, earliest, last, after, maxEvents, maxBytes)
    {
      var picked, pageLast, refused, size := Collect(after, maxEvents, maxBytes, cut);
      assert picked == entries[cut..cut + |picked|];
      if refused { return ReplayExhausted(after, maxBytes, size); }
      if pageLast < last {
        if picked == [] { return NoProgress; }
        return Page(earliest, last, pageLast, picked, true);
      }
      return Page(earliest, last, pageLast, picked, false);
    }

    /** One bounded page after a cursor. */
    method ReplayPage(after: nat, maxEvents: int, maxBytes: int) returns (r: ReplayResult)
      requires Valid() && maxEvents >= 1 && maxBytes >= 1
      ensures r == Replay(State(), after, maxEvents, maxBytes)
    {
      var earliest := Earliest(State());
      if CursorOutside(after, earliest, last) {
        return OutOfRange(after, earliest, last, if after < earliest then earliest - 1 else last);
      }
      ghost var cut := HeldCut(View(), after);
      r := CutPage(after, maxEvents, maxBytes, earliest, cut);
    }

    /** The facts of a refused subscription: the first bound its replay would exceed. */
    method Exhaustion(pageLast: nat, replay: seq<Envelope>) returns (r: SubscribeResult)
      requires CursorIndex(entries, 0, pageLast) < |entries|
      requires |replay| >= limits.subscriberEvents
            || Total(replay) + entries[CursorIndex(entries, 0, pageLast)].size > limits.subscriberBytes
      ensures r.Overloaded? && r.lastDelivered == pageLast && r.observed > r.limit
      ensures r.limit == if |replay| >= limits.subscriberEvents then limits.subscriberEvents else limits.subscriberBytes
    {
      if |replay| >= limits.subscriberEvents {
        return Overloaded(pageLast, limits.subscriberEvents, |replay| + 1);
      }
      var queued := 0;
      for i := 0 to |replay|
        invariant queued == Bytes(replay, 0, i)
      {
        queued := queued + replay[i].size;
      }
      for i := 0 to |entries|
        invariant i <= CursorIndex(entries, 0, pageLast)
      {
        if entries[i].sequence > pageLast {
          return Overloaded(pageLast, limits.subscriberBytes, queued + entries[i].size);
        }
      }
      return NoRecoveryEntry;
    }

    /** Register a subscription after a cursor, past a page that was handed over, with a replay still to deliver. */
    method Register(after: nat, page: seq<Envelope>, replay: seq<Envelope>)
      modifies this`nextTail, this`tails
      ensures nextTail == old(nextTail) + 1
      ensures tails == old(tails)[nextTail := NewTail(View(), after, page, replay)]
    {
      nextTail := nextTail + 1;
      tails := tails[nextTail := Tail(after, page, replay, Total(replay), limits.subscriberEvents, limits.subscriberBytes,
                                      if closed then Clean else Open, after + |page|, Waiting, false)];
    }

    /** One page, and for its last page a live tail registered under the same lock. */
    method ReplayAndTail(after: nat, maxEvents: int, maxBytes: int, tail: bool)
      returns (accepted: bool, page: ReplayResult, tailing: bool)
      requires Valid()
      modifies this
      ensures Valid() && (accepted <==> 1 <= maxEvents <= limits.subscriberEvents && 1 <= maxBytes <= limits.subscriberBytes)
      ensures accepted ==> page == Replay(old(State()), after, maxEvents, maxBytes)
      ensures tailing <==> accepted && tail && page.Page? && !page.hasMore && !closed
      ensures View() == if tail then Apply(old(View()), Step.ReplayAndTail(after, maxEvents, maxBytes)) else old(View())
    {
      accepted := 1 <= maxEvents <= limits.subscriberEvents && 1 <= maxBytes <= limits.subscriberBytes;
      page, tailing := NoProgress, false;
      if !accepted { return; }
      page := ReplayPage(after, maxEvents, maxBytes);
      tailing := tail && page.Page? && !page.hasMore && !closed;
      if tailing {
        Register(after, page.events, []);
      }
      if tail { TailStep(old(View()), after, maxEvents, maxBytes, page, View()); }
    }

    /** Replay everything after a cursor and tail future appends. A subscription that does not
        fit its queue bounds is refused with the bound it would exceed. */
    method Subscribe(after: nat) returns (r: SubscribeResult)
      requires Valid()
      modifies this
      ensures Valid() && View() == Apply(old(View()), Step.Subscribe(after))
      ensures r.Subscribed? ==> r.id == nextTail && r.id in tails
      ensures !r.Subscribed? ==> tails == old(tails)
      ensures !r.NoRecoveryEntry? && (r.Overloaded? ==> r.observed > r.limit)
    {
      ghost var before := View();
      StepHeld(before, Step.Subscribe(after), Apply(before, Step.Subscribe(after)));
      var page := ReplayPage(after, limits.subscriberEvents, limits.subscriberBytes);
      if !page.Page? { return Refused(page); }
      if page.hasMore {
        HeldOverload(before, after, page);
        r := Exhaustion(page.pageLast, page.events);
        return;
      }
      Register(after, [], page.events);
      return Subscribed(nextTail);
    }

    /** Close completes live subscribers after their queued tail is delivered. */
    method Close()
      requires Valid()
      modifies this
      ensures Valid() && View() == Apply(old(View()), Step.Close)
    {
      ghost var before := View();
      StepHeld(before, Step.Close, Apply(before, Step.Close));
      closed := true;
      tails := map id | id in tails :: Finish(tails[id]);
    }
  }
}
