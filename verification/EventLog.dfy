/** The bounded authoritative event log of one run (event/log.go): retention with a
    terminal reserve, and count-and-byte-bounded replay pages. */
module EventLog {
  import opened Basics

  /** One immutable event. `size` is its canonical encoded size. */
  datatype Envelope = Envelope(run: string, sequence: nat, terminal: bool, size: nat, payload: string)

  datatype Limits = Limits(maxEvents: int, maxBytes: int, reserveEvents: int, reserveBytes: int,
                           subscriberEvents: int, subscriberBytes: int)

  predicate ValidLimits(l: Limits) {
    && l.maxEvents >= 2 && l.maxBytes >= 1024
    && 1 <= l.reserveEvents < l.maxEvents
    && 1 <= l.reserveBytes < l.maxBytes
    && l.subscriberEvents >= 1 && l.subscriberBytes >= 1
  }

  /** `part` occurs in `whole` at index `from`. */
  ghost predicate IsSlice<T>(part: seq<T>, whole: seq<T>, from: nat) {
    from + |part| <= |whole| && forall i | 0 <= i < |part| :: part[i] == whole[from + i]
  }

  /** The encoded size of the events in an index range. */
  function Bytes(es: seq<Envelope>, lo: nat, hi: nat): (n: nat)
    requires lo <= hi <= |es|
    decreases hi
  {
    if lo == hi then 0 else Bytes(es, lo, hi - 1) + es[hi - 1].size
  }

  function Total(es: seq<Envelope>): (n: nat) {
    Bytes(es, 0, |es|)
  }

  lemma {:induction false} BytesSplit(es: seq<Envelope>, lo: nat, mid: nat, hi: nat)
    requires lo <= mid <= hi <= |es|
    ensures Bytes(es, lo, hi) == Bytes(es, lo, mid) + Bytes(es, mid, hi)
    decreases hi
  {
    if mid < hi { BytesSplit(es, lo, mid, hi - 1); }
  }

  lemma {:induction false} BytesSlice(part: seq<Envelope>, whole: seq<Envelope>, from: nat, lo: nat, hi: nat)
    requires IsSlice(part, whole, from) && lo <= hi <= |part|
    ensures Bytes(part, lo, hi) == Bytes(whole, from + lo, from + hi)
    decreases hi
  {
    if lo < hi { BytesSlice(part, whole, from, lo, hi - 1); }
  }

  lemma TotalExtends(es: seq<Envelope>, e: Envelope)
    ensures Total(es + [e]) == Total(es) + e.size
  {
    BytesSlice(es, es + [e], 0, 0, |es|);
  }

  // ---------------------------------------------------------------------------
  // Retention
  // ---------------------------------------------------------------------------

  /** Does the history left after dropping the `k` oldest entries admit one more event? */
  predicate Admits(es: seq<Envelope>, k: nat, maxEvents: int, room: int)
    requires k <= |es|
  {
    |es| - k < maxEvents && Bytes(es, k, |es|) <= room
  }

  /** How many oldest entries to evict: the least number, from `k` up, that admits the new event. */
  function EvictCount(es: seq<Envelope>, k: nat, maxEvents: int, room: int): (r: nat)
    requires k <= |es| && maxEvents >= 1 && room >= 0
    ensures k <= r <= |es| && Admits(es, r, maxEvents, room)
    ensures forall j | k <= j < r :: !Admits(es, j, maxEvents, room)
    decreases |es| - k
  {
    if Admits(es, k, maxEvents, room) then k else EvictCount(es, k + 1, maxEvents, room)
  }

  datatype Log = Log(run: string, limits: Limits, entries: seq<Envelope>, bytes: int, last: nat,
                     closed: bool, evictedEvents: nat, evictedBytes: nat)

  function NewLogAfter(run: string, last: nat, limits: Limits): (r: Log) {
    Log(run, limits, [], 0, last, false, 0, 0)
  }

  datatype AppendResult = Appended | LogClosed | WrongRun | WrongSequence | LogExhausted(limit: int, observed: int)

  function EventCap(l: Limits, terminal: bool): (r: int) {
    if terminal then l.maxEvents else l.maxEvents - l.reserveEvents
  }

  function ByteCap(l: Limits, terminal: bool): (r: int) {
    if terminal then l.maxBytes else l.maxBytes - l.reserveBytes
  }

  function AppendOutcome(log: Log, e: Envelope): (r: AppendResult) {
    if log.closed then LogClosed
    else if e.run != log.run then WrongRun
    else if log.last == MAX_UINT64 || e.sequence != log.last + 1 then WrongSequence
    else if e.size > ByteCap(log.limits, e.terminal) then LogExhausted(ByteCap(log.limits, e.terminal), e.size)
    else Appended
  }

  /** The log after evicting its `k` oldest entries and adding one event. */
  function EvictAndAdd(log: Log, k: nat, e: Envelope): (r: Log)
    requires k <= |log.entries|
  {
    log.(entries := log.entries[k..] + [e],
         bytes := Bytes(log.entries, k, |log.entries|) + e.size,
         last := e.sequence,
         evictedEvents := log.evictedEvents + k,
         evictedBytes := log.evictedBytes + Bytes(log.entries, 0, k))
  }

  function Evicted(log: Log, e: Envelope): (k: nat)
    requires ValidLimits(log.limits) && AppendOutcome(log, e) == Appended
    ensures k <= |log.entries|
  {
    EvictCount(log.entries, 0, EventCap(log.limits, e.terminal), ByteCap(log.limits, e.terminal) - e.size)
  }

  function AppendTo(log: Log, e: Envelope): (r: Log)
    requires ValidLimits(log.limits)
    ensures r.limits == log.limits
  {
    if AppendOutcome(log, e) == Appended then EvictAndAdd(log, Evicted(log, e), e) else log
  }

  /** Events numbered without gaps after `base`. */
  ghost predicate Numbered(history: seq<Envelope>, run: string, base: nat) {
    forall i | 0 <= i < |history| :: history[i].sequence == base + 1 + i && history[i].run == run
  }

  /** The log against everything ever appended to it: it holds a contiguous suffix that ends
      at the last sequence, inside both bounds, and the evicted prefix is fully accounted for. */
  ghost predicate Retains(log: Log, base: nat, history: seq<Envelope>) {
    && ValidLimits(log.limits)
    && base < MAX_UINT64
    && log.last == base + |history| <= MAX_UINT64
    && Numbered(history, log.run, base)
    && log.evictedEvents + |log.entries| == |history|
    && IsSlice(log.entries, history, log.evictedEvents)
    && (history != [] ==> log.entries != [])
    && log.evictedBytes == Bytes(history, 0, log.evictedEvents)
    && log.bytes == Total(log.entries) <= log.limits.maxBytes
    && |log.entries| <= log.limits.maxEvents
  }

  /** Conservation: retained plus evicted is everything appended, in events and in bytes. */
  lemma Conservation(log: Log, base: nat, history: seq<Envelope>)
    requires Retains(log, base, history)
    ensures |log.entries| + log.evictedEvents == |history|
    ensures log.bytes + log.evictedBytes == Total(history)
  {
    BytesSlice(log.entries, history, log.evictedEvents, 0, |log.entries|);
    BytesSplit(history, 0, log.evictedEvents, |history|);
  }

  lemma NumberedExtends(history: seq<Envelope>, run: string, base: nat, e: Envelope)
    requires Numbered(history, run, base) && e.run == run && e.sequence == base + |history| + 1
    ensures Numbered(history + [e], run, base)
  {}

  lemma EvictShifts(history: seq<Envelope>, entries: seq<Envelope>, d: nat, k: nat, e: Envelope)
    requires IsSlice(entries, history, d) && d + |entries| == |history| && k <= |entries|
    ensures IsSlice(entries[k..] + [e], history + [e], d + k)
    ensures Total(entries[k..] + [e]) == Bytes(entries, k, |entries|) + e.size
    ensures Bytes(history, 0, d) + Bytes(entries, 0, k) == Bytes(history + [e], 0, d + k)
  {
    var kept := entries[k..];
    BytesSlice(kept, entries, k, 0, |kept|);
    TotalExtends(kept, e);
    BytesSlice(entries, history, d, 0, k);
    BytesSplit(history, 0, d, d + k);
    BytesSlice(history, history + [e], 0, 0, d + k);
  }

  lemma {:induction false} EvictRetains(log: Log, base: nat, history: seq<Envelope>, k: nat, e: Envelope,
                                        history1: seq<Envelope>, log1: Log)
    requires Retains(log, base, history) && e.run == log.run && e.sequence == log.last + 1 <= MAX_UINT64
    requires k <= |log.entries| < log.limits.maxEvents + k
    requires Bytes(log.entries, k, |log.entries|) + e.size <= log.limits.maxBytes
    requires log1 == EvictAndAdd(log, k, e) && history1 == history + [e]
    ensures Retains(log1, base, history1)
  {
    EvictShifts(history, log.entries, log.evictedEvents, k, e);
    NumberedExtends(history, log.run, base, e);
  }

  lemma AppendRetains(log: Log, base: nat, history: seq<Envelope>, e: Envelope)
    requires Retains(log, base, history) && AppendOutcome(log, e) == Appended
    ensures Retains(AppendTo(log, e), base, history + [e])
  {
    EvictRetains(log, base, history, Evicted(log, e), e, history + [e], AppendTo(log, e));
  }

  lemma NewLogRetains(run: string, last: nat, limits: Limits)
    requires ValidLimits(limits) && last < MAX_UINT64
    ensures Retains(NewLogAfter(run, last, limits), last, [])
  {}

  /** Eviction is minimal: keeping one more old entry would break a bound of the append. */
  lemma EvictsFewest(log: Log, base: nat, history: seq<Envelope>, e: Envelope, j: nat)
    requires Retains(log, base, history) && AppendOutcome(log, e) == Appended
    requires j < Evicted(log, e)
    ensures |log.entries[j..] + [e]| > EventCap(log.limits, e.terminal)
         || Total(log.entries[j..] + [e]) > ByteCap(log.limits, e.terminal)
  {
    assert !Admits(log.entries, j, EventCap(log.limits, e.terminal), ByteCap(log.limits, e.terminal) - e.size);
    EvictShifts(log.entries, log.entries, 0, j, e);
  }

  /** Room for further events of a given number and size. */
  ghost predicate Room(log: Log, events: int, bytes: int) {
    |log.entries| + events <= log.limits.maxEvents && log.bytes + bytes <= log.limits.maxBytes
  }

  /** Every non-terminal append leaves the whole terminal reserve free. */
  lemma OrdinaryAppendSparesReserve(log: Log, base: nat, history: seq<Envelope>, e: Envelope)
    requires Retains(log, base, history) && AppendOutcome(log, e) == Appended && !e.terminal
    ensures Room(AppendTo(log, e), log.limits.reserveEvents, log.limits.reserveBytes)
  {
    assert Admits(log.entries, Evicted(log, e), EventCap(log.limits, false), ByteCap(log.limits, false) - e.size);
  }

  lemma FitsUnevicted(log: Log, e: Envelope)
    requires ValidLimits(log.limits) && AppendOutcome(log, e) == Appended && log.bytes == Total(log.entries)
    requires Admits(log.entries, 0, EventCap(log.limits, e.terminal), ByteCap(log.limits, e.terminal) - e.size)
    ensures AppendTo(log, e) == log.(entries := log.entries + [e], bytes := log.bytes + e.size, last := e.sequence)
  {
    assert log.entries[0..] == log.entries;
  }

  lemma TerminalFits(log: Log, base: nat, history: seq<Envelope>, e: Envelope)
    requires Retains(log, base, history) && !log.closed && e.terminal && e.run == log.run
    requires e.sequence == log.last + 1 <= MAX_UINT64
    requires Room(log, 1, e.size)
    ensures AppendTo(log, e) == log.(entries := log.entries + [e], bytes := log.bytes + e.size, last := log.last + 1)
    ensures Retains(AppendTo(log, e), base, history + [e])
  {
    FitsUnevicted(log, e);
    AppendRetains(log, base, history, e);
  }

  /** Append a batch of events from index `from` on. */
  function AppendAll(log: Log, batch: seq<Envelope>, from: nat): (r: Log)
    requires ValidLimits(log.limits) && from <= |batch|
    decreases |batch| - from
  {
    if from == |batch| then log else AppendAll(AppendTo(log, batch[from]), batch, from + 1)
  }

  /** Consecutive terminal events that fit the free reserve are all appended and evict nothing. */
  lemma {:induction false} TerminalReserve(log: Log, base: nat, history: seq<Envelope>, batch: seq<Envelope>, from: nat)
    requires Retains(log, base, history) && !log.closed && from <= |batch|
    requires log.last + |batch| - from <= MAX_UINT64
    requires forall i | from <= i < |batch| ::
               batch[i].terminal && batch[i].run == log.run && batch[i].sequence == log.last + 1 + i - from
    requires Room(log, |batch| - from, Bytes(batch, from, |batch|))
    ensures AppendAll(log, batch, from).entries == log.entries + batch[from..]
    ensures AppendAll(log, batch, from).evictedEvents == log.evictedEvents
    decreases |batch| - from
  {
    if from < |batch| {
      var e := batch[from];
      BytesSplit(batch, from, from + 1, |batch|);
      TerminalFits(log, base, history, e);
      TerminalReserve(AppendTo(log, e), base, history + [e], batch, from + 1);
    }
  }

  /** After any non-terminal append, the next terminal events evict nothing as long as they fit the reserve. */
  lemma {:induction false} ReserveIsKept(log: Log, base: nat, history: seq<Envelope>, e: Envelope, batch: seq<Envelope>)
    requires Retains(log, base, history) && AppendOutcome(log, e) == Appended && !e.terminal
    requires |batch| <= log.limits.reserveEvents && Bytes(batch, 0, |batch|) <= log.limits.reserveBytes
    requires log.last + 1 + |batch| <= MAX_UINT64
    requires forall i | 0 <= i < |batch| ::
               batch[i].terminal && batch[i].run == log.run && batch[i].sequence == log.last + 2 + i
    ensures var log1 := AppendTo(log, e);
            AppendAll(log1, batch, 0).entries == log1.entries + batch
            && AppendAll(log1, batch, 0).evictedEvents == log1.evictedEvents
  {
    var log1 := AppendTo(log, e);
    AppendRetains(log, base, history, e);
    OrdinaryAppendSparesReserve(log, base, history, e);
    assert batch[0..] == batch;
    TerminalReserve(log1, base, history + [e], batch, 0);
  }

  // ---------------------------------------------------------------------------
  // Replay pages
  // ---------------------------------------------------------------------------

  function Earliest(log: Log): (r: nat) {
    if log.entries == [] then
      if log.last == MAX_UINT64 then MAX_UINT64 else log.last + 1
    else log.entries[0].sequence
  }

  /** replayCursorOutside, with the uint64 wrap-around of latest + 1 written out. */
  predicate CursorOutside(after: nat, earliest: nat, latest: nat) {
    if earliest == (latest + 1) % (MAX_UINT64 + 1) then after != latest
    else after > latest || after < earliest - 1
  }

  /** How many events from index `from` on fit a count and a byte bound. */
  function Greedy(es: seq<Envelope>, from: nat, maxEvents: int, room: int): (n: nat)
    requires from <= |es| && maxEvents >= 0
    ensures from + n <= |es| && n <= maxEvents
    decreases |es| - from
  {
    if from == |es| || maxEvents == 0 || es[from].size > room then 0
    else 1 + Greedy(es, from + 1, maxEvents - 1, room - es[from].size)
  }

  /** The taken events fit the bounds, and no longer run does. */
  lemma {:induction false} GreedyIsLongest(es: seq<Envelope>, from: nat, maxEvents: int, room: int)
    requires from <= |es| && maxEvents >= 0 && room >= 0
    ensures var n := Greedy(es, from, maxEvents, room);
            && Bytes(es, from, from + n) <= room
            && (from + n < |es| && n < maxEvents ==> Bytes(es, from, from + n + 1) > room)
    decreases |es| - from
  {
    var n := Greedy(es, from, maxEvents, room);
    if n > 0 {
      GreedyIsLongest(es, from + 1, maxEvents - 1, room - es[from].size);
      BytesSplit(es, from, from + 1, from + n);
      if from + n < |es| { BytesSplit(es, from, from + 1, from + n + 1); }
    }
  }

  /** The index of the first entry after a cursor, at or after `from`. */
  function CursorIndex(es: seq<Envelope>, from: nat, cursor: nat): (i: nat)
    requires from <= |es|
    ensures from <= i <= |es|
    ensures forall j | from <= j < i :: es[j].sequence <= cursor
    ensures i < |es| ==> es[i].sequence > cursor
    decreases |es| - from
  {
    if from == |es| || es[from].sequence > cursor then from else CursorIndex(es, from + 1, cursor)
  }

  datatype ReplayResult =
    | OutOfRange(requested: nat, earliest: nat, latest: nat, recovery: nat)
    | ReplayExhausted(lastDelivered: nat, limit: int, observed: int)
    | NoProgress
    | Page(earliest: nat, latest: nat, pageLast: nat, events: seq<Envelope>, hasMore: bool)

  /** The page of the entries from index `cut` on, the first one after an accepted cursor. */
  function PageFrom(es: seq<Envelope>, cut: nat, earliest: nat, latest: nat, after: nat, maxEvents: int, maxBytes: int)
    : (r: ReplayResult)
    requires cut <= |es| && maxEvents >= 1 && maxBytes >= 1
  {
    var n := Greedy(es, cut, maxEvents, maxBytes);
    if n == 0 && cut < |es| then ReplayExhausted(after, maxBytes, es[cut].size)
    else
      var pageLast := if n == 0 then after else es[cut + n - 1].sequence;
      if pageLast < latest && n == 0 then NoProgress
      else Page(earliest, latest, pageLast, es[cut..cut + n], pageLast < latest)
  }

  function Replay(log: Log, after: nat, maxEvents: int, maxBytes: int): (r: ReplayResult)
    requires maxEvents >= 1 && maxBytes >= 1
  {
    var earliest := Earliest(log);
    if CursorOutside(after, earliest, log.last) then
      OutOfRange(after, earliest, log.last, if after < earliest then earliest - 1 else log.last)
    else PageFrom(log.entries, CursorIndex(log.entries, 0, after), earliest, log.last, after, maxEvents, maxBytes)
  }

  ghost predicate InRange(log: Log, after: nat) {
    !CursorOutside(after, Earliest(log), log.last)
  }

  lemma {:induction false} NumberedCut(es: seq<Envelope>, run: string, first: nat, from: nat, after: nat)
    requires Numbered(es, run, first) && first + from <= after <= first + |es|
    ensures CursorIndex(es, from, after) == after - first
    decreases |es| - from
  {
    if first + from < after { NumberedCut(es, run, first, from + 1, after); }
  }

  /** The retained entries are numbered after the evicted ones. */
  lemma EntriesNumbered(log: Log, base: nat, history: seq<Envelope>)
    requires Retains(log, base, history)
    ensures Numbered(log.entries, log.run, base + log.evictedEvents)
  {}

  /** An accepted cursor falls inside the retained suffix of the whole history. */
  lemma {:induction false} InRangeCut(log: Log, base: nat, history: seq<Envelope>, after: nat)
    requires Retains(log, base, history) && InRange(log, after)
    ensures base + log.evictedEvents <= after <= log.last
    ensures CursorIndex(log.entries, 0, after) == after - base - log.evictedEvents
  {
    EntriesNumbered(log, base, history);
    NumberedCut(log.entries, log.run, base + log.evictedEvents, 0, after);
  }

  /** A page is the longest run of retained events after the cursor that both bounds allow. */
  ghost predicate PageCorrect(history: seq<Envelope>, base: nat, after: nat, maxEvents: int, maxBytes: int,
                              r: ReplayResult) {
    && r.Page?
    && base <= after <= r.pageLast == after + |r.events| <= r.latest == base + |history|
    && IsSlice(r.events, history, after - base)
    && |r.events| <= maxEvents && Bytes(history, after - base, r.pageLast - base) <= maxBytes
    && r.hasMore == (r.pageLast < r.latest)
    && (r.hasMore ==> r.events != [])
    && (r.hasMore && |r.events| < maxEvents ==> Bytes(history, after - base, r.pageLast - base + 1) > maxBytes)
  }

  /** The request asks for an event that alone exceeds the byte bound. */
  ghost predicate TooLarge(history: seq<Envelope>, base: nat, after: nat, maxBytes: int, r: ReplayResult) {
    && r.ReplayExhausted? && r.lastDelivered == after && r.limit == maxBytes
    && base <= after < base + |history| && r.observed == history[after - base].size > maxBytes
  }

  /** What a greedy cut takes, in terms of the whole history. */
  lemma CutOfSlice(history: seq<Envelope>, es: seq<Envelope>, d: nat, cut: nat, n: nat, maxEvents: int, maxBytes: int)
    requires IsSlice(es, history, d) && cut <= |es| && maxEvents >= 1 && maxBytes >= 1
    requires n == Greedy(es, cut, maxEvents, maxBytes)
    ensures cut + n <= |es| && IsSlice(es[cut..cut + n], history, d + cut)
    ensures n <= maxEvents && Bytes(history, d + cut, d + cut + n) <= maxBytes
    ensures cut + n < |es| && n < maxEvents ==> Bytes(history, d + cut, d + cut + n + 1) > maxBytes
    ensures cut + n < |es| && n == 0 ==> history[d + cut].size > maxBytes
  {
    GreedyIsLongest(es, cut, maxEvents, maxBytes);
    BytesSlice(es, history, d, cut, cut + n);
    if cut + n < |es| { BytesSlice(es, history, d, cut, cut + n + 1); }
  }

  lemma PageFromSuffix(history: seq<Envelope>, es: seq<Envelope>, run: string, base: nat, d: nat, earliest: nat, after: nat,
                       maxEvents: int, maxBytes: int, r: ReplayResult)
    requires Numbered(es, run, base + d) && IsSlice(es, history, d) && d + |es| == |history|
    requires base + d <= after <= base + |history| && maxEvents >= 1 && maxBytes >= 1
    requires r == PageFrom(es, after - base - d, earliest, base + |history|, after, maxEvents, maxBytes)
    ensures PageCorrect(history, base, after, maxEvents, maxBytes, r) || TooLarge(history, base, after, maxBytes, r)
  {
    var cut := after - base - d;
    CutOfSlice(history, es, d, cut, Greedy(es, cut, maxEvents, maxBytes), maxEvents, maxBytes);
  }

  lemma {:induction false} ReplayOfSlice(log: Log, base: nat, history: seq<Envelope>, after: nat, maxEvents: int,
                                         maxBytes: int)
    requires Numbered(log.entries, log.run, base + log.evictedEvents)
    requires IsSlice(log.entries, history, log.evictedEvents) && log.evictedEvents + |log.entries| == |history|
    requires log.last == base + |history| && base + log.evictedEvents <= after <= log.last && InRange(log, after)
    requires maxEvents >= 1 && maxBytes >= 1 && CursorIndex(log.entries, 0, after) == after - base - log.evictedEvents
    ensures var r := Replay(log, after, maxEvents, maxBytes);
            PageCorrect(history, base, after, maxEvents, maxBytes, r) || TooLarge(history, base, after, maxBytes, r)
  {
    PageFromSuffix(history, log.entries, log.run, base, log.evictedEvents, Earliest(log), after, maxEvents, maxBytes,
                   Replay(log, after, maxEvents, maxBytes));
  }

  /** Replay of a retained log from an accepted cursor is a correct page, or is refused because
      the next event alone exceeds the byte bound; it never stalls without progress. */
  lemma ReplayCorrect(log: Log, base: nat, history: seq<Envelope>, after: nat, maxEvents: int, maxBytes: int)
    requires Retains(log, base, history) && InRange(log, after) && maxEvents >= 1 && maxBytes >= 1
    ensures var r := Replay(log, after, maxEvents, maxBytes);
            PageCorrect(history, base, after, maxEvents, maxBytes, r) || TooLarge(history, base, after, maxBytes, r)
  {
    InRangeCut(log, base, history, after);
    EntriesNumbered(log, base, history);
    ReplayOfSlice(log, base, history, after, maxEvents, maxBytes);
  }

  /** A cursor is rejected exactly when it is out of range, and then recovery names one that is not. */
  lemma RecoveryAccepted(log: Log, base: nat, history: seq<Envelope>, after: nat, maxEvents: int, maxBytes: int)
    requires Retains(log, base, history) && maxEvents >= 1 && maxBytes >= 1
    ensures var r := Replay(log, after, maxEvents, maxBytes);
            && (r.OutOfRange? <==> !InRange(log, after))
            && (r.OutOfRange? ==> InRange(log, r.recovery))
  {
    if log.entries != [] {
      assert log.entries[0] == history[log.evictedEvents + 0];
    }
  }

  // ---------------------------------------------------------------------------
  // Reading a whole log page by page
  // ---------------------------------------------------------------------------

  datatype Reading = Drained(events: seq<Envelope>) | Stuck(events: seq<Envelope>, cursor: nat)

  function Prefixed(page: seq<Envelope>, rest: Reading): (r: Reading) {
    rest.(events := page + rest.events)
  }

  function Halted(r: ReplayResult, after: nat): (o: Reading) {
    if r.Page? && !r.hasMore then Drained(r.events) else Stuck([], after)
  }

  /** Repeat replay from the last page's cursor until a page is final or is refused. */
  function ReadAll(replay: nat -> ReplayResult, latest: nat, after: nat): (r: Reading)
    decreases if latest >= after then latest - after else 0
  {
    var r := replay(after);
    if r.Page? && r.hasMore && after < r.pageLast <= latest then
      Prefixed(r.events, ReadAll(replay, latest, r.pageLast))
    else Halted(r, after)
  }

  /** A reader got exactly the events of history from index `from`: all of them, or all before
      the first one that no page can carry. */
  ghost predicate ReadsAll(history: seq<Envelope>, base: nat, from: nat, maxBytes: int, r: Reading) {
    && IsSlice(r.events, history, from)
    && (forall j | from <= j < from + |r.events| :: history[j].size <= maxBytes)
    && match r
       case Drained(events) => from + |events| == |history|
       case Stuck(events, cursor) =>
         from + |events| < |history| && history[from + |events|].size > maxBytes && cursor == base + from + |events|
  }

  lemma {:induction false} PartBytes(es: seq<Envelope>, lo: nat, i: nat, hi: nat)
    requires lo <= i < hi <= |es|
    ensures es[i].size <= Bytes(es, lo, hi)
  {
    BytesSplit(es, lo, i + 1, hi);
  }

  lemma {:induction false} ReadsPrefixed(history: seq<Envelope>, base: nat, from: nat, page: seq<Envelope>,
                                         maxBytes: int, rest: Reading)
    requires IsSlice(page, history, from) && Bytes(history, from, from + |page|) <= maxBytes
    requires ReadsAll(history, base, from + |page|, maxBytes, rest)
    ensures ReadsAll(history, base, from, maxBytes, Prefixed(page, rest))
  {
    forall j | from <= j < from + |page| ensures history[j].size <= maxBytes {
      PartBytes(history, from, j, from + |page|);
    }
    var all := page + rest.events;
    forall i | 0 <= i < |all| ensures all[i] == history[from + i] {
      if i >= |page| { assert rest.events[i - |page|] == history[from + |page| + (i - |page|)]; }
    }
  }

  /** An answer to a replay request that a reader can continue from. */
  ghost predicate Answers(history: seq<Envelope>, base: nat, after: nat, maxEvents: int, maxBytes: int, r: ReplayResult) {
    PageCorrect(history, base, after, maxEvents, maxBytes, r) || TooLarge(history, base, after, maxBytes, r)
  }

  lemma {:induction false} PagesCompose(history: seq<Envelope>, base: nat, after: nat, maxEvents: int, maxBytes: int,
                                        replay: nat -> ReplayResult)
    requires base <= after <= base + |history|
    requires forall c: nat :: after <= c <= base + |history| ==> Answers(history, base, c, maxEvents, maxBytes, replay(c))
    ensures ReadsAll(history, base, after - base, maxBytes, ReadAll(replay, base + |history|, after))
    decreases base + |history| - after
  {
    var r := replay(after);
    assert Answers(history, base, after, maxEvents, maxBytes, r);
    if r.Page? {
      if r.hasMore {
        PagesCompose(history, base, r.pageLast, maxEvents, maxBytes, replay);
        ReadsPrefixed(history, base, after - base, r.events, maxBytes, ReadAll(replay, base + |history|, r.pageLast));
      } else {
        ReadsPrefixed(history, base, after - base, r.events, maxBytes, Drained([]));
        assert r.events + [] == r.events;
      }
    }
  }

  function Replayer(log: Log, maxEvents: int, maxBytes: int): (r: nat -> ReplayResult)
    requires maxEvents >= 1 && maxBytes >= 1
  {
    (cursor: nat) => Replay(log, cursor, maxEvents, maxBytes)
  }

  lemma LaterInRange(log: Log, base: nat, history: seq<Envelope>, after: nat, later: nat)
    requires Retains(log, base, history) && InRange(log, after) && after <= later <= log.last
    ensures InRange(log, later)
  {
    if log.entries != [] {
      assert log.entries[0] == history[log.evictedEvents + 0];
    }
  }

  lemma RepliesAnswer(log: Log, base: nat, history: seq<Envelope>, after: nat, maxEvents: int, maxBytes: int)
    requires Retains(log, base, history) && InRange(log, after) && maxEvents >= 1 && maxBytes >= 1
    ensures forall c: nat :: after <= c <= base + |history| ==>
              Answers(history, base, c, maxEvents, maxBytes, Replayer(log, maxEvents, maxBytes)(c))
  {
    forall c: nat | after <= c <= base + |history|
      ensures Answers(history, base, c, maxEvents, maxBytes, Replayer(log, maxEvents, maxBytes)(c))
    {
      LaterInRange(log, base, history, after, c);
      ReplayCorrect(log, base, history, c, maxEvents, maxBytes);
    }
  }

  lemma {:induction false} PagesRead(log: Log, base: nat, history: seq<Envelope>, after: nat, maxEvents: int, maxBytes: int,
                                     replay: nat -> ReplayResult)
    requires log.last == base + |history| && base <= after <= log.last
    requires forall c: nat :: after <= c <= base + |history| ==> Answers(history, base, c, maxEvents, maxBytes, replay(c))
    ensures ReadsAll(history, base, after - base, maxBytes, ReadAll(replay, log.last, after))
  {
    PagesCompose(history, base, after, maxEvents, maxBytes, replay);
  }

  /** Paging terminates from any accepted cursor and returns the retained events after it, in
      order: all of them exactly when each fits the byte bound, and otherwise all before the
      first one that does not. */
  lemma {:induction false} PagingReadsAll(log: Log, base: nat, history: seq<Envelope>, after: nat, maxEvents: int,
                                          maxBytes: int)
    requires Retains(log, base, history) && InRange(log, after) && maxEvents >= 1 && maxBytes >= 1
    ensures base <= after
    ensures ReadsAll(history, base, after - base, maxBytes, ReadAll(Replayer(log, maxEvents, maxBytes), log.last, after))
  {
    var replay := Replayer(log, maxEvents, maxBytes);
    InRangeCut(log, base, history, after);
    RepliesAnswer(log, base, history, after, maxEvents, maxBytes);
    PagesRead(log, base, history, after, maxEvents, maxBytes, replay);
  }
}
