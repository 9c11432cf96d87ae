/** The replay page on the wire: the control record a server sends after a page, and the
    client that accepts both (client/stream.go, client/grpcclient/streams.go). */
module EventPages {
  import opened Basics
  import opened EventLog
  import opened EventDelivery

  /** One captured replay page and live-tail position. `ok` is false for an error control. */
  datatype Control = Control(ok: bool, earliest: nat, latest: nat, lastDelivered: nat, pageLast: nat,
                             hasPageLast: bool, hasMore: bool, tailing: bool)

  predicate ValidLegacy(c: Control)
    requires c.earliest > 0
  {
    !c.hasMore && !c.tailing && c.pageLast == 0 && c.earliest - 1 <= c.lastDelivered <= c.latest
  }

  predicate ValidCurrent(c: Control)
    requires c.earliest > 0
  {
    && c.earliest - 1 <= c.pageLast <= c.latest
    && c.earliest - 1 <= c.lastDelivered <= c.pageLast
    && c.hasMore == (c.pageLast < c.latest)
    && !(c.hasMore && c.tailing)
    && (c.tailing ==> c.pageLast == c.latest)
  }

  predicate ValidControl(c: Control) {
    && c.earliest > 0
    && (c.latest >= c.earliest || (c.latest < MAX_UINT64 && c.earliest == c.latest + 1))
    && (if c.hasPageLast then ValidCurrent(c) else ValidLegacy(c))
  }

  /** An event on the wire, with its transfer size, or a control record. */
  datatype Frame = EventFrame(run: string, sequence: nat, wireSize: nat) | ControlFrame(control: Control)

  function WireSize(f: Frame): (n: nat) {
    if f.EventFrame? then f.wireSize else 0
  }

  function WireBytes(wire: seq<Frame>, n: nat): (r: nat)
    requires n <= |wire|
  {
    if n == 0 then 0 else WireBytes(wire, n - 1) + WireSize(wire[n - 1])
  }

  /** What the client asked for, and the limits it negotiated. */
  datatype Request = Request(run: string, after: nat, replayLimit: nat, replayBytes: nat, tail: bool)

  // ---------------------------------------------------------------------------
  // The admissible frame lists
  // ---------------------------------------------------------------------------

  /** Frame `i` continues the cursor. */
  predicate Continues(q: Request, wire: seq<Frame>, i: nat)
    requires i < |wire|
  {
    wire[i].EventFrame? && wire[i].run == q.run && wire[i].sequence == q.after + 1 + i <= MAX_UINT64
  }

  /** The first `n` frames are events, contiguous from the cursor, within count and bytes. */
  predicate EventPrefix(q: Request, wire: seq<Frame>, n: nat) {
    && n <= |wire| && n <= q.replayLimit
    && WireBytes(wire, n) <= q.replayBytes
    && forall i | 0 <= i < n :: Continues(q, wire, i)
  }

  /** A control that closes a page of `n` events. */
  predicate Closes(q: Request, c: Control, n: nat) {
    && c.ok && ValidControl(c)
    && c.lastDelivered == q.after + n
    && (c.tailing ==> q.tail)
    && (c.hasPageLast ==> c.pageLast == q.after + n)
  }

  predicate Admissible(q: Request, wire: seq<Frame>, n: nat) {
    n < |wire| && EventPrefix(q, wire, n) && wire[n].ControlFrame? && Closes(q, wire[n].control, n)
  }

  lemma {:induction false} WireBytesMonotone(wire: seq<Frame>, m: nat, n: nat)
    requires m <= n <= |wire|
    ensures WireBytes(wire, m) <= WireBytes(wire, n)
    decreases n
  {
    if m < n { WireBytesMonotone(wire, m, n - 1); }
  }

  /** Every prefix of an event prefix is one. */
  lemma PrefixShrinks(q: Request, wire: seq<Frame>, m: nat, n: nat)
    requires EventPrefix(q, wire, n) && m <= n
    ensures EventPrefix(q, wire, m)
  {
    WireBytesMonotone(wire, m, n);
  }

  datatype Received = Accepted(events: nat) | ServerFailure | ProtocolError | Truncated

  /** The page receiver: a cursor, a byte count and the frames taken so far. */
  class PageReceiver {
    const request: Request
    var next: nat
    var replayBytes: nat
    var frames: seq<Frame>

    ghost predicate Valid()
      reads this
    {
      && next <= MAX_UINT64
      && next == request.after + |frames| && replayBytes == WireBytes(frames, |frames|)
      && EventPrefix(request, frames, |frames|)
    }

    constructor (request: Request)
      requires request.after <= MAX_UINT64
      ensures Valid() && this.request == request && frames == []
    {
      this.request := request;
      next, replayBytes, frames := request.after, 0, [];
    }

    /** Take one event, or refuse it and change nothing. */
    method AcceptEvent(f: Frame) returns (ok: bool)
      requires Valid() && f.EventFrame?
      modifies this
      ensures ok <==> EventPrefix(request, old(frames) + [f], |old(frames)| + 1)
      ensures ok ==> Valid() && frames == old(frames) + [f]
      ensures !ok ==> Valid() && frames == old(frames)
    {
      ghost var all := frames + [f];
      WireBytesExtends(frames, f, |frames|);
      assert forall i | 0 <= i < |frames| :: Continues(request, frames, i) ==> Continues(request, all, i);
      if |frames| >= request.replayLimit || next == MAX_UINT64 || f.run != request.run || f.sequence != next + 1 {
        assert !Continues(request, all, |frames|) || |frames| + 1 > request.replayLimit;
        return false;
      }
      if f.wireSize > request.replayBytes || replayBytes > request.replayBytes - f.wireSize {
        return false;
      }
      replayBytes := replayBytes + f.wireSize;
      frames := frames + [f];
      next := f.sequence;
      return true;
    }

    /** Close the page with a control, or refuse it. */
    method AcceptControl(c: Control) returns (r: Received)
      requires Valid()
      modifies this
      ensures !r.Truncated?
      ensures r.Accepted? <==> Closes(request, c, |old(frames)|)
      ensures r.Accepted? ==> r.events == |old(frames)| && frames == old(frames) + [ControlFrame(c)]
      ensures !r.Accepted? ==> frames == old(frames)
    {
      if !c.ok {
        return if frames != [] then ProtocolError else ServerFailure;
      }
      if c.lastDelivered != next || (c.tailing && !request.tail) {
        return ProtocolError;
      }
      if c.hasPageLast && c.pageLast != next {
        return ProtocolError;
      }
      if !ValidControl(c) {
        return ProtocolError;
      }
      var n := |frames|;
      frames := frames + [ControlFrame(c)];
      return Accepted(n);
    }
  }

  lemma {:induction false} WireBytesExtends(wire: seq<Frame>, f: Frame, n: nat)
    requires n <= |wire|
    ensures WireBytes(wire + [f], n) == WireBytes(wire, n)
  {
    if n > 0 { WireBytesExtends(wire, f, n - 1); }
  }

  lemma PrefixTransfers(q: Request, a: seq<Frame>, b: seq<Frame>, n: nat)
    requires n <= |a| && n <= |b| && a[..n] == b[..n] && EventPrefix(q, a, n)
    ensures EventPrefix(q, b, n)
  {
    WireBytesAgree(a, b, n, n);
    forall i | 0 <= i < n ensures Continues(q, b, i) {
      assert Continues(q, a, i) && a[..n][i] == b[..n][i];
    }
  }

  lemma {:induction false} WireBytesAgree(a: seq<Frame>, b: seq<Frame>, m: nat, n: nat)
    requires m <= n <= |a| && n <= |b| && a[..n] == b[..n]
    ensures WireBytes(a, m) == WireBytes(b, m)
    decreases m
  {
    if m > 0 {
      WireBytesAgree(a, b, m - 1, n);
      assert a[..n][m - 1] == b[..n][m - 1];
    }
  }

  /** The page loop accepts exactly the admissible frame lists: those that carry a contiguous run
      of events from the cursor and end in a control positioned at its last one. */
  method ReceivePage(q: Request, wire: seq<Frame>) returns (r: Received)
    requires q.after <= MAX_UINT64
    ensures r.Accepted? ==> Admissible(q, wire, r.events)
    ensures !r.Accepted? ==> forall n: nat :: !Admissible(q, wire, n)
  {
    var state := new PageReceiver(q);
    var i := 0;
    while i < |wire|
      invariant 0 <= i <= |wire| && state.Valid() && state.request == q && fresh(state)
      invariant state.frames == wire[..i]
      invariant forall j | 0 <= j < i :: wire[j].EventFrame?
    {
      var taken := wire[..i];
      if wire[i].EventFrame? {
        var ok := state.AcceptEvent(wire[i]);
        assert taken + [wire[i]] == wire[..i + 1];
        if !ok {
          NotAdmissible(q, wire, i);
          return ProtocolError;
        }
        i := i + 1;
      } else {
        r := state.AcceptControl(wire[i].control);
        ControlDecides(q, wire, i);
        return;
      }
    }
    return Truncated;
  }

  lemma NotAdmissible(q: Request, wire: seq<Frame>, i: nat)
    requires i < |wire| && (forall j | 0 <= j <= i :: wire[j].EventFrame?)
    requires !EventPrefix(q, wire[..i + 1], i + 1)
    ensures forall n: nat :: !Admissible(q, wire, n)
  {
    forall n: nat ensures !Admissible(q, wire, n) {
      if Admissible(q, wire, n) {
        PrefixShrinks(q, wire, i + 1, n);
        assert wire[..i + 1] == wire[..i + 1][..i + 1];
        PrefixTransfers(q, wire, wire[..i + 1], i + 1);
      }
    }
  }

  lemma ControlDecides(q: Request, wire: seq<Frame>, i: nat)
    requires i < |wire| && wire[i].ControlFrame? && EventPrefix(q, wire[..i], i)
    ensures forall n: nat :: Admissible(q, wire, n) <==> n == i && Closes(q, wire[i].control, i)
  {
    assert wire[..i][..i] == wire[..i];
    PrefixTransfers(q, wire[..i], wire, i);
    assert forall n | 0 <= n < i :: Continues(q, wire[..i], n) && wire[..i][n] == wire[n];
    assert forall n: nat | EventPrefix(q, wire, n) :: n > i ==> Continues(q, wire, i);
  }

  // ---------------------------------------------------------------------------
  // Server and client agree
  // ---------------------------------------------------------------------------

  /** The control a server sends after a page. */
  function PageControl(r: ReplayResult, tailing: bool): (c: Control)
    requires r.Page?
  {
    Control(true, r.earliest, r.latest, r.pageLast, r.pageLast, true, r.hasMore, tailing)
  }

  /** A page on the wire; `size` is the transfer size of an event. */
  function PageFrames(r: ReplayResult, tailing: bool, size: Envelope -> nat): (wire: seq<Frame>)
    requires r.Page?
  {
    seq(|r.events|, i requires 0 <= i < |r.events| => EventFrame(r.events[i].run, r.events[i].sequence, size(r.events[i])))
    + [ControlFrame(PageControl(r, tailing))]
  }

  /** The bounds of every page the log returns, empty windows included, form a valid control. */
  lemma PageControlValid(log: Log, base: nat, history: seq<Envelope>, after: nat, maxEvents: int, maxBytes: int,
                         tailing: bool)
    requires Retains(log, base, history) && InRange(log, after) && maxEvents >= 1 && maxBytes >= 1
    ensures var r := Replay(log, after, maxEvents, maxBytes);
            r.Page? && (tailing ==> !r.hasMore) ==> ValidControl(PageControl(r, tailing))
  {
    ReplayCorrect(log, base, history, after, maxEvents, maxBytes);
    if log.entries != [] {
      assert log.entries[0] == history[log.evictedEvents + 0];
    }
  }

  /** For every replay page the log returns, its events followed by its control pass the client,
      whatever the transfer sizes are as long as they fit the negotiated byte limit. */
  lemma ClientAcceptsPage(log: Log, base: nat, history: seq<Envelope>, q: Request, maxBytes: int, tailing: bool,
                          size: Envelope -> nat)
    requires Retains(log, base, history) && InRange(log, q.after) && q.replayLimit >= 1 && maxBytes >= 1
    requires q.run == log.run && (tailing ==> q.tail)
    requires var r := Replay(log, q.after, q.replayLimit, maxBytes);
             && r.Page? && (tailing ==> !r.hasMore)
             && WireBytes(PageFrames(r, tailing, size), |r.events|) <= q.replayBytes
    ensures var r := Replay(log, q.after, q.replayLimit, maxBytes);
            Admissible(q, PageFrames(r, tailing, size), |r.events|)
  {
    var r := Replay(log, q.after, q.replayLimit, maxBytes);
    ReplayCorrect(log, base, history, q.after, q.replayLimit, maxBytes);
    PageControlValid(log, base, history, q.after, q.replayLimit, maxBytes, tailing);
    PageAdmitted(history, log.run, base, q, maxBytes, r, tailing, size);
  }

  lemma PageAdmitted(history: seq<Envelope>, run: string, base: nat, q: Request, maxBytes: int, r: ReplayResult,
                     tailing: bool, size: Envelope -> nat)
    requires Numbered(history, run, base) && base + |history| <= MAX_UINT64 && q.run == run && (tailing ==> q.tail)
    requires PageCorrect(history, base, q.after, q.replayLimit, maxBytes, r) && ValidControl(PageControl(r, tailing))
    requires WireBytes(PageFrames(r, tailing, size), |r.events|) <= q.replayBytes
    ensures Admissible(q, PageFrames(r, tailing, size), |r.events|)
  {
    var wire := PageFrames(r, tailing, size);
    forall i | 0 <= i < |r.events| ensures Continues(q, wire, i) {
      assert r.events[i] == history[q.after - base + i];
    }
  }

  // ---------------------------------------------------------------------------
  // The tail
  // ---------------------------------------------------------------------------

  /** Frame `i` of a tail continues the last delivered sequence of the page's control. */
  predicate TailContinues(run: string, c: Control, wire: seq<Frame>, i: nat)
    requires i < |wire|
  {
    c.tailing && wire[i].EventFrame? && wire[i].run == run && wire[i].sequence == c.lastDelivered + 1 + i <= MAX_UINT64
  }

  datatype TailEnd = StreamEnded | TailFailure | TailProtocolError

  /** The tail loop hands over exactly the longest run of frames that continue the page, and ends with the first
      frame that does not: an error control is a failure of the server, everything else one of the protocol. */
  method ReceiveTail(run: string, c: Control, wire: seq<Frame>) returns (events: nat, end: TailEnd)
    requires c.lastDelivered <= MAX_UINT64
    ensures events <= |wire| && forall i | 0 <= i < events :: TailContinues(run, c, wire, i)
    ensures events < |wire| ==> !TailContinues(run, c, wire, events)
    ensures end.StreamEnded? <==> events == |wire|
    ensures end.TailFailure? <==> events < |wire| && c.tailing && wire[events].ControlFrame? && !wire[events].control.ok
  {
    var next := c.lastDelivered;
    events := 0;
    while events < |wire|
      invariant events <= |wire| && next == c.lastDelivered + events <= MAX_UINT64
      invariant forall i | 0 <= i < events :: TailContinues(run, c, wire, i)
    {
      var frame := wire[events];
      if !c.tailing { return events, TailProtocolError; }
      if frame.EventFrame? {
        if next == MAX_UINT64 || frame.run != run || frame.sequence != next + 1 { return events, TailProtocolError; }
        next := frame.sequence;
        events := events + 1;
      } else {
        return events, if frame.control.ok then TailProtocolError else TailFailure;
      }
    }
    return events, StreamEnded;
  }

  /** The events a subscription delivered after the first `k`, as the server sends them. */
  function TailFrames(t: Tail, k: nat, size: Envelope -> nat): (wire: seq<Frame>)
    requires k <= |t.received|
    ensures |wire| == |t.received| - k
  {
    seq(|t.received| - k, i requires 0 <= i < |t.received| - k =>
      EventFrame(t.received[k + i].run, t.received[k + i].sequence, size(t.received[k + i])))
  }

  /** Whatever a subscription delivers past a page passes the client's tail loop in full. */
  lemma ClientAcceptsTail(t: Tail, history: seq<Envelope>, run: string, base: nat, k: nat, c: Control,
                          size: Envelope -> nat)
    requires GapFree(t, history, base) && Numbered(history, run, base) && base + |history| <= MAX_UINT64
    requires k <= |t.received| && c.tailing && c.lastDelivered == t.cursor + k
    ensures forall i | 0 <= i < |TailFrames(t, k, size)| :: TailContinues(run, c, TailFrames(t, k, size), i)
  {
    var wire := TailFrames(t, k, size);
    forall i | 0 <= i < |wire| ensures TailContinues(run, c, wire, i) {
      assert t.received[k + i] == history[t.cursor - base + k + i];
    }
  }
}
