/** The loops that check a history: validateSnapshotHistory (agent/snapshot.go) and validateNewToolCalls
    (agent/agent.go). */
module HistoryCheck {
  import opened ToolHistory

  const MAX_SNAPSHOT_BYTES := 0x100_0000

  // ---------------------------------------------------------------------------
  // The snapshot history check
  // ---------------------------------------------------------------------------

  lemma {:induction false} TrailPush(h: seq<Message>, m: Message)
    ensures Trail(h + [m]) == Trail(h) + Marks(m)
    ensures HistoryBytes(h + [m]) == HistoryBytes(h) + MessageBytes(m)
  {
    assert (h + [m])[..|h|] == h;
  }

  /** What the scan of one message's parts has established: the open calls are the unanswered ones. */
  predicate Scanned(t: seq<Mark>, seen: set<string>, pending: map<string, string>) {
    && Paired(t)
    && seen == Calls(t).Keys
    && Answers(t) <= seen
    && pending.Keys == seen - Answers(t)
    && forall id | id in pending :: pending[id] == Calls(t)[id]
  }

  /** One part: accepted exactly if its mark may follow. */
  method ScanPart(role: Role, p: Part, seen: set<string>, pending: map<string, string>, ghost t: seq<Mark>)
    returns (ok: bool, seen1: set<string>, pending1: map<string, string>)
    requires Scanned(t, seen, pending)
    ensures ok <==> Paired(t + [MarkOf(role, p)])
    ensures ok ==> Scanned(t + [MarkOf(role, p)], seen1, pending1)
  {
    Push(t, MarkOf(role, p));
    seen1, pending1 := seen, pending;
    if p.ToolCall? {
      if !role.Assistant? || p.callId in seen {
        return false, seen1, pending1;
      }
      seen1 := seen + {p.callId};
      pending1 := pending[p.callId := p.name];
    } else if p.ToolResult? {
      if !role.Tool? || p.callId !in pending || pending[p.callId] != p.name {
        return false, seen1, pending1;
      }
      pending1 := pending - {p.callId};
    }
    ok := true;
  }

  /** The trail up to part `i` of a message, one part further. */
  lemma MarksNext(t: seq<Mark>, m: Message, i: nat)
    requires i < |m.parts|
    ensures t + Marks(m)[..i + 1] == (t + Marks(m)[..i]) + [MarkOf(m.role, m.parts[i])]
  {
  }

  lemma MarksEnds(t: seq<Mark>, m: Message)
    ensures t + Marks(m)[..0] == t && t + Marks(m)[..|m.parts|] == t + Marks(m)
  {
    assert Marks(m)[..|m.parts|] == Marks(m);
  }

  lemma {:induction false} PairedUpTo(t: seq<Mark>, m: Message, i: nat)
    requires i <= |m.parts| && Paired(t + Marks(m))
    ensures Paired(t + Marks(m)[..i])
  {
    assert t + Marks(m) == (t + Marks(m)[..i]) + Marks(m)[i..];
    PairedPrefix(t + Marks(m)[..i], Marks(m)[i..]);
  }

  /** The inner loop over one message. */
  method ScanMessage(m: Message, seen: set<string>, pending: map<string, string>, ghost t: seq<Mark>)
    returns (ok: bool, seen1: set<string>, pending1: map<string, string>)
    requires Scanned(t, seen, pending)
    ensures ok <==> Paired(t + Marks(m))
    ensures ok ==> Scanned(t + Marks(m), seen1, pending1)
  {
    seen1, pending1 := seen, pending;
    MarksEnds(t, m);
    for i := 0 to |m.parts|
      invariant Scanned(t + Marks(m)[..i], seen1, pending1)
    {
      MarksNext(t, m, i);
      ok, seen1, pending1 := ScanPart(m.role, m.parts[i], seen1, pending1, t + Marks(m)[..i]);
      if !ok {
        if Paired(t + Marks(m)) { PairedUpTo(t, m, i + 1); }
        return;
      }
    }
    ok := true;
  }

  ghost predicate Accepted(h: seq<Message>) {
    Sound(h) && HistoryBytes(h) <= MAX_SNAPSHOT_BYTES
  }

  function FirstIds(h: seq<Message>, n: nat): (s: set<string>)
    requires n <= |h|
  {
    if n == 0 then {} else FirstIds(h, n - 1) + {h[n - 1].id}
  }

  lemma {:induction false} FirstIdsAre(h: seq<Message>, n: nat, id: string)
    requires n <= |h|
    ensures id in FirstIds(h, n) <==> exists i :: 0 <= i < n && h[i].id == id
  {
    if n > 0 {
      FirstIdsAre(h, n - 1, id);
      assert h[n - 1].id == id ==> id in FirstIds(h, n);
    }
  }

  predicate ValidUpTo(h: seq<Message>, n: nat)
    requires n <= |h|
  {
    forall i | 0 <= i < n :: ValidMessage(h[i]) && h[i].id !in FirstIds(h, i)
  }

  lemma {:induction false} ValidUpToAll(h: seq<Message>)
    ensures ValidUpTo(h, |h|) <==> (forall i | 0 <= i < |h| :: ValidMessage(h[i])) && DistinctIds(h)
  {
    forall i, id | 0 <= i < |h| && id == h[i].id ensures id in FirstIds(h, i) <==> exists k :: 0 <= k < i && h[k].id == id {
      FirstIdsAre(h, i, id);
    }
    if ValidUpTo(h, |h|) {
      forall i, j | 0 <= i < j < |h| ensures h[i].id != h[j].id { FirstIdsAre(h, j, h[j].id); }
    }
  }

  lemma {:induction false} BytesNeeded(h: seq<Message>, rest: seq<Message>)
    ensures HistoryBytes(h) <= HistoryBytes(h + rest)
  {
    if rest == [] {
      assert h + rest == h;
    } else {
      var init, last := rest[..|rest| - 1], rest[|rest| - 1];
      assert h + rest == (h + init) + [last];
      TrailPush(h + init, last);
      BytesNeeded(h, init);
    }
  }

  lemma {:induction false} PairedEarlier(h: seq<Message>, rest: seq<Message>)
    requires Paired(Trail(h + rest))
    ensures Paired(Trail(h))
  {
    if rest == [] {
      assert h + rest == h;
    } else {
      var init, last := rest[..|rest| - 1], rest[|rest| - 1];
      assert h + rest == (h + init) + [last];
      TrailPush(h + init, last);
      PairedPrefix(Trail(h + init), Marks(last));
      PairedEarlier(h, init);
    }
  }

  /** Pairing and size of a whole history bound every prefix. */
  lemma {:induction false} NextNeeded(h: seq<Message>, m: Message, rest: seq<Message>)
    requires Paired(Trail(h + [m] + rest))
    ensures HistoryBytes(h) + MessageBytes(m) <= HistoryBytes(h + [m] + rest)
    ensures Paired(Trail(h) + Marks(m))
  {
    TrailPush(h, m);
    BytesNeeded(h + [m], rest);
    PairedEarlier(h + [m], rest);
  }

  lemma {:induction false} Split<T>(s: seq<T>, n: nat)
    requires n < |s|
    ensures s[..n] + [s[n]] + s[n + 1..] == s
  {
  }

  /** An accepted history has each message valid and new, each prefix small and paired. */
  lemma {:induction false} AcceptedUpTo(h: seq<Message>, n: nat)
    requires Accepted(h) && n < |h|
    ensures ValidMessage(h[n]) && h[n].id !in FirstIds(h, n)
    ensures HistoryBytes(h[..n]) + MessageBytes(h[n]) <= MAX_SNAPSHOT_BYTES
    ensures Paired(Trail(h[..n]) + Marks(h[n]))
  {
    ValidUpToAll(h);
    Split(h, n);
    NextNeeded(h[..n], h[n], h[n + 1..]);
  }

  /** What one turn of the loop over messages adds. */
  lemma {:induction false} NextChecked(h: seq<Message>, n: nat, total: nat, seen: set<string>, pending: map<string, string>)
    requires n < |h| && ValidUpTo(h, n) && ValidMessage(h[n]) && h[n].id !in FirstIds(h, n)
    requires total == HistoryBytes(h[..n]) + MessageBytes(h[n]) && Scanned(Trail(h[..n]) + Marks(h[n]), seen, pending)
    ensures ValidUpTo(h, n + 1) && FirstIds(h, n + 1) == FirstIds(h, n) + {h[n].id}
    ensures total == HistoryBytes(h[..n + 1]) && Scanned(Trail(h[..n + 1]), seen, pending)
  {
    ValidNext(h, n);
    TrailNext(h, n);
  }

  lemma {:induction false} ValidNext(h: seq<Message>, n: nat)
    requires n < |h| && ValidUpTo(h, n) && ValidMessage(h[n]) && h[n].id !in FirstIds(h, n)
    ensures ValidUpTo(h, n + 1)
  {
  }

  lemma {:induction false} TakeNext<T>(s: seq<T>, n: nat)
    requires n < |s|
    ensures s[..n + 1] == s[..n] + [s[n]]
  {
  }

  lemma {:induction false} TrailNext(h: seq<Message>, n: nat)
    requires n < |h|
    ensures Trail(h[..n + 1]) == Trail(h[..n]) + Marks(h[n])
    ensures HistoryBytes(h[..n + 1]) == HistoryBytes(h[..n]) + MessageBytes(h[n])
  {
    TakeNext(h, n);
    TrailPush(h[..n], h[n]);
  }

  lemma {:induction false} AcceptedWhole(h: seq<Message>, seen: set<string>, pending: map<string, string>)
    requires h != [] && h[0].role.User? && ValidUpTo(h, |h|) && HistoryBytes(h) <= MAX_SNAPSHOT_BYTES
    requires Scanned(Trail(h), seen, pending)
    ensures pending == map[] <==> Accepted(h)
  {
    ValidUpToAll(h);
    assert pending == map[] <==> pending.Keys == {};
  }

  /** The whole check accepts exactly the sound histories within the size cap. */
  method ValidateHistory(h: seq<Message>) returns (ok: bool)
    requires h != []
    ensures ok <==> Sound(h) && HistoryBytes(h) <= MAX_SNAPSHOT_BYTES
  {
    if !h[0].role.User? { return false; }
    var ids, seen, pending, total := {}, {}, map[], 0;
    for n := 0 to |h|
      invariant ValidUpTo(h, n)
      invariant ids == FirstIds(h, n)
      invariant total == HistoryBytes(h[..n]) <= MAX_SNAPSHOT_BYTES
      invariant Scanned(Trail(h[..n]), seen, pending)
    {
      var m := h[n];
      if Accepted(h) { AcceptedUpTo(h, n); }
      if !ValidMessage(m) || m.id in ids { return false; }
      ids := ids + {m.id};
      total := total + MessageBytes(m);
      if total > MAX_SNAPSHOT_BYTES { return false; }
      var fine;
      fine, seen, pending := ScanMessage(m, seen, pending, Trail(h[..n]));
      if !fine { return false; }
      NextChecked(h, n, total, seen, pending);
    }
    assert h[..|h|] == h;
    AcceptedWhole(h, seen, pending);
    ok := pending == map[];
  }

  // ---------------------------------------------------------------------------
  // New tool calls
  // ---------------------------------------------------------------------------

  datatype Call = Call(id: string, name: string, arguments: Json)

  predicate DistinctCalls(calls: seq<Call>) {
    forall i, j | 0 <= i < j < |calls| :: calls[i].id != calls[j].id
  }

  /** No call identity was used before in the history or earlier in the list. */
  predicate NewCalls(h: seq<Message>, calls: seq<Call>) {
    DistinctCalls(calls) && forall i | 0 <= i < |calls| :: calls[i].id !in Calls(Trail(h))
  }

  method CollectCalls(m: Message, seen: set<string>, ghost t: seq<Mark>) returns (seen1: set<string>)
    requires seen == Calls(t).Keys
    ensures seen1 == Calls(t + Marks(m)).Keys
  {
    seen1 := seen;
    MarksEnds(t, m);
    for i := 0 to |m.parts|
      invariant seen1 == Calls(t + Marks(m)[..i]).Keys
    {
      MarksNext(t, m, i);
      Push(t + Marks(m)[..i], MarkOf(m.role, m.parts[i]));
      if m.parts[i].ToolCall? { seen1 := seen1 + {m.parts[i].callId}; }
    }
  }

  /** The loop over the new calls. */
  method AreNew(calls: seq<Call>, known: set<string>) returns (ok: bool)
    ensures ok <==> DistinctCalls(calls) && forall i | 0 <= i < |calls| :: calls[i].id !in known
  {
    var seen := known;
    for k := 0 to |calls|
      invariant forall i, j | 0 <= i < j < k :: calls[i].id != calls[j].id
      invariant forall i | 0 <= i < k :: calls[i].id !in known
      invariant seen == known + set i | 0 <= i < k :: calls[i].id
    {
      if calls[k].id in seen { return false; }
      seen := seen + {calls[k].id};
    }
    ok := true;
  }

  method ValidateNewToolCalls(h: seq<Message>, calls: seq<Call>) returns (ok: bool)
    ensures ok <==> NewCalls(h, calls)
  {
    var seen := {};
    for n := 0 to |h|
      invariant seen == Calls(Trail(h[..n])).Keys
    {
      TrailNext(h, n);
      seen := CollectCalls(h[n], seen, Trail(h[..n]));
    }
    assert h[..|h|] == h;
    ok := AreNew(calls, seen);
  }
}
