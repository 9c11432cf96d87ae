/** The client-partitioned interaction hub (daemon/pending.go) as a state machine: run leases, pending
    calls and their results, and every partition under one set of global bounds. */
module PendingHub {
  import opened Basics
  import opened PendingFeed
  import opened PendingPartition

  datatype Result = Answered(response: string) | ContextEnded | HubWasClosed

  /** The current binding of a run, as the `runs` table holds it. */
  datatype Lease = Lease(binding: nat, client: string)

  /** A run binding; `releases` counts how often its released channel was closed. */
  datatype Binding = Binding(client: string, run: string, accepting: bool, active: int, releases: nat)

  /** A pending call; `closes` counts how often its done channel was closed, and `returned` is what
      its requester got. */
  datatype Call = Call(value: Pending, client: string, binding: nat, result: Option<Result>, closes: nat,
                       returned: Option<Result>)

  /** `closers` are the calls whose finisher still has to close the done channel. */
  datatype Hub = Hub(limits: Limits, closed: bool, total: Usage, partitions: map<string, Partition>,
                     runs: map<string, Lease>, bindings: seq<Binding>, calls: seq<Call>, closers: multiset<nat>)

  function NewHub(l: Limits): (h: Hub) {
    Hub(l, false, ZERO, map[], map[], [], [], multiset{})
  }

  // ---------------------------------------------------------------------------
  // Steps
  // ---------------------------------------------------------------------------

  /** Replace one partition; the hub's counters move by the difference of its charge. */
  function SetPartition(h: Hub, c: string, p: Partition): (r: Hub)
    requires c in h.partitions
  {
    h.(partitions := h.partitions[c := p], total := Plus(Minus(h.total, h.partitions[c].own), p.own))
  }

  /** Find or create a client's partition, within the client bound. */
  function EnsurePartition(h: Hub, c: string): (r: Hub) {
    if c in h.partitions || |h.partitions| >= h.limits.clients then h
    else h.(partitions := h.partitions[c := EMPTY_PARTITION])
  }

  datatype BindOutcome = Bound(binding: nat) | BindClosed | AlreadyBound | BindCapacity

  function BindOutcomeOf(h: Hub, c: string, run: string): (r: BindOutcome) {
    if h.closed then BindClosed
    else if run in h.runs then AlreadyBound
    else if |h.runs| >= h.limits.runs then BindCapacity
    else if c !in h.partitions && |h.partitions| >= h.limits.clients then BindCapacity
    else if c in h.partitions && h.partitions[c].boundRuns >= h.limits.runsPerClient then BindCapacity
    else Bound(|h.bindings|)
  }

  /** Lease a run to a client whose partition exists. */
  function Lend(h: Hub, c: string, run: string): (r: Hub)
    requires c in h.partitions
  {
    var p := h.partitions[c];
    h.(partitions := h.partitions[c := p.(boundRuns := p.boundRuns + 1)],
       runs := h.runs[run := Lease(|h.bindings|, c)], bindings := h.bindings + [Binding(c, run, true, 0, 0)])
  }

  function BindRun(h: Hub, c: string, run: string): (r: Hub) {
    var h1 := EnsurePartition(h, c);
    if BindOutcomeOf(h, c, run).Bound? && c in h1.partitions then Lend(h1, c, run) else h
  }

  predicate HasCapacity(l: Limits, total: Usage, p: Partition, size: nat) {
    && total.pending.count < l.pending && |p.pending| < l.pendingPerClient
    && size <= l.pendingBytes && total.pending.bytes <= l.pendingBytes - size
    && size <= l.pendingBytesPerClient && p.own.pending.bytes <= l.pendingBytesPerClient - size
  }

  datatype RequestOutcome = Accepted(call: nat) | RequestClosed | NotBound | AlreadyPending | PendingCapacity

  function RequestOutcomeOf(h: Hub, v: Pending): (r: RequestOutcome) {
    if h.closed then RequestClosed
    else if v.run !in h.runs || h.runs[v.run].binding >= |h.bindings| || !h.bindings[h.runs[v.run].binding].accepting then
      NotBound
    else if h.runs[v.run].client !in h.partitions then NotBound
    else
      var p := h.partitions[h.runs[v.run].client];
      if KeyOf(v) in p.pending then AlreadyPending
      else if !HasCapacity(h.limits, h.total, p, ValueBytes(v)) then PendingCapacity
      else if p.revision > MAX_UINT64 - (|p.pending| + 2) then PendingCapacity
      else Accepted(|h.calls|)
  }

  /** Publish a call and start waiting for its result. */
  function OpenCall(h: Hub, v: Pending, lease: Lease): (r: Hub)
    requires lease.client in h.partitions && lease.binding < |h.bindings|
  {
    var b, c := lease.binding, lease.client;
    SetPartition(h, c, OpenEntry(h.limits, h.partitions[c], Entry(|h.calls|, b, v)))
    .(calls := h.calls + [Call(v, c, b, None, 0, None)],
      bindings := h.bindings[b := h.bindings[b].(active := h.bindings[b].active + 1)])
  }

  function Request(h: Hub, v: Pending): (r: Hub) {
    if RequestOutcomeOf(h, v).Accepted? then OpenCall(h, v, h.runs[v.run]) else h
  }

  /** A call is pending under this client and key. */
  predicate Open(h: Hub, c: string, k: Key) {
    && c in h.partitions && k in h.partitions[c].pending
    && h.partitions[c].pending[k].call < |h.calls| && h.partitions[c].pending[k].binding < |h.bindings|
  }

  /** Record a call's result and publish that it closed. */
  function CloseCall(h: Hub, c: string, k: Key, result: Result): (r: Hub)
    requires Open(h, c, k)
  {
    var e := h.partitions[c].pending[k];
    SetPartition(h, c, CloseEntry(h.limits, h.partitions[c], k))
    .(calls := h.calls[e.call := h.calls[e.call].(result := Some(result))],
      bindings := h.bindings[e.binding := h.bindings[e.binding].(active := h.bindings[e.binding].active - 1)],
      closers := h.closers + multiset{e.call})
  }

  predicate Removable(h: Hub, b: nat) {
    && b < |h.bindings| && !h.bindings[b].accepting && h.bindings[b].active == 0
    && h.bindings[b].run in h.runs && h.runs[h.bindings[b].run].binding == b
  }

  /** Drop a released binding once nothing is active under it, and signal its release. */
  function RemoveReleased(h: Hub, b: nat): (r: Hub) {
    if !Removable(h, b) then h else
      var x := h.bindings[b];
      h.(runs := h.runs - {x.run}, bindings := h.bindings[b := x.(releases := x.releases + 1)],
         partitions := if x.client !in h.partitions then h.partitions
                       else h.partitions[x.client := h.partitions[x.client].(boundRuns := h.partitions[x.client].boundRuns - 1)])
  }

  function FinishCall(h: Hub, c: string, k: Key, result: Result): (r: Hub)
    requires Open(h, c, k)
  {
    RemoveReleased(CloseCall(h, c, k, result), h.partitions[c].pending[k].binding)
  }

  datatype RespondOutcome = Responded | RespondClosed | RespondNotBound | NotPending

  function RespondOutcomeOf(h: Hub, client: string, k: Key): (r: RespondOutcome) {
    if h.closed then RespondClosed
    else if k.run !in h.runs || h.runs[k.run].client != client || client !in h.partitions then RespondNotBound
    else if !Open(h, client, k) then NotPending
    else Responded
  }

  function Respond(h: Hub, client: string, k: Key, response: string): (r: Hub) {
    if RespondOutcomeOf(h, client, k).Responded? then FinishCall(h, client, k, Answered(response)) else h
  }

  /** The call is still the one pending under its key. */
  predicate StillPending(h: Hub, id: nat) {
    && id < |h.calls| && Open(h, h.calls[id].client, KeyOf(h.calls[id].value))
    && h.partitions[h.calls[id].client].pending[KeyOf(h.calls[id].value)].call == id
  }

  /** The requester's context ended: complete the call unless something else already did. */
  function Cancel(h: Hub, id: nat): (r: Hub) {
    if StillPending(h, id) then FinishCall(h, h.calls[id].client, KeyOf(h.calls[id].value), ContextEnded) else h
  }

  function StopAccepting(h: Hub, b: nat): (r: Hub) {
    if b < |h.bindings| then h.(bindings := h.bindings[b := h.bindings[b].(accepting := false)]) else h
  }

  function Release(h: Hub, b: nat): (r: Hub) {
    RemoveReleased(StopAccepting(h, b), b)
  }

  /** A finisher closes the done channel of the call it finished. */
  function CloseDone(h: Hub, id: nat): (r: Hub) {
    if id in h.closers && id < |h.calls| then
      h.(closers := h.closers - multiset{id}, calls := h.calls[id := h.calls[id].(closes := h.calls[id].closes + 1)])
    else h
  }

  /** The requester wakes on the done channel and returns the recorded result. */
  function Return(h: Hub, id: nat): (r: Hub) {
    if id < |h.calls| && h.calls[id].closes > 0 && h.calls[id].returned.None? then
      h.(calls := h.calls[id := h.calls[id].(returned := h.calls[id].result)])
    else h
  }

  function SetWatchers(h: Hub, c: string, ws: seq<Watcher>): (r: Hub)
    requires c in h.partitions
  {
    SetPartition(h, c, WithWatchers(h.limits, h.partitions[c], ws))
  }

  datatype SubscribeOutcome = Subscribed(watcher: nat) | SubscribeClosed | ObserverCapacity

  /** Whether an observer is admitted to an existing partition. */
  predicate AdmitsObserver(l: Limits, total: Usage, p: Partition) {
    && total.observers < l.observers && p.own.observers < l.observersPerClient
    && |p.watchers| < MAX_UINT64
    && total.reserved.count <= l.reservedEntries - l.queueEntries
    && p.own.reserved.count <= l.reservedEntriesPerClient - l.queueEntries
    && total.reserved.bytes <= l.reservedBytes - l.queueBytes
    && p.own.reserved.bytes <= l.reservedBytesPerClient - l.queueBytes
  }

  function SubscribeOutcomeOf(h: Hub, c: string): (r: SubscribeOutcome) {
    var h1 := EnsurePartition(h, c);
    if h.closed then SubscribeClosed
    else if c !in h1.partitions || !AdmitsObserver(h.limits, h1.total, h1.partitions[c]) then ObserverCapacity
    else Subscribed(|h1.partitions[c].watchers|)
  }

  /** Capture the complete pending set and register a tail at exactly that revision. */
  function Observe(p: Partition): (ws: seq<Watcher>) {
    p.watchers + [NewWatcher(p.revision, Values(p.pending))]
  }

  function Subscribe(h: Hub, c: string): (r: Hub) {
    var h1 := EnsurePartition(h, c);
    if h.closed then h
    else if SubscribeOutcomeOf(h, c).Subscribed? then SetWatchers(h1, c, Observe(h1.partitions[c]))
    else h1
  }

  function Deliver(h: Hub, c: string, i: nat, m: Move): (r: Hub) {
    if c in h.partitions && i < |h.partitions[c].watchers| then
      var ws := h.partitions[c].watchers;
      SetWatchers(h, c, ws[i := Advance(ws[i], m)])
    else h
  }

  /** The subscriber's context ended. */
  function Detach(h: Hub, c: string, i: nat): (r: Hub) {
    if c in h.partitions && i < |h.partitions[c].watchers| then
      var ws := h.partitions[c].watchers;
      SetWatchers(h, c, ws[i := Finish(ws[i], Cancelled)])
    else h
  }

  function EndWatchers(h: Hub, c: string, reason: Reason): (r: Hub) {
    if c in h.partitions then SetWatchers(h, c, EndEach(h.partitions[c].watchers, reason)) else h
  }

  function FenceObservers(h: Hub, c: string): (r: Hub) {
    if h.closed then h else EndWatchers(h, c, Fenced)
  }

  function FinishOne(h: Hub, place: (string, Key)): (r: Hub) {
    if Open(h, place.0, place.1) then FinishCall(h, place.0, place.1, HubWasClosed) else h
  }

  function FinishAll(h: Hub, order: seq<(string, Key)>, n: nat): (r: Hub)
    requires n <= |order|
  {
    if n == 0 then h else FinishOne(FinishAll(h, order, n - 1), order[n - 1])
  }

  function RemoveAll(h: Hub, n: nat): (r: Hub) {
    if n == 0 then h else RemoveReleased(RemoveAll(h, n - 1), n - 1)
  }

  function EndAll(h: Hub, clients: seq<string>, n: nat): (r: Hub)
    requires n <= |clients|
  {
    if n == 0 then h else EndWatchers(EndAll(h, clients, n - 1), clients[n - 1], HubClosed)
  }

  function StopEach(bindings: seq<Binding>): (r: seq<Binding>)
    ensures |r| == |bindings| && forall i | 0 <= i < |r| :: r[i] == bindings[i].(accepting := false)
  {
    seq(|bindings|, i requires 0 <= i < |bindings| => bindings[i].(accepting := false))
  }

  function Shut(h: Hub): (r: Hub) {
    h.(closed := true, bindings := StopEach(h.bindings))
  }

  /** `order` lists the pending calls and `clients` the partitions. */
  predicate Lists(h: Hub, order: seq<(string, Key)>, clients: seq<string>) {
    && (forall c, k | c in h.partitions && k in h.partitions[c].pending :: (c, k) in order)
    && (forall c | c in h.partitions :: c in clients)
  }

  /** Close: stop admission, fail every pending call, release every binding, end every observer. */
  function Close(h: Hub, order: seq<(string, Key)>, clients: seq<string>): (r: Hub) {
    if h.closed || !Lists(h, order, clients) then h else
      var h1 := FinishAll(Shut(h), order, |order|);
      EndAll(RemoveAll(h1, |h1.bindings|), clients, |clients|)
  }

  datatype Step =
    | DoBindRun(client: string, run: string)
    | DoRequest(value: Pending)
    | DoRespond(client: string, key: Key, response: string)
    | DoCancel(call: nat)
    | DoRelease(binding: nat)
    | DoCloseDone(call: nat)
    | DoReturn(call: nat)
    | DoSubscribe(client: string)
    | DoDeliver(client: string, watcher: nat, move: Move)
    | DoDetach(client: string, watcher: nat)
    | DoFence(client: string)
    | DoClose(order: seq<(string, Key)>, clients: seq<string>)

  predicate OfObservers(s: Step) {
    s.DoSubscribe? || s.DoDeliver? || s.DoDetach? || s.DoFence?
  }

  /** The steps of bindings and calls. */
  function CallStep(h: Hub, s: Step): (r: Hub) {
    match s
    case DoBindRun(c, run) => BindRun(h, c, run)
    case DoRequest(v) => Request(h, v)
    case DoRespond(c, k, response) => Respond(h, c, k, response)
    case DoCancel(id) => Cancel(h, id)
    case DoRelease(b) => Release(h, b)
    case DoCloseDone(id) => CloseDone(h, id)
    case DoReturn(id) => Return(h, id)
    case _ => h
  }

  function ObserverStep(h: Hub, s: Step): (r: Hub) {
    match s
    case DoSubscribe(c) => Subscribe(h, c)
    case DoDeliver(c, i, m) => Deliver(h, c, i, m)
    case DoDetach(c, i) => Detach(h, c, i)
    case DoFence(c) => FenceObservers(h, c)
    case _ => h
  }

  function Apply(h: Hub, s: Step): (r: Hub) {
    if s.DoClose? then Close(h, s.order, s.clients)
    else if OfObservers(s) then ObserverStep(h, s)
    else CallStep(h, s)
  }

  function Exec(h: Hub, steps: seq<Step>): (r: Hub) {
    if steps == [] then h else Apply(Exec(h, steps[..|steps| - 1]), steps[|steps| - 1])
  }
}
