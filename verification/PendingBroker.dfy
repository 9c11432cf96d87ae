/** The interaction hub as the daemon runs it (daemon/pending.go): counters and maps changed in place
    under one lock, proved to take exactly the steps of the state machine. */
module PendingBroker {
  import opened Basics
  import opened PendingFeed
  import opened PendingPartition
  import opened PendingHub
  import opened PendingSafety
  import opened PendingRouting
  import opened PendingTheorems
  import opened PendingIsolation
  import opened PendingStore

  class Broker {
    const limits: SoundLimits
    var closed: bool
    var total: Usage
    var partitions: map<string, Partition>
    var runs: map<string, Lease>
    var bindings: seq<Binding>
    var calls: seq<Call>
    var closers: multiset<nat>

    function View(): (h: Hub)
      reads this
    {
      Hub(limits, closed, total, partitions, runs, bindings, calls, closers)
    }

    ghost predicate Valid()
      reads this
    {
      Reached(View())
    }

    constructor (limits: SoundLimits)
      ensures Valid() && View() == NewHub(limits)
    {
      this.limits := limits;
      closed, total := false, ZERO;
      partitions, runs, bindings, calls, closers := map[], map[], [], [], multiset{};
      new;
      NewReached(limits);
    }

    /** End a watcher and return its charge and reservation at once. */
    method FinishWatcher(c: string, i: nat, reason: Reason)
      requires c in partitions && i < |partitions[c].watchers|
      modifies `partitions, `total
      ensures View() == SetWatchers(old(View()), c,
                                    old(partitions[c].watchers)[i := PendingFeed.Finish(old(partitions[c].watchers[i]), reason)])
    {
      var p := partitions[c];
      var w := p.watchers[i];
      FinishView(View(), c, i, reason);
      if !w.stop.Live? {
        return;
      }
      var ended := w.(stop := Ended(reason), queuedCount := 0, queuedBytes := 0);
      partitions := partitions[c := p.(watchers := p.watchers[i := ended], own := Uncharge(limits, p.own, w))];
      total := Uncharge(limits, total, w);
    }

    /** Try to queue a delta for one watcher; a refusal names the bound and changes nothing. */
    method Enqueue(c: string, i: nat, d: Delta) returns (refused: Stop)
      requires c in partitions && i < |partitions[c].watchers|
      modifies `partitions, `total
      ensures var w := old(partitions[c].watchers[i]);
              refused == if w.stop.Live? then FullRefusal(limits, old(total), old(partitions[c].own), w, d) else Live
      ensures refused.Ended? ==> View() == old(View())
      ensures refused.Live? ==>
                var w := old(partitions[c].watchers[i]);
                var queued := if w.stop.Live? then Pushed(w, d) else w;
                View() == SetWatchers(old(View()), c, old(partitions[c].watchers)[i := queued])
    {
      var p := partitions[c];
      var w := p.watchers[i];
      if !w.stop.Live? {
        SetWatchersSame(View(), c);
        assert p.watchers[i := w] == p.watchers;
        return Live;
      }
      if w.queuedCount >= limits.queueEntries {
        return Ended(QueueEntries(w.queuedCount + 1));
      }
      var size := DeltaBytes(d);
      if size > limits.queueBytes || w.queuedBytes > limits.queueBytes - size {
        return Ended(QueueBytes(w.queuedBytes + size));
      }
      if total.queued.count >= limits.queuedEntries {
        return Ended(HubEntries(total.queued.count + 1));
      }
      if p.own.queued.count >= limits.queuedEntriesPerClient {
        return Ended(ClientEntries(p.own.queued.count + 1));
      }
      if size > limits.queuedBytes || total.queued.bytes > limits.queuedBytes - size {
        return Ended(HubBytes(total.queued.bytes + size));
      }
      if size > limits.queuedBytesPerClient || p.own.queued.bytes > limits.queuedBytesPerClient - size {
        return Ended(ClientBytes(p.own.queued.bytes + size));
      }
      if |w.queue| >= limits.queueEntries {
        return Ended(QueueEntries(|w.queue| + 1));
      }
      PushView(View(), c, i, d);
      partitions := partitions[c := p.(watchers := p.watchers[i := Pushed(w, d)], own := ChargeOne(p.own, size))];
      total := ChargeOne(total, size);
      return Live;
    }

    /** Offer a delta to one watcher and end it if it is refused. */
    method OfferOne(c: string, i: nat, d: Delta)
      requires Balanced(MeterOf(View()))
      requires c in partitions && i < |partitions[c].watchers|
      modifies `partitions, `total
      ensures View() == SetWatchers(old(View()), c,
                                    old(partitions[c].watchers)[i := Offer(CapsOf(limits), old(partitions[c].watchers[i]), d)])
    {
      if partitions[c].watchers[i].stop.Live? { BalancedRefusal(View(), c, i, d); }
      var refused := Enqueue(c, i, d);
      if refused.Ended? {
        FinishWatcher(c, i, refused.reason);
      }
    }

    /** Publish one delta to every watcher in turn, ending those that refuse it. */
    method Publish(c: string, kind: Kind, value: Pending)
      requires c in partitions && Balanced(MeterOf(View()))
      modifies `partitions, `total
      ensures View() == SetPartition(old(View()), c, Published(limits, old(partitions[c]), kind, value))
    {
      ghost var before := View();
      var ws := partitions[c].watchers;
      var d := Delta(partitions[c].revision + 1, kind, value);
      Append(c, d);
      ghost var logged := View();
      OfferAll(c, ws, d);
      PublishView(before, c, kind, value, d, ws, logged, View());
    }

    method Append(c: string, d: Delta)
      requires c in partitions && Balanced(MeterOf(View()))
      modifies `partitions
      ensures c in partitions && partitions[c].watchers == old(partitions[c].watchers)
      ensures Balanced(MeterOf(View()))
      ensures View() == old(View()).(partitions := old(partitions)[c := Logged(old(partitions[c]), d)])
    {
      BalancedAfterLog(View(), c, d, View().(partitions := partitions[c := Logged(partitions[c], d)]));
      partitions := partitions[c := Logged(partitions[c], d)];
    }

    method OfferAll(c: string, ws: seq<Watcher>, d: Delta)
      requires c in partitions && ws == partitions[c].watchers && Balanced(MeterOf(View()))
      modifies `partitions, `total
      ensures View() == SetWatchers(old(View()), c, OfferEach(limits, ws, d))
    {
      ghost var h := View();
      SetWatchersSame(h, c);
      OfferEnds(limits, ws, d);
      var i := 0;
      while i < |ws|
        invariant 0 <= i <= |ws|
        invariant View() == SetWatchers(h, c, OfferFirst(limits, ws, d, i))
      {
        BalancedAfterOffers(h, c, d, i, View());
        OfferOne(c, i, d);
        OfferNext(limits, ws, d, i);
        SetWatchersTwice(h, c, OfferFirst(limits, ws, d, i), OfferFirst(limits, ws, d, i + 1));
        i := i + 1;
      }
    }

    /** List a pending entry, before its opening is published. */
    method Enlist(c: string, e: Entry)
      requires Counted(View()) && c in partitions && KeyOf(e.value) !in partitions[c].pending
      modifies `partitions, `total
      ensures c in partitions && partitions[c] == Enlisted(old(partitions[c]), e)
      ensures View() == SetPartition(old(View()), c, Enlisted(old(partitions[c]), e))
      ensures Balanced(MeterOf(View()))
    {
      var p := partitions[c];
      ghost var after := SetPartition(View(), c, Enlisted(p, e));
      EnlistBalanced(View(), c, e, after);
      partitions := partitions[c := Enlisted(p, e)];
      total := Plus(total, EntryUsage(e));
      assert View() == after;
    }

    /** Take a pending entry out, before its closing is published. */
    method Unlist(c: string, k: Key)
      requires Counted(View()) && c in partitions && k in partitions[c].pending
      modifies `partitions, `total
      ensures c in partitions && partitions[c] == Unlisted(old(partitions[c]), k)
      ensures View() == SetPartition(old(View()), c, Unlisted(old(partitions[c]), k))
      ensures Balanced(MeterOf(View()))
    {
      var p := partitions[c];
      ghost var after := SetPartition(View(), c, Unlisted(p, k));
      UnlistBalanced(View(), c, k, after);
      partitions := partitions[c := Unlisted(p, k)];
      total := Minus(total, EntryUsage(p.pending[k]));
      assert View() == after;
    }

    method Record(e: Entry, result: Result)
      requires e.call < |calls| && e.binding < |bindings|
      modifies `calls, `bindings, `closers
      ensures View() == Recorded(old(View()), e, result)
    {
      calls := calls[e.call := calls[e.call].(result := Some(result))];
      bindings := bindings[e.binding := bindings[e.binding].(active := bindings[e.binding].active - 1)];
      closers := closers + multiset{e.call};
    }

    method Start(v: Pending, lease: Lease)
      requires lease.binding < |bindings|
      modifies `calls, `bindings
      ensures View() == Started(old(View()), v, lease)
    {
      var b := lease.binding;
      calls := calls + [Call(v, lease.client, b, None, 0, None)];
      bindings := bindings[b := bindings[b].(active := bindings[b].active + 1)];
    }

    /** Record a result and publish the closing. */
    method CloseOne(c: string, k: Key, result: Result)
      requires Counted(View()) && Open(View(), c, k)
      modifies this
      ensures View() == CloseCall(old(View()), c, k, result)
    {
      var e := partitions[c].pending[k];
      Unlist(c, k);
      Record(e, result);
      ghost var recorded := View();
      Publish(c, Closed, e.value);
      CloseCallView(old(View()), c, k, result, recorded, View());
    }

    /** Publish a new call and its opening. */
    method OpenOne(v: Pending, lease: Lease)
      requires Counted(View()) && lease.client in partitions && lease.binding < |bindings|
      requires KeyOf(v) !in partitions[lease.client].pending
      modifies this
      ensures View() == OpenCall(old(View()), v, lease)
    {
      var e := Entry(|calls|, lease.binding, v);
      Enlist(lease.client, e);
      Start(v, lease);
      ghost var started := View();
      Publish(lease.client, Opened, v);
      OpenCallView(old(View()), v, lease, e, started, View());
    }

    /** Drop a released binding once nothing is active under it. */
    method RemoveBinding(b: nat)
      requires b < |bindings|
      modifies `runs, `bindings, `partitions
      ensures View() == RemoveReleased(old(View()), b)
    {
      var x := bindings[b];
      if x.accepting || x.active != 0 {
        return;
      }
      if x.run in runs && runs[x.run].binding == b {
        runs := runs - {x.run};
        if x.client in partitions {
          partitions := partitions[x.client := partitions[x.client].(boundRuns := partitions[x.client].boundRuns - 1)];
        }
        bindings := bindings[b := x.(releases := x.releases + 1)];
      }
    }

    method Finish(c: string, k: Key, result: Result)
      requires Counted(View()) && Open(View(), c, k)
      modifies this
      ensures View() == FinishCall(old(View()), c, k, result)
    {
      var b := partitions[c].pending[k].binding;
      CloseOne(c, k, result);
      RemoveBinding(b);
    }

    // -------------------------------------------------------------------------
    // Operations
    // -------------------------------------------------------------------------

    /** Find or create a client's partition. */
    method Partitioned(c: string)
      modifies `partitions
      ensures View() == EnsurePartition(old(View()), c)
    {
      if c !in partitions && |partitions| < limits.clients {
        partitions := partitions[c := EMPTY_PARTITION];
      }
    }

    method LendRun(c: string, run: string)
      requires c in partitions
      modifies `partitions, `runs, `bindings
      ensures View() == Lend(old(View()), c, run)
    {
      var p := partitions[c];
      partitions := partitions[c := p.(boundRuns := p.boundRuns + 1)];
      runs := runs[run := Lease(|bindings|, c)];
      bindings := bindings + [Binding(c, run, true, 0, 0)];
    }

    method Bind(c: string, run: string) returns (r: BindOutcome)
      requires Valid()
      modifies this
      ensures Valid() && View() == BindRun(old(View()), c, run) && r == BindOutcomeOf(old(View()), c, run)
    {
      r := BindClosed;
      if closed {
      } else if run in runs {
        r := AlreadyBound;
      } else if |runs| >= limits.runs {
        r := BindCapacity;
      } else if c !in partitions && |partitions| >= limits.clients {
        r := BindCapacity;
      } else if c in partitions && partitions[c].boundRuns >= limits.runsPerClient {
        r := BindCapacity;
      } else {
        r := Bound(|bindings|);
        Partitioned(c);
        LendRun(c, run);
      }
      StepReached(old(View()), DoBindRun(c, run), View());
    }

    /** The checks of a request, in order. */
    method CheckRequest(v: Pending) returns (r: RequestOutcome)
      requires Valid()
      ensures r == RequestOutcomeOf(View(), v)
    {
      ReachedLeases(View(), v.run);
      if closed { return RequestClosed; }
      if v.run !in runs || !bindings[runs[v.run].binding].accepting { return NotBound; }
      var client := runs[v.run].client;
      if client !in partitions { return NotBound; }
      if KeyOf(v) in partitions[client].pending { return AlreadyPending; }
      if !HasCapacity(limits, total, partitions[client], ValueBytes(v)) { return PendingCapacity; }
      if partitions[client].revision > MAX_UINT64 - (|partitions[client].pending| + 2) { return PendingCapacity; }
      return Accepted(|calls|);
    }

    method Ask(v: Pending) returns (r: RequestOutcome)
      requires Valid()
      modifies this
      ensures Valid() && View() == Request(old(View()), v) && r == RequestOutcomeOf(old(View()), v)
    {
      ReachedSound(View());
      r := CheckRequest(v);
      if r.Accepted? {
        OpenOne(v, runs[v.run]);
      }
      RequestReached(old(View()), v, View());
    }

    /** The checks of a response, in order. */
    method CheckResponse(client: string, k: Key) returns (r: RespondOutcome)
      requires Valid()
      ensures r == RespondOutcomeOf(View(), client, k)
    {
      ReachedEntries(View(), client, k);
      if closed { return RespondClosed; }
      if k.run !in runs || runs[k.run].client != client { return RespondNotBound; }
      if client !in partitions { return RespondNotBound; }
      if k !in partitions[client].pending { return NotPending; }
      return Responded;
    }

    method Answer(client: string, k: Key, response: string) returns (r: RespondOutcome)
      requires Valid()
      modifies this
      ensures Valid() && View() == Respond(old(View()), client, k, response) && r == RespondOutcomeOf(old(View()), client, k)
    {
      ReachedSound(View());
      r := CheckResponse(client, k);
      if r.Responded? {
        Finish(client, k, Answered(response));
      }
      RespondReached(old(View()), client, k, response, View());
    }

    /** The requester gave up: complete the call with the context's error unless it already finished,
        and report the recorded result either way. */
    method Complete(id: nat) returns (result: Option<Result>, completed: bool)
      requires Valid() && id < |calls|
      modifies this
      ensures Valid() && View() == Cancel(old(View()), id) && completed == StillPending(old(View()), id)
      ensures result == if completed then Some(ContextEnded) else old(calls[id].result)
    {
      ReachedSound(View());
      var client, k := calls[id].client, KeyOf(calls[id].value);
      ReachedEntries(View(), client, k);
      result := calls[id].result;
      completed := client in partitions && k in partitions[client].pending && partitions[client].pending[k].call == id;
      if completed {
        Finish(calls[id].client, KeyOf(calls[id].value), ContextEnded);
        result := Some(ContextEnded);
      }
      CancelReached(old(View()), id, View());
    }

    method ReleaseRun(b: nat)
      requires Valid() && b < |bindings|
      modifies this
      ensures Valid() && View() == Release(old(View()), b)
    {
      bindings := bindings[b := bindings[b].(accepting := false)];
      RemoveBinding(b);
      ReleaseReached(old(View()), b, View());
    }

    /** The delivered hook of one watcher's loop. */
    method Delivered(c: string, i: nat)
      requires Valid() && c in partitions && i < |partitions[c].watchers|
      requires partitions[c].watchers[i].looping && partitions[c].watchers[i].carry.Sent?
      modifies this
      ensures Valid() && View() == Deliver(old(View()), c, i, DoAcknowledge)
    {
      AcknowledgeView(View(), c, i);
      var p := partitions[c];
      var w := p.watchers[i];
      var size := DeltaBytes(w.carry.delta);
      if w.stop.Live? {
        partitions := partitions[c := p.(watchers := p.watchers[i := Acknowledge(w)], own := UnchargeOne(p.own, size))];
        total := UnchargeOne(total, size);
      } else {
        partitions := partitions[c := p.(watchers := p.watchers[i := Acknowledge(w)])];
      }
      StepReached(old(View()), DoDeliver(c, i, DoAcknowledge), View());
    }

    method AddObserver(c: string)
      requires c in partitions
      modifies `partitions, `total
      ensures View() == SetWatchers(old(View()), c, Observe(old(partitions[c])))
    {
      var reserve := Reserve(limits);
      ObserveView(View(), c, reserve);
      var p := partitions[c];
      partitions := partitions[c := p.(watchers := Observe(p), own := Plus(p.own, reserve))];
      total := Plus(total, reserve);
    }

    method Watch(c: string) returns (r: SubscribeOutcome)
      requires Valid()
      modifies this
      ensures Valid() && View() == Subscribe(old(View()), c) && r == SubscribeOutcomeOf(old(View()), c)
    {
      r := SubscribeClosed;
      if !closed {
        Partitioned(c);
        r := ObserverCapacity;
        if c in partitions && AdmitsObserver(limits, total, partitions[c]) {
          r := Subscribed(|partitions[c].watchers|);
          AddObserver(c);
        }
      }
      StepReached(old(View()), DoSubscribe(c), View());
    }

    /** End every watcher of a client. */
    method EndClient(c: string, reason: Reason)
      modifies `partitions, `total
      ensures View() == EndWatchers(old(View()), c, reason)
    {
      if c !in partitions {
        return;
      }
      var ws := partitions[c].watchers;
      ghost var h := View();
      SetWatchersSame(h, c);
      EndEnds(ws, reason);
      var i := 0;
      while i < |ws|
        invariant 0 <= i <= |ws|
        invariant View() == SetWatchers(h, c, EndFirst(ws, reason, i))
      {
        FinishWatcher(c, i, reason);
        EndNext(ws, reason, i);
        SetWatchersTwice(h, c, EndFirst(ws, reason, i), EndFirst(ws, reason, i + 1));
        i := i + 1;
      }
    }

    method Fence(c: string) returns (ok: bool)
      requires Valid()
      modifies this
      ensures Valid() && View() == FenceObservers(old(View()), c) && ok == !old(closed)
    {
      ok := !closed;
      if ok {
        EndClient(c, Fenced);
      }
      StepReached(old(View()), DoFence(c), View());
    }

    // -------------------------------------------------------------------------
    // Shutdown
    // -------------------------------------------------------------------------

    /** List a client's pending calls. */
    method ListKeys(c: string, keys: set<Key>) returns (order: seq<(string, Key)>)
      ensures forall k | k in keys :: (c, k) in order
    {
      order := [];
      var rest := keys;
      while rest != {}
        invariant rest <= keys && forall k | k in keys - rest :: (c, k) in order
        decreases |rest|
      {
        var k :| k in rest;
        order := order + [(c, k)];
        rest := rest - {k};
      }
    }

    /** List every partition and every pending call. */
    method ListCalls() returns (order: seq<(string, Key)>, clients: seq<string>)
      ensures Lists(View(), order, clients)
    {
      order, clients := [], [];
      var rest := partitions.Keys;
      while rest != {}
        invariant rest <= partitions.Keys
        invariant forall c | c in partitions && c !in rest :: c in clients
        invariant forall c, k | c in partitions && c !in rest && k in partitions[c].pending :: (c, k) in order
        decreases |rest|
      {
        var c :| c in rest;
        var more := ListKeys(c, partitions[c].pending.Keys);
        order := order + more;
        clients := clients + [c];
        rest := rest - {c};
      }
    }

    method FinishOnePlace(place: (string, Key))
      requires Finishing(View())
      modifies this
      ensures View() == FinishOne(old(View()), place)
    {
      FinishingSound(View());
      if Open(View(), place.0, place.1) {
        Finish(place.0, place.1, HubWasClosed);
      }
    }

    method FinishListed(order: seq<(string, Key)>)
      requires Cored(View())
      modifies this
      ensures View() == FinishAll(old(View()), order, |order|)
    {
      ghost var h := View();
      var i := 0;
      while i < |order|
        invariant 0 <= i <= |order| && View() == FinishAll(h, order, i)
      {
        FinishingAt(h, order, i, View());
        FinishOnePlace(order[i]);
        i := i + 1;
      }
    }

    method RemoveListed()
      modifies `runs, `bindings, `partitions
      ensures View() == RemoveAll(old(View()), |old(bindings)|)
    {
      ghost var h := View();
      var n, i := |bindings|, 0;
      while i < n
        invariant 0 <= i <= n == |bindings| && View() == RemoveAll(h, i)
      {
        RemoveBinding(i);
        i := i + 1;
      }
    }

    method EndListed(clients: seq<string>)
      modifies `partitions, `total
      ensures View() == EndAll(old(View()), clients, |clients|)
    {
      ghost var h := View();
      var i := 0;
      while i < |clients|
        invariant 0 <= i <= |clients| && View() == EndAll(h, clients, i)
      {
        EndClient(clients[i], HubClosed);
        i := i + 1;
      }
    }

    method StopAdmission()
      requires Core(View())
      modifies `closed, `bindings
      ensures View() == Shut(old(View())) && Core(View())
    {
      ShutCore(View());
      closed := true;
      bindings := StopEach(bindings);
    }

    method CloseListed(order: seq<(string, Key)>, clients: seq<string>)
      requires Core(View()) && !closed && Lists(View(), order, clients)
      modifies this
      ensures View() == Close(old(View()), order, clients)
    {
      StopAdmission();
      FinishListed(order);
      RemoveListed();
      EndListed(clients);
    }

    /** Fail every pending call, release every binding and end every observer, in one lock hold. */
    method CloseHub() returns (order: seq<(string, Key)>, clients: seq<string>)
      requires Valid()
      modifies this
      ensures Valid() && closed
      ensures if old(closed) then View() == old(View())
              else Lists(old(View()), order, clients) && View() == Close(old(View()), order, clients)
    {
      order, clients := [], [];
      if !closed {
        ReachedCore(View());
        order, clients := ListCalls();
        CloseCloses(View(), order, clients);
        CloseListed(order, clients);
        StepReached(old(View()), DoClose(order, clients), View());
      }
    }
  }
}
