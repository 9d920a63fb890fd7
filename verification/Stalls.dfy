/** A stalled session is quiet: once a connection's queue has overflowed, nothing more is ever queued to
    that connection, and the slow peer is asked to disconnect at most once per attachment. */
module Stalls {
  import opened Commons
  import opened Bytes
  import opened Frames
  import opened SessionSpec
  import opened ClientSpec
  import opened ServerModel
  import opened ServerSteps
  import opened ServerRuns
  import opened Kicks
  import opened ReplayBuffers
  import S = StoreSpec
  import H = Hubs

  /** Connection `c` of session `id` will not be sent anything more: the session has stalled on it, or
      has moved on. */
  ghost predicate Quiet(w: Server, c: ClientId, id: SessionId) {
    && c in w.clients && w.clients[c].session == Some(id) && id in w.store.heap
    && var s := w.store.heap[id]; s.live == Some(c) && !s.state.Closed? ==> s.stalled
  }

  /** `c` stays quiet and its stream stays as it is. */
  ghost predicate StaysQuiet(w: Server, w': Server, c: ClientId, id: SessionId)
    requires c in w.clients
  {
    Quiet(w', c, id) && Stream(w'.clients[c]) == Stream(w.clients[c])
  }

  lemma SendToOtherSession(w: Server, c: ClientId, id: SessionId, c2: ClientId, x: SessionId, data: bytes, pol: Policy)
    requires Linked(w) && Quiet(w, c, id) && c2 in w.clients && w.clients[c2].session == Some(x) && x != id
    requires x in w.store.heap && (w.store.heap[x].live == Some(c) ==> w.store.heap[x].state.Closed?)
    ensures StaysQuiet(w, TrySend(w, c2, data, pol).0, c, id)
  {
    hide Deliver;
    var s := w.store.heap[x];
    DeliverStaysPut(s, data, pol, if s.live == None then Shut else Room(w.clients[s.live.value]), w.lim);
  }

  lemma LiveOfOther(w: Server, c: ClientId, id: SessionId, x: SessionId)
    requires Core(w) && c in w.clients && w.clients[c].session == Some(id) && x != id && x in w.store.heap
    ensures w.store.heap[x].live == Some(c) ==> w.store.heap[x].state.Closed?
  {
    if !w.store.heap[x].state.Closed? {
      MemberIsBound(w, x);
    }
  }

  lemma SendToOwnSession(w: Server, c: ClientId, id: SessionId, c2: ClientId, data: bytes, pol: Policy)
    requires Linked(w) && Quiet(w, c, id) && c2 in w.clients && w.clients[c2].session == Some(id)
    ensures StaysQuiet(w, TrySend(w, c2, data, pol).0, c, id)
    ensures w.store.heap[id].live == Some(c) ==> TrySend(w, c2, data, pol).1
  {
    hide Deliver;
    var s := w.store.heap[id];
    DeliverStaysPut(s, data, pol, if s.live == None then Shut else Room(w.clients[s.live.value]), w.lim);
  }

  lemma TrySendStaysQuiet(w: Server, c: ClientId, id: SessionId, c2: ClientId, data: bytes, pol: Policy)
    requires Core(w) && Quiet(w, c, id) && c2 in w.clients
    ensures StaysQuiet(w, TrySend(w, c2, data, pol).0, c, id)
  {
    hide Core;
    CoreParts(w);
    match w.clients[c2].session
    case None =>
    case Some(x) =>
      if x == id {
        SendToOwnSession(w, c, id, c2, data, pol);
      } else {
        LiveOfOther(w, c, id, x);
        SendToOtherSession(w, c, id, c2, x, data, pol);
      }
  }

  lemma {:induction false} SendAllStaysQuiet(w: Server, c: ClientId, id: SessionId, order: seq<ClientId>, data: bytes,
                                            pol: Policy)
    requires Core(w) && Quiet(w, c, id) && IsEvent(data)
    requires forall i :: 0 <= i < |order| ==> order[i] in w.clients
    ensures StaysQuiet(w, SendAll(w, order, data, pol), c, id)
    decreases |order|
  {
    hide Core;
    CoreParts(w);
    if order != [] {
      TrySendKeepsCore(w, order[0], data, pol);
      TrySendStaysQuiet(w, c, id, order[0], data, pol);
      SendAllStaysQuiet(TrySend(w, order[0], data, pol).0, c, id, order[1..], data, pol);
    }
  }

  lemma ReleaseStaysQuiet(w: Server, c: ClientId, id: SessionId, x: SessionId, why: S.ReleaseReason)
    requires Quiet(w, c, id) && x in w.store.heap
    ensures StaysQuiet(w, Release(w, x, why), c, id)
  {
  }

  lemma {:induction false} EvictOverStaysQuiet(w: Server, c: ClientId, id: SessionId)
    requires Quiet(w, c, id)
    requires forall i :: 0 <= i < |w.store.parked| ==> w.store.parked[i] in w.store.heap
    ensures StaysQuiet(w, EvictOver(w), c, id)
    decreases |w.store.parked|
  {
    if |w.store.parked| > w.lim.maxParked {
      ReleaseStaysQuiet(w, c, id, w.store.parked[0], S.ByEviction);
      EvictOverStaysQuiet(Release(w, w.store.parked[0], S.ByEviction), c, id);
    }
  }

  lemma {:induction false} SweepStaysQuiet(w: Server, c: ClientId, id: SessionId)
    requires Quiet(w, c, id)
    requires forall i :: 0 <= i < |w.store.parked| ==> w.store.parked[i] in w.store.heap
    ensures StaysQuiet(w, SweepNow(w), c, id)
    decreases |w.store.parked|
  {
    if w.store.parked != [] && w.now - w.store.heap[w.store.parked[0]].parkedAt > w.lim.ttl {
      ReleaseStaysQuiet(w, c, id, w.store.parked[0], S.ByExpiry);
      SweepStaysQuiet(Release(w, w.store.parked[0], S.ByExpiry), c, id);
    }
  }

  lemma ParkStaysQuiet(w: Server, c: ClientId, id: SessionId, c2: ClientId, x: SessionId)
    requires Quiet(w, c, id) && c2 in w.clients && x in w.store.heap
    ensures StaysQuiet(w, ParkClient(w, c2, x), c, id)
  {
  }

  lemma RetireStaysQuiet(w: Server, c: ClientId, id: SessionId, c2: ClientId)
    requires Linked(w) && Quiet(w, c, id) && c2 in w.clients
    requires forall i :: 0 <= i < |w.store.parked| ==> w.store.parked[i] in w.store.heap
    ensures StaysQuiet(w, Retire(w, c2), c, id)
  {
    hide ParkClient, EvictOver;
    if w.clients[c2].session.Some? {
      var x := w.clients[c2].session.value;
      ParkStaysQuiet(w, c, id, c2, x);
      ParkedStayInHeap(w, c2, x);
      EvictOverStaysQuiet(ParkClient(w, c2, x), c, id);
    }
  }

  lemma ParkedStayInHeap(w: Server, c2: ClientId, x: SessionId)
    requires c2 in w.clients && x in w.store.heap
    requires forall i :: 0 <= i < |w.store.parked| ==> w.store.parked[i] in w.store.heap
    ensures var w' := ParkClient(w, c2, x);
            forall i :: 0 <= i < |w'.store.parked| ==> w'.store.parked[i] in w'.store.heap
  {
  }

  lemma BindStaysQuiet(w: Server, c: ClientId, id: SessionId, c2: ClientId, x: SessionId, lastSeq: nat)
    requires Quiet(w, c, id) && c2 in w.clients && c2 != c && x in w.store.heap && w.store.heap[x].next > 0
    ensures StaysQuiet(w, BindResume(w, c2, x, lastSeq), c, id)
  {
  }

  lemma FreshStaysQuiet(w: Server, c: ClientId, id: SessionId, c2: ClientId, x: SessionId, owner: string,
                        reason: Option<Reason>)
    requires Quiet(w, c, id) && c2 in w.clients && c2 != c && x !in w.store.heap
    ensures StaysQuiet(w, BindFresh(w, c2, x, owner, reason), c, id)
  {
  }

  lemma CloseStaysQuiet(w: Server, c: ClientId, id: SessionId, c2: ClientId, terminal: bool)
    requires Quiet(w, c, id) && c2 in w.clients
    ensures StaysQuiet(w, CloseConn(w, c2, terminal), c, id)
  {
  }

  lemma OpenStaysQuiet(w: Server, c: ClientId, id: SessionId, c2: ClientId, req: Request, newId: Option<SessionId>)
    requires Linked(w) && Quiet(w, c, id) && c2 in w.clients && c2 != c && w.store.stored <= w.store.heap.Keys
    requires forall x :: x in w.store.heap ==> w.store.heap[x].next > 0
    requires newId.Some? ==> newId.value !in w.store.heap
    ensures StaysQuiet(w, OpenSession(w, c2, req, newId), c, id)
  {
    hide Quiet, StaysQuiet, BindResume, BindFresh, BindNone, Release, CloseConn, Judge;
    match S.Decide(w.store, req, w.now, w.lim)
    case ResumeOf(x) => ResumeStaysQuiet(w, c, id, c2, x, req.lastSeq);
    case NewSession(reason, victim) => NewSessionStaysQuiet(w, c, id, c2, req, newId, reason, victim);
  }

  lemma ResumeStaysQuiet(w: Server, c: ClientId, id: SessionId, c2: ClientId, x: SessionId, lastSeq: nat)
    requires Linked(w) && Quiet(w, c, id) && c2 in w.clients && c2 != c
    requires x in w.store.heap && w.store.heap[x].next > 0
    ensures var w1 := BindResume(w, c2, x, lastSeq); var live := w.store.heap[x].live;
            && (live.Some? ==> live.value in w1.clients)
            && StaysQuiet(w, if live.Some? && live.value != c2 then CloseConn(w1, live.value, false) else w1, c, id)
  {
    hide Replay, H.Transfer, S.Without;
    BindStaysQuiet(w, c, id, c2, x, lastSeq);
    var live := w.store.heap[x].live;
    if live.Some? {
      CloseStaysQuiet(BindResume(w, c2, x, lastSeq), c, id, live.value, false);
    }
  }

  lemma NewSessionStaysQuiet(w: Server, c: ClientId, id: SessionId, c2: ClientId, req: Request,
                             newId: Option<SessionId>, reason: Option<Reason>, victim: Option<SessionId>)
    requires Quiet(w, c, id) && c2 in w.clients && c2 != c
    requires newId.Some? ==> newId.value !in w.store.heap
    ensures var w1 := if victim.Some? && victim.value in w.store.heap
                      then Release(w, victim.value, S.ByReplacement) else w;
            var w' := if newId.Some? then BindFresh(w1, c2, newId.value, req.owner, reason) else BindNone(w1, c2);
            StaysQuiet(w, w', c, id)
  {
    var w1 := w;
    if victim.Some? && victim.value in w.store.heap {
      ReleaseStaysQuiet(w, c, id, victim.value, S.ByReplacement);
      w1 := Release(w, victim.value, S.ByReplacement);
    }
    if newId.Some? {
      FreshStaysQuiet(w1, c, id, c2, newId.value, req.owner, reason);
    }
  }

  lemma TimedStepStaysQuiet(w: Server, e: Step, c: ClientId, id: SessionId)
    requires Inv(w) && Legal(w, e) && Quiet(w, c, id) && (e.DoOpen? || e.DoRetire? || e.DoSweep?)
    ensures StaysQuiet(w, Apply(w, e), c, id)
  {
    hide Core;
    TickKeepsCore(w, e.now);
    var w1 := Tick(w, e.now);
    CoreParts(w1);
    match e
    case DoOpen(c2, req, newId, _) =>
      BoundIsNotFresh(w, c, c2);
      OpenStaysQuiet(w1, c, id, c2, req, newId);
    case DoRetire(c2, _) => RetireStaysQuiet(w1, c, id, c2);
    case DoSweep(_) => SweepStaysQuiet(w1, c, id);
  }

  lemma BoundIsNotFresh(w: Server, c: ClientId, c2: ClientId)
    requires Core(w) && c in w.clients && w.clients[c].session.Some? && c2 in w.clients && !w.clients[c2].bound
    ensures c != c2
  {
    assert StreamOk(w.store.heap, w.clients[c]);
  }

  lemma PumpStaysQuiet(w: Server, e: Step, c: ClientId, id: SessionId)
    requires Inv(w) && Legal(w, e) && Quiet(w, c, id) && e.DoPump?
    ensures StaysQuiet(w, Apply(w, e), c, id)
  {
    hide Core, Stream;
    PumpKeepsStream(w.clients[e.c]);
  }

  lemma ClientStepStaysQuiet(w: Server, e: Step, c: ClientId, id: SessionId)
    requires Inv(w) && Legal(w, e) && Quiet(w, c, id) && (e.DoAck? || e.DoPump? || e.DoShutdown?)
    ensures StaysQuiet(w, Apply(w, e), c, id)
  {
    hide Core, Stream;
    if e.DoPump? {
      PumpStaysQuiet(w, e, c, id);
    } else {
      CoreParts(w);
      if e.DoShutdown? {
        CloseStaysQuiet(w, c, id, e.c, e.terminal);
      }
    }
  }

  lemma HubStepStaysQuiet(w: Server, e: Step, c: ClientId, id: SessionId)
    requires Inv(w) && Legal(w, e) && Quiet(w, c, id) && (e.DoConnect? || e.DoJoin? || e.DoLeaveRoom?)
    ensures StaysQuiet(w, Apply(w, e), c, id)
  {
    hide Core, Stream;
  }

  lemma SendStepStaysQuiet(w: Server, e: Step, c: ClientId, id: SessionId)
    requires Inv(w) && Legal(w, e) && Quiet(w, c, id) && (e.DoSend? || e.DoEmit?)
    ensures StaysQuiet(w, Apply(w, e), c, id)
  {
    hide Core;
    if e.DoSend? {
      TrySendStaysQuiet(w, c, id, e.c, e.data, e.pol);
    } else {
      TargetsAreClients(w, e.job);
      SendAllStaysQuiet(w, c, id, e.order, e.data, e.pol);
    }
  }

  lemma StepStaysQuiet(w: Server, e: Step, c: ClientId, id: SessionId)
    requires Inv(w) && Legal(w, e) && Quiet(w, c, id)
    ensures StaysQuiet(w, Apply(w, e), c, id)
  {
    hide Core, Legal, Apply, Quiet, StaysQuiet;
    if e.DoOpen? || e.DoRetire? || e.DoSweep? {
      TimedStepStaysQuiet(w, e, c, id);
    } else if e.DoSend? || e.DoEmit? {
      SendStepStaysQuiet(w, e, c, id);
    } else if e.DoConnect? || e.DoJoin? || e.DoLeaveRoom? {
      HubStepStaysQuiet(w, e, c, id);
    } else {
      ClientStepStaysQuiet(w, e, c, id);
    }
  }

  /** Once stalled, always quiet: whatever happens later, the connection's stream never grows again. */
  lemma {:induction false} StallIsFinal(w: Server, es: seq<Step>, c: ClientId, id: SessionId)
    requires Inv(w) && LegalRun(w, es) && Quiet(w, c, id)
    ensures StaysQuiet(w, Run(w, es), c, id)
    decreases |es|
  {
    hide Core, Legal, Apply;
    if es != [] {
      StepKeepsInv(w, es[0]);
      StepStaysQuiet(w, es[0], c, id);
      StallIsFinal(Apply(w, es[0]), es[1..], c, id);
    }
  }

  lemma RefusalStalls(w: Server, c2: ClientId, data: bytes, pol: Policy, id: SessionId, c: ClientId)
    requires Linked(w) && c2 in w.clients && w.clients[c2].session == Some(id)
    requires w.store.heap[id].live == Some(c) && !TrySend(w, c2, data, pol).1
    ensures !w.store.heap[id].state.Closed?
    ensures w.clients[c].session == Some(id) ==> Quiet(TrySend(w, c2, data, pol).0, c, id)
  {
    hide Deliver;
    DeliverStaysPut(w.store.heap[id], data, pol, Room(w.clients[c]), w.lim);
  }

  /** A delivery that asks for a disconnect leaves the connection quiet. */
  lemma DisconnectStalls(w: Server, c2: ClientId, data: bytes, pol: Policy, id: SessionId, c: ClientId)
    requires Core(w) && c2 in w.clients && w.clients[c2].session == Some(id)
    requires w.store.heap[id].live == Some(c) && !TrySend(w, c2, data, pol).1
    ensures Quiet(TrySend(w, c2, data, pol).0, c, id)
  {
    hide TrySend, Quiet;
    RefusalStalls(w, c2, data, pol, id, c);
    MemberIsBound(w, id);
  }

  // -------------------------------------------------------------------------
  // Counting the requests to disconnect

  /** Handing the frame to `c2` reaches session `id` while it is attached to `c`, and asks for a disconnect. */
  ghost predicate Refused(w: Server, c2: ClientId, data: bytes, pol: Policy, c: ClientId, id: SessionId)
    requires Linked(w) && c2 in w.clients
  {
    w.clients[c2].session == Some(id) && w.store.heap[id].live == Some(c) && !TrySend(w, c2, data, pol).1
  }

  lemma RestIsLinked(w: Server, order: seq<ClientId>, data: bytes, pol: Policy)
    requires Core(w) && IsEvent(data) && order != [] && forall i :: 0 <= i < |order| ==> order[i] in w.clients
    ensures Linked(w) && Core(TrySend(w, order[0], data, pol).0)
    ensures forall i :: 0 <= i < |order[1..]| ==> order[1..][i] in TrySend(w, order[0], data, pol).0.clients
  {
    hide Core, TrySend;
    CoreParts(w);
    TrySendKeepsCore(w, order[0], data, pol);
  }

  /** How often that happens while a frame is handed to the targets of a broadcast in turn. */
  ghost function RefusedInAll(w: Server, order: seq<ClientId>, data: bytes, pol: Policy, c: ClientId,
                              id: SessionId): nat
    requires Core(w) && IsEvent(data) && forall i :: 0 <= i < |order| ==> order[i] in w.clients
    decreases |order|
  {
    if order == [] then 0
    else
      RestIsLinked(w, order, data, pol);
      (if Refused(w, order[0], data, pol, c, id) then 1 else 0)
      + RefusedInAll(TrySend(w, order[0], data, pol).0, order[1..], data, pol, c, id)
  }

  /** The two places that act on the answer of a delivery: a direct send and a broadcast. */
  ghost function RefusedInStep(w: Server, e: Step, c: ClientId, id: SessionId): nat
    requires Inv(w) && Legal(w, e)
  {
    match e
    case DoSend(c2, data, pol) => if Refused(w, c2, data, pol, c, id) then 1 else 0
    case DoEmit(job, order, data, pol) => TargetsAreClients(w, job); RefusedInAll(w, order, data, pol, c, id)
    case _ => 0
  }

  ghost function RefusedInRun(w: Server, es: seq<Step>, c: ClientId, id: SessionId): nat
    requires Inv(w) && LegalRun(w, es)
    decreases |es|
  {
    if es == [] then 0
    else
      StepKeepsInv(w, es[0]);
      RefusedInStep(w, es[0], c, id) + RefusedInRun(Apply(w, es[0]), es[1..], c, id)
  }

  lemma QuietRefusesNothing(w: Server, c2: ClientId, data: bytes, pol: Policy, c: ClientId, id: SessionId)
    requires Linked(w) && c2 in w.clients && Quiet(w, c, id)
    ensures !Refused(w, c2, data, pol, c, id)
  {
    hide TrySend;
    if w.clients[c2].session == Some(id) {
      SendToOwnSession(w, c, id, c2, data, pol);
    }
  }

  /** A broadcast asks for at most one disconnect, after which the connection is quiet; a quiet
      connection is not asked for. */
  lemma {:induction false} BroadcastRefusesOnce(w: Server, order: seq<ClientId>, data: bytes, pol: Policy, c: ClientId,
                                               id: SessionId)
    requires Core(w) && IsEvent(data) && forall i :: 0 <= i < |order| ==> order[i] in w.clients
    ensures var n := RefusedInAll(w, order, data, pol, c, id);
            && n <= 1
            && (n == 1 ==> Quiet(SendAll(w, order, data, pol), c, id))
            && (Quiet(w, c, id) ==> n == 0)
    decreases |order|
  {
    hide Core, TrySend, Quiet, StaysQuiet;
    CoreParts(w);
    if order != [] {
      var w1 := TrySend(w, order[0], data, pol).0;
      TrySendKeepsCore(w, order[0], data, pol);
      BroadcastRefusesOnce(w1, order[1..], data, pol, c, id);
      if Quiet(w, c, id) {
        QuietRefusesNothing(w, order[0], data, pol, c, id);
        assert Quiet(w1, c, id) by { QuietAfterSend(w, c, id, order[0], data, pol); }
      } else if Refused(w, order[0], data, pol, c, id) {
        DisconnectStalls(w, order[0], data, pol, id, c);
        QuietAfterSendAll(w1, c, id, order[1..], data, pol);
      }
    }
  }

  lemma QuietAfterSend(w: Server, c: ClientId, id: SessionId, c2: ClientId, data: bytes, pol: Policy)
    requires Core(w) && Linked(w) && Quiet(w, c, id) && c2 in w.clients
    ensures Quiet(TrySend(w, c2, data, pol).0, c, id)
  {
    hide Core, TrySend;
    TrySendStaysQuiet(w, c, id, c2, data, pol);
  }

  lemma QuietAfterSendAll(w: Server, c: ClientId, id: SessionId, order: seq<ClientId>, data: bytes, pol: Policy)
    requires Core(w) && Quiet(w, c, id) && IsEvent(data)
    requires forall i :: 0 <= i < |order| ==> order[i] in w.clients
    ensures Quiet(SendAll(w, order, data, pol), c, id)
  {
    hide Core, SendAll;
    SendAllStaysQuiet(w, c, id, order, data, pol);
  }

  lemma StepRefusesOnce(w: Server, e: Step, c: ClientId, id: SessionId)
    requires Inv(w) && Legal(w, e)
    ensures var n := RefusedInStep(w, e, c, id);
            && n <= 1
            && (n == 1 ==> Quiet(Apply(w, e), c, id))
            && (Quiet(w, c, id) ==> n == 0)
  {
    hide Core, TrySend, Quiet, SendAll, RefusedInAll;
    CoreParts(w);
    match e
    case DoSend(c2, data, pol) =>
      if Refused(w, c2, data, pol, c, id) {
        DisconnectStalls(w, c2, data, pol, id, c);
      }
      if Quiet(w, c, id) {
        QuietRefusesNothing(w, c2, data, pol, c, id);
      }
    case DoEmit(job, order, data, pol) =>
      TargetsAreClients(w, job);
      BroadcastRefusesOnce(w, order, data, pol, c, id);
    case _ =>
  }

  /** `deliver` asks for a disconnect at most once per attachment: over any run, counting direct sends and
      every position of every broadcast, the session asks at most once while it is attached to `c` (a
      connection is attached to one session, once), and not at all once `c` is quiet. */
  lemma {:induction false} DisconnectAtMostOncePerAttachment(w: Server, es: seq<Step>, c: ClientId, id: SessionId)
    requires Inv(w) && LegalRun(w, es)
    ensures RefusedInRun(w, es, c, id) <= 1
    ensures Quiet(w, c, id) ==> RefusedInRun(w, es, c, id) == 0
    decreases |es|
  {
    hide Core, Legal, Apply, Quiet, RefusedInStep;
    if es != [] {
      var w1 := Apply(w, es[0]);
      StepKeepsInv(w, es[0]);
      StepRefusesOnce(w, es[0], c, id);
      DisconnectAtMostOncePerAttachment(w1, es[1..], c, id);
      if Quiet(w, c, id) {
        QuietAfterStep(w, es[0], c, id);
      }
    }
  }

  lemma QuietAfterStep(w: Server, e: Step, c: ClientId, id: SessionId)
    requires Inv(w) && Legal(w, e) && Quiet(w, c, id)
    ensures Quiet(Apply(w, e), c, id)
  {
    hide Core, Legal, Apply;
    StepStaysQuiet(w, e, c, id);
  }

  // -------------------------------------------------------------------------
  // Stalling without asking does not happen

  /** The session is attached to the connection. */
  ghost predicate Attending(w: Server, c: ClientId, id: SessionId) {
    && BoundTo(w, c, id) && w.clients[c].bound
    && id in w.store.heap && !w.store.heap[id].state.Closed? && w.store.heap[id].live == Some(c)
  }

  lemma SendOwnStallsIff(w: Server, c2: ClientId, data: bytes, pol: Policy, c: ClientId, id: SessionId)
    requires Linked(w) && c2 in w.clients && w.clients[c2].session == Some(id)
    requires Attending(w, c, id) && !w.clients[c].shut
    ensures var w' := TrySend(w, c2, data, pol).0;
            && Attending(w', c, id) && !w'.clients[c].shut
            && (w'.store.heap[id].stalled <==> w.store.heap[id].stalled || !TrySend(w, c2, data, pol).1)
  {
    hide Deliver;
    var s := w.store.heap[id];
    DeliverAsksIff(s, data, pol, Room(w.clients[c]), w.lim);
    DeliverGoes(s, data, pol, Room(w.clients[c]), w.lim);
    DeliverStaysPut(s, data, pol, Room(w.clients[c]), w.lim);
  }

  lemma SendElsewhere(w: Server, c2: ClientId, data: bytes, pol: Policy, c: ClientId, id: SessionId)
    requires Linked(w) && c2 in w.clients && w.clients[c2].session != Some(id)
    requires c in w.clients && w.clients[c].session == Some(id) && id in w.store.heap
    requires w.clients[c2].session.Some? ==>
               var x := w.store.heap[w.clients[c2].session.value]; x.live == Some(c) ==> x.state.Closed?
    ensures var w' := TrySend(w, c2, data, pol).0;
            && id in w'.store.heap && w'.store.heap[id] == w.store.heap[id]
            && c in w'.clients && w'.clients[c] == w.clients[c]
  {
    hide Deliver;
    if w.clients[c2].session.Some? {
      var x := w.store.heap[w.clients[c2].session.value];
      DeliverStaysPut(x, data, pol, if x.live == None then Shut else Room(w.clients[x.live.value]), w.lim);
    }
  }

  lemma SendStallsIff(w: Server, c2: ClientId, data: bytes, pol: Policy, c: ClientId, id: SessionId)
    requires Core(w) && Linked(w) && c2 in w.clients && Attending(w, c, id) && !w.clients[c].shut
    ensures var w' := TrySend(w, c2, data, pol).0;
            && Attending(w', c, id) && !w'.clients[c].shut
            && (w'.store.heap[id].stalled <==> w.store.heap[id].stalled || Refused(w, c2, data, pol, c, id))
  {
    hide Core, TrySend;
    if w.clients[c2].session == Some(id) {
      SendOwnStallsIff(w, c2, data, pol, c, id);
    } else {
      if w.clients[c2].session.Some? {
        LiveOfOther(w, c, id, w.clients[c2].session.value);
      }
      SendElsewhere(w, c2, data, pol, c, id);
    }
  }

  lemma {:induction false} BroadcastStallsIff(w: Server, order: seq<ClientId>, data: bytes, pol: Policy, c: ClientId,
                                             id: SessionId)
    requires Core(w) && IsEvent(data) && forall i :: 0 <= i < |order| ==> order[i] in w.clients
    requires Attending(w, c, id) && !w.clients[c].shut
    ensures var w' := SendAll(w, order, data, pol);
            && id in w'.store.heap
            && (w'.store.heap[id].stalled
                <==> w.store.heap[id].stalled || RefusedInAll(w, order, data, pol, c, id) > 0)
    decreases |order|
  {
    hide Core, TrySend, Attending, Refused;
    CoreParts(w);
    assert id in w.store.heap by { AttendingMeans(w, c, id); }
    if order != [] {
      TrySendKeepsCore(w, order[0], data, pol);
      SendStallsIff(w, order[0], data, pol, c, id);
      BroadcastStallsIff(TrySend(w, order[0], data, pol).0, order[1..], data, pol, c, id);
    }
  }

  lemma AttendingMeans(w: Server, c: ClientId, id: SessionId)
    requires Attending(w, c, id)
    ensures c in w.clients && id in w.store.heap && w.clients[c].session == Some(id)
    ensures !w.store.heap[id].state.Closed? && w.store.heap[id].live == Some(c)
  {
  }

  /** Steps that send nothing neither stall an attached session nor wake it up. */
  lemma OtherStepKeepsStalled(w: Server, e: Step, c: ClientId, id: SessionId)
    requires Inv(w) && Legal(w, e) && Attending(w, c, id) && Attending(Apply(w, e), c, id)
    requires !e.DoSend? && !e.DoEmit?
    ensures Apply(w, e).store.heap[id].stalled == w.store.heap[id].stalled
  {
    hide Core;
    CoreParts(w);
    if e.DoOpen? || e.DoRetire? || e.DoSweep? {
      TimedStepKeepsStalled(w, e, c, id);
    }
  }

  lemma TimedStepKeepsStalled(w: Server, e: Step, c: ClientId, id: SessionId)
    requires Inv(w) && Legal(w, e) && Attending(w, c, id) && Attending(Apply(w, e), c, id)
    requires e.DoOpen? || e.DoRetire? || e.DoSweep?
    ensures Apply(w, e).store.heap[id].stalled == w.store.heap[id].stalled
  {
    hide Core, OpenSession, Retire, SweepNow;
    TickKeepsCore(w, e.now);
    var w1 := Tick(w, e.now);
    CoreParts(w1);
    match e
    case DoOpen(c2, req, newId, _) => OpenToSession(w1, c2, req, newId, id);
    case DoRetire(c2, _) => RetireToSession(w1, c2, id);
    case DoSweep(_) => SweepOnlyCloses(w1, id);
  }

  lemma StepStallsIff(w: Server, e: Step, c: ClientId, id: SessionId)
    requires Inv(w) && Legal(w, e) && Attending(w, c, id) && !w.clients[c].shut && Attending(Apply(w, e), c, id)
    ensures Apply(w, e).store.heap[id].stalled
            <==> w.store.heap[id].stalled || RefusedInStep(w, e, c, id) > 0
  {
    hide Core, TrySend, SendAll, Refused, RefusedInAll;
    CoreParts(w);
    match e
    case DoSend(c2, data, pol) => SendStallsIff(w, c2, data, pol, c, id);
    case DoEmit(job, order, data, pol) =>
      TargetsAreClients(w, job);
      BroadcastStallsIff(w, order, data, pol, c, id);
    case _ => OtherStepKeepsStalled(w, e, c, id);
  }

  /** Whoever is attached at the end was attached all along. */
  lemma AttendedBefore(w: Server, es: seq<Step>, c: ClientId, id: SessionId)
    requires Inv(w) && LegalRun(w, es) && Attending(Run(w, es), c, id) && !Run(w, es).clients[c].shut
    requires BoundTo(w, c, id) && w.clients[c].bound && id in w.store.heap
    ensures Attending(w, c, id) && !w.clients[c].shut
  {
    hide Core, LegalRun, Run;
    RunKeepsInv(w, es);
    if w.store.heap[id].live != Some(c) {
      MissedForGood(w, es, c, id);
    }
  }

  /** A session attached to an open connection has stalled exactly when it has asked for the disconnect: over
      any run that leaves it attached to an open connection, it asks once if it has stalled meanwhile and
      not at all otherwise. A slow peer is never left on a silent connection without being disconnected. */
  lemma {:induction false} StallsExactlyWhenAsked(w: Server, es: seq<Step>, c: ClientId, id: SessionId)
    requires Inv(w) && LegalRun(w, es) && Attending(w, c, id)
    requires Attending(Run(w, es), c, id) && !Run(w, es).clients[c].shut
    ensures id in w.store.heap && id in Run(w, es).store.heap
    ensures RefusedInRun(w, es, c, id)
            == if Run(w, es).store.heap[id].stalled && !w.store.heap[id].stalled then 1 else 0
    ensures w.store.heap[id].stalled ==> Run(w, es).store.heap[id].stalled
    decreases |es|
  {
    hide Core, Legal, Apply, Attending, Quiet, RefusedInStep;
    AttendingMeans(w, c, id);
    if es != [] {
      var w1 := Apply(w, es[0]);
      StepKeepsInv(w, es[0]);
      AttendingParts(w, c, id);
      AttendedBefore(w, es, c, id);
      StillBound(w, w1, c, id);
      AttendedBefore(w1, es[1..], c, id);
      StepStallsIff(w, es[0], c, id);
      StepRefusesOnce(w, es[0], c, id);
      if w.store.heap[id].stalled {
        assert Quiet(w, c, id) by { StalledIsQuiet(w, c, id); }
      }
      StallsExactlyWhenAsked(w1, es[1..], c, id);
    }
  }

  lemma AttendingParts(w: Server, c: ClientId, id: SessionId)
    requires Attending(w, c, id)
    ensures BoundTo(w, c, id) && w.clients[c].bound && id in w.store.heap
  {
  }

  lemma StillBound(w: Server, w': Server, c: ClientId, id: SessionId)
    requires Attending(w, c, id) && Extends(w, w')
    ensures BoundTo(w', c, id) && w'.clients[c].bound && id in w'.store.heap
  {
  }

  lemma StalledIsQuiet(w: Server, c: ClientId, id: SessionId)
    requires Attending(w, c, id) && w.store.heap[id].stalled
    ensures Quiet(w, c, id)
  {
  }

  // -------------------------------------------------------------------------
  // A connection whose session has been replaced

  /** The request fits the session's owner but not its log, or asks for frames that are gone. */
  ghost predicate CannotServe(s: Session<ClientId>, req: Request) {
    && s.owner == req.owner
    && !(req.lastSeq <= |s.log| && forall i :: req.lastSeq <= i < |s.log| ==> Entry(i + 1, s.log[i]) in s.buf)
  }

  lemma AttachedVerdict(s: Session<ClientId>, req: Request, now: int, lim: Limits)
    requires Valid(s, lim) && s.state.Attached?
    ensures var v := Judge(s, req, now, lim.ttl);
            && (v.Refuse? && v.kill <==> CannotServe(s, req))
            && (v.Grant? <==> s.owner == req.owner && !CannotServe(s, req))
  {
    if s.owner == req.owner {
      GrantIffNothingLost(s, req, now, lim);
    }
  }

  lemma ClosedIgnoresSends(w: Server, l: ClientId, id: SessionId, data: bytes, pol: Policy)
    requires Linked(w) && l in w.clients && w.clients[l].session == Some(id)
    requires w.store.heap[id].state.Closed? && w.store.heap[id].live == Some(l)
    ensures TrySend(w, l, data, pol) == (w, true)
  {
    var s, k := w.store.heap[id], w.clients[l];
    assert Receive(k, Delivery(s, None, false, true)) == k;
    assert w.store.heap[id := s] == w.store.heap && w.clients[l := k] == w.clients;
  }

  lemma AttachedIsLive(w: Server, id: SessionId, c: ClientId)
    requires Core(w) && id in w.store.stored && id in w.store.heap && w.store.heap[id].live.Some?
    requires c in w.clients && !w.clients[c].bound
    ensures var s := w.store.heap[id];
            && s.state.Attached? && s.live == Some(s.member) && Valid(s, w.lim)
            && s.member in w.clients && s.member != c && w.clients[s.member].session == Some(id)
  {
    MemberIsBound(w, id);
    assert StreamOk(w.store.heap, w.clients[c]);
  }

  /** `w'` has lost the session of the connection `l`, which nobody has told: the connection is as it was
      and open if it was open, but out of the hub, and every send to it succeeds without effect. */
  ghost predicate CutOff(w: Server, w': Server, l: ClientId, id: SessionId) {
    && Linked(w') && l in w.clients && l in w'.clients && w'.clients[l] == w.clients[l] && l !in w'.hub.clients
    && id in w'.store.heap && w'.store.heap[id].state.Closed? && Quiet(w', l, id)
    && (forall data, pol :: TrySend(w', l, data, pol) == (w', true))
  }

  lemma OpenIsNotCutOff(w: Server, w': Server, l: ClientId, id: SessionId)
    requires id in w'.store.heap && !w'.store.heap[id].state.Closed?
    ensures !CutOff(w, w', l, id)
  {
  }

  lemma ReleasedIsCutOff(w: Server, w': Server, l: ClientId, id: SessionId)
    requires Linked(w') && l in w.clients && l in w'.clients && w'.clients[l] == w.clients[l] && l !in w'.hub.clients
    requires w.clients[l].session == Some(id) && id in w'.store.heap
    requires w'.store.heap[id].state.Closed? && w'.store.heap[id].live == Some(l)
    ensures CutOff(w, w', l, id)
  {
    hide TrySend;
    forall data, pol
      ensures TrySend(w', l, data, pol) == (w', true)
    {
      ClosedIgnoresSends(w', l, id, data, pol);
    }
  }

  lemma GrantedCloses(w: Server, c: ClientId, req: Request, newId: Option<SessionId>, l: ClientId)
    requires Linked(w) && c in w.clients && w.store.stored <= w.store.heap.Keys
    requires forall id :: id in w.store.heap ==> w.store.heap[id].next > 0
    requires req.requested && !req.invalid && req.id in w.store.stored
    requires w.store.heap[req.id].live == Some(l) && l != c
    requires Judge(w.store.heap[req.id], req, w.now, w.lim.ttl).Grant?
    ensures var w' := OpenSession(w, c, req, newId);
            && l in w'.clients && w'.clients[l] == w.clients[l].(shut := true)
            && req.id in w'.store.heap && w'.store.heap[req.id].state.Attached?
  {
    hide Judge, Replay, Acked;
  }

  lemma RefusedLeaves(w: Server, c: ClientId, req: Request, newId: Option<SessionId>, l: ClientId)
    requires Linked(w) && c in w.clients && w.store.stored <= w.store.heap.Keys
    requires forall id :: id in w.store.heap ==> w.store.heap[id].next > 0
    requires newId.Some? ==> newId.value !in w.store.heap
    requires req.requested && !req.invalid && req.id in w.store.stored
    requires w.store.heap[req.id].live == Some(l) && w.store.heap[req.id].member == l && l != c
    requires Judge(w.store.heap[req.id], req, w.now, w.lim.ttl).Refuse?
    ensures var w' := OpenSession(w, c, req, newId); var s := w.store.heap[req.id];
            var kill := Judge(s, req, w.now, w.lim.ttl).kill;
            && l in w'.clients && w'.clients[l] == w.clients[l] && req.id in w'.store.heap
            && w'.store.heap[req.id] == (if kill then s.(state := Closed) else s)
            && (kill ==> l !in w'.hub.clients)
  {
    hide Judge;
  }

  /** A request for a session that is still attached to another connection closes that connection when it
      is granted. When it is refused because it cannot be served, and exactly then, the session is
      discarded while its connection stays open and is cut off. */
  lemma AttachedSessionCutOffIff(w: Server, c: ClientId, req: Request, newId: Option<SessionId>, l: ClientId)
    requires Inv(w) && c in w.clients && !w.clients[c].bound && c in w.hub.clients
    requires newId.Some? ==> newId.value !in w.store.heap
    requires req.requested && !req.invalid && req.id in w.store.stored && req.id in w.store.heap
    requires w.store.heap[req.id].live == Some(l)
    ensures var w' := OpenSession(w, c, req, newId); var s := w.store.heap[req.id];
            && l in w.clients && l in w'.clients
            && (CutOff(w, w', l, req.id) <==> CannotServe(s, req))
            && (s.owner == req.owner && !CannotServe(s, req) ==> w'.clients[l] == w.clients[l].(shut := true))
  {
    hide Core, CannotServe, OpenSession, Judge, Linked, CutOff, Extends, Valid, H.Inv;
    CoreParts(w);
    AttachedIsLive(w, req.id, c);
    AttachedVerdict(w.store.heap[req.id], req, w.now, w.lim);
    var w' := OpenSession(w, c, req, newId);
    match Judge(w.store.heap[req.id], req, w.now, w.lim.ttl)
    case Grant =>
      GrantedCloses(w, c, req, newId, l);
      OpenIsNotCutOff(w, w', l, req.id);
    case Refuse(_, kill) =>
      RefusedLeaves(w, c, req, newId, l);
      if kill {
        assert Linked(w') by {
          OpenSessionKeepsInv(w, c, req, newId);
          CoreParts(w');
        }
        ReleasedIsCutOff(w, w', l, req.id);
      } else {
        OpenIsNotCutOff(w, w', l, req.id);
      }
  }

  /** A connection that has been cut off never receives another frame. */
  lemma CutOffForGood(w: Server, w': Server, l: ClientId, id: SessionId, es: seq<Step>)
    requires Inv(w') && CutOff(w, w', l, id) && LegalRun(w', es)
    ensures l in Run(w', es).clients && Stream(Run(w', es).clients[l]) == Stream(w.clients[l])
  {
    hide Core;
    StallIsFinal(w', es, l, id);
  }
}
