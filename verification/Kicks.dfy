/** Kicking a peer: a terminal shutdown forbids resuming, but it takes effect only when the connection
    retires (internal/client.go, `Shutdown` and `retire`; internal/session.go, `Leave`). */
module Kicks {
  import opened Commons
  import opened SessionSpec
  import opened ClientSpec
  import opened ServerModel
  import opened ServerSteps
  import opened ServerRuns
  import S = StoreSpec

  /** The retirement of a kicked connection ends its session if and only if the connection still holds the
      session at that moment; otherwise it changes nothing. */
  lemma KickEndsSessionIff(w: Server, c: ClientId, id: SessionId, now: int)
    requires Inv(w) && Legal(w, DoRetire(c, now)) && w.clients[c].noResume
    requires w.clients[c].session == Some(id) && id in w.store.heap && !w.store.heap[id].state.Closed?
    ensures var w' := Apply(w, DoRetire(c, now));
            && id in w'.store.heap
            && (w'.store.heap[id].state.Closed? <==> w.store.heap[id].live == Some(c))
            && (id in w'.store.terminated <==> w.store.heap[id].live == Some(c))
            && (w.store.heap[id].live != Some(c) ==> w' == Tick(w, now))
  {
    hide Core;
    CoreParts(w);
    OpenIsNotTerminated(w, id);
  }

  lemma OpenIsNotTerminated(w: Server, id: SessionId)
    requires Core(w) && id in w.store.heap && !w.store.heap[id].state.Closed?
    ensures id !in w.store.terminated
  {
  }

  /** When it does, the kicked peer stays out: in every later run its request is answered with "unknown
      session". */
  lemma KickedPeerStaysOut(w: Server, c: ClientId, id: SessionId, now: int, es: seq<Step>, req: Request, later: int)
    requires Inv(w) && Legal(w, DoRetire(c, now)) && w.clients[c].noResume
    requires w.clients[c].session == Some(id) && id in w.store.heap && !w.store.heap[id].state.Closed?
    requires w.store.heap[id].live == Some(c) && LegalRun(w, [DoRetire(c, now)] + es)
    requires req.requested && !req.invalid && req.id == id
    ensures var w' := Run(w, [DoRetire(c, now)] + es);
            && w'.store.stored <= w'.store.heap.Keys
            && S.Decide(w'.store, req, later, w'.lim) == S.NewSession(Some(UnknownSession), None)
  {
    hide Core, Legal, Apply;
    assert ([DoRetire(c, now)] + es)[0] == DoRetire(c, now) && ([DoRetire(c, now)] + es)[1..] == es;
    StepKeepsInv(w, DoRetire(c, now));
    KickEndsSessionIff(w, c, id, now);
    ClosedSessionsNeverResume(Apply(w, DoRetire(c, now)), es, id, req, later);
  }

  // -------------------------------------------------------------------------
  // A connection that has lost its session does not get it back

  /** The connection has been bound to the session and does not hold it. */
  ghost predicate Missed(w: Server, c: ClientId, id: SessionId) {
    && c in w.clients && w.clients[c].bound && w.clients[c].session == Some(id)
    && id in w.store.heap && w.store.heap[id].live != Some(c)
  }

  lemma SameLinksMissed(w: Server, w': Server, c: ClientId, id: SessionId)
    requires SameLinks(w, w') && Missed(w, c, id)
    ensures Missed(w', c, id)
  {
    assert SamePlace(w.store.heap[id], w'.store.heap[id]) && SameBinding(w.clients[c], w'.clients[c]);
  }

  lemma {:induction false} EvictOverMissed(w: Server, c: ClientId, id: SessionId)
    requires Missed(w, c, id)
    requires forall i :: 0 <= i < |w.store.parked| ==> w.store.parked[i] in w.store.heap
    ensures Missed(EvictOver(w), c, id)
    decreases |w.store.parked|
  {
    if |w.store.parked| > w.lim.maxParked {
      EvictOverMissed(Release(w, w.store.parked[0], S.ByEviction), c, id);
    }
  }

  lemma {:induction false} SweepMissed(w: Server, c: ClientId, id: SessionId)
    requires Missed(w, c, id)
    requires forall i :: 0 <= i < |w.store.parked| ==> w.store.parked[i] in w.store.heap
    ensures Missed(SweepNow(w), c, id)
    decreases |w.store.parked|
  {
    if w.store.parked != [] && w.now - w.store.heap[w.store.parked[0]].parkedAt > w.lim.ttl {
      SweepMissed(Release(w, w.store.parked[0], S.ByExpiry), c, id);
    }
  }

  lemma ParkMissed(w: Server, c: ClientId, id: SessionId, c2: ClientId, x: SessionId)
    requires Missed(w, c, id) && c2 in w.clients && x in w.store.heap
    requires forall i :: 0 <= i < |w.store.parked| ==> w.store.parked[i] in w.store.heap
    ensures var w' := ParkClient(w, c2, x);
            Missed(w', c, id) && forall i :: 0 <= i < |w'.store.parked| ==> w'.store.parked[i] in w'.store.heap
  {
  }

  lemma RetireMissed(w: Server, c: ClientId, id: SessionId, c2: ClientId)
    requires Linked(w) && Missed(w, c, id) && c2 in w.clients
    requires forall i :: 0 <= i < |w.store.parked| ==> w.store.parked[i] in w.store.heap
    ensures Missed(Retire(w, c2), c, id)
  {
    hide ParkClient, EvictOver;
    if w.clients[c2].session.Some? {
      ParkMissed(w, c, id, c2, w.clients[c2].session.value);
      EvictOverMissed(ParkClient(w, c2, w.clients[c2].session.value), c, id);
    }
  }

  lemma OpenMissed(w: Server, c: ClientId, id: SessionId, c2: ClientId, req: Request, newId: Option<SessionId>)
    requires Linked(w) && Missed(w, c, id) && c2 in w.clients && c2 != c && w.store.stored <= w.store.heap.Keys
    requires forall x :: x in w.store.heap ==> w.store.heap[x].next > 0
    requires newId.Some? ==> newId.value !in w.store.heap
    ensures Missed(OpenSession(w, c2, req, newId), c, id)
  {
    hide Judge, Replay, S.Without;
  }

  lemma TimedStepMissed(w: Server, e: Step, c: ClientId, id: SessionId)
    requires Inv(w) && Legal(w, e) && Missed(w, c, id) && (e.DoOpen? || e.DoRetire? || e.DoSweep?)
    ensures Missed(Apply(w, e), c, id)
  {
    hide Core, OpenSession, Retire, SweepNow;
    TickKeepsCore(w, e.now);
    var w1 := Tick(w, e.now);
    CoreParts(w1);
    match e
    case DoOpen(c2, req, newId, _) => OpenMissed(w1, c, id, c2, req, newId);
    case DoRetire(c2, _) => RetireMissed(w1, c, id, c2);
    case DoSweep(_) => SweepMissed(w1, c, id);
  }

  lemma LinkedStepMissed(w: Server, e: Step, c: ClientId, id: SessionId)
    requires Inv(w) && Legal(w, e) && Missed(w, c, id)
    requires e.DoSend? || e.DoEmit? || e.DoAck? || e.DoPump? || e.DoShutdown?
    ensures Missed(Apply(w, e), c, id)
  {
    hide Core, SameLinks, Extends, Missed;
    CoreParts(w);
    match e {
      case DoSend(c2, data, pol) => TrySendKeepsCore(w, c2, data, pol);
      case DoEmit(job, order, data, pol) =>
        TargetsAreClients(w, job);
        SendAllKeepsCore(w, order, data, pol);
      case DoAck(c2, n) => AckKeepsCore(w, c2, n);
      case DoPump(c2) => PumpKeepsCore(w, c2);
      case DoShutdown(c2, terminal) => CloseConnKeepsCore(w, c2, terminal);
    }
    SameLinksMissed(w, Apply(w, e), c, id);
  }

  lemma StepMissed(w: Server, e: Step, c: ClientId, id: SessionId)
    requires Inv(w) && Legal(w, e) && Missed(w, c, id)
    ensures Missed(Apply(w, e), c, id)
  {
    hide Core;
    if e.DoOpen? || e.DoRetire? || e.DoSweep? {
      TimedStepMissed(w, e, c, id);
    } else if !(e.DoConnect? || e.DoJoin? || e.DoLeaveRoom?) {
      LinkedStepMissed(w, e, c, id);
    }
  }

  /** A connection that has been displaced or parked never holds its session again. So a kick that comes
      after that, or whose retirement does, ends nothing: in every run, the session is not terminated by
      this connection. */
  lemma {:induction false} MissedForGood(w: Server, es: seq<Step>, c: ClientId, id: SessionId)
    requires Inv(w) && LegalRun(w, es) && Missed(w, c, id)
    ensures Missed(Run(w, es), c, id)
    decreases |es|
  {
    hide Core, Legal, Apply, Missed;
    if es != [] {
      StepKeepsInv(w, es[0]);
      StepMissed(w, es[0], c, id);
      MissedForGood(Apply(w, es[0]), es[1..], c, id);
    }
  }
}
