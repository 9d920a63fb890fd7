/** How far back a session of the running server can be resumed: exactly as far as the replay limits allow,
    whatever has happened to it (internal/session.go, `push`, `verdict` and `attachLocked`). */
module ReplayWindows {
  import opened Commons
  import opened Bytes
  import opened Frames
  import opened ReplayBuffers
  import opened SessionSpec
  import opened ClientSpec
  import opened ServerModel
  import opened ServerSteps
  import opened ServerRuns
  import S = StoreSpec

  /** The session has forgotten nothing but what does not fit the limits, or frames up to number `n`. */
  ghost predicate Remembers(w: Server, id: SessionId, n: nat) {
    id in w.store.heap && Lighter(w.store.heap[id], Replete(w.store.heap[id], w.lim), n, w.lim)
  }

  lemma HappenedRemembers(w: Server, w': Server, id: SessionId, n: nat, h: Happening<ClientId>)
    requires Remembers(w, id, n) && Honest([h], n) && w'.lim == w.lim
    requires id in w'.store.heap && w'.store.heap[id] == Happened(w.store.heap[id], h, w.lim)
    ensures Remembers(w', id, n)
  {
    HappenedForgets(w.store.heap[id], h, n, w.lim);
  }

  lemma ClosingRemembers(w: Server, w': Server, id: SessionId, n: nat)
    requires Remembers(w, id, n) && w'.lim == w.lim && id in w'.store.heap
    requires var s, s' := w.store.heap[id], w'.store.heap[id];
             SameOrClosed(s, s') || s' == s.(state := Closed, live := None)
    ensures Remembers(w', id, n)
  {
    hide Trim;
  }

  lemma SendRemembers(w: Server, c: ClientId, data: bytes, pol: Policy, id: SessionId, n: nat)
    requires Linked(w) && c in w.clients && Remembers(w, id, n)
    ensures Remembers(TrySend(w, c, data, pol).0, id, n)
  {
    hide Deliver, Lighter;
    var w' := TrySend(w, c, data, pol).0;
    if w.clients[c].session == Some(id) {
      var s := w.store.heap[id];
      HappenedRemembers(w, w', id, n, Sent(data, pol, if s.live == None then Shut else Room(w.clients[s.live.value])));
    }
  }

  lemma {:induction false} SendAllRemembers(w: Server, order: seq<ClientId>, data: bytes, pol: Policy, id: SessionId,
                                           n: nat)
    requires Core(w) && IsEvent(data) && Remembers(w, id, n)
    requires forall i :: 0 <= i < |order| ==> order[i] in w.clients
    ensures Remembers(SendAll(w, order, data, pol), id, n)
    decreases |order|
  {
    hide Core, TrySend, Remembers;
    CoreParts(w);
    if order != [] {
      TrySendKeepsCore(w, order[0], data, pol);
      SendRemembers(w, order[0], data, pol, id, n);
      SendAllRemembers(TrySend(w, order[0], data, pol).0, order[1..], data, pol, id, n);
    }
  }

  /** What the peer of the session claims to have received, in a step: no more than `n` frames. */
  ghost predicate Claims(w: Server, e: Step, id: SessionId, n: nat) {
    && (e.DoAck? && BoundTo(w, e.c, id) ==> e.n <= n)
    && (e.DoOpen? && e.req.requested && e.req.id == id ==> e.req.lastSeq <= n)
  }

  ghost predicate ClaimsInRun(w: Server, es: seq<Step>, id: SessionId, n: nat)
    requires Inv(w) && LegalRun(w, es)
    decreases |es|
  {
    es != [] ==>
      Claims(w, es[0], id, n) && (StepKeepsInv(w, es[0]); ClaimsInRun(Apply(w, es[0]), es[1..], id, n))
  }

  lemma AckRemembers(w: Server, c: ClientId, m: nat, id: SessionId, n: nat)
    requires Linked(w) && c in w.clients && Remembers(w, id, n) && (BoundTo(w, c, id) ==> m <= n)
    ensures Remembers(AckFrom(w, c, m), id, n)
  {
    hide Lighter;
    if w.clients[c].session == Some(id) {
      HappenedRemembers(w, AckFrom(w, c, m), id, n, Confirmed(m));
    }
  }

  lemma OpenRemembers(w: Server, c: ClientId, req: Request, newId: Option<SessionId>, id: SessionId, n: nat)
    requires Core(w) && c in w.clients && Remembers(w, id, n) && (newId.Some? ==> newId.value !in w.store.heap)
    requires w.store.stored <= w.store.heap.Keys && Linked(w)
    requires forall x :: x in w.store.heap ==> w.store.heap[x].next > 0
    requires req.requested && req.id == id ==> req.lastSeq <= n
    ensures Remembers(OpenSession(w, c, req, newId), id, n)
  {
    hide Core, Lighter, OpenSession, Attach, Judge;
    var w' := OpenSession(w, c, req, newId);
    OpenToSession(w, c, req, newId, id);
    assert w'.lim == w.lim by { OpenKeepsLimits(w, c, req, newId); }
    if S.Decide(w.store, req, w.now, w.lim) == S.ResumeOf(id) {
      assert !w.store.heap[id].state.Closed? by { StoredIsOpen(w, id); }
      HappenedRemembers(w, w', id, n, Resumed(c, req.lastSeq));
    } else {
      ClosingRemembers(w, w', id, n);
    }
  }

  lemma StoredIsOpen(w: Server, id: SessionId)
    requires Core(w) && id in w.store.stored && id in w.store.heap
    ensures !w.store.heap[id].state.Closed?
  {
  }

  lemma OpenKeepsLimits(w: Server, c: ClientId, req: Request, newId: Option<SessionId>)
    requires c in w.clients && w.store.stored <= w.store.heap.Keys && Linked(w)
    requires forall x :: x in w.store.heap ==> w.store.heap[x].next > 0
    ensures OpenSession(w, c, req, newId).lim == w.lim
  {
    hide Judge;
  }

  lemma RetireRemembers(w: Server, c: ClientId, id: SessionId, n: nat)
    requires Core(w) && Linked(w) && c in w.clients && Remembers(w, id, n)
    requires forall i :: 0 <= i < |w.store.parked| ==> w.store.parked[i] in w.store.heap
    ensures Remembers(Retire(w, c), id, n)
  {
    hide Core, Lighter, Retire;
    var s, w' := w.store.heap[id], Retire(w, c);
    RetireToSession(w, c, id);
    assert w'.lim == w.lim by { RetireKeepsLimits(w, c); }
    if SameOrClosed(s, w'.store.heap[id]) || w'.store.heap[id] == s.(state := Closed, live := None) {
      ClosingRemembers(w, w', id, n);
    } else {
      assert s.state.Attached? by { LiveIsAttached(w, id); }
      var w1 := w.(store := w.store.(heap := w.store.heap[id := Happened(s, Lost(w.now), w.lim)]));
      HappenedRemembers(w, w1, id, n, Lost(w.now));
      ClosingRemembers(w1, w', id, n);
    }
  }

  lemma LiveIsAttached(w: Server, id: SessionId)
    requires Core(w) && id in w.store.heap && !w.store.heap[id].state.Closed? && w.store.heap[id].live.Some?
    ensures w.store.heap[id].state.Attached?
  {
  }

  lemma {:induction false} EvictKeepsLimits(w: Server)
    requires forall i :: 0 <= i < |w.store.parked| ==> w.store.parked[i] in w.store.heap
    ensures EvictOver(w).lim == w.lim
    decreases |w.store.parked|
  {
    if |w.store.parked| > w.lim.maxParked {
      EvictKeepsLimits(Release(w, w.store.parked[0], S.ByEviction));
    }
  }

  lemma RetireKeepsLimits(w: Server, c: ClientId)
    requires Linked(w) && c in w.clients
    requires forall i :: 0 <= i < |w.store.parked| ==> w.store.parked[i] in w.store.heap
    ensures Retire(w, c).lim == w.lim
  {
    hide EvictOver;
    if w.clients[c].session.Some? {
      var w1 := ParkClient(w, c, w.clients[c].session.value);
      assert forall i :: 0 <= i < |w1.store.parked| ==> w1.store.parked[i] in w1.store.heap;
      EvictKeepsLimits(w1);
    }
  }

  lemma {:induction false} SweepKeepsLimits(w: Server)
    requires forall i :: 0 <= i < |w.store.parked| ==> w.store.parked[i] in w.store.heap
    ensures SweepNow(w).lim == w.lim
    decreases |w.store.parked|
  {
    if w.store.parked != [] && w.now - w.store.heap[w.store.parked[0]].parkedAt > w.lim.ttl {
      SweepKeepsLimits(Release(w, w.store.parked[0], S.ByExpiry));
    }
  }

  lemma TimedStepRemembers(w: Server, e: Step, id: SessionId, n: nat)
    requires Inv(w) && Legal(w, e) && Remembers(w, id, n) && Claims(w, e, id, n)
    requires e.DoOpen? || e.DoRetire? || e.DoSweep?
    ensures Remembers(Apply(w, e), id, n)
  {
    hide Core, OpenSession, Retire, SweepNow, Lighter;
    TickKeepsCore(w, e.now);
    var w1 := Tick(w, e.now);
    CoreParts(w1);
    match e
    case DoOpen(c, req, newId, _) => OpenRemembers(w1, c, req, newId, id, n);
    case DoRetire(c, _) => RetireRemembers(w1, c, id, n);
    case DoSweep(_) =>
      SweepOnlyCloses(w1, id);
      SweepKeepsLimits(w1);
      ClosingRemembers(w1, SweepNow(w1), id, n);
  }

  lemma StepRemembers(w: Server, e: Step, id: SessionId, n: nat)
    requires Inv(w) && Legal(w, e) && Remembers(w, id, n) && Claims(w, e, id, n)
    ensures Remembers(Apply(w, e), id, n)
  {
    hide Core, Lighter;
    if e.DoOpen? || e.DoRetire? || e.DoSweep? {
      TimedStepRemembers(w, e, id, n);
    } else {
      CoreParts(w);
      match e {
        case DoSend(c, data, pol) => SendRemembers(w, c, data, pol, id, n);
        case DoEmit(job, order, data, pol) =>
          TargetsAreClients(w, job);
          SendAllRemembers(w, order, data, pol, id, n);
        case DoAck(c, m) => AckRemembers(w, c, m, id, n);
        case _ =>
      }
    }
  }

  lemma {:induction false} RunRemembers(w: Server, es: seq<Step>, id: SessionId, n: nat)
    requires Inv(w) && LegalRun(w, es) && Remembers(w, id, n) && ClaimsInRun(w, es, id, n)
    ensures Remembers(Run(w, es), id, n)
    decreases |es|
  {
    hide Core, Legal, Apply, Remembers, Claims;
    if es != [] {
      StepKeepsInv(w, es[0]);
      StepRemembers(w, es[0], id, n);
      RunRemembers(Apply(w, es[0]), es[1..], id, n);
    }
  }

  lemma FreshRemembers(w: Server, owner: string, c: ClientId, id: SessionId, n: nat)
    requires id in w.store.heap && w.store.heap[id] == Fresh(owner, c)
    ensures Remembers(w, id, n)
  {
    var s := w.store.heap[id];
    assert Missing(s.log, 0) == [] && Replete(s, w.lim) == s;
  }

  lemma WindowIff(w: Server, id: SessionId, req: Request, now: int)
    requires Remembers(w, id, req.lastSeq)
    ensures var s := w.store.heap[id];
            Judge(s, req, now, w.lim.ttl).Grant?
            <==> && !s.state.Closed? && s.owner == req.owner && InTime(s, now, w.lim)
                 && req.lastSeq <= |s.log| && Fits(Missing(s.log, req.lastSeq), w.lim.maxMsgs, w.lim.maxBytes)
  {
    hide Trim, Fits;
    var s, lim := w.store.heap[id], w.lim;
    LighterSameVerdict(s, Replete(s, lim), req, now, lim);
    if req.lastSeq < |s.log| {
      LongestCoversIff(s.log, req.lastSeq, lim.maxMsgs, lim.maxBytes);
    } else if req.lastSeq == |s.log| {
      assert Missing(s.log, req.lastSeq) == [];
      NothingFits(lim);
    }
  }

  /** The replay window over runs. From the creation of a session on, whatever is delivered, dropped,
      evicted, lost, displaced and resumed, and whatever other sessions do: as long as its peer has not
      claimed more than the requested position, a resume by the owner and in time is granted if and only
      if all frames after that position together fit both replay limits. */
  lemma ResumableExactlyWithinWindow(w: Server, first: Step, es: seq<Step>, id: SessionId, req: Request, now: int)
    requires Inv(w) && LegalRun(w, [first] + es)
    requires first.DoOpen? && first.newId == Some(id) && Legal(w, first) && BoundTo(Apply(w, first), first.c, id)
    requires Inv(Apply(w, first)) && LegalRun(Apply(w, first), es) && ClaimsInRun(Apply(w, first), es, id, req.lastSeq)
    ensures var w' := Run(w, [first] + es);
            && id in w'.store.heap
            && var s := w'.store.heap[id];
               (Judge(s, req, now, w'.lim.ttl).Grant?
                <==> && !s.state.Closed? && s.owner == req.owner && InTime(s, now, w'.lim)
                     && req.lastSeq <= |s.log|
                     && Fits(Missing(s.log, req.lastSeq), w'.lim.maxMsgs, w'.lim.maxBytes))
  {
    hide Core, Legal, Apply, LegalRun, Run, Judge, Fits, BoundTo, ClaimsInRun;
    RunFirst(w, first, es);
    StartsFresh(w, first, id);
    FreshRemembers(Apply(w, first), first.req.owner, first.c, id, req.lastSeq);
    RunRemembers(Apply(w, first), es, id, req.lastSeq);
    WindowIff(Run(w, [first] + es), id, req, now);
  }

  lemma StartsFresh(w: Server, e: Step, id: SessionId)
    requires Inv(w) && Legal(w, e) && e.DoOpen? && e.newId == Some(id) && BoundTo(Apply(w, e), e.c, id)
    ensures id in Apply(w, e).store.heap && Apply(w, e).store.heap[id] == Fresh(e.req.owner, e.c)
  {
    hide Core, OpenSession, BoundTo;
    TickKeepsCore(w, e.now);
    CoreParts(Tick(w, e.now));
    CreatedFor(Tick(w, e.now), e.c, e.req, id);
  }
}
