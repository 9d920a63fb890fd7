/** Runs of the server: what holds in every reachable state, whatever the order of connections,
    resumes, deliveries, losses, parkings, sweeps and evictions. */
module ServerRuns {
  import opened Commons
  import opened Bytes
  import opened Frames
  import opened SessionSpec
  import opened ClientSpec
  import opened ServerModel
  import opened ServerSteps
  import S = StoreSpec
  import H = Hubs

  // -------------------------------------------------------------------------
  // Composite steps

  lemma OpenSessionKeepsInv(w: Server, c: ClientId, req: Request, newId: Option<SessionId>)
    requires Inv(w) && c in w.clients && !w.clients[c].bound && c in w.hub.clients
    requires newId.Some? ==> newId.value !in w.store.heap
    ensures Inv(OpenSession(w, c, req, newId)) && Extends(w, OpenSession(w, c, req, newId))
  {
    hide Core, Extends, Judge, Linked, H.Inv;
    CoreParts(w);
    match S.Decide(w.store, req, w.now, w.lim)
    case ResumeOf(id) => ResumePathKeepsInv(w, c, id, req);
    case NewSession(reason, victim) =>
      if victim.Some? {
        ReplacePathKeepsInv(w, c, victim.value, req, newId, reason);
      } else {
        FreshPathKeepsInv(w, c, req, newId, reason);
      }
  }

  lemma ReplacePathKeepsInv(w: Server, c: ClientId, victim: SessionId, req: Request, newId: Option<SessionId>,
                            reason: Option<Reason>)
    requires Inv(w) && c in w.clients && !w.clients[c].bound && c in w.hub.clients
    requires victim in w.store.stored && victim in w.store.heap
    requires newId.Some? ==> newId.value !in w.store.heap
    ensures var w1 := Release(w, victim, S.ByReplacement);
            var w' := if newId.Some? then BindFresh(w1, c, newId.value, req.owner, reason) else BindNone(w1, c);
            Inv(w') && Extends(w, w')
  {
    var w1 := Release(w, victim, S.ByReplacement);
    ReleaseKeepsCore(w, victim, S.ByReplacement);
    VictimIsNotCaller(w, c, victim);
    FreshPathKeepsInv(w1, c, req, newId, reason);
    var w' := if newId.Some? then BindFresh(w1, c, newId.value, req.owner, reason) else BindNone(w1, c);
    ExtendsTransitive(w, w1, w');
  }

  lemma VictimIsNotCaller(w: Server, c: ClientId, victim: SessionId)
    requires Core(w) && c in w.clients && !w.clients[c].bound && c in w.hub.clients
    requires victim in w.store.stored && victim in w.store.heap
    ensures c in Release(w, victim, S.ByReplacement).hub.clients
  {
    assert StreamOk(w.store.heap, w.clients[c]) && HasMember(w, victim);
  }

  lemma FreshPathKeepsInv(w: Server, c: ClientId, req: Request, newId: Option<SessionId>, reason: Option<Reason>)
    requires Inv(w) && c in w.clients && !w.clients[c].bound && c in w.hub.clients
    requires newId.Some? ==> newId.value !in w.store.heap
    ensures var w' := if newId.Some? then BindFresh(w, c, newId.value, req.owner, reason) else BindNone(w, c);
            Inv(w') && Extends(w, w')
  {
    if newId.Some? {
      BindFreshKeepsCore(w, c, newId.value, req.owner, reason);
    } else {
      BindNoneKeepsCore(w, c);
    }
  }

  lemma ResumePathKeepsInv(w: Server, c: ClientId, id: SessionId, req: Request)
    requires Inv(w) && MayResume(w, c, id, req)
    ensures var w1 := BindResume(w, c, id, req.lastSeq); var live := w.store.heap[id].live;
            var w' := if live.Some? && live.value != c then CloseConn(w1, live.value, false) else w1;
            Inv(w') && Extends(w, w')
  {
    BindResumeKeepsCore(w, c, id, req);
    var w1 := BindResume(w, c, id, req.lastSeq);
    var live := w.store.heap[id].live;
    if live.Some? && live.value != c {
      CloseConnKeepsCore(w1, live.value, false);
      ExtendsTransitive(w, w1, CloseConn(w1, live.value, false));
    }
  }

  lemma LongestParkedIsStored(w: Server)
    requires Core(w) && w.store.parked != []
    ensures w.store.parked[0] in w.store.heap && w.store.parked[0] in w.store.stored
  {
    assert w.store.parked[0] in w.store.parked;
  }

  lemma {:induction false} EvictOverKeepsCore(w: Server)
    requires Core(w)
    ensures Inv(EvictOver(w)) && Extends(w, EvictOver(w))
    decreases |w.store.parked|
  {
    if |w.store.parked| > w.lim.maxParked {
      LongestParkedIsStored(w);
      ReleaseKeepsCore(w, w.store.parked[0], S.ByEviction);
      var w1 := Release(w, w.store.parked[0], S.ByEviction);
      EvictOverKeepsCore(w1);
      ExtendsTransitive(w, w1, EvictOver(w));
    } else {
      Reflexive(w);
    }
  }

  lemma RetireKeepsInv(w: Server, c: ClientId)
    requires Inv(w) && c in w.clients
    ensures Inv(Retire(w, c)) && Extends(w, Retire(w, c))
  {
    match w.clients[c].session
    case None => LeaveHubKeepsCore(w, c);
    case Some(id) =>
      var s := w.store.heap[id];
      if s.state.Closed? {
        LeaveHubKeepsCore(w, c);
      } else if s.live != Some(c) {
        Reflexive(w);
      } else if w.clients[c].noResume {
        EndSessionKeepsCore(w, c, id);
      } else {
        ParkKeepsCore(w, c, id);
        EvictOverKeepsCore(ParkClient(w, c, id));
        ExtendsTransitive(w, ParkClient(w, c, id), EvictOver(ParkClient(w, c, id)));
      }
  }

  lemma {:induction false} SweepKeepsInv(w: Server)
    requires Inv(w)
    ensures Inv(SweepNow(w)) && Extends(w, SweepNow(w))
    decreases |w.store.parked|
  {
    hide Core;
    CoreParts(w);
    if w.store.parked == [] || w.now - w.store.heap[w.store.parked[0]].parkedAt <= w.lim.ttl {
      Reflexive(w);
    } else {
      LongestParkedIsStored(w);
      ReleaseKeepsCore(w, w.store.parked[0], S.ByExpiry);
      var w1 := Release(w, w.store.parked[0], S.ByExpiry);
      SweepKeepsInv(w1);
      ExtendsTransitive(w, w1, SweepNow(w));
    }
  }

  /** `emitToTargets`: the frame is handed to each target in turn. */
  function SendAll(w: Server, order: seq<ClientId>, data: bytes, pol: Policy): Server
    requires Core(w) && IsEvent(data) && forall i :: 0 <= i < |order| ==> order[i] in w.clients
    decreases |order|
  {
    if order == [] then w
    else
      TrySendKeepsCore(w, order[0], data, pol);
      SendAll(TrySend(w, order[0], data, pol).0, order[1..], data, pol)
  }

  lemma SameLinksTransitive(a: Server, b: Server, c: Server)
    requires SameLinks(a, b) && SameLinks(b, c)
    ensures SameLinks(a, c)
  {
  }

  lemma {:induction false} SendAllKeepsCore(w: Server, order: seq<ClientId>, data: bytes, pol: Policy)
    requires Core(w) && IsEvent(data) && forall i :: 0 <= i < |order| ==> order[i] in w.clients
    ensures var w' := SendAll(w, order, data, pol); Core(w') && Extends(w, w') && SameLinks(w, w')
    decreases |order|
  {
    if order == [] {
      Reflexive(w);
    } else {
      TrySendKeepsCore(w, order[0], data, pol);
      var w1 := TrySend(w, order[0], data, pol).0;
      SendAllKeepsCore(w1, order[1..], data, pol);
      ExtendsTransitive(w, w1, SendAll(w, order, data, pol));
      SameLinksTransitive(w, w1, SendAll(w, order, data, pol));
    }
  }

  // -------------------------------------------------------------------------
  // Steps and runs

  datatype Step =
    | DoConnect(c: ClientId, cap: nat)
    | DoOpen(c: ClientId, req: Request, newId: Option<SessionId>, now: int)
    | DoSend(c: ClientId, data: bytes, pol: Policy)
    | DoEmit(job: H.EmitJob<ClientId>, order: seq<ClientId>, data: bytes, pol: Policy)
    | DoAck(c: ClientId, n: nat)
    | DoPump(c: ClientId)
    | DoShutdown(c: ClientId, terminal: bool)
    | DoRetire(c: ClientId, now: int)
    | DoSweep(now: int)
    | DoJoin(c: ClientId, room: H.Room, now: int)
    | DoLeaveRoom(c: ClientId, room: H.Room)

  /** `order` lists the targets of `job`, each once, as a walk over the hub's maps does. */
  ghost predicate Enumerates(order: seq<ClientId>, targets: set<ClientId>) {
    (forall c :: c in order <==> c in targets) && Distinct(order)
  }

  /** Which steps may happen: clients and session ids are fresh when introduced, the clock does not go
      back, emitted frames are events, and only registered clients join rooms. */
  ghost predicate Legal(w: Server, e: Step) {
    match e
    case DoConnect(c, cap) => c !in w.clients && cap > 0
    case DoOpen(c, _, newId, now) =>
      && c in w.clients && !w.clients[c].bound && c in w.hub.clients && w.now <= now
      && (newId.Some? ==> newId.value !in w.store.heap)
    case DoSend(c, data, _) => c in w.clients && IsEvent(data)
    case DoEmit(job, order, data, _) => IsEvent(data) && Enumerates(order, H.Targets(w.hub, job))
    case DoAck(c, _) => c in w.clients
    case DoPump(c) => c in w.clients && w.clients[c].bound
    case DoShutdown(c, _) => c in w.clients
    case DoRetire(c, now) => c in w.clients && w.clients[c].bound && w.now <= now
    case DoSweep(now) => w.now <= now
    case DoJoin(c, _, _) => c in w.hub.clients
    case DoLeaveRoom(c, _) => true
  }

  lemma TargetsAreClients(w: Server, job: H.EmitJob<ClientId>)
    requires Core(w)
    ensures forall c :: c in H.Targets(w.hub, job) ==> c in w.hub.clients && c in w.clients
  {
  }

  function Apply(w: Server, e: Step): Server
    requires Inv(w) && Legal(w, e)
  {
    match e
    case DoConnect(c, cap) => Connect(w, c, cap)
    case DoOpen(c, req, newId, now) => TickKeepsCore(w, now); OpenSession(Tick(w, now), c, req, newId)
    case DoSend(c, data, pol) => TrySend(w, c, data, pol).0
    case DoEmit(job, order, data, pol) => TargetsAreClients(w, job); SendAll(w, order, data, pol)
    case DoAck(c, n) => AckFrom(w, c, n)
    case DoPump(c) => PumpOnce(w, c)
    case DoShutdown(c, terminal) => CloseConn(w, c, terminal)
    case DoRetire(c, now) => TickKeepsCore(w, now); Retire(Tick(w, now), c)
    case DoSweep(now) => TickKeepsCore(w, now); SweepNow(Tick(w, now))
    case DoJoin(c, room, now) => if room == "" then w else w.(hub := H.Join(w.hub, c, room, now))
    case DoLeaveRoom(c, room) => if room == "" then w else w.(hub := H.LeaveRoom(w.hub, c, room))
  }

  lemma TimedStepKeepsInv(w: Server, e: Step)
    requires Inv(w) && Legal(w, e) && (e.DoOpen? || e.DoRetire? || e.DoSweep?)
    ensures Inv(Apply(w, e)) && Extends(w, Apply(w, e))
  {
    TickKeepsCore(w, e.now);
    var w1 := Tick(w, e.now);
    match e
    case DoOpen(c, req, newId, _) => OpenSessionKeepsInv(w1, c, req, newId);
    case DoRetire(c, _) => RetireKeepsInv(w1, c);
    case DoSweep(_) => SweepKeepsInv(w1);
    ExtendsTransitive(w, w1, Apply(w, e));
  }

  lemma RoomStepKeepsInv(w: Server, e: Step)
    requires Inv(w) && Legal(w, e) && (e.DoJoin? || e.DoLeaveRoom?)
    ensures Inv(Apply(w, e)) && Extends(w, Apply(w, e))
  {
    if e.room == "" {
      Reflexive(w);
    } else if e.DoJoin? {
      H.JoinKeepsInvIff(w.hub, e.c, e.room, e.now);
      RoomsKeepCore(w, H.Join(w.hub, e.c, e.room, e.now));
    } else {
      H.LeaveRoomKeepsInv(w.hub, e.c, e.room);
      RoomsKeepCore(w, H.LeaveRoom(w.hub, e.c, e.room));
    }
  }

  /** Every step keeps the invariant and takes nothing back. */
  lemma StepKeepsInv(w: Server, e: Step)
    requires Inv(w) && Legal(w, e)
    ensures Inv(Apply(w, e)) && Extends(w, Apply(w, e))
  {
    match e
    case DoConnect(c, cap) => ConnectKeepsCore(w, c, cap);
    case DoOpen(_, _, _, _) => TimedStepKeepsInv(w, e);
    case DoSend(c, data, pol) => TrySendKeepsCore(w, c, data, pol);
    case DoEmit(job, order, data, pol) =>
      TargetsAreClients(w, job);
      SendAllKeepsCore(w, order, data, pol);
    case DoAck(c, n) => AckKeepsCore(w, c, n);
    case DoPump(c) => PumpKeepsCore(w, c);
    case DoShutdown(c, terminal) => CloseConnKeepsCore(w, c, terminal);
    case DoRetire(_, _) => TimedStepKeepsInv(w, e);
    case DoSweep(_) => TimedStepKeepsInv(w, e);
    case DoJoin(_, _, _) => RoomStepKeepsInv(w, e);
    case DoLeaveRoom(_, _) => RoomStepKeepsInv(w, e);
  }

  ghost predicate LegalRun(w: Server, es: seq<Step>)
    requires Inv(w)
    decreases |es|
  {
    es != [] ==> Legal(w, es[0]) && (StepKeepsInv(w, es[0]); LegalRun(Apply(w, es[0]), es[1..]))
  }

  ghost function Run(w: Server, es: seq<Step>): (w': Server)
    requires Inv(w) && LegalRun(w, es)
    ensures Inv(w')
    decreases |es|
  {
    if es == [] then w else StepKeepsInv(w, es[0]); Run(Apply(w, es[0]), es[1..])
  }

  lemma StartInv(lim: Limits, now: int)
    requires ValidLimits(lim)
    ensures Inv(Start(lim, now))
  {
    S.EmptyInv<ClientId>(lim, now);
  }

  /** Safety over whole runs: in every reachable state the store, the hub and the connections agree
      (`Joined`), the store is consistent and bounded (`StoreSpec.Inv`), every connection's stream is
      its control frame followed by an unbroken run of its session's log (`Streams`), and nothing that
      was committed, closed or released is ever taken back. */
  lemma {:induction false} RunKeepsInv(w: Server, es: seq<Step>)
    requires Inv(w) && LegalRun(w, es)
    ensures Inv(Run(w, es)) && Extends(w, Run(w, es))
    decreases |es|
  {
    if es == [] {
      Reflexive(w);
    } else {
      StepKeepsInv(w, es[0]);
      var w1 := Apply(w, es[0]);
      RunKeepsInv(w1, es[1..]);
      ExtendsTransitive(w, w1, Run(w, es));
    }
  }

  // -------------------------------------------------------------------------
  // What a step does to one session

  /** Untouched, or closed. */
  predicate SameOrClosed(s: Session<ClientId>, s': Session<ClientId>) {
    s' == s || s' == s.(state := Closed)
  }

  lemma {:induction false} EvictOverOnlyCloses(w: Server, id: SessionId)
    requires id in w.store.heap
    requires forall i :: 0 <= i < |w.store.parked| ==> w.store.parked[i] in w.store.heap
    ensures id in EvictOver(w).store.heap && SameOrClosed(w.store.heap[id], EvictOver(w).store.heap[id])
    decreases |w.store.parked|
  {
    if |w.store.parked| > w.lim.maxParked {
      EvictOverOnlyCloses(Release(w, w.store.parked[0], S.ByEviction), id);
    }
  }

  lemma {:induction false} SweepOnlyCloses(w: Server, id: SessionId)
    requires id in w.store.heap
    requires forall i :: 0 <= i < |w.store.parked| ==> w.store.parked[i] in w.store.heap
    ensures id in SweepNow(w).store.heap && SameOrClosed(w.store.heap[id], SweepNow(w).store.heap[id])
    decreases |w.store.parked|
  {
    if w.store.parked != [] && w.now - w.store.heap[w.store.parked[0]].parkedAt > w.lim.ttl {
      SweepOnlyCloses(Release(w, w.store.parked[0], S.ByExpiry), id);
    }
  }

  /** A session is attached by a granted request for it, and otherwise at most closed. */
  lemma OpenToSession(w: Server, c: ClientId, req: Request, newId: Option<SessionId>, id: SessionId)
    requires Linked(w) && c in w.clients && w.store.stored <= w.store.heap.Keys && id in w.store.heap
    requires forall x :: x in w.store.heap ==> w.store.heap[x].next > 0
    requires newId.Some? ==> newId.value !in w.store.heap
    ensures var w' := OpenSession(w, c, req, newId);
            && id in w'.store.heap
            && if S.Decide(w.store, req, w.now, w.lim) == S.ResumeOf(id)
               then w'.store.heap[id] == Attach(w.store.heap[id], c, req.lastSeq)
               else SameOrClosed(w.store.heap[id], w'.store.heap[id])
  {
    hide Judge, Replay, S.Without, H.Transfer, H.Unregister, Attach;
  }

  /** The connection that holds the session parks or ends it, and others may be closed to make room. */
  lemma RetireToSession(w: Server, c: ClientId, id: SessionId)
    requires Linked(w) && c in w.clients && id in w.store.heap
    requires forall i :: 0 <= i < |w.store.parked| ==> w.store.parked[i] in w.store.heap
    ensures var s, w' := w.store.heap[id], Retire(w, c);
            && id in w'.store.heap
            && (SameOrClosed(s, w'.store.heap[id])
                || (s.live == Some(c) && !s.state.Closed?
                    && (w'.store.heap[id] == s.(state := Closed, live := None)
                        || SameOrClosed(s.(live := None, stalled := false, state := Parked, parkedAt := w.now),
                                        w'.store.heap[id]))))
  {
    hide EvictOver;
    if w.clients[c].session.Some? {
      var w1 := ParkClient(w, c, w.clients[c].session.value);
      assert forall i :: 0 <= i < |w1.store.parked| ==> w1.store.parked[i] in w1.store.heap;
      EvictOverOnlyCloses(w1, id);
    }
  }

  // -------------------------------------------------------------------------
  // Consequences in every reachable state

  /** The registered clients that have a session are exactly the members of the stored sessions, each
      of its own, and a client shows as parked exactly when its session is. */
  lemma RegistriesAgree(w: Server)
    requires Inv(w)
    ensures forall c :: c in w.hub.clients ==> c in w.clients
    ensures forall c :: c in w.hub.clients && w.clients[c].session.Some? ==>
              exists id :: id in w.store.stored && id in w.store.heap && w.store.heap[id].member == c
    ensures forall id :: id in w.store.stored ==>
              id in w.store.heap && w.store.heap[id].member in w.hub.clients
              && w.clients[w.store.heap[id].member].session == Some(id)
              && (w.clients[w.store.heap[id].member].parked <==> w.store.heap[id].state.Parked?)
  {
    CoreParts(w);
    forall c | c in w.hub.clients && w.clients[c].session.Some?
      ensures exists id :: id in w.store.stored && id in w.store.heap && w.store.heap[id].member == c
    {
      assert WellRegistered(w, c);
    }
    forall id | id in w.store.stored
      ensures id in w.store.heap && HasMember(w, id)
      ensures w.clients[w.store.heap[id].member].parked <==> w.store.heap[id].state.Parked?
    {
      assert HasMember(w, id);
      assert WellRegistered(w, w.store.heap[id].member);
    }
  }

  /** The shape of every connection's stream: first the control frame naming its session; then, at every
      position, a frame without a number or the frame whose number follows the numbers before it, the
      first being one above the position the session was resumed from (or 1), with its original bytes. */
  lemma StreamShape(w: Server, c: ClientId, i: nat)
    requires Inv(w) && c in w.clients && w.clients[c].session.Some? && i < |Stream(w.clients[c])|
    ensures var k := w.clients[c]; var ws, id := Stream(k), k.session.value;
            && id in w.store.heap
            && (i == 0 ==> ws[0].Hello? && ws[0].id == id && (!ws[0].resumed ==> k.base == 0))
            && (i > 0 ==> IsPlain(ws[i]) || IsNextFrame(ws, k.base, w.store.heap[id].log, i))
  {
    hide Core, Numbered, Follows, Stamp, SeqOf, BodyOf, IsPlain, IsNextFrame, AllEvents, Stream;
    var k := w.clients[c];
    StreamOfClient(w, c);
    if i > 0 {
      ShapeAt(Stream(k), k.base, w.store.heap[k.session.value].log, i);
    }
  }

  /** Position `i` holds the log frame that follows the numbered frames before it. */
  ghost predicate IsNextFrame(ws: seq<Wire>, base: nat, log: seq<bytes>, i: nat)
    requires 0 < i < |ws|
  {
    var n := base + Numbered(ws[1..i]);
    n < |log| && ws[i].Event? && SeqOf(ws[i].data) == Some(n + 1) && BodyOf(ws[i].data) == log[n]
  }

  lemma ShapeAt(ws: seq<Wire>, base: nat, log: seq<bytes>, i: nat)
    requires 0 < i < |ws| && Follows(ws[1..], base, log) && AllEvents(log)
    ensures IsPlain(ws[i]) || IsNextFrame(ws, base, log, i)
  {
    hide Follows, Numbered, Stamp, SeqOf, BodyOf;
    var tail := ws[1..];
    FollowsAt(tail, base, log, i - 1);
    assert tail[..i - 1] == ws[1..i] && tail[i - 1] == ws[i];
    if !IsPlain(ws[i]) {
      StampRoundTrip(log[base + Numbered(ws[1..i])], base + Numbered(ws[1..i]) + 1);
    }
  }

  /** Closed is absorbing: a session that was released or terminated stays closed through every run, and
      a request to resume it is answered with a fresh session and "unknown session". */
  lemma ClosedSessionsNeverResume(w: Server, es: seq<Step>, id: SessionId, req: Request, now: int)
    requires Inv(w) && LegalRun(w, es)
    requires id in w.store.heap && w.store.heap[id].state.Closed?
    requires req.requested && !req.invalid && req.id == id
    ensures var w' := Run(w, es);
            && id in w'.store.heap && w'.store.heap[id].state.Closed?
            && w'.store.stored <= w'.store.heap.Keys
            && S.Decide(w'.store, req, now, w'.lim) == S.NewSession(Some(UnknownSession), None)
  {
    RunKeepsInv(w, es);
    CoreParts(Run(w, es));
  }

  /** A queue that is within its capacity stays so, and a connection that has been shut stays shut. */
  lemma QueuesStayBounded(w: Server, es: seq<Step>, c: ClientId)
    requires Inv(w) && LegalRun(w, es) && c in w.clients && |w.clients[c].queue| <= w.clients[c].cap
    ensures var w' := Run(w, es);
            && c in w'.clients && |w'.clients[c].queue| <= w'.clients[c].cap == w.clients[c].cap
            && (w.clients[c].shut ==> w'.clients[c].shut)
  {
    hide Core;
    RunKeepsInv(w, es);
    assert ClientGrows(w.clients[c], Run(w, es).clients[c]);
  }

  /** The connection is bound to the session. */
  predicate BoundTo(w: Server, c: ClientId, id: SessionId) {
    c in w.clients && w.clients[c].session == Some(id)
  }

  lemma RunFirst(w: Server, e: Step, es: seq<Step>)
    requires Inv(w) && LegalRun(w, [e] + es)
    ensures Legal(w, e) && Inv(Apply(w, e)) && LegalRun(Apply(w, e), es)
    ensures Run(w, [e] + es) == Run(Apply(w, e), es)
  {
    hide Core, Legal, Apply;
    assert ([e] + es)[0] == e && ([e] + es)[1..] == es;
    StepKeepsInv(w, e);
  }

  lemma CreatedFor(w: Server, c: ClientId, req: Request, id: SessionId)
    requires Linked(w) && c in w.clients && w.store.stored <= w.store.heap.Keys && id !in w.store.heap
    requires forall x :: x in w.store.heap ==> w.store.heap[x].next > 0
    requires BoundTo(OpenSession(w, c, req, Some(id)), c, id)
    ensures var w' := OpenSession(w, c, req, Some(id)); id in w'.store.heap && w'.store.heap[id] == Fresh(req.owner, c)
  {
    hide Judge, Replay, H.Transfer, H.Unregister, S.Without;
  }

  /** A connection that has been given an existing session has asked for it. */
  lemma GivenMeansGranted(w: Server, c: ClientId, req: Request, newId: Option<SessionId>, id: SessionId)
    requires Linked(w) && c in w.clients && w.store.stored <= w.store.heap.Keys && id in w.store.heap
    requires forall x :: x in w.store.heap ==> w.store.heap[x].next > 0
    requires w.clients[c].session == None && (newId.Some? ==> newId.value !in w.store.heap)
    requires BoundTo(OpenSession(w, c, req, newId), c, id)
    ensures S.Decide(w.store, req, w.now, w.lim) == S.ResumeOf(id)
    ensures req.requested && !req.invalid && req.id == id && Judge(w.store.heap[id], req, w.now, w.lim.ttl).Grant?
  {
    hide Judge, BindResume, BindFresh, Release;
    match S.Decide(w.store, req, w.now, w.lim)
    case ResumeOf(x) => BindsTo(w, c, x, req.lastSeq);
    case NewSession(reason, victim) =>
      var w1 := w;
      if victim.Some? && victim.value in w.store.heap {
        w1 := Release(w, victim.value, S.ByReplacement);
        assert w1.clients == w.clients by { ReleaseLeavesClients(w, victim.value, S.ByReplacement); }
      }
      if newId.Some? {
        StartsAs(w1, c, newId.value, req.owner, reason);
      }
  }

  lemma BindsTo(w: Server, c: ClientId, id: SessionId, lastSeq: nat)
    requires c in w.clients && id in w.store.heap && w.store.heap[id].next > 0
    ensures var w' := BindResume(w, c, id, lastSeq);
            w'.clients.Keys == w.clients.Keys && w'.clients[c].session == Some(id)
  {
  }

  lemma StartsAs(w: Server, c: ClientId, id: SessionId, owner: string, reason: Option<Reason>)
    requires c in w.clients
    ensures var w' := BindFresh(w, c, id, owner, reason); c in w'.clients && w'.clients[c].session == Some(id)
  {
  }

  lemma ReleaseLeavesClients(w: Server, id: SessionId, why: S.ReleaseReason)
    requires id in w.store.heap
    ensures Release(w, id, why).clients == w.clients
  {
  }

  /** It has asked in the name of the session's owner, in time, and at a position from which everything is
      still buffered. */
  lemma ResumeNeedsOwner(w: Server, e: Step, id: SessionId)
    requires Inv(w) && Legal(w, e) && e.DoOpen? && id in w.store.heap && BoundTo(Apply(w, e), e.c, id)
    ensures e.req.requested && !e.req.invalid && e.req.id == id && e.req.owner == w.store.heap[id].owner
    ensures !w.store.heap[id].state.Closed? && InTime(w.store.heap[id], e.now, w.lim)
    ensures e.req.lastSeq <= |w.store.heap[id].log| && AllBuffered(w.store.heap[id], e.req.lastSeq)
  {
    hide Core, Judge, InTime, AllBuffered, OpenSession, BoundTo, S.Decide;
    TickKeepsCore(w, e.now);
    var w1 := Tick(w, e.now);
    CoreParts(w1);
    SessionFacts(w1, id);
    StreamOfClient(w1, e.c);
    GivenMeansGranted(w1, e.c, e.req, e.newId, id);
    GrantIff(w.store.heap[id], e.req, e.now, w.lim);
  }

  lemma FirstOwner(w: Server, e: Step, id: SessionId)
    requires Inv(w) && Legal(w, e) && e.DoOpen? && e.newId == Some(id) && BoundTo(Apply(w, e), e.c, id)
    ensures id in Apply(w, e).store.heap && Apply(w, e).store.heap[id].owner == e.req.owner
  {
    hide Core, OpenSession, BoundTo;
    TickKeepsCore(w, e.now);
    CoreParts(Tick(w, e.now));
    CreatedFor(Tick(w, e.now), e.c, e.req, id);
  }

  /** Only the owner resumes. A session created for one request is never bound to a connection whose
      request names another owner, whatever happens in between. */
  lemma OnlyOwnersResume(w: Server, first: Step, es: seq<Step>, again: Step, id: SessionId)
    requires Inv(w) && LegalRun(w, [first] + es) && Legal(Run(w, [first] + es), again)
    requires first.DoOpen? && first.newId == Some(id) && again.DoOpen?
    requires Legal(w, first) && BoundTo(Apply(w, first), first.c, id)
    requires BoundTo(Apply(Run(w, [first] + es), again), again.c, id)
    ensures again.req.owner == first.req.owner && again.req.requested && again.req.id == id
  {
    hide Core, Apply, Legal, LegalRun, Run, BoundTo;
    RunFirst(w, first, es);
    FirstOwner(w, first, id);
    RunKeepsInv(Apply(w, first), es);
    ResumeNeedsOwner(Run(w, [first] + es), again, id);
  }

  /** Sessions created = sessions stored + releases + terminal leaves, in every reachable state. */
  lemma RunConservesSessions(w: Server, es: seq<Step>)
    requires Inv(w) && LegalRun(w, es)
    ensures var st := Run(w, es).store;
            && |st.heap| == |st.stored| + |st.released| + |st.terminated|
            && S.ReleasedOnce(st.released) && w.store.released <= st.released
  {
    RunKeepsInv(w, es);
    S.SessionsConserved(Run(w, es).store, Run(w, es).lim, Run(w, es).now);
  }
}
