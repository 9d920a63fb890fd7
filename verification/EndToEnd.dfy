/** The server together with any number of peers, and the end-to-end theorems over whole runs. */
module EndToEnd {
  import opened Commons
  import opened Bytes
  import opened SessionSpec
  import opened ClientSpec
  import opened ServerModel
  import opened ServerSteps
  import opened ServerRuns
  import opened Peers
  import S = StoreSpec

  datatype System = System(server: Server, peers: map<PeerId, Peer>)

  /** The environment is arbitrary: besides the peers' own moves, any legal server step may happen at
      any time, including sessions opened, acknowledged or displaced by somebody else. */
  datatype Action =
    | ServerMoves(e: Step)
    | PeerConnects(p: PeerId, c: ClientId, lag: nat, owner: string, newId: Option<SessionId>, now: int)
    | PeerReads(p: PeerId)
    | PeerDrops(p: PeerId)

  ghost predicate SystemInv(y: System) {
    && Inv(y.server)
    && (forall p :: p in y.peers ==> PeerInv(y.server, y.peers[p]))
  }

  ghost predicate Possible(y: System, a: Action) {
    match a
    case ServerMoves(e) => Legal(y.server, e)
    case PeerConnects(p, c, lag, owner, newId, now) =>
      && p in y.peers && lag <= y.peers[p].lastSeq
      && Legal(y.server, DoOpen(c, RequestOf(y.peers[p], lag, owner), newId, now))
    case PeerReads(p) =>
      && p in y.peers && y.peers[p].conn.Some?
      && var cn := y.peers[p].conn.value;
         cn.client in y.server.clients && cn.got < |y.server.clients[cn.client].out|
    case PeerDrops(p) => p in y.peers
  }

  ghost function Do(y: System, a: Action): System
    requires SystemInv(y) && Possible(y, a)
  {
    match a
    case ServerMoves(e) => y.(server := Apply(y.server, e))
    case PeerConnects(p, c, lag, owner, newId, now) =>
      System(Apply(y.server, DoOpen(c, RequestOf(y.peers[p], lag, owner), newId, now)),
             y.peers[p := Join(y.peers[p], c)])
    case PeerReads(p) => y.(peers := y.peers[p := Read(y.server, y.peers[p])])
    case PeerDrops(p) => y.(peers := y.peers[p := y.peers[p].(conn := None)])
  }

  /** A server step, seen by all peers. */
  lemma PeersSurviveStep(y: System, e: Step)
    requires SystemInv(y) && Legal(y.server, e)
    ensures Inv(Apply(y.server, e))
    ensures forall p :: p in y.peers ==> PeerInv(Apply(y.server, e), y.peers[p])
  {
    hide Core, Legal, Apply, PeerInv, Extends;
    StepKeepsInv(y.server, e);
    forall p | p in y.peers
      ensures PeerInv(Apply(y.server, e), y.peers[p])
    {
      PeerInvLater(y.server, Apply(y.server, e), y.peers[p]);
    }
  }

  lemma ConnectStep(y: System, p: PeerId, c: ClientId, lag: nat, owner: string, newId: Option<SessionId>, now: int)
    requires SystemInv(y) && Possible(y, PeerConnects(p, c, lag, owner, newId, now))
    ensures var e := DoOpen(c, RequestOf(y.peers[p], lag, owner), newId, now);
            PeerInv(Apply(y.server, e), Join(y.peers[p], c))
  {
    hide Core, PeerInv, RequestOf, Extends;
    TickKeepsCore(y.server, now);
    var w1 := Tick(y.server, now);
    PeerInvLater(y.server, w1, y.peers[p]);
    ConnectKeepsPeerInv(w1, y.peers[p], c, lag, owner, newId);
  }

  lemma DoKeepsInv(y: System, a: Action)
    requires SystemInv(y) && Possible(y, a)
    ensures SystemInv(Do(y, a))
  {
    hide Core, Legal, Apply, RequestOf, Read, UpToDate, InStep;
    match a
    case ServerMoves(e) => PeersSurviveStep(y, e);
    case PeerConnects(p, c, lag, owner, newId, now) =>
      PeersSurviveStep(y, DoOpen(c, RequestOf(y.peers[p], lag, owner), newId, now));
      ConnectStep(y, p, c, lag, owner, newId, now);
    case PeerReads(p) => ReadKeepsPeerInv(y.server, y.peers[p]);
    case PeerDrops(p) => DropKeepsPeerInv(y.server, y.peers[p]);
  }

  lemma DropKeepsPeerInv(w: Server, p: Peer)
    requires PeerInv(w, p)
    ensures PeerInv(w, p.(conn := None))
  {
  }

  ghost predicate PossibleRun(y: System, acts: seq<Action>)
    requires SystemInv(y)
    decreases |acts|
  {
    acts != [] ==> Possible(y, acts[0]) && (DoKeepsInv(y, acts[0]); PossibleRun(Do(y, acts[0]), acts[1..]))
  }

  ghost function RunAll(y: System, acts: seq<Action>): System
    requires SystemInv(y) && PossibleRun(y, acts)
    decreases |acts|
  {
    if acts == [] then y else DoKeepsInv(y, acts[0]); RunAll(Do(y, acts[0]), acts[1..])
  }

  lemma {:induction false} RunAllKeepsInv(y: System, acts: seq<Action>)
    requires SystemInv(y) && PossibleRun(y, acts)
    ensures SystemInv(RunAll(y, acts))
    decreases |acts|
  {
    hide SystemInv, Possible, Do;
    if acts != [] {
      DoKeepsInv(y, acts[0]);
      RunAllKeepsInv(Do(y, acts[0]), acts[1..]);
    }
  }

  ghost function Begin(lim: Limits, now: int, peers: set<PeerId>): (y: System)
    requires ValidLimits(lim)
    ensures SystemInv(y)
  {
    StartInv(lim, now);
    System(Start(lim, now), map p | p in peers :: NEW_PEER)
  }

  /** End-to-end stream. In every run, under any mix of full queues, drops, acknowledgements, oversize
      frames, evictions, connection losses, displacements and resumes, a peer that holds a session has
      handled exactly the first `lastSeq` frames of that session's commit log, each once, in order and
      with its original bytes. */
  lemma PeersHandleExactPrefix(lim: Limits, now: int, peers: set<PeerId>, acts: seq<Action>, p: PeerId)
    requires ValidLimits(lim) && p in peers
    requires PossibleRun(Begin(lim, now, peers), acts)
    ensures var y := RunAll(Begin(lim, now, peers), acts);
            p in y.peers &&
            match y.peers[p].id
            case None => y.peers[p].handled == []
            case Some(id) =>
              && id in y.server.store.heap
              && y.peers[p].lastSeq <= |y.server.store.heap[id].log|
              && y.peers[p].handled == y.server.store.heap[id].log[..y.peers[p].lastSeq]
  {
    hide Core, Possible, Do;
    RunAllKeepsInv(Begin(lim, now, peers), acts);
    RunAllKeepsPeers(Begin(lim, now, peers), acts);
    var y := RunAll(Begin(lim, now, peers), acts);
    assert PeerInv(y.server, y.peers[p]);
  }

  lemma {:induction false} RunAllKeepsPeers(y: System, acts: seq<Action>)
    requires SystemInv(y) && PossibleRun(y, acts)
    ensures RunAll(y, acts).peers.Keys == y.peers.Keys
    decreases |acts|
  {
    hide Core, Legal, Apply, RequestOf, PeerInv;
    if acts != [] {
      DoKeepsInv(y, acts[0]);
      RunAllKeepsPeers(Do(y, acts[0]), acts[1..]);
    }
  }

  /** No silent loss of a session: the first frame a returning peer reads on a connection that has a
      session either resumes the peer's own session, leaving it where it was, or names a reason and a
      session of its own, from whose start the peer goes on. On a connection without a session the peer
      reads a best-effort frame and keeps its position. */
  lemma FirstFrameTellsPeer(y: System, p: PeerId)
    requires SystemInv(y) && Possible(y, PeerReads(p)) && y.peers[p].id.Some? && y.peers[p].conn.value.got == 0
    ensures var peer, peer' := y.peers[p], Do(y, PeerReads(p)).peers[p];
            var k := y.server.clients[peer.conn.value.client]; var f := k.out[0];
            if k.session == None then
              IsPlain(f) && peer'.id == peer.id && peer'.lastSeq == peer.lastSeq && peer'.handled == peer.handled
            else
              && f.Hello? && k.session == Some(f.id) && peer'.id == k.session
              && if f.resumed
                 then peer'.id == peer.id && peer'.lastSeq == peer.lastSeq && peer'.handled == peer.handled
                 else f.reason.Some? && peer'.id != peer.id && peer'.lastSeq == 0 && peer'.handled == []
  {
    hide Core, Follows;
    var c := y.peers[p].conn.value.client;
    assert PeerInv(y.server, y.peers[p]);
    StreamOfClient(y.server, c);
    assert Stream(y.server.clients[c])[0] == y.server.clients[c].out[0];
  }

  /** Every opening of a session in the run has drawn a session id. */
  ghost predicate DrawsId(a: Action) {
    match a
    case ServerMoves(e) => e.DoOpen? ==> e.newId.Some?
    case PeerConnects(_, _, _, _, newId, _) => newId.Some?
    case _ => true
  }

  /** Every connection that has been bound has a session. */
  ghost predicate AllHaveSessions(w: Server) {
    forall c :: c in w.clients && w.clients[c].bound ==> w.clients[c].session.Some?
  }

  lemma SameLinksHaveSessions(w: Server, w': Server)
    requires SameLinks(w, w') && AllHaveSessions(w)
    ensures AllHaveSessions(w')
  {
    forall c | c in w'.clients && w'.clients[c].bound
      ensures w'.clients[c].session.Some?
    {
      assert SameBinding(w.clients[c], w'.clients[c]);
    }
  }

  lemma {:induction false} EvictionKeepsClients(w: Server)
    requires forall i :: 0 <= i < |w.store.parked| ==> w.store.parked[i] in w.store.heap
    ensures EvictOver(w).clients == w.clients
    decreases |w.store.parked|
  {
    if |w.store.parked| > w.lim.maxParked {
      EvictionKeepsClients(Release(w, w.store.parked[0], S.ByEviction));
    }
  }

  lemma {:induction false} SweepKeepsClients(w: Server)
    requires forall i :: 0 <= i < |w.store.parked| ==> w.store.parked[i] in w.store.heap
    ensures SweepNow(w).clients == w.clients
    decreases |w.store.parked|
  {
    if w.store.parked != [] && w.now - w.store.heap[w.store.parked[0]].parkedAt > w.lim.ttl {
      SweepKeepsClients(Release(w, w.store.parked[0], S.ByExpiry));
    }
  }

  lemma RetireHasSessions(w: Server, c: ClientId)
    requires Linked(w) && c in w.clients && AllHaveSessions(w)
    requires forall i :: 0 <= i < |w.store.parked| ==> w.store.parked[i] in w.store.heap
    ensures AllHaveSessions(Retire(w, c))
  {
    hide EvictOver;
    if w.clients[c].session.Some? {
      var w1 := ParkClient(w, c, w.clients[c].session.value);
      assert forall i :: 0 <= i < |w1.store.parked| ==> w1.store.parked[i] in w1.store.heap;
      EvictionKeepsClients(w1);
    }
  }

  lemma OpenHasSessions(w: Server, c: ClientId, req: Request, newId: SessionId)
    requires Linked(w) && c in w.clients && w.store.stored <= w.store.heap.Keys && AllHaveSessions(w)
    requires forall id :: id in w.store.heap ==> w.store.heap[id].next > 0
    ensures AllHaveSessions(OpenSession(w, c, req, Some(newId)))
  {
    hide Judge, BindResume, BindFresh, Release;
    match S.Decide(w.store, req, w.now, w.lim)
    case ResumeOf(id) => ResumeHasSessions(w, c, id, req.lastSeq);
    case NewSession(reason, victim) =>
      if victim.Some? && victim.value in w.store.heap {
        ReleaseKeepsClients(w, victim.value);
        FreshHasSessions(Release(w, victim.value, S.ByReplacement), c, newId, req.owner, reason);
      } else {
        FreshHasSessions(w, c, newId, req.owner, reason);
      }
  }

  lemma ResumeHasSessions(w: Server, c: ClientId, id: SessionId, lastSeq: nat)
    requires c in w.clients && id in w.store.heap && w.store.heap[id].next > 0 && AllHaveSessions(w)
    ensures AllHaveSessions(BindResume(w, c, id, lastSeq))
    ensures BindResume(w, c, id, lastSeq).clients.Keys == w.clients.Keys
  {
  }

  lemma FreshHasSessions(w: Server, c: ClientId, id: SessionId, owner: string, reason: Option<Reason>)
    requires c in w.clients && AllHaveSessions(w)
    ensures AllHaveSessions(BindFresh(w, c, id, owner, reason))
  {
  }

  lemma StepHasSessions(w: Server, e: Step)
    requires Inv(w) && Legal(w, e) && AllHaveSessions(w) && (e.DoOpen? ==> e.newId.Some?)
    ensures AllHaveSessions(Apply(w, e))
  {
    hide Core, AllHaveSessions;
    if e.DoOpen? || e.DoRetire? || e.DoSweep? {
      TimedStepHasSessions(w, e);
    } else if e.DoConnect? || e.DoJoin? || e.DoLeaveRoom? {
      HubStepHasSessions(w, e);
    } else {
      LinkedStepHasSessions(w, e);
    }
  }

  lemma TimedStepHasSessions(w: Server, e: Step)
    requires Inv(w) && Legal(w, e) && AllHaveSessions(w) && (e.DoOpen? ==> e.newId.Some?)
    requires e.DoOpen? || e.DoRetire? || e.DoSweep?
    ensures AllHaveSessions(Apply(w, e))
  {
    hide Core, OpenSession, Retire, SweepNow;
    TickKeepsCore(w, e.now);
    var w1 := Tick(w, e.now);
    CoreParts(w1);
    match e
    case DoOpen(c, req, newId, _) => OpenHasSessions(w1, c, req, newId.value);
    case DoRetire(c, _) => RetireHasSessions(w1, c);
    case DoSweep(_) => SweepKeepsClients(w1);
  }

  lemma HubStepHasSessions(w: Server, e: Step)
    requires Inv(w) && Legal(w, e) && AllHaveSessions(w) && (e.DoConnect? || e.DoJoin? || e.DoLeaveRoom?)
    ensures AllHaveSessions(Apply(w, e))
  {
    hide Core;
  }

  lemma LinkedStepHasSessions(w: Server, e: Step)
    requires Inv(w) && Legal(w, e) && AllHaveSessions(w)
    requires e.DoSend? || e.DoEmit? || e.DoAck? || e.DoPump? || e.DoShutdown?
    ensures AllHaveSessions(Apply(w, e))
  {
    hide Core, SameLinks, Extends, AllHaveSessions;
    CoreParts(w);
    match e {
      case DoSend(c, data, pol) => TrySendKeepsCore(w, c, data, pol);
      case DoEmit(job, order, data, pol) =>
        TargetsAreClients(w, job);
        SendAllKeepsCore(w, order, data, pol);
      case DoAck(c, n) => AckKeepsCore(w, c, n);
      case DoPump(c) => PumpKeepsCore(w, c);
      case DoShutdown(c, terminal) => CloseConnKeepsCore(w, c, terminal);
    }
    SameLinksHaveSessions(w, Apply(w, e));
  }

  lemma {:induction false} RunHasSessions(y: System, acts: seq<Action>)
    requires SystemInv(y) && PossibleRun(y, acts) && AllHaveSessions(y.server)
    requires forall i :: 0 <= i < |acts| ==> DrawsId(acts[i])
    ensures AllHaveSessions(RunAll(y, acts).server)
    decreases |acts|
  {
    hide Core, Legal, Apply, AllHaveSessions, RequestOf, Read;
    if acts != [] {
      DoKeepsInv(y, acts[0]);
      assert DrawsId(acts[0]);
      match acts[0] {
        case ServerMoves(e) => StepHasSessions(y.server, e);
        case PeerConnects(p, c, lag, owner, newId, now) =>
          StepHasSessions(y.server, DoOpen(c, RequestOf(y.peers[p], lag, owner), newId, now));
        case _ =>
      }
      RunHasSessions(Do(y, acts[0]), acts[1..]);
    }
  }

  /** In every run in which session ids can be drawn, the first frame that a returning peer reads on a new
      connection tells it how it fared: resumed where it was, or the reason why not and another session,
      from whose start it goes on. */
  lemma ReturningPeerAlwaysLearns(lim: Limits, now: int, peers: set<PeerId>, acts: seq<Action>, p: PeerId)
    requires ValidLimits(lim) && p in peers
    requires PossibleRun(Begin(lim, now, peers), acts) && forall i :: 0 <= i < |acts| ==> DrawsId(acts[i])
    requires var y := RunAll(Begin(lim, now, peers), acts);
             Possible(y, PeerReads(p)) && y.peers[p].id.Some? && y.peers[p].conn.value.got == 0
    ensures SystemInv(RunAll(Begin(lim, now, peers), acts))
    ensures var y := RunAll(Begin(lim, now, peers), acts);
            var peer, peer' := y.peers[p], Do(y, PeerReads(p)).peers[p];
            var f := y.server.clients[peer.conn.value.client].out[0];
            && f.Hello? && peer'.id == Some(f.id)
            && if f.resumed
               then peer'.id == peer.id && peer'.lastSeq == peer.lastSeq && peer'.handled == peer.handled
               else f.reason.Some? && peer'.id != peer.id && peer'.lastSeq == 0 && peer'.handled == []
  {
    hide Core, Legal, Apply, PossibleRun, RunAll, OnFrame;
    var y := RunAll(Begin(lim, now, peers), acts);
    RunAllKeepsInv(Begin(lim, now, peers), acts);
    RunHasSessions(Begin(lim, now, peers), acts);
    assert PeerInv(y.server, y.peers[p]);
    FirstFrameTellsPeer(y, p);
  }

  /** Nothing is withheld: a peer that has read everything sent on the live connection of a session
      that has not stalled has handled the whole log. */
  lemma CaughtUpPeerHasWholeLog(y: System, p: PeerId, id: SessionId)
    requires SystemInv(y) && p in y.peers && y.peers[p].conn.Some? && y.peers[p].conn.value.got > 0
    requires id in y.server.store.heap
    requires var s := y.server.store.heap[id];
             s.state.Attached? && !s.stalled && s.member == y.peers[p].conn.value.client
    requires var k := y.server.clients[y.peers[p].conn.value.client];
             k.replay == [] && k.queue == [] && y.peers[p].conn.value.got == |k.out|
    ensures y.peers[p].id == Some(id) && y.peers[p].handled == y.server.store.heap[id].log
  {
    hide Core, Numbered, Complete;
    var w, peer := y.server, y.peers[p];
    LiveStreamIsComplete(w, id);
    assert PeerInv(w, peer);
    ReadToTheEnd(w.clients[peer.conn.value.client], peer, peer.conn.value, w.store.heap[id].log);
  }

  lemma LiveStreamIsComplete(w: Server, id: SessionId)
    requires Core(w) && id in w.store.heap && w.store.heap[id].state.Attached? && !w.store.heap[id].stalled
    ensures var s := w.store.heap[id];
            s.member in w.clients && w.clients[s.member].session == Some(id) && Complete(s.log, w.clients[s.member])
  {
    MemberIsBound(w, id);
    assert LiveComplete(w, id);
  }

  lemma ReadToTheEnd(k: Client, p: Peer, cn: Conn, log: seq<bytes>)
    requires InStep(k, p, cn) && cn.got > 0 && k.session.Some? && Complete(log, k)
    requires k.replay == [] && k.queue == [] && cn.got == |k.out|
    requires p.lastSeq <= |log| && p.handled == log[..p.lastSeq]
    ensures p.id == k.session && p.handled == log
  {
    hide Numbered;
    assert Stream(k) == k.out;
    assert Stream(k)[1..cn.got] == Stream(k)[1..];
    assert log[..|log|] == log;
  }
}
