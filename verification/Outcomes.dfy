/** What connecting, leaving and sending achieve for the peer: the connection that results, who else is
    affected, and that a frame with room for it gets onto the stream. */
module Outcomes {
  import opened Commons
  import opened Bytes
  import opened Frames
  import opened ReplayBuffers
  import opened SessionSpec
  import opened ClientSpec
  import opened ServerModel
  import opened ServerSteps
  import opened ServerRuns
  import opened Stalls
  import S = StoreSpec
  import H = Hubs

  // -------------------------------------------------------------------------
  // Sending

  /** A frame sent through any handle of a session whose connection is open and has room is the next one on
      that connection's stream; a reliable one is committed and carries the next number. */
  lemma SendArrives(w: Server, c2: ClientId, data: bytes, pol: Policy, c: ClientId, id: SessionId)
    requires Linked(w) && c2 in w.clients && w.clients[c2].session == Some(id) && Attending(w, c, id)
    requires Valid(w.store.heap[id], w.lim) && !w.store.heap[id].stalled
    requires !w.clients[c].shut && |w.clients[c].queue| < w.clients[c].cap
    ensures var (w', ok) := TrySend(w, c2, data, pol); var s := w.store.heap[id];
            && ok && Attending(w', c, id) && !w'.store.heap[id].stalled
            && w'.store.heap[id].log == (if pol.Volatile? then s.log else s.log + [data])
            && Stream(w'.clients[c])
               == Stream(w.clients[c]) + [Event(if pol.Volatile? then data else Stamp(data, |s.log| + 1))]
  {
    hide Deliver, Stamp;
    var s, k := w.store.heap[id], w.clients[c];
    DeliverGoes(s, data, pol, Room(k), w.lim);
    DeliverAsksIff(s, data, pol, Room(k), w.lim);
    DeliverCommitsIff(s, data, pol, Room(k), w.lim);
    DeliverStaysPut(s, data, pol, Room(k), w.lim);
    var d := Deliver(s, data, pol, Room(k), w.lim);
    assert Stream(Receive(k, d)) == Stream(k) + [d.queued.value];
  }

  /** Every frame handed to an open session is accounted for exactly once, in the log, in the stream of its
      connection as a best-effort frame, or in one of the two drop counters, of which the connection's
      counts frames that its queue had no room for. */
  lemma EveryFrameIsAccounted(w: Server, c2: ClientId, data: bytes, pol: Policy, c: ClientId, id: SessionId)
    requires Linked(w) && c2 in w.clients && w.clients[c2].session == Some(id) && Attending(w, c, id)
    ensures var w' := TrySend(w, c2, data, pol).0; var s := w.store.heap[id]; var k := w.clients[c];
            && id in w'.store.heap && c in w'.clients
            && var s', k' := w'.store.heap[id], w'.clients[c];
               && (|s'.log| - |s.log|) + (s'.dropped - s.dropped) + (k'.dropped - k.dropped)
                  + (if s'.log == s.log then |Stream(k')| - |Stream(k)| else 0) == 1
               && (k'.dropped > k.dropped ==> !s.stalled && !Room(k).Accepted? && !pol.Disconnect?)
               && (s'.dropped > s.dropped ==> s.stalled && pol.Volatile?)
  {
    hide Deliver, Stamp;
    var s, k := w.store.heap[id], w.clients[c];
    DeliverGoes(s, data, pol, Room(k), w.lim);
    DeliverCommitsIff(s, data, pol, Room(k), w.lim);
    DeliverStaysPut(s, data, pol, Room(k), w.lim);
    assert |s.log + [data]| == |s.log| + 1;
  }

  /** An acknowledgement within the log frees exactly the frames it confirms, of the session of the connection
      it arrives on, and changes nothing else; one beyond the log changes nothing. */
  lemma AckFrees(w: Server, c: ClientId, n: nat, id: SessionId)
    requires Linked(w) && c in w.clients && w.clients[c].session == Some(id) && Valid(w.store.heap[id], w.lim)
    ensures var w' := AckFrom(w, c, n); var s := w.store.heap[id];
            && id in w'.store.heap && w' == w.(store := w.store.(heap := w.store.heap[id := w'.store.heap[id]]))
            && w'.store.heap[id] == s.(buf := w'.store.heap[id].buf)
            && (forall e :: e in w'.store.heap[id].buf <==> e in s.buf && (n > |s.log| || e.num > n))
  {
    var s := w.store.heap[id];
    assert w.clients[c := w.clients[c]] == w.clients;
    AckedOnLogSuffix(s.buf, s.log, n);
    AckedMeans(s.buf, s.log, n);
  }

  lemma AckedMeans(es: seq<Entry>, log: seq<bytes>, n: nat)
    requires IsLogSuffix(es, log)
    ensures forall e :: e in Acked(es, n) <==> e in es && e.num > n
  {
    hide Acked;
    AckedOnLogSuffix(es, log, n);
    var t := Acked(es, n);
    var d := |es| - |t|;
    assert forall i :: 0 <= i < |t| ==> t[i] == es[d + i] && t[i].num > n;
    assert forall i :: 0 <= i < d ==> es[i].num <= n;
  }

  // -------------------------------------------------------------------------
  // Connecting

  lemma ResumedBinding(w: Server, c: ClientId, req: Request)
    requires Core(w) && c in w.clients && !w.clients[c].bound && c in w.hub.clients
    requires req.id in w.store.stored && req.id in w.store.heap
    requires Judge(w.store.heap[req.id], req, w.now, w.lim.ttl).Grant?
    ensures w.store.heap[req.id].next > 0
    ensures var w' := BindResume(w, c, req.id, req.lastSeq);
            && Attending(w', c, req.id) && !w'.store.heap[req.id].stalled
            && (forall x :: x in w.clients && x != c ==> x in w'.clients && w'.clients[x] == w.clients[x])
            && w'.store.released == w.store.released
  {
    hide Core, Judge, BindResume, H.Transfer, Attach, Replay, H.Inv, Linked, Valid;
    CoreParts(w);
    assert Valid(w.store.heap[req.id], w.lim) by { SessionFacts(w, req.id); }
    MemberIsOther(w, c, req.id);
    BoundParts(w, c, req.id, req.lastSeq);
    AttachMeans(w.store.heap[req.id], c, req, w.now, w.lim);
  }

  lemma StreamAfterResume(w: Server, c: ClientId, req: Request)
    requires c in w.clients && w.clients[c].out == [] && req.id in w.store.heap
    requires Valid(w.store.heap[req.id], w.lim) && w.store.heap[req.id].next > 0
    requires Judge(w.store.heap[req.id], req, w.now, w.lim.ttl).Grant?
    ensures req.lastSeq <= |w.store.heap[req.id].log|
    ensures var k' := BindResume(w, c, req.id, req.lastSeq).clients[c]; var log := w.store.heap[req.id].log;
            Stream(k') == [Hello(req.id, true, |log| - req.lastSeq, |log|, None)] + MissingFrames(log, req.lastSeq)
                          + w.clients[c].queue
  {
    hide Judge, BindResume, MissingFrames, Replay, Valid, Stream;
    GrantReplaysExactlyMissing(req.id, w.store.heap[req.id], req, w.now, w.lim);
    ResumedQueue(w, c, req.id, req.lastSeq);
  }

  lemma ResumedQueue(w: Server, c: ClientId, id: SessionId, lastSeq: nat)
    requires c in w.clients && id in w.store.heap && w.store.heap[id].next > 0 && w.clients[c].out == []
    ensures Stream(BindResume(w, c, id, lastSeq).clients[c])
            == Replay(id, w.store.heap[id], lastSeq) + w.clients[c].queue
  {
    hide Replay;
  }

  lemma RegistrationAfterResume(w: Server, c: ClientId, req: Request)
    requires Core(w) && c in w.clients && !w.clients[c].bound && c in w.hub.clients
    requires req.id in w.store.stored && req.id in w.store.heap
    requires Judge(w.store.heap[req.id], req, w.now, w.lim.ttl).Grant?
    ensures w.store.heap[req.id].next > 0
    ensures var h := BindResume(w, c, req.id, req.lastSeq).hub; var m := w.store.heap[req.id].member;
            && m != c && m !in h.clients && c in h.clients
            && H.RoomsOf(h, c) == H.RoomsOf(w.hub, m) + H.RoomsOf(w.hub, c)
  {
    hide Core, Judge, BindResume, H.Transfer, H.RoomsOf, Attach, Replay, H.Inv, Linked;
    CoreParts(w);
    MemberIsOther(w, c, req.id);
    TransferMoves(w.hub, w.store.heap[req.id].member, c);
    BoundParts(w, c, req.id, req.lastSeq);
  }

  lemma BoundParts(w: Server, c: ClientId, id: SessionId, lastSeq: nat)
    requires c in w.clients && id in w.store.heap && w.store.heap[id].next > 0 && w.store.heap[id].member != c
    ensures var w' := BindResume(w, c, id, lastSeq); var s := w.store.heap[id];
            && w'.clients == w.clients[c := w.clients[c].(session := Some(id), bound := true, base := lastSeq,
                                                          replay := Replay(id, s, lastSeq))]
            && id in w'.store.heap && w'.store.heap[id] == Attach(s, c, lastSeq)
            && w'.store.released == w.store.released && w'.hub == H.Transfer(w.hub, s.member, c)
  {
  }

  lemma MemberIsOther(w: Server, c: ClientId, id: SessionId)
    requires Core(w) && c in w.clients && !w.clients[c].bound && id in w.store.stored && id in w.store.heap
    ensures w.store.heap[id].member != c && !w.store.heap[id].state.Closed?
    ensures w.store.heap[id].live.Some? ==> w.store.heap[id].live == Some(w.store.heap[id].member)
  {
    assert StreamOk(w.store.heap, w.clients[c]) && HasMember(w, id);
  }

  lemma TransferMoves(h: H.Hub<ClientId>, from: ClientId, to: ClientId)
    requires H.Inv(h) && from != to && to in h.clients
    ensures var h' := H.Transfer(h, from, to);
            h'.clients == h.clients - {from} && H.RoomsOf(h', to) == H.RoomsOf(h, from) + H.RoomsOf(h, to)
  {
    H.TransferMovesRooms(h, from, to);
  }

  /** A granted resume: the new connection holds the session, which has not stalled; its stream is the
      control frame, the missing frames and what was queued before; it takes over the registration and
      the rooms of the previous member; the connection that held the session before is closed; nobody
      else's connection changes and no session is released. */
  lemma ResumeMeans(w: Server, c: ClientId, req: Request, newId: Option<SessionId>)
    requires Inv(w) && Linked(w) && c in w.clients && !w.clients[c].bound && c in w.hub.clients
    requires w.store.stored <= w.store.heap.Keys
    requires forall id :: id in w.store.heap ==> w.store.heap[id].next > 0
    requires req.requested && !req.invalid && req.id in w.store.stored
    requires Judge(w.store.heap[req.id], req, w.now, w.lim.ttl).Grant?
    ensures var w' := OpenSession(w, c, req, newId); var s := w.store.heap[req.id];
            && req.lastSeq <= |s.log| && Attending(w', c, req.id) && !w'.store.heap[req.id].stalled
            && Stream(w'.clients[c])
               == [Hello(req.id, true, |s.log| - req.lastSeq, |s.log|, None)] + MissingFrames(s.log, req.lastSeq)
                  + w.clients[c].queue
            && s.member !in w'.hub.clients && c in w'.hub.clients
            && H.RoomsOf(w'.hub, c) == H.RoomsOf(w.hub, s.member) + H.RoomsOf(w.hub, c)
            && (forall x :: x in w.clients && x != c ==>
                  && x in w'.clients
                  && w'.clients[x] == if s.live == Some(x) then w.clients[x].(shut := true) else w.clients[x])
            && w'.store.released == w.store.released
  {
    hide Core, Judge, BindResume, MissingFrames, H.RoomsOf, Stream, Attending;
    ResumedBinding(w, c, req);
    assert w.clients[c].out == [] by { StreamOfClient(w, c); }
    assert Valid(w.store.heap[req.id], w.lim) by { SessionFacts(w, req.id); }
    StreamAfterResume(w, c, req);
    RegistrationAfterResume(w, c, req);
    MemberIsOther(w, c, req.id);
    var w1 := BindResume(w, c, req.id, req.lastSeq);
    if w.store.heap[req.id].live.Some? {
      ClosingOther(w1, c, req.id, w.store.heap[req.id].live.value);
    }
  }

  lemma ClosingOther(w: Server, c: ClientId, id: SessionId, l: ClientId)
    requires Attending(w, c, id) && l in w.clients && l != c
    ensures var w' := CloseConn(w, l, false);
            && Attending(w', c, id) && w'.clients[c] == w.clients[c] && w'.hub == w.hub && w'.store == w.store
            && w'.clients == w.clients[l := w.clients[l].(shut := true)]
  {
  }

  /** A new session: it belongs to the requesting owner and to the new connection, whose stream is the
      control frame with the reason of the refusal, if any, and what was queued before. Nobody else's
      connection changes. The requested session is discarded and its member unregistered exactly when it
      is the request's own and can no longer be resumed; otherwise no session is released. */
  lemma NewSessionMeans(w: Server, c: ClientId, req: Request, id: SessionId)
    requires Inv(w) && Linked(w) && c in w.clients && !w.clients[c].bound && c in w.hub.clients
    requires w.store.stored <= w.store.heap.Keys && id !in w.store.heap
    requires forall x :: x in w.store.heap ==> w.store.heap[x].next > 0
    requires S.Decide(w.store, req, w.now, w.lim).NewSession?
    ensures var w' := OpenSession(w, c, req, Some(id)); var d := S.Decide(w.store, req, w.now, w.lim);
            && Attending(w', c, id) && w'.store.heap[id] == Fresh(req.owner, c)
            && Stream(w'.clients[c]) == [Hello(id, false, 0, 0, d.reason)] + w.clients[c].queue
            && (forall x :: x in w.clients && x != c ==> x in w'.clients && w'.clients[x] == w.clients[x])
            && (if d.victim.Some?
                then && d.victim.value in w.store.heap
                     && w'.store.released == w.store.released + [S.Release(d.victim.value, S.ByReplacement)]
                     && w.store.heap[d.victim.value].member !in w'.hub.clients
                else w'.store.released == w.store.released && w'.hub == w.hub)
  {
    hide Core, Judge, BindFresh, Release;
    StreamOfClient(w, c);
    var d := S.Decide(w.store, req, w.now, w.lim);
    if d.victim.Some? {
      ReleaseParts(w, d.victim.value);
      FreshParts(Release(w, d.victim.value, S.ByReplacement), c, id, req.owner, d.reason);
    } else {
      FreshParts(w, c, id, req.owner, d.reason);
    }
  }

  lemma FreshParts(w: Server, c: ClientId, id: SessionId, owner: string, reason: Option<Reason>)
    requires c in w.clients && w.clients[c].out == [] && w.clients[c].replay == []
    ensures var w' := BindFresh(w, c, id, owner, reason);
            && Attending(w', c, id) && w'.store.heap[id] == Fresh(owner, c)
            && Stream(w'.clients[c]) == [Hello(id, false, 0, 0, reason)] + w.clients[c].queue
            && (forall x :: x in w.clients && x != c ==> x in w'.clients && w'.clients[x] == w.clients[x])
            && w'.store.released == w.store.released && w'.hub == w.hub
  {
  }

  lemma ReleaseParts(w: Server, id: SessionId)
    requires id in w.store.heap
    ensures var w' := Release(w, id, S.ByReplacement);
            && w'.clients == w.clients && w.store.heap[id].member !in w'.hub.clients
            && w'.store.released == w.store.released + [S.Release(id, S.ByReplacement)]
  {
  }

  lemma Unregistered(h: H.Hub<ClientId>, c: ClientId)
    ensures H.Unregister(h, c).clients == h.clients - {c}
  {
  }

  /** What `Open` reports is what `openSession` does with it. Resumed means that the connection is bound to a
      session that existed; the reported previous member is unregistered; the reported displaced connection
      is closed, and no other one changes; the reported victim is released, and nothing else is; the peer is told
      the reported reason. */
  lemma OpenedMeans(w: Server, c: ClientId, req: Request, id: SessionId)
    requires Inv(w) && Linked(w) && c in w.clients && !w.clients[c].bound && c in w.hub.clients
    requires w.store.stored <= w.store.heap.Keys && id !in w.store.heap
    requires forall x :: x in w.store.heap ==> w.store.heap[x].next > 0
    ensures var o := S.Open(w.store, c, req, Some(id), w.now, w.lim); var w' := OpenSession(w, c, req, Some(id));
            && o.session.Some? && Attending(w', c, o.session.value)
            && (o.resumed <==> o.session.value in w.store.heap)
            && (!o.resumed ==> Stream(w'.clients[c]) == [Hello(id, false, 0, 0, o.reason)] + w.clients[c].queue)
            && (o.prev.Some? <==> o.resumed) && (o.prev.Some? ==> o.prev.value !in w'.hub.clients)
            && (forall x :: x in w.clients && x != c ==>
                  && x in w'.clients
                  && w'.clients[x] == if o.displaced == Some(x) then w.clients[x].(shut := true) else w.clients[x])
            && (o.displaced.Some? ==> o.displaced.value in w.clients && o.displaced.value != c)
            && w'.store.released
               == w.store.released + (if o.victim.Some? then [S.Release(o.victim.value, S.ByReplacement)] else [])
  {
    hide Core, Judge, OpenSession, Replay, Attending, MissingFrames, H.RoomsOf, Stream;
    StoreInv(w);
    S.DecideMeans(w.store, req, w.now, w.lim);
    match S.Decide(w.store, req, w.now, w.lim)
    case ResumeOf(x) =>
      ResumeMeans(w, c, req, Some(id));
      MemberIsOther(w, c, x);
    case NewSession(reason, victim) => NewSessionMeans(w, c, req, id);
  }

  lemma StoreInv(w: Server)
    requires Inv(w)
    ensures S.Inv(w.store, w.lim, w.now)
  {
  }

  // -------------------------------------------------------------------------
  // Leaving

  /** What retiring does to the registration, by what `Leave` reports: a client whose session is gone, or that
      never had one, is unregistered; one whose session has parked stays registered and shows as parked; one
      that has been displaced changes nothing. */
  lemma RetireMeans(w: Server, c: ClientId)
    requires Inv(w) && Linked(w) && c in w.clients && c in w.hub.clients
    requires forall i :: 0 <= i < |w.store.parked| ==> w.store.parked[i] in w.store.heap
    ensures var w' := Retire(w, c);
            match w.clients[c].session
            case None => c !in w'.hub.clients && w'.store == w.store
            case Some(id) =>
              match S.Leave(w.store, id, c, !w.clients[c].noResume, w.now, w.lim).1
              case Gone => c !in w'.hub.clients
              case Displaced => w' == w
              case LeftParked => c in w'.hub.clients && c in w'.clients && w'.clients[c].parked
  {
    hide Core, EvictOver, H.Unregister;
    Unregistered(w.hub, c);
    if w.clients[c].session.Some? {
      var id := w.clients[c].session.value;
      var s := w.store.heap[id];
      if !s.state.Closed? && s.live == Some(c) && !w.clients[c].noResume {
        RetireKeepsInv(w, c);
        RetireRunsLeave(w, c, id);
        StaysRegistered(w, c, id);
      }
    }
  }

  lemma StaysRegistered(w: Server, c: ClientId, id: SessionId)
    requires Inv(w) && Linked(w) && c in w.clients && Inv(Retire(w, c))
    requires forall i :: 0 <= i < |w.store.parked| ==> w.store.parked[i] in w.store.heap
    requires w.clients[c].session == Some(id) && !w.store.heap[id].state.Closed? && w.store.heap[id].live == Some(c)
    requires Retire(w, c).store == S.Leave(w.store, id, c, true, w.now, w.lim).0
    ensures var w' := Retire(w, c); c in w'.hub.clients && c in w'.clients && w'.clients[c].parked
  {
    hide Retire;
    var w' := Retire(w, c);
    MemberIsBound(w, id);
    S.LeaveEvictsLongestParked(w.store, id, c, w.now, w.lim);
    assert w'.store.heap[id].member == c;
    assert HasMember(w', id) && WellRegistered(w', c);
  }
}
