/** Peers following the documented client algorithm (docs/RECOVERY.md): what a peer has handled is exactly
    a prefix of its session's commit log, each frame once and in order, and a peer that cannot resume is
    told so before it reads anything else. */
module Peers {
  import opened Commons
  import opened Bytes
  import opened Frames
  import opened SessionSpec
  import opened ClientSpec
  import opened ServerModel
  import opened ServerSteps
  import opened ServerRuns
  import S = StoreSpec
  import H = Hubs

  type PeerId = nat

  /** A connection as the peer sees it: how many frames it has read, and its position when it asked to
      connect. Whatever is not read before the peer drops the connection is lost. */
  datatype Conn = Conn(client: ClientId, got: nat, mark: nat)

  /** `handled` lists the events handled under a sequence number since the last resynchronisation,
      `unnumbered` the best-effort ones. */
  datatype Peer = Peer(
    id: Option<SessionId>, lastSeq: nat, handled: seq<bytes>, unnumbered: seq<bytes>, conn: Option<Conn>)

  const NEW_PEER := Peer(None, 0, [], [], None)

  // -------------------------------------------------------------------------
  // The client algorithm

  /** "on frame" */
  function OnFrame(p: Peer, f: Wire): Peer {
    match f
    case Hello(id, resumed, _, _, _) =>
      if resumed then p.(id := Some(id)) else p.(id := Some(id), lastSeq := 0, handled := [])
    case Event(data) =>
      match SeqOf(data)
      case None => p.(unnumbered := p.unnumbered + [data])
      case Some(n) =>
        if n <= p.lastSeq then p else p.(lastSeq := n, handled := p.handled + [BodyOf(data)])
  }

  /** The handshake request; `lag` is how far the reported position trails the real one. */
  function RequestOf(p: Peer, lag: nat, owner: string): Request
    requires lag <= p.lastSeq
  {
    match p.id
    case None => Request(false, false, "", p.lastSeq - lag, owner)
    case Some(id) => Request(true, false, id, p.lastSeq - lag, owner)
  }

  // -------------------------------------------------------------------------
  // Invariant of one peer

  ghost predicate UpToDate(w: Server, p: Peer) {
    match p.id
    case None => p.lastSeq == 0 && p.handled == []
    case Some(id) =>
      && id in w.store.heap
      && p.lastSeq <= |w.store.heap[id].log| && p.handled == w.store.heap[id].log[..p.lastSeq]
  }

  /** Where the peer stands in the stream of its connection. */
  ghost predicate InStep(k: Client, p: Peer, cn: Conn) {
    && k.bound && cn.got <= |k.out|
    && (k.session.Some? ==>
          var ws := Stream(k);
          && ws != [] && ws[0].Hello?
          && if cn.got == 0
             then if ws[0].resumed then p.id == k.session && p.lastSeq == cn.mark && k.base <= cn.mark
                  else p.id.Some? ==> ws[0].reason.Some? && p.id != k.session
             else && p.id == k.session
                  && p.lastSeq == Max(if ws[0].resumed then cn.mark else 0, k.base + Numbered(ws[1..cn.got])))
  }

  ghost predicate PeerInv(w: Server, p: Peer) {
    && UpToDate(w, p)
    && (p.conn.Some? ==> p.conn.value.client in w.clients && InStep(w.clients[p.conn.value.client], p, p.conn.value))
  }

  lemma InStepLater(k: Client, k': Client, p: Peer, cn: Conn)
    requires InStep(k, p, cn) && ClientGrows(k, k')
    ensures InStep(k', p, cn)
  {
    if k.session.Some? && cn.got > 0 {
      assert Stream(k')[1..cn.got] == Stream(k)[1..cn.got];
    }
  }

  lemma PeerInvLater(w: Server, w': Server, p: Peer)
    requires PeerInv(w, p) && Extends(w, w')
    ensures PeerInv(w', p)
  {
    if p.conn.Some? {
      var c := p.conn.value.client;
      InStepLater(w.clients[c], w'.clients[c], p, p.conn.value);
    }
  }

  // -------------------------------------------------------------------------
  // Reading a frame

  /** A numbered frame is a duplicate or exactly the next one. */
  lemma HandleNumbered(p: Peer, log: seq<bytes>, n: nat)
    requires n < |log| && IsObject(log[n])
    requires p.lastSeq <= |log| && p.handled == log[..p.lastSeq] && n <= p.lastSeq
    ensures var p' := OnFrame(p, Event(Stamp(log[n], n + 1)));
            p' == p.(lastSeq := Max(p.lastSeq, n + 1), handled := log[..Max(p.lastSeq, n + 1)])
  {
    StampRoundTrip(log[n], n + 1);
    if n == p.lastSeq {
      assert log[..n] + [log[n]] == log[..n + 1];
    }
  }

  /** The next frame of a connection the peer is in step with. */
  lemma NextFrame(k: Client, p: Peer, cn: Conn, id: SessionId, log: seq<bytes>)
    requires 0 < cn.got < |k.out| && Sequenced(Stream(k), id, k.base, log)
    ensures var ws, f := Stream(k), k.out[cn.got]; var n := k.base + Numbered(ws[1..cn.got]);
            && Numbered(ws[1..cn.got + 1]) == Numbered(ws[1..cn.got]) + (if IsPlain(f) then 0 else 1)
            && (IsPlain(f) || (n < |log| && f == Event(Stamp(log[n], n + 1))))
  {
    hide Follows, Numbered, Stamp, IsPlain;
    var ws := Stream(k);
    var tail, i := ws[1..], cn.got - 1;
    FollowsAt(tail, k.base, log, i);
    assert tail[i] == ws[cn.got] == k.out[cn.got];
    assert tail[..i] == ws[1..cn.got] && tail[..i + 1] == ws[1..cn.got + 1];
  }

  /** Reading the next event frame: a best-effort frame, a duplicate from a lagging resume, or exactly
      the next frame of the log. */
  lemma ReadEvent(k: Client, p: Peer, cn: Conn, id: SessionId, log: seq<bytes>)
    requires InStep(k, p, cn) && 0 < cn.got < |k.out| && k.session == Some(id)
    requires Sequenced(Stream(k), id, k.base, log) && AllEvents(log)
    requires p.lastSeq <= |log| && p.handled == log[..p.lastSeq]
    ensures var p' := OnFrame(p, k.out[cn.got]);
            && InStep(k, p', cn.(got := cn.got + 1))
            && p'.id == p.id && p'.lastSeq <= |log| && p'.handled == log[..p'.lastSeq]
  {
    hide Numbered, Stamp, SeqOf, BodyOf, Sequenced;
    NextFrame(k, p, cn, id, log);
    if !IsPlain(k.out[cn.got]) {
      HandleNumbered(p, log, k.base + Numbered(Stream(k)[1..cn.got]));
    }
  }

  lemma ReadHello(k: Client, p: Peer, cn: Conn, id: SessionId, log: seq<bytes>)
    requires InStep(k, p, cn) && 0 == cn.got < |k.out| && k.session == Some(id)
    requires Sequenced(Stream(k), id, k.base, log)
    requires p.id == Some(id) ==> p.lastSeq <= |log| && p.handled == log[..p.lastSeq]
    ensures var p' := OnFrame(p, k.out[0]);
            && InStep(k, p', cn.(got := 1))
            && p'.id == Some(id) && p'.lastSeq <= |log| && p'.handled == log[..p'.lastSeq]
  {
    assert Stream(k)[0] == k.out[0];
    assert Stream(k)[1..1] == [];
  }

  lemma ReadPlain(w: Server, k: Client, p: Peer, cn: Conn)
    requires UpToDate(w, p) && InStep(k, p, cn) && cn.got < |k.out| && k.session == None
    requires AllPlain(Stream(k))
    ensures var p' := OnFrame(p, k.out[cn.got]); UpToDate(w, p') && InStep(k, p', cn.(got := cn.got + 1))
  {
    assert Stream(k)[cn.got] == k.out[cn.got];
  }

  function Read(w: Server, p: Peer): Peer
    requires p.conn.Some? && p.conn.value.client in w.clients
    requires p.conn.value.got < |w.clients[p.conn.value.client].out|
  {
    var cn := p.conn.value;
    OnFrame(p, w.clients[cn.client].out[cn.got]).(conn := Some(cn.(got := cn.got + 1)))
  }

  lemma ReadKeepsPeerInv(w: Server, p: Peer)
    requires Core(w) && PeerInv(w, p) && p.conn.Some?
    requires p.conn.value.got < |w.clients[p.conn.value.client].out|
    ensures PeerInv(w, Read(w, p))
  {
    hide Core, Sequenced, AllPlain, AllEvents, OnFrame, Numbered;
    var cn := p.conn.value;
    var k := w.clients[cn.client];
    StreamOfClient(w, cn.client);
    InStepIgnoresConn(k, p, cn);
    match k.session
    case None => ReadPlain(w, k, p, cn);
    case Some(id) =>
      if cn.got == 0 {
        ReadHello(k, p, cn, id, w.store.heap[id].log);
      } else {
        ReadEvent(k, p, cn, id, w.store.heap[id].log);
      }
  }

  lemma InStepIgnoresConn(k: Client, p: Peer, cn: Conn)
    requires cn.got < |k.out|
    ensures var p' := OnFrame(p, k.out[cn.got]);
            InStep(k, p', cn.(got := cn.got + 1))
            ==> InStep(k, p'.(conn := Some(cn.(got := cn.got + 1))), cn.(got := cn.got + 1))
  {
  }

  // -------------------------------------------------------------------------
  // Connecting

  /** What `openSession` makes of a connection: bound to the requested session at the requested
      position if resumed, otherwise to a new session, with a reason if another was requested, or to
      none. */
  ghost predicate FreshlyBound(k: Client, req: Request) {
    && k.bound && k.out == []
    && (k.session.Some? ==>
          && k.replay != [] && k.replay[0].Hello?
          && if k.replay[0].resumed then req.requested && k.session == Some(req.id) && k.base == req.lastSeq
             else req.requested ==> k.replay[0].reason.Some? && k.session != Some(req.id))
  }

  lemma ResumeBinds(w: Server, c: ClientId, id: SessionId, req: Request)
    requires c in w.clients && id in w.store.heap && w.store.heap[id].next > 0
    requires w.clients[c].out == [] && req.requested && req.id == id
    ensures FreshlyBound(BindResume(w, c, id, req.lastSeq).clients[c], req)
  {
  }

  lemma FreshBinds(w: Server, c: ClientId, id: SessionId, reason: Option<Reason>, req: Request)
    requires c in w.clients && w.clients[c].out == [] && (req.requested ==> reason.Some? && id != req.id)
    ensures FreshlyBound(BindFresh(w, c, id, req.owner, reason).clients[c], req)
  {
  }

  lemma NoneBinds(w: Server, c: ClientId, req: Request)
    requires c in w.clients && w.clients[c].out == [] && w.clients[c].session == None
    ensures FreshlyBound(BindNone(w, c).clients[c], req)
  {
  }

  lemma OpenBinds(w: Server, c: ClientId, req: Request, newId: Option<SessionId>)
    requires Linked(w) && c in w.clients && w.store.stored <= w.store.heap.Keys
    requires forall id :: id in w.store.heap ==> w.store.heap[id].next > 0
    requires w.clients[c].session == None && w.clients[c].out == [] && w.clients[c].replay == []
    requires req.requested && newId.Some? ==> newId.value != req.id
    ensures var w' := OpenSession(w, c, req, newId); c in w'.clients && FreshlyBound(w'.clients[c], req)
  {
    hide BindResume, BindFresh, BindNone, FreshlyBound, Linked;
    LinkedLive(w);
    match S.Decide(w.store, req, w.now, w.lim)
    case ResumeOf(id) =>
      ResumeBinds(w, c, id, req);
      BindKeepsClients(w, c, id, req.lastSeq);
    case NewSession(reason, victim) =>
      var w1 := if victim.Some? && victim.value in w.store.heap
                then Release(w, victim.value, S.ByReplacement) else w;
      FreshKeepsClients(w1, c, if newId.Some? then newId.value else "", req.owner, reason);
      if newId.Some? {
        FreshBinds(w1, c, newId.value, reason, req);
      } else {
        NoneBinds(w1, c, req);
      }
  }

  lemma LinkedLive(w: Server)
    requires Linked(w)
    ensures forall id :: id in w.store.heap && w.store.heap[id].live.Some? ==> w.store.heap[id].live.value in w.clients
  {
  }

  lemma BindKeepsClients(w: Server, c: ClientId, id: SessionId, lastSeq: nat)
    requires c in w.clients && id in w.store.heap && w.store.heap[id].next > 0
    ensures BindResume(w, c, id, lastSeq).clients.Keys == w.clients.Keys
  {
  }

  lemma FreshKeepsClients(w: Server, c: ClientId, id: SessionId, owner: string, reason: Option<Reason>)
    requires c in w.clients
    ensures BindFresh(w, c, id, owner, reason).clients.Keys == BindNone(w, c).clients.Keys == w.clients.Keys
  {
  }

  lemma FreshInStep(k: Client, p: Peer, c: ClientId, lag: nat, owner: string)
    requires lag <= p.lastSeq && FreshlyBound(k, RequestOf(p, lag, owner))
    ensures InStep(k, Join(p, c), Conn(c, 0, p.lastSeq))
  {
    assert k.replay != [] ==> Stream(k)[0] == k.replay[0];
  }

  function Join(p: Peer, c: ClientId): Peer {
    p.(conn := Some(Conn(c, 0, p.lastSeq)))
  }

  lemma NewIdIsAnother(w: Server, p: Peer, lag: nat, owner: string, newId: SessionId)
    requires UpToDate(w, p) && lag <= p.lastSeq && newId !in w.store.heap
    ensures RequestOf(p, lag, owner).requested ==> newId != RequestOf(p, lag, owner).id
  {
  }

  lemma ConnectKeepsPeerInv(w: Server, p: Peer, c: ClientId, lag: nat, owner: string, newId: Option<SessionId>)
    requires Inv(w) && c in w.clients && !w.clients[c].bound && c in w.hub.clients
    requires newId.Some? ==> newId.value !in w.store.heap
    requires PeerInv(w, p) && lag <= p.lastSeq
    ensures PeerInv(OpenSession(w, c, RequestOf(p, lag, owner), newId), Join(p, c))
  {
    hide Core, OpenSession, InStep, RequestOf, Extends, Linked, FreshlyBound;
    CoreParts(w);
    StreamOfClient(w, c);
    var req := RequestOf(p, lag, owner);
    if newId.Some? {
      NewIdIsAnother(w, p, lag, owner, newId.value);
    }
    OpenSessionKeepsInv(w, c, req, newId);
    OpenBinds(w, c, req, newId);
    var w' := OpenSession(w, c, req, newId);
    PeerInvLater(w, w', p);
    FreshInStep(w'.clients[c], p, c, lag, owner);
  }

  /** The connection's pre-queue tells its peer how the request for `id` at `pos` fared: resumed there, or
      refused for a reason, with a session the server has not known before. */
  ghost predicate Told(w: Server, k: Client, id: SessionId, pos: nat) {
    && k.replay != [] && k.replay[0].Hello? && k.session == Some(k.replay[0].id)
    && if k.replay[0].resumed then k.replay[0].id == id && k.base == pos
       else k.replay[0].id !in w.store.heap && k.replay[0].reason.Some?
  }

  lemma OpenTellsIff(w: Server, c: ClientId, req: Request, newId: Option<SessionId>)
    requires Linked(w) && c in w.clients && w.store.stored <= w.store.heap.Keys
    requires forall id :: id in w.store.heap ==> w.store.heap[id].next > 0
    requires w.clients[c].session == None && w.clients[c].replay == []
    requires newId.Some? ==> newId.value !in w.store.heap
    requires req.requested
    ensures var w' := OpenSession(w, c, req, newId);
            && c in w'.clients
            && (Told(w, w'.clients[c], req.id, req.lastSeq)
                <==> newId.Some? || S.Decide(w.store, req, w.now, w.lim).ResumeOf?)
            && (newId == None && !S.Decide(w.store, req, w.now, w.lim).ResumeOf? ==>
                  w'.clients[c].bound && w'.clients[c].session == None)
  {
    hide Judge, Linked, BindResume, Release, H.Transfer, H.Unregister;
    LinkedLive(w);
    match S.Decide(w.store, req, w.now, w.lim)
    case ResumeOf(id) =>
      BindKeepsClients(w, c, id, req.lastSeq);
      ResumeTells(w, c, id, req.lastSeq);
    case NewSession(_, victim) =>
      if victim.Some? && victim.value in w.store.heap {
        ReleaseKeepsClients(w, victim.value);
      }
  }

  lemma ResumeTells(w: Server, c: ClientId, id: SessionId, lastSeq: nat)
    requires c in w.clients && id in w.store.heap && w.store.heap[id].next > 0
    ensures Told(w, BindResume(w, c, id, lastSeq).clients[c], id, lastSeq)
    ensures BindResume(w, c, id, lastSeq).clients[c].shut == w.clients[c].shut
  {
  }

  lemma ReleaseKeepsClients(w: Server, id: SessionId)
    requires id in w.store.heap
    ensures Release(w, id, S.ByReplacement).clients == w.clients
  {
  }

  /** Every returning peer is told, provided that a session id could be drawn: its pre-queue starts with
      the control frame, which resumes its session at the reported position or gives a reason and a
      session of its own. */
  lemma ReturningPeerIsTold(w: Server, p: Peer, c: ClientId, lag: nat, owner: string, newId: SessionId)
    requires Inv(w) && c in w.clients && !w.clients[c].bound && c in w.hub.clients
    requires newId !in w.store.heap && p.id.Some? && lag <= p.lastSeq
    ensures var w' := OpenSession(w, c, RequestOf(p, lag, owner), Some(newId));
            c in w'.clients && Told(w, w'.clients[c], p.id.value, p.lastSeq - lag)
  {
    hide Core, OpenSession, Told, S.Decide;
    CoreParts(w);
    ConnectTellsPeerIff(w, p, c, lag, owner, Some(newId));
  }

  /** That no session id could be drawn is the only way to stay untold. */
  lemma ConnectTellsPeerIff(w: Server, p: Peer, c: ClientId, lag: nat, owner: string, newId: Option<SessionId>)
    requires Inv(w) && c in w.clients && !w.clients[c].bound && c in w.hub.clients
    requires newId.Some? ==> newId.value !in w.store.heap
    requires p.id.Some? && lag <= p.lastSeq
    ensures var req := RequestOf(p, lag, owner); var w' := OpenSession(w, c, req, newId);
            && c in w'.clients
            && (Told(w, w'.clients[c], p.id.value, p.lastSeq - lag)
                <==> newId.Some? || S.Decide(w.store, req, w.now, w.lim).ResumeOf?)
            && (newId == None && !S.Decide(w.store, req, w.now, w.lim).ResumeOf? ==>
                  w'.clients[c].bound && w'.clients[c].session == None)
  {
    hide Core, OpenSession, Told, S.Decide;
    CoreParts(w);
    StreamOfClient(w, c);
    OpenTellsIff(w, c, RequestOf(p, lag, owner), newId);
  }

  /** A connection served without a session never carries a control frame, whatever happens. */
  lemma UntoldForGood(w: Server, es: seq<Step>, c: ClientId)
    requires Inv(w) && LegalRun(w, es) && c in w.clients && w.clients[c].bound && w.clients[c].session == None
    ensures var w' := Run(w, es); c in w'.clients && AllPlain(Stream(w'.clients[c]))
  {
    hide Core;
    RunKeepsInv(w, es);
    StreamOfClient(Run(w, es), c);
  }

  // -------------------------------------------------------------------------
  // Frames that are not JSON objects

  /** Numbering is spliced into JSON objects only. For a peer that is up to date, delivering one more
      reliable frame and reading it brings the peer up to date again exactly when the frame is an
      object; any other frame is read as a best-effort one and stays missing. */
  lemma OneFrameArrivesIffObject<C>(s: Session<C>, p: Peer, data: bytes, lim: Limits)
    requires Valid(s, lim) && !s.state.Closed? && !Offline(s) && !HasSeq(data)
    requires p.lastSeq == |s.log| && p.handled == s.log
    ensures var d := Deliver(s, data, Disconnect, Accepted, lim);
            && d.queued.Some?
            && (OnFrame(p, d.queued.value).handled == d.session.log <==> IsObject(data))
  {
    StampNumbersExactlyObjects(data, s.next);
    if !IsObject(data) {
      assert |s.log + [data]| != |s.log|;
    }
  }
}
