/** The whole server as one state machine: the session store, the hub and the connections, and the
    steps that keep them together (internal/session.go, internal/hub.go, internal/client.go,
    recovery.go). Every step is one critical section of the source, with the clock read inside it. */
module ServerModel {
  import opened Commons
  import opened Bytes
  import opened Frames
  import opened SessionSpec
  import opened ClientSpec
  import S = StoreSpec
  import H = Hubs

  type ClientId = nat

  datatype Server = Server(
    lim: Limits,
    now: int,
    store: S.Store<ClientId>,
    clients: map<ClientId, Client>,
    hub: H.Hub<ClientId>)

  function Start(lim: Limits, now: int): Server {
    Server(lim, now, S.Empty(), map[], H.NoClients())
  }

  // -------------------------------------------------------------------------
  // Invariant

  /** Pointers lead somewhere. */
  ghost predicate Linked(w: Server) {
    && (forall c :: c in w.clients && w.clients[c].session.Some? ==> w.clients[c].session.value in w.store.heap)
    && (forall id :: id in w.store.heap ==> w.store.heap[id].member in w.clients)
    && (forall id :: id in w.store.heap && w.store.heap[id].live.Some? ==> w.store.heap[id].live.value in w.clients)
  }

  /** A registered client either has no session, or is the member of a stored session whose state its
      `parked` flag shows. */
  ghost predicate WellRegistered(w: Server, c: ClientId)
    requires c in w.clients
  {
    match w.clients[c].session
    case None => !w.clients[c].parked
    case Some(id) =>
      && id in w.store.stored && id in w.store.heap
      && w.store.heap[id].member == c
      && (w.clients[c].parked <==> w.store.heap[id].state.Parked?)
  }

  /** The two registries agree: the registered clients that have a session are exactly the members of
      the stored sessions. */
  ghost predicate Joined(w: Server) {
    && H.Inv(w.hub)
    && (forall c :: c in w.hub.clients ==> c in w.clients && WellRegistered(w, c))
    && (forall id :: id in w.store.stored && id in w.store.heap ==> HasMember(w, id))
  }

  ghost predicate HasMember(w: Server, id: SessionId)
    requires id in w.store.heap
  {
    var m := w.store.heap[id].member;
    m in w.hub.clients && m in w.clients && w.clients[m].session == Some(id)
  }

  /** A session-bound stream: the control frame, then an unbroken run of the session's log from the
      resume position on, with unnumbered frames in between. */
  ghost predicate Sequenced(ws: seq<Wire>, id: SessionId, base: nat, log: seq<bytes>) {
    && ws != [] && ws[0].Hello? && ws[0].id == id
    && (!ws[0].resumed ==> base == 0)
    && Follows(ws[1..], base, log)
    && base + Numbered(ws[1..]) <= |log|
  }

  ghost predicate StreamOk(heap: map<SessionId, Session<ClientId>>, k: Client) {
    && (!k.bound ==> k.session == None && k.out == [] && k.replay == [])
    && match k.session
       case None => AllPlain(Stream(k))
       case Some(id) => id in heap && Sequenced(Stream(k), id, k.base, heap[id].log)
  }

  /** Nothing committed is missing from the stream. */
  ghost predicate Complete(log: seq<bytes>, k: Client) {
    Stream(k) != [] && k.base + Numbered(Stream(k)[1..]) == |log|
  }

  ghost predicate Streams(w: Server) {
    && (forall id :: id in w.store.heap ==> AllEvents(w.store.heap[id].log))
    && (forall c :: c in w.clients ==> StreamOk(w.store.heap, w.clients[c]))
    && (forall id :: id in w.store.heap ==> LiveComplete(w, id))
  }

  /** Unless it has stalled, the live connection's stream holds the whole log. */
  ghost predicate LiveComplete(w: Server, id: SessionId)
    requires id in w.store.heap
  {
    var s := w.store.heap[id];
    s.state.Attached? && !s.stalled ==> s.member in w.clients && Complete(s.log, w.clients[s.member])
  }

  ghost predicate Core(w: Server) {
    ValidLimits(w.lim) && S.Core(w.store, w.lim, w.now) && Linked(w) && Joined(w) && Streams(w)
  }

  ghost predicate Inv(w: Server) {
    Core(w) && |w.store.parked| <= w.lim.maxParked
  }

  lemma CoreParts(w: Server)
    requires Core(w)
    ensures Linked(w) && H.Inv(w.hub)
    ensures w.store.stored <= w.store.heap.Keys
    ensures forall i :: 0 <= i < |w.store.parked| ==> w.store.parked[i] in w.store.heap
    ensures forall id :: id in w.store.heap ==> w.store.heap[id].next > 0
  {
  }

  // -------------------------------------------------------------------------
  // What no step ever takes back

  ghost predicate HeapGrows(h: map<SessionId, Session<ClientId>>, h': map<SessionId, Session<ClientId>>) {
    forall id :: id in h ==>
      && id in h' && h'[id].owner == h[id].owner
      && h[id].log <= h'[id].log && (h[id].state.Closed? ==> h'[id].state.Closed?)
  }

  ghost predicate ClientGrows(k: Client, k': Client) {
    && k.out <= k'.out && SameConn(k, k')
    && (k.bound ==> k'.bound && k'.session == k.session && k'.base == k.base && Stream(k) <= Stream(k'))
  }

  /** Sessions keep their owners, logs are only appended to, closed sessions stay closed, a connection keeps
      its capacity and, once bound, its session and only gains frames, and the record of releases and
      terminations is permanent. */
  ghost predicate Extends(w: Server, w': Server) {
    && HeapGrows(w.store.heap, w'.store.heap)
    && w.store.released <= w'.store.released && w.store.terminated <= w'.store.terminated
    && (forall c :: c in w.clients ==> c in w'.clients && ClientGrows(w.clients[c], w'.clients[c]))
  }

  lemma ExtendsTransitive(a: Server, b: Server, c: Server)
    requires Extends(a, b) && Extends(b, c)
    ensures Extends(a, c)
  {
  }

  lemma StreamOkLater(h: map<SessionId, Session<ClientId>>, h': map<SessionId, Session<ClientId>>, k: Client)
    requires StreamOk(h, k) && HeapGrows(h, h')
    ensures StreamOk(h', k)
  {
    if k.session.Some? {
      FollowsLongerLog(Stream(k)[1..], k.base, h[k.session.value].log, h'[k.session.value].log);
    }
  }

  // -------------------------------------------------------------------------
  // Sending

  /** `TrySendPolicy` on client `c`; the second component is `false` for "disconnect the slow peer".
      With a session the frame goes to the session's live client, which need not be `c`. */
  function TrySend(w: Server, c: ClientId, data: bytes, pol: Policy): (Server, bool)
    requires Linked(w) && c in w.clients
  {
    match w.clients[c].session
    case None =>
      var (k, ok) := SendPlain(w.clients[c], data, pol);
      (w.(clients := w.clients[c := k]), ok)
    case Some(id) =>
      var s := w.store.heap[id];
      match s.live
      case None =>
        var d := Deliver(s, data, pol, Shut, w.lim);
        (Updated(w, id, d.session, c, w.clients[c]), d.ok)
      case Some(l) =>
        var d := Deliver(s, data, pol, Room(w.clients[l]), w.lim);
        (Updated(w, id, d.session, l, Receive(w.clients[l], d)), d.ok)
  }

  /** One session and one client replaced. */
  function Updated(w: Server, id: SessionId, s: Session<ClientId>, c: ClientId, k: Client): Server {
    w.(store := w.store.(heap := w.store.heap[id := s]), clients := w.clients[c := k])
  }

  // -------------------------------------------------------------------------
  // Connection steps

  function Tick(w: Server, now: int): Server {
    w.(now := now)
  }

  /** A new connection is registered with the hub before it is bound to a session. */
  function Connect(w: Server, c: ClientId, cap: nat): Server {
    w.(clients := w.clients[c := NewClient(cap)], hub := H.Register(w.hub, c))
  }

  function WithClient(w: Server, c: ClientId, k: Client): Server {
    w.(clients := w.clients[c := k])
  }

  /** One write of the connection's write pump. */
  function PumpOnce(w: Server, c: ClientId): Server
    requires c in w.clients
  {
    WithClient(w, c, Pump(w.clients[c]))
  }

  /** `Shutdown` (terminal) or `ShutdownResumable`. */
  function CloseConn(w: Server, c: ClientId, terminal: bool): Server
    requires c in w.clients
  {
    WithClient(w, c, w.clients[c].(shut := true, noResume := w.clients[c].noResume || terminal))
  }

  /** `$ack` from the peer on connection `c`. */
  function AckFrom(w: Server, c: ClientId, n: nat): Server
    requires Linked(w) && c in w.clients
  {
    match w.clients[c].session
    case None => w
    case Some(id) => Updated(w, id, Ack(w.store.heap[id], n), c, w.clients[c])
  }

  // -------------------------------------------------------------------------
  // Binding a connection to a session

  /** A session is discarded and, through `releaseSession`, its member leaves the hub. */
  function Release(w: Server, id: SessionId, why: S.ReleaseReason): Server
    requires id in w.store.heap
  {
    w.(store := S.Discard(w.store, id, why), hub := H.Unregister(w.hub, w.store.heap[id].member))
  }

  function BindNone(w: Server, c: ClientId): Server
    requires c in w.clients
  {
    WithClient(w, c, w.clients[c].(bound := true))
  }

  function BindFresh(w: Server, c: ClientId, id: SessionId, owner: string, reason: Option<Reason>): Server
    requires c in w.clients
  {
    WithClient(w, c, w.clients[c].(session := Some(id), bound := true, base := 0,
                                   replay := [Hello(id, false, 0, 0, reason)]))
    .(store := S.Create(w.store, id, owner, c))
  }

  /** Re-attachment, followed by the transfer of the previous client's rooms. */
  function BindResume(w: Server, c: ClientId, id: SessionId, lastSeq: nat): Server
    requires c in w.clients && id in w.store.heap && w.store.heap[id].next > 0
  {
    var s := w.store.heap[id];
    WithClient(w, c, w.clients[c].(session := Some(id), bound := true, base := lastSeq,
                                   replay := Replay(id, s, lastSeq)))
    .(store := S.Resume(w.store, id, c, lastSeq),
      hub := if s.member != c then H.Transfer(w.hub, s.member, c) else w.hub)
  }

  /** `openSession`: `Open`, the release of a replaced session, the room transfer and the shutdown of
      a displaced connection. */
  function OpenSession(w: Server, c: ClientId, req: Request, newId: Option<SessionId>): Server
    requires Linked(w) && c in w.clients && w.store.stored <= w.store.heap.Keys
    requires forall id :: id in w.store.heap ==> w.store.heap[id].next > 0
  {
    match S.Decide(w.store, req, w.now, w.lim)
    case ResumeOf(id) =>
      var w1 := BindResume(w, c, id, req.lastSeq);
      var live := w.store.heap[id].live;
      if live.Some? && live.value != c then CloseConn(w1, live.value, false) else w1
    case NewSession(reason, victim) =>
      var w1 := if victim.Some? && victim.value in w.store.heap then Release(w, victim.value, S.ByReplacement) else w;
      match newId
      case None => BindNone(w1, c)
      case Some(id) => BindFresh(w1, c, id, req.owner, reason)
  }

  /** The store and the client after `openSession` are what `Open` of the store says. */
  lemma OpenSessionRunsOpen(w: Server, c: ClientId, req: Request, newId: Option<SessionId>)
    requires Linked(w) && c in w.clients && w.store.stored <= w.store.heap.Keys
    requires forall id :: id in w.store.heap ==> w.store.heap[id].next > 0
    requires w.clients[c].session == None && w.clients[c].replay == []
    ensures var o := S.Open(w.store, c, req, newId, w.now, w.lim); var w' := OpenSession(w, c, req, newId);
            w'.store == o.store && w'.clients[c].session == o.session && w'.clients[c].replay == o.replay
  {
    hide Judge, Replay, S.Without, H.Transfer, H.Unregister;
  }

  // -------------------------------------------------------------------------
  // Leaving

  function LeaveHub(w: Server, c: ClientId): Server {
    w.(hub := H.Unregister(w.hub, c))
  }

  function EndSession(w: Server, c: ClientId, id: SessionId): Server
    requires id in w.store.heap
  {
    w.(store := S.Terminate(w.store, id), hub := H.Unregister(w.hub, c))
  }

  function ParkClient(w: Server, c: ClientId, id: SessionId): Server
    requires c in w.clients && id in w.store.heap
  {
    WithClient(w, c, w.clients[c].(parked := true)).(store := S.Park(w.store, id, w.now))
  }

  function EvictOver(w: Server): Server
    requires forall i :: 0 <= i < |w.store.parked| ==> w.store.parked[i] in w.store.heap
    decreases |w.store.parked|
  {
    if |w.store.parked| > w.lim.maxParked then EvictOver(Release(w, w.store.parked[0], S.ByEviction)) else w
  }

  /** `retire`: what happens to session and membership when the connection's read side ends. */
  function Retire(w: Server, c: ClientId): Server
    requires Linked(w) && c in w.clients
    requires forall i :: 0 <= i < |w.store.parked| ==> w.store.parked[i] in w.store.heap
  {
    match w.clients[c].session
    case None => LeaveHub(w, c)
    case Some(id) =>
      var s := w.store.heap[id];
      if s.state.Closed? then LeaveHub(w, c)
      else if s.live != Some(c) then w
      else if w.clients[c].noResume then EndSession(w, c, id)
      else EvictOver(ParkClient(w, c, id))
  }

  function SweepNow(w: Server): Server
    requires forall i :: 0 <= i < |w.store.parked| ==> w.store.parked[i] in w.store.heap
    decreases |w.store.parked|
  {
    if w.store.parked == [] || w.now - w.store.heap[w.store.parked[0]].parkedAt <= w.lim.ttl then w
    else SweepNow(Release(w, w.store.parked[0], S.ByExpiry))
  }

  lemma {:induction false} EvictOverRunsEvict(w: Server)
    requires forall i :: 0 <= i < |w.store.parked| ==> w.store.parked[i] in w.store.heap
    ensures EvictOver(w).store == S.Evict(w.store, w.lim.maxParked)
    decreases |w.store.parked|
  {
    if |w.store.parked| > w.lim.maxParked {
      EvictOverRunsEvict(Release(w, w.store.parked[0], S.ByEviction));
    }
  }

  /** The store after `retire` is what `Leave` of the store says. */
  lemma RetireRunsLeave(w: Server, c: ClientId, id: SessionId)
    requires Linked(w) && c in w.clients && w.clients[c].session == Some(id)
    requires forall i :: 0 <= i < |w.store.parked| ==> w.store.parked[i] in w.store.heap
    ensures Retire(w, c).store == S.Leave(w.store, id, c, !w.clients[c].noResume, w.now, w.lim).0
  {
    EvictOverRunsEvict(ParkClient(w, c, id));
  }

  lemma {:induction false} SweepNowRunsSweep(w: Server)
    requires forall i :: 0 <= i < |w.store.parked| ==> w.store.parked[i] in w.store.heap
    ensures SweepNow(w).store == S.Sweep(w.store, w.now, w.lim.ttl)
    decreases |w.store.parked|
  {
    if w.store.parked != [] && w.now - w.store.heap[w.store.parked[0]].parkedAt > w.lim.ttl {
      SweepNowRunsSweep(Release(w, w.store.parked[0], S.ByExpiry));
    }
  }

  // -------------------------------------------------------------------------
  // Steps that leave every link in place

  /** Steps that move no session, client or membership: same states, owners of connections, flags. */
  ghost predicate SameLinks(w: Server, w': Server) {
    && w'.lim == w.lim && w'.now == w.now && w'.hub == w.hub
    && w'.store.stored == w.store.stored && w'.store.parked == w.store.parked
    && w'.store.released == w.store.released && w'.store.terminated == w.store.terminated
    && w'.store.heap.Keys == w.store.heap.Keys && w'.clients.Keys == w.clients.Keys
    && (forall id :: id in w.store.heap ==> SamePlace(w.store.heap[id], w'.store.heap[id]))
    && (forall c :: c in w.clients ==> SameBinding(w.clients[c], w'.clients[c]))
  }

  predicate SamePlace(s: Session<ClientId>, s': Session<ClientId>) {
    && s'.state == s.state && s'.live == s.live && s'.member == s.member && s'.parkedAt == s.parkedAt
    && s'.owner == s.owner
  }

  predicate SameBinding(k: Client, k': Client) {
    k'.session == k.session && k'.parked == k.parked && k'.bound == k.bound && k'.base == k.base && SameConn(k, k')
  }

  lemma SameLinksKeepLinked(w: Server, w': Server)
    requires Linked(w) && SameLinks(w, w')
    ensures Linked(w')
  {
    forall c | c in w'.clients && w'.clients[c].session.Some?
      ensures w'.clients[c].session.value in w'.store.heap
    {
      assert SameBinding(w.clients[c], w'.clients[c]);
    }
    forall id | id in w'.store.heap
      ensures w'.store.heap[id].member in w'.clients
      ensures w'.store.heap[id].live.Some? ==> w'.store.heap[id].live.value in w'.clients
    {
      assert SamePlace(w.store.heap[id], w'.store.heap[id]);
    }
  }

  lemma SameLinksKeepJoined(w: Server, w': Server)
    requires Linked(w) && Joined(w) && SameLinks(w, w')
    ensures Joined(w')
  {
    forall c | c in w'.hub.clients
      ensures c in w'.clients && WellRegistered(w', c)
    {
      assert SameBinding(w.clients[c], w'.clients[c]) && WellRegistered(w, c);
      if w.clients[c].session.Some? {
        var id := w.clients[c].session.value;
        assert SamePlace(w.store.heap[id], w'.store.heap[id]);
      }
    }
    forall id | id in w'.store.stored && id in w'.store.heap
      ensures HasMember(w', id)
    {
      assert HasMember(w, id) && SamePlace(w.store.heap[id], w'.store.heap[id]);
      assert SameBinding(w.clients[w.store.heap[id].member], w'.clients[w.store.heap[id].member]);
    }
  }

  lemma Reflexive(w: Server)
    ensures SameLinks(w, w) && Extends(w, w)
  {
  }

  lemma NextOf(s: Session<ClientId>, lim: Limits)
    requires Valid(s, lim)
    ensures s.next == |s.log| + 1
  {
  }

  lemma EventIsPlain(data: bytes)
    requires IsEvent(data)
    ensures IsPlain(Event(data))
  {
  }

  lemma DeliverKeepsPlace(s: Session<ClientId>, k: Client, data: bytes, pol: Policy, lim: Limits)
    ensures var d := Deliver(s, data, pol, Room(k), lim); var k' := Receive(k, d);
            SamePlace(s, d.session) && s.log <= d.session.log && SameBinding(k, k') && k.out == k'.out
  {
  }

  /** A stream may go on with an unnumbered frame, and a complete one with the next frame of the log. */
  lemma StreamPlusPlain(ws: seq<Wire>, f: Wire, id: SessionId, base: nat, log: seq<bytes>)
    requires Sequenced(ws, id, base, log) && IsPlain(f)
    ensures Sequenced(ws + [f], id, base, log) && Numbered((ws + [f])[1..]) == Numbered(ws[1..])
  {
    assert (ws + [f])[1..] == ws[1..] + [f];
    AppendPlain(ws[1..], f, base, log);
  }

  lemma StreamPlusNext(ws: seq<Wire>, data: bytes, id: SessionId, base: nat, log: seq<bytes>)
    requires Sequenced(ws, id, base, log) && base + Numbered(ws[1..]) == |log| && IsEvent(data)
    ensures var f := Event(Stamp(data, |log| + 1));
            Sequenced(ws + [f], id, base, log + [data]) && Numbered((ws + [f])[1..]) == Numbered(ws[1..]) + 1
  {
    hide Stamp;
    var f := Event(Stamp(data, |log| + 1));
    assert (ws + [f])[1..] == ws[1..] + [f];
    AppendNumbered(ws[1..], data, base, log);
  }

  lemma SequencedLater(ws: seq<Wire>, id: SessionId, base: nat, log: seq<bytes>, log': seq<bytes>)
    requires Sequenced(ws, id, base, log) && log <= log'
    ensures Sequenced(ws, id, base, log')
  {
    FollowsLongerLog(ws[1..], base, log, log');
  }

  /** A delivery through an open session keeps its live client's stream unbroken, and complete unless
      the session stalls. */
  lemma DeliverKeepsStream(s: Session<ClientId>, k: Client, id: SessionId, data: bytes, pol: Policy, lim: Limits)
    requires Valid(s, lim) && IsEvent(data) && AllEvents(s.log) && s.live.Some?
    requires Sequenced(Stream(k), id, k.base, s.log)
    requires !s.stalled ==> Complete(s.log, k)
    ensures var d := Deliver(s, data, pol, Room(k), lim); var k' := Receive(k, d);
            && AllEvents(d.session.log)
            && Stream(k) <= Stream(k')
            && Sequenced(Stream(k'), id, k.base, d.session.log)
            && (!d.session.stalled ==> Complete(d.session.log, k'))
  {
    hide Sequenced, Stamp, Numbered, Valid, IsEvent;
    var d := Deliver(s, data, pol, Room(k), lim);
    var ws := Stream(k);
    assert s.next == |s.log| + 1 by { NextOf(s, lim); }
    if d.queued.Some? {
      assert Stream(Receive(k, d)) == ws + [d.queued.value];
      if pol.Volatile? {
        assert IsPlain(Event(data)) by { EventIsPlain(data); }
        StreamPlusPlain(ws, Event(data), id, k.base, s.log);
      } else {
        StreamPlusNext(ws, data, id, k.base, s.log);
      }
    } else {
      assert Stream(Receive(k, d)) == ws;
      SequencedLater(ws, id, k.base, s.log, d.session.log);
    }
  }
}
