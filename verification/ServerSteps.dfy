/** Every step of the server keeps its invariant and only ever extends logs and streams. */
module ServerSteps {
  import opened Commons
  import opened Bytes
  import opened Frames
  import opened SessionSpec
  import opened ClientSpec
  import opened ServerModel
  import S = StoreSpec
  import H = Hubs

  // -------------------------------------------------------------------------
  // Replacing one session and one client

  /** An attached session is the one its member is bound to. */
  lemma MemberIsBound(w: Server, id: SessionId)
    requires Core(w) && id in w.store.heap && !w.store.heap[id].state.Closed?
    ensures HasMember(w, id) && id in w.store.stored
  {
  }

  lemma SessionFacts(w: Server, id: SessionId)
    requires Core(w) && id in w.store.heap
    ensures Valid(w.store.heap[id], w.lim) && AllEvents(w.store.heap[id].log) && LiveComplete(w, id)
  {
  }

  lemma StreamOfClient(w: Server, c: ClientId)
    requires Core(w) && c in w.clients
    ensures StreamOk(w.store.heap, w.clients[c])
    ensures w.clients[c].session.Some? ==> AllEvents(w.store.heap[w.clients[c].session.value].log)
  {
  }

  lemma OnlyMemberOf(w: Server, id: SessionId, c: ClientId)
    requires Core(w) && c in w.clients && w.clients[c].session == Some(id)
    ensures forall x :: x in w.store.heap && x != id && w.store.heap[x].state.Attached? ==> w.store.heap[x].member != c
  {
    forall x | x in w.store.heap && x != id && w.store.heap[x].state.Attached?
      ensures w.store.heap[x].member != c
    {
      MemberIsBound(w, x);
    }
  }

  /** The new session keeps its place and extends its log; the new client keeps its binding and
      extends its stream. */
  ghost predicate GoodUpdate(w: Server, id: SessionId, s: Session<ClientId>, c: ClientId, k: Client) {
    && id in w.store.heap && c in w.clients
    && Valid(s, w.lim) && SamePlace(w.store.heap[id], s)
    && w.store.heap[id].log <= s.log && AllEvents(s.log)
    && SameBinding(w.clients[c], k) && k.session == Some(id)
    && w.clients[c].out <= k.out && Stream(w.clients[c]) <= Stream(k)
    && k.bound && Sequenced(Stream(k), id, k.base, s.log)
    && LiveComplete(Updated(w, id, s, c, k), id)
  }

  lemma UpdateKeepsStreamOk(w: Server, id: SessionId, s: Session<ClientId>, c: ClientId, k: Client, x: ClientId)
    requires Streams(w) && GoodUpdate(w, id, s, c, k) && x in w.clients
    ensures var w' := Updated(w, id, s, c, k); StreamOk(w'.store.heap, w'.clients[x])
  {
    if x != c {
      var w' := Updated(w, id, s, c, k);
      assert HeapGrows(w.store.heap, w'.store.heap);
      StreamOkLater(w.store.heap, w'.store.heap, w.clients[x]);
    }
  }

  lemma UpdateKeepsStreams(w: Server, id: SessionId, s: Session<ClientId>, c: ClientId, k: Client)
    requires Streams(w) && GoodUpdate(w, id, s, c, k)
    requires forall x :: x in w.store.heap && x != id && w.store.heap[x].state.Attached? ==> w.store.heap[x].member != c
    ensures Streams(Updated(w, id, s, c, k))
  {
    var w' := Updated(w, id, s, c, k);
    forall x | x in w'.clients
      ensures StreamOk(w'.store.heap, w'.clients[x])
    {
      UpdateKeepsStreamOk(w, id, s, c, k, x);
    }
    forall x | x in w'.store.heap
      ensures LiveComplete(w', x)
    {
      assert x != id ==> LiveComplete(w, x);
    }
  }

  lemma UpdateKeepsStoreCore(w: Server, id: SessionId, s: Session<ClientId>, c: ClientId, k: Client)
    requires S.Core(w.store, w.lim, w.now) && id in w.store.heap && Valid(s, w.lim)
    requires SamePlace(w.store.heap[id], s)
    ensures S.Core(Updated(w, id, s, c, k).store, w.lim, w.now)
  {
    var st, st' := w.store, Updated(w, id, s, c, k).store;
    S.ReplaceKeepsSessions(st, st', id, s, w.lim);
    S.UpdateKeepsParked(st, id, s, w.now);
  }

  lemma UpdateKeepsLinks(w: Server, id: SessionId, s: Session<ClientId>, c: ClientId, k: Client)
    requires GoodUpdate(w, id, s, c, k)
    ensures SameLinks(w, Updated(w, id, s, c, k)) && Extends(w, Updated(w, id, s, c, k))
  {
  }

  lemma UpdateKeepsCore(w: Server, id: SessionId, s: Session<ClientId>, c: ClientId, k: Client)
    requires Core(w) && GoodUpdate(w, id, s, c, k)
    ensures Core(Updated(w, id, s, c, k))
  {
    var w' := Updated(w, id, s, c, k);
    assert S.Core(w'.store, w.lim, w.now) by { UpdateKeepsStoreCore(w, id, s, c, k); }
    assert Linked(w') && Joined(w') by {
      UpdateKeepsLinks(w, id, s, c, k);
      SameLinksKeepLinked(w, w');
      SameLinksKeepJoined(w, w');
    }
    assert Streams(w') by {
      OnlyMemberOf(w, id, c);
      UpdateKeepsStreams(w, id, s, c, k);
    }
  }

  /** The same for a client without a session. */
  lemma PlainUpdateKeepsCore(w: Server, c: ClientId, k: Client)
    requires Core(w) && c in w.clients && w.clients[c].session == None
    requires SameBinding(w.clients[c], k) && AllPlain(Stream(k)) && (!k.bound ==> k.out == [] && k.replay == [])
    requires w.clients[c].out <= k.out && Stream(w.clients[c]) <= Stream(k)
    ensures var w' := w.(clients := w.clients[c := k]);
            Core(w') && Extends(w, w') && SameLinks(w, w')
  {
    hide Linked, Joined, Streams, SameLinks, Extends, S.Core, AllPlain, Stream;
    var w' := w.(clients := w.clients[c := k]);
    PlainUpdateKeepsLinks(w, c, k);
    SameLinksKeepLinked(w, w');
    SameLinksKeepJoined(w, w');
    PlainUpdateKeepsStreams(w, c, k);
  }

  lemma PlainUpdateKeepsLinks(w: Server, c: ClientId, k: Client)
    requires c in w.clients && SameBinding(w.clients[c], k)
    requires w.clients[c].out <= k.out && Stream(w.clients[c]) <= Stream(k)
    ensures var w' := w.(clients := w.clients[c := k]); Extends(w, w') && SameLinks(w, w')
  {
  }

  lemma PlainUpdateKeepsStreams(w: Server, c: ClientId, k: Client)
    requires Core(w) && c in w.clients && w.clients[c].session == None == k.session
    requires AllPlain(Stream(k)) && (!k.bound ==> k.out == [] && k.replay == [])
    ensures Streams(w.(clients := w.clients[c := k]))
  {
    var w' := w.(clients := w.clients[c := k]);
    forall x | x in w'.clients
      ensures StreamOk(w'.store.heap, w'.clients[x])
    {
      assert x != c ==> StreamOk(w.store.heap, w.clients[x]);
    }
    forall x | x in w'.store.heap
      ensures LiveComplete(w', x)
    {
      assert LiveComplete(w, x);
      if w.store.heap[x].state.Attached? {
        MemberIsBound(w, x);
      }
    }
  }

  // -------------------------------------------------------------------------
  // Sending, acknowledging, writing, shutting down

  /** Sending, by whatever handle and policy, keeps the invariant. */
  lemma TrySendKeepsCore(w: Server, c: ClientId, data: bytes, pol: Policy)
    requires Core(w) && c in w.clients && IsEvent(data)
    ensures var w' := TrySend(w, c, data, pol).0;
            Core(w') && Extends(w, w') && SameLinks(w, w')
  {
    var k := w.clients[c];
    assert StreamOk(w.store.heap, k);
    if k.session == None {
      SendPlainKeepsCore(w, c, data, pol);
    } else {
      var id := k.session.value;
      var s := w.store.heap[id];
      if s.state.Closed? {
        SendClosedIsIgnored(w, c, id, data, pol);
        Reflexive(w);
      } else if s.live == None {
        SendParkedKeepsCore(w, c, id, data, pol);
      } else {
        SendLiveKeepsCore(w, c, id, data, pol);
      }
    }
  }

  lemma SendClosedIsIgnored(w: Server, c: ClientId, id: SessionId, data: bytes, pol: Policy)
    requires Linked(w) && c in w.clients && w.clients[c].session == Some(id)
    requires id in w.store.heap && w.store.heap[id].state.Closed?
    ensures TrySend(w, c, data, pol) == (w, true)
  {
    assert w.store.heap[id := w.store.heap[id]] == w.store.heap;
    var x := if w.store.heap[id].live.Some? then w.store.heap[id].live.value else c;
    assert w.clients[x := w.clients[x]] == w.clients;
  }

  lemma SendPlainKeepsCore(w: Server, c: ClientId, data: bytes, pol: Policy)
    requires Core(w) && c in w.clients && w.clients[c].session == None && IsEvent(data)
    ensures var w' := TrySend(w, c, data, pol).0;
            Core(w') && Extends(w, w') && SameLinks(w, w')
  {
    hide Core, Extends, SameLinks;
    CoreParts(w);
    StreamOfClient(w, c);
    var k := w.clients[c];
    var k' := SendPlain(k, data, pol).0;
    assert Stream(k') == Stream(k) || Stream(k') == Stream(k) + [Event(data)];
    PlainUpdateKeepsCore(w, c, k');
  }

  lemma ParkedDeliveryIsGood(w: Server, c: ClientId, id: SessionId, data: bytes, pol: Policy)
    requires Core(w) && c in w.clients && w.clients[c].session == Some(id) && IsEvent(data)
    requires id in w.store.heap && w.store.heap[id].live == None && !w.store.heap[id].state.Closed?
    ensures GoodUpdate(w, id, Deliver(w.store.heap[id], data, pol, Shut, w.lim).session, c, w.clients[c])
  {
    hide Core, Deliver, Follows, Numbered;
    var s, k := w.store.heap[id], w.clients[c];
    var s' := Deliver(s, data, pol, Shut, w.lim).session;
    SessionFacts(w, id);
    StreamOfClient(w, c);
    DeliverKeepsValid(s, data, pol, Shut, w.lim);
    DeliverStaysPut(s, data, pol, Shut, w.lim);
    FollowsLongerLog(Stream(k)[1..], k.base, s.log, s'.log);
  }

  lemma SendParkedKeepsCore(w: Server, c: ClientId, id: SessionId, data: bytes, pol: Policy)
    requires Core(w) && c in w.clients && w.clients[c].session == Some(id) && IsEvent(data)
    requires id in w.store.heap && w.store.heap[id].live == None && !w.store.heap[id].state.Closed?
    ensures var w' := TrySend(w, c, data, pol).0;
            Core(w') && Extends(w, w') && SameLinks(w, w')
  {
    var s' := Deliver(w.store.heap[id], data, pol, Shut, w.lim).session;
    ParkedDeliveryIsGood(w, c, id, data, pol);
    UpdateKeepsCore(w, id, s', c, w.clients[c]);
    UpdateKeepsLinks(w, id, s', c, w.clients[c]);
  }

  lemma LiveDeliveryIsGood(w: Server, id: SessionId, data: bytes, pol: Policy)
    requires Core(w) && IsEvent(data)
    requires id in w.store.heap && w.store.heap[id].live.Some? && !w.store.heap[id].state.Closed?
    ensures var s := w.store.heap[id]; var l := s.live.value;
            && l in w.clients
            && var d := Deliver(s, data, pol, Room(w.clients[l]), w.lim);
               GoodUpdate(w, id, d.session, l, Receive(w.clients[l], d))
  {
    hide Core, Deliver, Sequenced, Complete;
    CoreParts(w);
    var s := w.store.heap[id];
    var k := w.clients[s.live.value];
    MemberIsBound(w, id);
    SessionFacts(w, id);
    StreamOfClient(w, s.live.value);
    DeliverKeepsValid(s, data, pol, Room(k), w.lim);
    DeliverKeepsPlace(s, k, data, pol, w.lim);
    DeliverKeepsStream(s, k, id, data, pol, w.lim);
  }

  lemma SendLiveKeepsCore(w: Server, c: ClientId, id: SessionId, data: bytes, pol: Policy)
    requires Core(w) && c in w.clients && w.clients[c].session == Some(id) && IsEvent(data)
    requires id in w.store.heap && w.store.heap[id].live.Some? && !w.store.heap[id].state.Closed?
    ensures var w' := TrySend(w, c, data, pol).0;
            Core(w') && Extends(w, w') && SameLinks(w, w')
  {
    var s := w.store.heap[id];
    var l := s.live.value;
    LiveDeliveryIsGood(w, id, data, pol);
    var d := Deliver(s, data, pol, Room(w.clients[l]), w.lim);
    UpdateKeepsCore(w, id, d.session, l, Receive(w.clients[l], d));
    UpdateKeepsLinks(w, id, d.session, l, Receive(w.clients[l], d));
  }

  lemma AckIsGood(w: Server, c: ClientId, id: SessionId, n: nat)
    requires Core(w) && c in w.clients && w.clients[c].session == Some(id) && id in w.store.heap
    ensures GoodUpdate(w, id, Ack(w.store.heap[id], n), c, w.clients[c])
  {
    hide Core, Sequenced, Complete;
    var s, k := w.store.heap[id], w.clients[c];
    SessionFacts(w, id);
    StreamOfClient(w, c);
    AckKeepsValid(s, n, w.lim);
    assert Updated(w, id, Ack(s, n), c, k).clients == w.clients;
  }

  lemma AckKeepsCore(w: Server, c: ClientId, n: nat)
    requires Core(w) && c in w.clients
    ensures Core(AckFrom(w, c, n)) && Extends(w, AckFrom(w, c, n)) && SameLinks(w, AckFrom(w, c, n))
  {
    if w.clients[c].session == None {
      Reflexive(w);
    } else {
      var id := w.clients[c].session.value;
      AckIsGood(w, c, id, n);
      UpdateKeepsCore(w, id, Ack(w.store.heap[id], n), c, w.clients[c]);
      UpdateKeepsLinks(w, id, Ack(w.store.heap[id], n), c, w.clients[c]);
    }
  }

  /** Changes to one client that leave its stream and its binding alone. */
  lemma ClientUpdateKeepsCore(w: Server, c: ClientId, k: Client)
    requires Core(w) && c in w.clients
    requires SameBinding(w.clients[c], k) && Stream(k) == Stream(w.clients[c]) && w.clients[c].out <= k.out
    requires !k.bound ==> k.out == [] && k.replay == []
    ensures var w' := WithClient(w, c, k); Core(w') && Extends(w, w') && SameLinks(w, w')
  {
    assert StreamOk(w.store.heap, w.clients[c]);
    if k.session == None {
      PlainUpdateKeepsCore(w, c, k);
    } else {
      var id := k.session.value;
      var s := w.store.heap[id];
      assert w.store.heap[id := s] == w.store.heap;
      SameStreamIsGood(w, c, id, k);
      UpdateKeepsCore(w, id, s, c, k);
      UpdateKeepsLinks(w, id, s, c, k);
    }
  }

  lemma SameStreamIsGood(w: Server, c: ClientId, id: SessionId, k: Client)
    requires Core(w) && c in w.clients && w.clients[c].session == Some(id) && id in w.store.heap
    requires SameBinding(w.clients[c], k) && Stream(k) == Stream(w.clients[c]) && w.clients[c].out <= k.out
    ensures GoodUpdate(w, id, w.store.heap[id], c, k)
  {
    hide Core, Sequenced;
    SessionFacts(w, id);
    StreamOfClient(w, c);
  }

  lemma PumpKeepsCore(w: Server, c: ClientId)
    requires Core(w) && c in w.clients && w.clients[c].bound
    ensures Core(PumpOnce(w, c)) && Extends(w, PumpOnce(w, c)) && SameLinks(w, PumpOnce(w, c))
  {
    PumpKeepsStream(w.clients[c]);
    ClientUpdateKeepsCore(w, c, Pump(w.clients[c]));
  }

  lemma CloseConnKeepsCore(w: Server, c: ClientId, terminal: bool)
    requires Core(w) && c in w.clients
    ensures var w' := CloseConn(w, c, terminal); Core(w') && Extends(w, w') && SameLinks(w, w')
  {
    assert StreamOk(w.store.heap, w.clients[c]);
    ClientUpdateKeepsCore(w, c, CloseConn(w, c, terminal).clients[c]);
  }

  lemma TickKeepsCore(w: Server, now: int)
    requires Core(w) && w.now <= now
    ensures Core(Tick(w, now)) && Extends(w, Tick(w, now))
  {
    var w' := Tick(w, now);
    S.CoreLater(w.store, w.lim, w.now, now);
    assert Joined(w') by {
      assert forall c :: c in w.hub.clients ==> c in w.clients && WellRegistered(w, c) && WellRegistered(w', c);
      assert forall id :: id in w.store.stored && id in w.store.heap ==> HasMember(w, id) && HasMember(w', id);
    }
    assert Streams(w') by {
      assert forall id :: id in w.store.heap ==> LiveComplete(w, id) && LiveComplete(w', id);
    }
    Reflexive(w);
  }

  // -------------------------------------------------------------------------
  // Closing a session

  /** The store has closed one open session and changed nothing else about any session. */
  ghost predicate ClosedOne(st: S.Store<ClientId>, st': S.Store<ClientId>, id: SessionId) {
    && id in st.stored && id in st.heap
    && st'.heap.Keys == st.heap.Keys && st'.stored == st.stored - {id}
    && st.released <= st'.released && st.terminated <= st'.terminated
    && (forall x :: x in st.heap && x != id ==> st'.heap[x] == st.heap[x])
    && var s, s' := st.heap[id], st'.heap[id];
       && s'.state.Closed? && s'.member == s.member && s'.log == s.log && s'.owner == s.owner
       && (s'.live == s.live || s'.live == None)
  }

  function Closing(w: Server, id: SessionId, st': S.Store<ClientId>): Server
    requires id in w.store.heap
  {
    w.(store := st', hub := H.Unregister(w.hub, w.store.heap[id].member))
  }

  lemma ClosingKeepsRegistered(w: Server, id: SessionId, st': S.Store<ClientId>, c: ClientId)
    requires Joined(w) && ClosedOne(w.store, st', id) && c in w.hub.clients && c != w.store.heap[id].member
    ensures c in w.clients && WellRegistered(Closing(w, id, st'), c)
  {
    assert WellRegistered(w, c);
  }

  lemma ClosingKeepsMember(w: Server, id: SessionId, st': S.Store<ClientId>, x: SessionId)
    requires Joined(w) && ClosedOne(w.store, st', id) && x in w.store.stored && x in w.store.heap && x != id
    ensures HasMember(Closing(w, id, st'), x)
  {
    assert HasMember(w, x) && HasMember(w, id);
  }

  lemma ClosingKeepsJoined(w: Server, id: SessionId, st': S.Store<ClientId>)
    requires Joined(w) && ClosedOne(w.store, st', id)
    ensures Joined(Closing(w, id, st'))
  {
    var w' := Closing(w, id, st');
    H.UnregisterKeepsInv(w.hub, w.store.heap[id].member);
    forall c | c in w'.hub.clients
      ensures c in w'.clients && WellRegistered(w', c)
    {
      ClosingKeepsRegistered(w, id, st', c);
    }
    forall x | x in w'.store.stored && x in w'.store.heap
      ensures HasMember(w', x)
    {
      ClosingKeepsMember(w, id, st', x);
    }
  }

  lemma ClosingKeepsStreams(w: Server, id: SessionId, st': S.Store<ClientId>)
    requires Streams(w) && ClosedOne(w.store, st', id)
    ensures Streams(Closing(w, id, st'))
  {
    var w' := Closing(w, id, st');
    assert HeapGrows(w.store.heap, st'.heap);
    forall c | c in w'.clients
      ensures StreamOk(w'.store.heap, w'.clients[c])
    {
      StreamOkLater(w.store.heap, st'.heap, w.clients[c]);
    }
    forall x | x in w'.store.heap
      ensures LiveComplete(w', x)
    {
      assert LiveComplete(w, x);
    }
  }

  lemma ClosingKeepsLinked(w: Server, id: SessionId, st': S.Store<ClientId>)
    requires Linked(w) && ClosedOne(w.store, st', id)
    ensures Linked(Closing(w, id, st'))
  {
  }

  lemma ClosingExtends(w: Server, id: SessionId, st': S.Store<ClientId>)
    requires ClosedOne(w.store, st', id)
    ensures Extends(w, Closing(w, id, st'))
  {
  }

  lemma ClosingKeepsCore(w: Server, id: SessionId, st': S.Store<ClientId>)
    requires Core(w) && ClosedOne(w.store, st', id) && S.Core(st', w.lim, w.now)
    ensures Core(Closing(w, id, st')) && Extends(w, Closing(w, id, st'))
  {
    ClosingExtends(w, id, st');
    ClosingKeepsLinked(w, id, st');
    ClosingKeepsJoined(w, id, st');
    ClosingKeepsStreams(w, id, st');
  }

  /** Discarding a session for whatever reason keeps the registries in step. */
  lemma ReleaseKeepsCore(w: Server, id: SessionId, why: S.ReleaseReason)
    requires Core(w) && id in w.store.stored && id in w.store.heap
    ensures Core(Release(w, id, why)) && Extends(w, Release(w, id, why))
  {
    S.DiscardKeepsCore(w.store, id, why, w.lim, w.now);
    ClosingKeepsCore(w, id, S.Discard(w.store, id, why));
  }

  lemma EndSessionKeepsCore(w: Server, c: ClientId, id: SessionId)
    requires Core(w) && id in w.store.heap && !w.store.heap[id].state.Closed? && w.store.heap[id].live == Some(c)
    ensures Core(EndSession(w, c, id)) && Extends(w, EndSession(w, c, id))
  {
    MemberIsBound(w, id);
    S.TerminateKeepsCore(w.store, id, w.lim, w.now);
    ClosingKeepsCore(w, id, S.Terminate(w.store, id));
  }

  // -------------------------------------------------------------------------
  // Connecting and rooms

  lemma ConnectKeepsCore(w: Server, c: ClientId, cap: nat)
    requires Core(w) && c !in w.clients
    ensures Core(Connect(w, c, cap)) && Extends(w, Connect(w, c, cap))
  {
    hide Linked, Joined, Streams, Extends, S.Core;
    ConnectLinked(w, c, cap);
    ConnectJoined(w, c, cap);
    ConnectStreams(w, c, cap);
  }

  lemma ConnectLinked(w: Server, c: ClientId, cap: nat)
    requires Linked(w) && c !in w.clients
    ensures Linked(Connect(w, c, cap)) && Extends(w, Connect(w, c, cap))
  {
  }

  lemma ConnectJoined(w: Server, c: ClientId, cap: nat)
    requires Joined(w) && c !in w.clients
    ensures Joined(Connect(w, c, cap))
  {
    var w' := Connect(w, c, cap);
    forall x | x in w'.hub.clients
      ensures x in w'.clients && WellRegistered(w', x)
    {
      assert x != c ==> WellRegistered(w, x);
    }
    forall id | id in w'.store.stored && id in w'.store.heap
      ensures HasMember(w', id)
    {
      assert HasMember(w, id);
    }
  }

  lemma ConnectStreams(w: Server, c: ClientId, cap: nat)
    requires Streams(w) && c !in w.clients
    ensures Streams(Connect(w, c, cap))
  {
    var w' := Connect(w, c, cap);
    forall x | x in w'.clients
      ensures StreamOk(w'.store.heap, w'.clients[x])
    {
      assert x != c ==> StreamOk(w.store.heap, w.clients[x]);
    }
    forall id | id in w'.store.heap
      ensures LiveComplete(w', id)
    {
      assert LiveComplete(w, id);
    }
  }

  /** Room changes that leave the set of registered clients alone. */
  lemma RoomsKeepCore(w: Server, hub: H.Hub<ClientId>)
    requires Core(w) && H.Inv(hub) && hub.clients == w.hub.clients
    ensures Core(w.(hub := hub)) && Extends(w, w.(hub := hub))
  {
    var w' := w.(hub := hub);
    assert Joined(w') by {
      assert forall c :: c in w.hub.clients ==> c in w.clients && WellRegistered(w, c) && WellRegistered(w', c);
      assert forall id :: id in w.store.stored && id in w.store.heap ==> HasMember(w, id) && HasMember(w', id);
    }
    assert Streams(w') by {
      assert forall id :: id in w.store.heap ==> LiveComplete(w, id) && LiveComplete(w', id);
    }
    Reflexive(w);
  }

  /** Unregistering a client that is the member of no stored session. */
  lemma LeaveHubKeepsCore(w: Server, c: ClientId)
    requires Core(w) && c in w.clients
    requires w.clients[c].session.Some? ==> w.clients[c].session.value !in w.store.stored
    ensures Core(LeaveHub(w, c)) && Extends(w, LeaveHub(w, c))
  {
    var w' := LeaveHub(w, c);
    H.UnregisterKeepsInv(w.hub, c);
    assert Joined(w') by {
      forall x | x in w'.hub.clients
        ensures x in w'.clients && WellRegistered(w', x)
      {
        assert WellRegistered(w, x);
      }
      forall id | id in w'.store.stored && id in w'.store.heap
        ensures HasMember(w', id)
      {
        assert HasMember(w, id);
      }
    }
    assert Streams(w') by {
      assert forall id :: id in w.store.heap ==> LiveComplete(w, id) && LiveComplete(w', id);
    }
    Reflexive(w);
  }

  // -------------------------------------------------------------------------
  // Binding

  /** Only client `c` and session `id` have changed, and no log has. */
  ghost predicate BindingFrame(w: Server, w': Server, c: ClientId, id: SessionId) {
    && c in w.clients
    && w'.lim == w.lim && w'.now == w.now
    && w'.clients.Keys == w.clients.Keys && SameConn(w.clients[c], w'.clients[c])
    && (forall x :: x in w.clients && x != c ==> w'.clients[x] == w.clients[x])
    && w'.store.heap.Keys == w.store.heap.Keys + {id} && w'.store.stored == w.store.stored + {id}
    && (forall x :: x in w.store.heap && x != id ==> w'.store.heap[x] == w.store.heap[x])
    && w'.store.released == w.store.released && w'.store.terminated == w.store.terminated
    && (id in w.store.heap ==>
          && !w.store.heap[id].state.Closed? && w'.store.heap[id].log == w.store.heap[id].log
          && w'.store.heap[id].owner == w.store.heap[id].owner)
  }

  /** The newly bound client of a session, and the session, after a fresh start or a resume. */
  ghost predicate BoundTogether(s: Session<ClientId>, k: Client, c: ClientId, id: SessionId) {
    && s.state.Attached? && s.live == Some(c) && s.member == c && AllEvents(s.log)
    && k.session == Some(id) && k.bound && k.out == [] && !k.parked
    && Sequenced(Stream(k), id, k.base, s.log) && Complete(s.log, k)
  }

  ghost predicate GoodBinding(w: Server, w': Server, c: ClientId, id: SessionId) {
    && BindingFrame(w, w', c, id)
    && !w.clients[c].bound && c in w.hub.clients
    && BoundTogether(w'.store.heap[id], w'.clients[c], c, id)
  }

  lemma BindingKeepsLinked(w: Server, w': Server, c: ClientId, id: SessionId)
    requires Linked(w) && GoodBinding(w, w', c, id)
    ensures Linked(w')
  {
    forall x | x in w'.store.heap
      ensures w'.store.heap[x].member in w'.clients
      ensures w'.store.heap[x].live.Some? ==> w'.store.heap[x].live.value in w'.clients
    {
      assert x != id ==> w'.store.heap[x] == w.store.heap[x];
    }
    forall x | x in w'.clients && w'.clients[x].session.Some?
      ensures w'.clients[x].session.value in w'.store.heap
    {
      assert x != c ==> w'.clients[x] == w.clients[x];
    }
  }

  lemma BindingExtends(w: Server, w': Server, c: ClientId, id: SessionId)
    requires GoodBinding(w, w', c, id) && StreamOk(w.store.heap, w.clients[c])
    ensures Extends(w, w')
  {
  }

  lemma BindingKeepsOtherComplete(w: Server, w': Server, c: ClientId, id: SessionId, x: SessionId)
    requires Core(w) && GoodBinding(w, w', c, id) && x in w.store.heap && x != id
    ensures LiveComplete(w', x)
  {
    assert StreamOk(w.store.heap, w.clients[c]) && LiveComplete(w, x);
    if w.store.heap[x].state.Attached? {
      MemberIsBound(w, x);
    }
  }

  lemma BindingKeepsStreams(w: Server, w': Server, c: ClientId, id: SessionId)
    requires Core(w) && GoodBinding(w, w', c, id) && HeapGrows(w.store.heap, w'.store.heap)
    ensures Streams(w')
  {
    forall x | x in w'.clients
      ensures StreamOk(w'.store.heap, w'.clients[x])
    {
      if x != c {
        StreamOkLater(w.store.heap, w'.store.heap, w.clients[x]);
      }
    }
    forall x | x in w'.store.heap
      ensures LiveComplete(w', x) && AllEvents(w'.store.heap[x].log)
    {
      if x != id {
        BindingKeepsOtherComplete(w, w', c, id, x);
      }
    }
  }

  lemma BindingKeepsCore(w: Server, w': Server, c: ClientId, id: SessionId)
    requires Core(w) && GoodBinding(w, w', c, id)
    requires S.Core(w'.store, w'.lim, w'.now) && Joined(w')
    ensures Core(w') && Extends(w, w')
  {
    assert StreamOk(w.store.heap, w.clients[c]);
    BindingExtends(w, w', c, id);
    BindingKeepsLinked(w, w', c, id);
    BindingKeepsStreams(w, w', c, id);
  }

  lemma BindNoneKeepsCore(w: Server, c: ClientId)
    requires Core(w) && c in w.clients && !w.clients[c].bound
    ensures Core(BindNone(w, c)) && Extends(w, BindNone(w, c))
  {
    var w' := BindNone(w, c);
    assert StreamOk(w.store.heap, w.clients[c]);
    BindNoneJoined(w, c);
    assert Streams(w') by { PlainUpdateKeepsStreams(w, c, w'.clients[c]); }
    Reflexive(w);
  }

  lemma BindNoneJoined(w: Server, c: ClientId)
    requires Joined(w) && c in w.clients
    ensures Joined(BindNone(w, c))
  {
    var w' := BindNone(w, c);
    assert forall x :: x in w.hub.clients ==> x in w.clients && WellRegistered(w, x) && WellRegistered(w', x);
    assert forall id :: id in w.store.stored && id in w.store.heap ==> HasMember(w, id) && HasMember(w', id);
  }

  // A fresh session

  lemma FreshKeepsRegistered(w: Server, c: ClientId, id: SessionId, owner: string, reason: Option<Reason>, x: ClientId)
    requires Joined(w) && c in w.clients && w.clients[c].session == None && c in w.hub.clients && id !in w.store.heap
    requires x in w.hub.clients
    ensures x in w.clients && WellRegistered(BindFresh(w, c, id, owner, reason), x)
  {
    assert WellRegistered(w, x);
  }

  lemma FreshKeepsMember(w: Server, c: ClientId, id: SessionId, owner: string, reason: Option<Reason>, x: SessionId)
    requires Joined(w) && c in w.clients && w.clients[c].session == None && c in w.hub.clients && id !in w.store.heap
    requires x == id || (x in w.store.stored && x in w.store.heap)
    ensures HasMember(BindFresh(w, c, id, owner, reason), x)
  {
    assert x != id ==> HasMember(w, x);
  }

  lemma FreshJoined(w: Server, c: ClientId, id: SessionId, owner: string, reason: Option<Reason>)
    requires Joined(w) && c in w.clients && w.clients[c].session == None && c in w.hub.clients && id !in w.store.heap
    ensures Joined(BindFresh(w, c, id, owner, reason))
  {
    hide WellRegistered, HasMember;
    var w' := BindFresh(w, c, id, owner, reason);
    forall x | x in w'.hub.clients
      ensures x in w'.clients && WellRegistered(w', x)
    {
      FreshKeepsRegistered(w, c, id, owner, reason, x);
    }
    forall x | x in w'.store.stored && x in w'.store.heap
      ensures HasMember(w', x)
    {
      FreshKeepsMember(w, c, id, owner, reason, x);
    }
  }

  /** The stream of a freshly bound client: the pre-queue, then what was queued before. */
  lemma BoundStream(k: Client, k': Client, hello: Wire, frames: seq<Wire>, log: seq<bytes>)
    requires k.out == [] && k.replay == [] && AllPlain(Stream(k))
    requires k'.out == [] && k'.replay == [hello] + frames && k'.queue == k.queue
    requires hello.Hello? && (!hello.resumed ==> k'.base == 0)
    requires Follows(frames, k'.base, log) && k'.base + Numbered(frames) == |log|
    ensures Sequenced(Stream(k'), hello.id, k'.base, log) && Complete(log, k')
  {
    assert Stream(k) == k.queue;
    assert Stream(k') == [hello] + (frames + k.queue);
    assert Stream(k')[1..] == frames + k.queue;
    AppendPlains(frames, k.queue, k'.base, log);
  }

  lemma FreshIsGood(w: Server, c: ClientId, id: SessionId, owner: string, reason: Option<Reason>)
    requires Core(w) && c in w.clients && !w.clients[c].bound && c in w.hub.clients && id !in w.store.heap
    ensures GoodBinding(w, BindFresh(w, c, id, owner, reason), c, id)
  {
    var w' := BindFresh(w, c, id, owner, reason);
    assert StreamOk(w.store.heap, w.clients[c]) && WellRegistered(w, c);
    var hello := Hello(id, false, 0, 0, reason);
    assert [hello] == [hello] + [];
    BoundStream(w.clients[c], w'.clients[c], hello, [], []);
  }

  lemma BindFreshKeepsCore(w: Server, c: ClientId, id: SessionId, owner: string, reason: Option<Reason>)
    requires Core(w) && c in w.clients && !w.clients[c].bound && c in w.hub.clients && id !in w.store.heap
    ensures var w' := BindFresh(w, c, id, owner, reason); Core(w') && Extends(w, w')
  {
    var w' := BindFresh(w, c, id, owner, reason);
    S.CreateKeepsCore(w.store, id, owner, c, w.lim, w.now);
    StreamOfClient(w, c);
    FreshJoined(w, c, id, owner, reason);
    FreshIsGood(w, c, id, owner, reason);
    BindingKeepsCore(w, w', c, id);
  }

  // A resumed session

  ghost predicate MayResume(w: Server, c: ClientId, id: SessionId, req: Request) {
    && Core(w) && c in w.clients && !w.clients[c].bound && c in w.hub.clients
    && id in w.store.stored && id in w.store.heap
    && Judge(w.store.heap[id], req, w.now, w.lim.ttl).Grant?
  }

  lemma ResumeKeepsRegistered(w: Server, c: ClientId, id: SessionId, lastSeq: nat, x: ClientId)
    requires Joined(w) && c in w.clients && w.clients[c].session == None && c in w.hub.clients
    requires id in w.store.stored && id in w.store.heap && w.store.heap[id].next > 0
    requires x in w.hub.clients && x != w.store.heap[id].member
    ensures x in w.clients && WellRegistered(BindResume(w, c, id, lastSeq), x)
  {
    assert WellRegistered(w, x) && WellRegistered(w, c) && HasMember(w, id);
  }

  lemma ResumeKeepsMembers(w: Server, c: ClientId, id: SessionId, lastSeq: nat, x: SessionId)
    requires Joined(w) && c in w.clients && w.clients[c].session == None && c in w.hub.clients
    requires id in w.store.stored && id in w.store.heap && w.store.heap[id].next > 0
    requires x in w.store.stored && x in w.store.heap
    ensures HasMember(BindResume(w, c, id, lastSeq), x)
  {
    assert HasMember(w, x) && HasMember(w, id);
  }

  lemma ResumeJoined(w: Server, c: ClientId, id: SessionId, lastSeq: nat)
    requires Core(w) && c in w.clients && !w.clients[c].bound && c in w.hub.clients
    requires id in w.store.stored && id in w.store.heap
    ensures Joined(BindResume(w, c, id, lastSeq))
  {
    var w' := BindResume(w, c, id, lastSeq);
    var m := w.store.heap[id].member;
    assert StreamOk(w.store.heap, w.clients[c]) && HasMember(w, id) && m != c;
    H.TransferMovesRooms(w.hub, m, c);
    assert w'.hub == H.Transfer(w.hub, m, c);
    forall x | x in w'.hub.clients
      ensures x in w'.clients && WellRegistered(w', x)
    {
      ResumeKeepsRegistered(w, c, id, lastSeq, x);
    }
    forall x | x in w'.store.stored && x in w'.store.heap
      ensures HasMember(w', x)
    {
      ResumeKeepsMembers(w, c, id, lastSeq, x);
    }
  }

  lemma ResumedStream(w: Server, c: ClientId, id: SessionId, req: Request)
    requires MayResume(w, c, id, req)
    ensures var k' := BindResume(w, c, id, req.lastSeq).clients[c]; var log := w.store.heap[id].log;
            Sequenced(Stream(k'), id, k'.base, log) && Complete(log, k')
  {
    var s, k := w.store.heap[id], w.clients[c];
    assert StreamOk(w.store.heap, k) && AllEvents(s.log);
    GrantReplaysExactlyMissing(id, s, req, w.now, w.lim);
    MissingFollows(s.log, req.lastSeq);
    BoundStream(k, BindResume(w, c, id, req.lastSeq).clients[c],
                Hello(id, true, |s.log| - req.lastSeq, |s.log|, None), MissingFrames(s.log, req.lastSeq), s.log);
  }

  lemma ResumeFrame(w: Server, c: ClientId, id: SessionId, lastSeq: nat)
    requires c in w.clients && id in w.store.stored && id in w.store.heap
    requires !w.store.heap[id].state.Closed? && w.store.heap[id].next > 0
    ensures BindingFrame(w, BindResume(w, c, id, lastSeq), c, id)
  {
    assert w.store.heap.Keys + {id} == w.store.heap.Keys;
    assert w.store.stored + {id} == w.store.stored;
  }

  lemma ResumeIsGood(w: Server, c: ClientId, id: SessionId, req: Request)
    requires MayResume(w, c, id, req)
    ensures GoodBinding(w, BindResume(w, c, id, req.lastSeq), c, id)
  {
    assert StreamOk(w.store.heap, w.clients[c]) && WellRegistered(w, c) && AllEvents(w.store.heap[id].log);
    ResumedStream(w, c, id, req);
    ResumeFrame(w, c, id, req.lastSeq);
  }

  lemma BindResumeKeepsCore(w: Server, c: ClientId, id: SessionId, req: Request)
    requires MayResume(w, c, id, req)
    ensures var w' := BindResume(w, c, id, req.lastSeq); Core(w') && Extends(w, w')
  {
    var w' := BindResume(w, c, id, req.lastSeq);
    S.ResumeKeepsCore(w.store, id, c, req.lastSeq, w.lim, w.now);
    ResumeJoined(w, c, id, req.lastSeq);
    ResumeIsGood(w, c, id, req);
    BindingKeepsCore(w, w', c, id);
  }

  // -------------------------------------------------------------------------
  // Parking

  lemma ParkKeepsRegistered(w: Server, c: ClientId, id: SessionId, x: ClientId)
    requires Joined(w) && c in w.clients && id in w.store.heap && id in w.store.stored
    requires w.store.heap[id].member == c && HasMember(w, id) && x in w.hub.clients
    ensures x in w.clients && WellRegistered(ParkClient(w, c, id), x)
  {
    assert WellRegistered(w, x);
  }

  lemma ParkKeepsMember(w: Server, c: ClientId, id: SessionId, x: SessionId)
    requires Joined(w) && c in w.clients && id in w.store.heap && x in w.store.stored && x in w.store.heap
    ensures HasMember(ParkClient(w, c, id), x)
  {
    assert HasMember(w, x);
  }

  lemma ParkKeepsJoined(w: Server, c: ClientId, id: SessionId)
    requires Joined(w) && c in w.clients && id in w.store.heap && id in w.store.stored
    requires w.store.heap[id].member == c && HasMember(w, id)
    ensures Joined(ParkClient(w, c, id))
  {
    hide WellRegistered, HasMember;
    var w' := ParkClient(w, c, id);
    forall x | x in w'.hub.clients
      ensures x in w'.clients && WellRegistered(w', x)
    {
      ParkKeepsRegistered(w, c, id, x);
    }
    forall x | x in w'.store.stored && x in w'.store.heap
      ensures HasMember(w', x)
    {
      ParkKeepsMember(w, c, id, x);
    }
  }

  lemma ParkKeepsStreams(w: Server, c: ClientId, id: SessionId)
    requires Streams(w) && c in w.clients && id in w.store.heap
    ensures Streams(ParkClient(w, c, id))
  {
    var w' := ParkClient(w, c, id);
    forall x | x in w'.clients
      ensures StreamOk(w'.store.heap, w'.clients[x])
    {
      assert StreamOk(w.store.heap, w.clients[x]) && Stream(w'.clients[x]) == Stream(w.clients[x]);
    }
    forall x | x in w'.store.heap
      ensures LiveComplete(w', x)
    {
      assert LiveComplete(w, x);
    }
  }

  lemma ParkKeepsLinked(w: Server, c: ClientId, id: SessionId)
    requires Linked(w) && c in w.clients && id in w.store.heap
    ensures Linked(ParkClient(w, c, id))
  {
  }

  lemma ParkExtends(w: Server, c: ClientId, id: SessionId)
    requires c in w.clients && id in w.store.heap && !w.store.heap[id].state.Closed?
    ensures Extends(w, ParkClient(w, c, id))
  {
    var w' := ParkClient(w, c, id);
    forall x | x in w.clients
      ensures x in w'.clients && ClientGrows(w.clients[x], w'.clients[x])
    {
      assert Stream(w'.clients[x]) == Stream(w.clients[x]);
    }
  }

  lemma ParkKeepsCore(w: Server, c: ClientId, id: SessionId)
    requires Core(w) && c in w.clients && id in w.store.heap
    requires !w.store.heap[id].state.Closed? && w.store.heap[id].live == Some(c)
    ensures Core(ParkClient(w, c, id)) && Extends(w, ParkClient(w, c, id))
  {
    assert w.store.heap[id].state.Attached?;
    S.ParkKeepsCore(w.store, id, w.lim, w.now);
    ParkExtends(w, c, id);
    ParkKeepsLinked(w, c, id);
    MemberIsBound(w, id);
    ParkKeepsJoined(w, c, id);
    ParkKeepsStreams(w, c, id);
  }
}
