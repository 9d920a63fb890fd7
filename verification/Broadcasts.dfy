/** Room broadcasts survive reconnects: what a session is joined to outlives its connections, and a
    broadcast reaches every joined session exactly once, attached or parked. */
module Broadcasts {
  import opened Commons
  import opened Bytes
  import opened Frames
  import opened SessionSpec
  import opened ClientSpec
  import opened ServerModel
  import opened ServerSteps
  import opened ServerRuns
  import S = StoreSpec
  import H = Hubs

  /** The rooms a session is joined to, through its hub member. */
  function SessionRooms(w: Server, id: SessionId): set<H.Room>
    requires id in w.store.heap
  {
    H.RoomsOf(w.hub, w.store.heap[id].member)
  }

  // -------------------------------------------------------------------------
  // Membership

  /** What a step makes of the rooms of a stored session: only its own joins and leaves change them, and
      a resume adds what the new connection had already joined. */
  ghost function RoomsAfter(w: Server, e: Step, id: SessionId, before: set<H.Room>): set<H.Room>
    requires Inv(w) && Legal(w, e) && id in w.store.heap
  {
    match e
    case DoJoin(c, room, _) => if room != "" && c == w.store.heap[id].member then before + {room} else before
    case DoLeaveRoom(c, room) => if room != "" && c == w.store.heap[id].member then before - {room} else before
    case DoOpen(c, req, _, now) =>
      if S.Decide(w.store, req, now, w.lim) == S.ResumeOf(id) then before + H.RoomsOf(w.hub, c) else before
    case _ => before
  }

  lemma MembersDiffer(w: Server, a: SessionId, b: SessionId)
    requires Core(w) && a in w.store.stored && b in w.store.stored && a in w.store.heap && b in w.store.heap
    requires a != b
    ensures w.store.heap[a].member != w.store.heap[b].member
  {
    assert HasMember(w, a) && HasMember(w, b);
  }

  lemma ReleaseKeepsRooms(w: Server, other: SessionId, why: S.ReleaseReason, id: SessionId)
    requires Core(w) && id in w.store.stored && id in w.store.heap
    requires other in w.store.stored && other in w.store.heap && other != id
    ensures id in Release(w, other, why).store.stored
    ensures SessionRooms(Release(w, other, why), id) == SessionRooms(w, id)
  {
    MembersDiffer(w, id, other);
    H.OthersKeepRooms(w.hub, w.store.heap[other].member, w.store.heap[id].member, "", 0);
  }

  lemma ReleaseKeepsOthers(w: Server, x: SessionId, why: S.ReleaseReason)
    requires x in w.store.heap
    ensures var w' := Release(w, x, why);
            && w'.store.stored == w.store.stored - {x} && w'.store.heap.Keys == w.store.heap.Keys
            && |w'.store.parked| <= |w.store.parked| && w'.lim == w.lim
            && (x in w.store.parked ==> |w'.store.parked| < |w.store.parked|)
  {
  }

  /** Releasing the longest parked session, one round of a sweep or an eviction. */
  lemma ReleaseLongest(w: Server, id: SessionId, why: S.ReleaseReason)
    requires Core(w) && id in w.store.heap && w.store.parked != []
    ensures w.store.parked[0] in w.store.heap
    ensures var w1 := Release(w, w.store.parked[0], why);
            && Core(w1) && id in w1.store.heap && w1.lim == w.lim
            && |w1.store.parked| < |w.store.parked| && w1.store.stored <= w.store.stored
            && (id in w1.store.stored ==> SessionRooms(w1, id) == SessionRooms(w, id))
  {
    hide Core, Release, SessionRooms, Extends, Linked, H.Inv;
    var x := w.store.parked[0];
    CoreParts(w);
    LongestParkedIsStored(w);
    ReleaseKeepsOthers(w, x, why);
    ReleaseKeepsCore(w, x, why);
    if id != x && id in w.store.stored {
      ReleaseKeepsRooms(w, x, why, id);
    }
  }

  lemma {:induction false} EvictOverKeepsRooms(w: Server, id: SessionId)
    requires Core(w) && id in w.store.heap
    ensures EvictOver(w).store.stored <= w.store.stored && id in EvictOver(w).store.heap
    ensures id in EvictOver(w).store.stored ==> SessionRooms(EvictOver(w), id) == SessionRooms(w, id)
    decreases |w.store.parked|
  {
    hide Core, Release, SessionRooms, Extends, Linked, H.Inv;
    CoreParts(w);
    if |w.store.parked| > w.lim.maxParked {
      ReleaseLongest(w, id, S.ByEviction);
      EvictOverKeepsRooms(Release(w, w.store.parked[0], S.ByEviction), id);
    }
  }

  lemma {:induction false} SweepKeepsRooms(w: Server, id: SessionId)
    requires Inv(w) && id in w.store.heap
    ensures SweepNow(w).store.stored <= w.store.stored && id in SweepNow(w).store.heap
    ensures id in SweepNow(w).store.stored ==> SessionRooms(SweepNow(w), id) == SessionRooms(w, id)
    decreases |w.store.parked|
  {
    hide Core, Release, SessionRooms, Extends, Linked, H.Inv;
    CoreParts(w);
    if w.store.parked != [] && w.now - w.store.heap[w.store.parked[0]].parkedAt > w.lim.ttl {
      ReleaseLongest(w, id, S.ByExpiry);
      SweepKeepsRooms(Release(w, w.store.parked[0], S.ByExpiry), id);
    }
  }

  lemma MemberHasSession(w: Server, id: SessionId)
    requires Core(w) && id in w.store.stored && id in w.store.heap
    ensures w.store.heap[id].member in w.clients && w.clients[w.store.heap[id].member].session == Some(id)
    ensures !w.store.heap[id].state.Closed?
  {
    assert HasMember(w, id);
  }

  lemma OpenIsStored(w: Server, x: SessionId)
    requires Core(w) && x in w.store.heap
    ensures x in w.store.stored <==> !w.store.heap[x].state.Closed?
    ensures w.store.heap[x].live.Some? && !w.store.heap[x].state.Closed? ==>
              w.store.heap[x].live == Some(w.store.heap[x].member)
  {
  }

  lemma RetireKeepsRooms(w: Server, c: ClientId, id: SessionId)
    requires Inv(w) && c in w.clients && id in w.store.stored && id in w.store.heap
    requires id in Retire(w, c).store.stored && id in Retire(w, c).store.heap
    ensures SessionRooms(Retire(w, c), id) == SessionRooms(w, id)
  {
    hide Core;
    CoreParts(w);
    var m := w.store.heap[id].member;
    MemberHasSession(w, id);
    match w.clients[c].session
    case None => H.OthersKeepRooms(w.hub, c, m, "", 0);
    case Some(x) =>
      var s := w.store.heap[x];
      OpenIsStored(w, x);
      if s.state.Closed? {
        H.OthersKeepRooms(w.hub, c, m, "", 0);
      } else if s.live == Some(c) {
        if w.clients[c].noResume {
          MembersDiffer(w, id, x);
          H.OthersKeepRooms(w.hub, c, m, "", 0);
        } else {
          ParkKeepsCore(w, c, x);
          EvictOverKeepsRooms(ParkClient(w, c, x), id);
        }
      }
  }

  lemma MembersOfStored(w: Server, c: ClientId, id: SessionId)
    requires Core(w) && c in w.clients && !w.clients[c].bound
    requires id in w.store.stored && id in w.store.heap
    ensures w.store.heap[id].member != c && w.store.heap[id].next > 0
  {
    assert StreamOk(w.store.heap, w.clients[c]) && HasMember(w, id);
  }

  lemma ResumeKeepsRooms(w: Server, c: ClientId, id: SessionId, x: SessionId, lastSeq: nat)
    requires Core(w) && c in w.clients && !w.clients[c].bound && c in w.hub.clients
    requires x in w.store.stored && x in w.store.heap && id in w.store.stored && id in w.store.heap
    ensures SessionRooms(BindResume(w, c, x, lastSeq), id)
            == if id == x then SessionRooms(w, id) + H.RoomsOf(w.hub, c) else SessionRooms(w, id)
  {
    hide Core;
    CoreParts(w);
    MembersOfStored(w, c, id);
    MembersOfStored(w, c, x);
    var from := w.store.heap[x].member;
    if id == x {
      H.TransferMovesRooms(w.hub, from, c);
    } else {
      MembersDiffer(w, id, x);
      H.TransferKeepsOtherRooms(w.hub, from, c, w.store.heap[id].member);
    }
  }

  lemma OpenKeepsRooms(w: Server, c: ClientId, req: Request, newId: Option<SessionId>, id: SessionId)
    requires Inv(w) && c in w.clients && !w.clients[c].bound && c in w.hub.clients
    requires newId.Some? ==> newId.value !in w.store.heap
    requires id in w.store.stored && id in w.store.heap
    requires id in OpenSession(w, c, req, newId).store.stored && id in OpenSession(w, c, req, newId).store.heap
    ensures SessionRooms(OpenSession(w, c, req, newId), id)
            == if S.Decide(w.store, req, w.now, w.lim) == S.ResumeOf(id)
               then SessionRooms(w, id) + H.RoomsOf(w.hub, c) else SessionRooms(w, id)
  {
    hide Core;
    CoreParts(w);
    match S.Decide(w.store, req, w.now, w.lim)
    case ResumeOf(x) => ResumeKeepsRooms(w, c, id, x, req.lastSeq);
    case NewSession(reason, victim) =>
      if victim.Some? {
        ReleaseKeepsRooms(w, victim.value, S.ByReplacement, id);
      }
  }

  lemma SameLinksKeepRooms(w: Server, w': Server, id: SessionId)
    requires SameLinks(w, w') && id in w.store.heap
    ensures id in w'.store.heap && SessionRooms(w', id) == SessionRooms(w, id)
  {
    assert SamePlace(w.store.heap[id], w'.store.heap[id]);
  }

  lemma SendStepKeepsRooms(w: Server, e: Step, id: SessionId)
    requires Inv(w) && Legal(w, e) && id in w.store.heap && (e.DoSend? || e.DoEmit?)
    ensures id in Apply(w, e).store.heap && SessionRooms(Apply(w, e), id) == SessionRooms(w, id)
  {
    if e.DoSend? {
      TrySendKeepsCore(w, e.c, e.data, e.pol);
    } else {
      TargetsAreClients(w, e.job);
      SendAllKeepsCore(w, e.order, e.data, e.pol);
    }
    SameLinksKeepRooms(w, Apply(w, e), id);
  }

  lemma ConnectKeepsRooms(w: Server, c: ClientId, cap: nat, id: SessionId)
    requires id in w.store.heap
    ensures id in Connect(w, c, cap).store.heap && SessionRooms(Connect(w, c, cap), id) == SessionRooms(w, id)
  {
  }

  lemma ClientStepKeepsRooms(w: Server, e: Step, id: SessionId)
    requires Inv(w) && Legal(w, e) && id in w.store.heap
    requires e.DoConnect? || e.DoAck? || e.DoPump? || e.DoShutdown?
    ensures id in Apply(w, e).store.heap && SessionRooms(Apply(w, e), id) == SessionRooms(w, id)
  {
    hide Core, SameLinks, Extends, SessionRooms, Connect, AckFrom, PumpOnce, CloseConn;
    CoreParts(w);
    match e {
      case DoConnect(c, cap) => ConnectKeepsRooms(w, c, cap, id);
      case DoAck(c, n) =>
        AckKeepsCore(w, c, n);
        SameLinksKeepRooms(w, AckFrom(w, c, n), id);
      case DoPump(c) =>
        PumpKeepsCore(w, c);
        SameLinksKeepRooms(w, PumpOnce(w, c), id);
      case DoShutdown(c, terminal) =>
        CloseConnKeepsCore(w, c, terminal);
        SameLinksKeepRooms(w, CloseConn(w, c, terminal), id);
    }
  }

  lemma RoomStepChangesRooms(w: Server, e: Step, id: SessionId)
    requires Inv(w) && Legal(w, e) && id in w.store.heap && (e.DoJoin? || e.DoLeaveRoom?)
    ensures id in Apply(w, e).store.heap && SessionRooms(Apply(w, e), id) == RoomsAfter(w, e, id, SessionRooms(w, id))
  {
    hide Core, H.RoomsOf, H.Join, H.LeaveRoom, H.Inv;
    CoreParts(w);
    JoinChangesRooms(w.hub, e.c, w.store.heap[id].member, e.room, if e.DoJoin? then e.now else 0);
  }

  lemma TimedStepKeepsRooms(w: Server, e: Step, id: SessionId)
    requires Inv(w) && Legal(w, e) && id in w.store.stored && id in w.store.heap
    requires e.DoOpen? || e.DoRetire? || e.DoSweep?
    requires id in Apply(w, e).store.stored && id in Apply(w, e).store.heap
    ensures SessionRooms(Apply(w, e), id) == RoomsAfter(w, e, id, SessionRooms(w, id))
  {
    hide Core;
    TickKeepsCore(w, e.now);
    match e
    case DoOpen(c, req, newId, now) => OpenKeepsRooms(Tick(w, now), c, req, newId, id);
    case DoRetire(c, now) => RetireKeepsRooms(Tick(w, now), c, id);
    case DoSweep(now) => SweepKeepsRooms(Tick(w, now), id);
  }

  lemma JoinChangesRooms(h: H.Hub<ClientId>, c: ClientId, m: ClientId, room: H.Room, now: int)
    requires H.Inv(h)
    ensures H.RoomsOf(H.Join(h, c, room, now), m) == if c == m then H.RoomsOf(h, m) + {room} else H.RoomsOf(h, m)
    ensures H.RoomsOf(H.LeaveRoom(h, c, room), m) == if c == m then H.RoomsOf(h, m) - {room} else H.RoomsOf(h, m)
  {
    if c == m {
      H.JoinKeepsInvIff(h, c, room, now);
      H.LeaveRoomKeepsInv(h, c, room);
    } else {
      H.OthersKeepRooms(h, c, m, room, now);
    }
  }

  /** Parking, resuming, displacing, sweeping and evicting others leave a stored session in exactly the
      rooms it was in. */
  lemma StepKeepsSessionRooms(w: Server, e: Step, id: SessionId)
    requires Inv(w) && Legal(w, e) && id in w.store.stored && id in w.store.heap
    requires id in Apply(w, e).store.stored && id in Apply(w, e).store.heap
    ensures SessionRooms(Apply(w, e), id) == RoomsAfter(w, e, id, SessionRooms(w, id))
  {
    hide Core, Legal;
    if e.DoOpen? || e.DoRetire? || e.DoSweep? {
      TimedStepKeepsRooms(w, e, id);
    } else if e.DoSend? || e.DoEmit? {
      SendStepKeepsRooms(w, e, id);
    } else if e.DoJoin? || e.DoLeaveRoom? {
      RoomStepChangesRooms(w, e, id);
    } else {
      ClientStepKeepsRooms(w, e, id);
    }
  }

  /** The same for a run. */
  ghost function RoomsAfterRun(w: Server, es: seq<Step>, id: SessionId, before: set<H.Room>): set<H.Room>
    requires Inv(w) && LegalRun(w, es) && id in w.store.heap
    decreases |es|
  {
    if es == [] then before
    else
      StepKeepsInv(w, es[0]);
      RoomsAfterRun(Apply(w, es[0]), es[1..], id, RoomsAfter(w, es[0], id, before))
  }

  lemma StoredBefore(w: Server, es: seq<Step>, id: SessionId)
    requires Inv(w) && LegalRun(w, es) && id in w.store.heap && id in Run(w, es).store.stored
    ensures id in w.store.stored && id in Run(w, es).store.heap
  {
    hide Core, Legal, Apply, Run;
    RunKeepsInv(w, es);
    CoreParts(Run(w, es));
    OpenIsStored(Run(w, es), id);
    OpenIsStored(w, id);
  }

  /** Over a whole run a session that is still stored at the end is in exactly the rooms that its own
      joins and leaves, and the rooms its new connections brought along, account for, through every
      loss, resume, displacement, sweep and eviction of others. */
  lemma {:induction false} RunKeepsSessionRooms(w: Server, es: seq<Step>, id: SessionId)
    requires Inv(w) && LegalRun(w, es) && id in w.store.heap && id in w.store.stored
    requires id in Run(w, es).store.stored && id in Run(w, es).store.heap
    ensures SessionRooms(Run(w, es), id) == RoomsAfterRun(w, es, id, SessionRooms(w, id))
    decreases |es|
  {
    hide Core, Legal, Apply, SessionRooms, RoomsAfter;
    if es != [] {
      var w1 := Apply(w, es[0]);
      StepKeepsInv(w, es[0]);
      StoredBefore(w1, es[1..], id);
      StepKeepsSessionRooms(w, es[0], id);
      RunKeepsSessionRooms(w1, es[1..], id);
    }
  }

  /** In particular, without a leave nothing is ever lost: whatever happens, a session that is still
      stored is still in every room it was in. */
  lemma {:induction false} RoomsSurviveRuns(w: Server, es: seq<Step>, id: SessionId)
    requires Inv(w) && LegalRun(w, es) && id in w.store.heap && id in w.store.stored
    requires id in Run(w, es).store.stored && id in Run(w, es).store.heap
    requires forall i :: 0 <= i < |es| ==> !es[i].DoLeaveRoom?
    ensures SessionRooms(w, id) <= SessionRooms(Run(w, es), id)
    decreases |es|
  {
    hide Core, Legal, Apply, SessionRooms;
    if es != [] {
      var w1 := Apply(w, es[0]);
      StepKeepsInv(w, es[0]);
      StoredBefore(w1, es[1..], id);
      StepKeepsSessionRooms(w, es[0], id);
      RoomsSurviveRuns(w1, es[1..], id);
    }
  }

  // -------------------------------------------------------------------------
  // Delivery

  /** Whether a frame handed to the session now would be committed: a reliable one always, a droppable one
      unless the live connection's queue is full, a best-effort one never. */
  ghost predicate Commits(w: Server, id: SessionId, pol: Policy)
    requires Linked(w) && id in w.store.heap
  {
    var s := w.store.heap[id];
    match pol
    case Disconnect => true
    case Drop => Offline(s) || !Room(w.clients[s.live.value]).Full?
    case Volatile => false
  }

  /** The session and its member's connection are the same in both states. */
  ghost predicate SameSession(w: Server, w': Server, id: SessionId) {
    && id in w.store.heap && id in w'.store.heap && w'.store.heap[id] == w.store.heap[id]
    && var m := w.store.heap[id].member; m in w.clients && m in w'.clients && w'.clients[m] == w.clients[m]
  }

  lemma TrySendCommits(w: Server, c: ClientId, data: bytes, pol: Policy, id: SessionId)
    requires Linked(w) && c in w.clients && w.clients[c].session == Some(id) && !w.store.heap[id].state.Closed?
    ensures var w' := TrySend(w, c, data, pol).0; var s := w.store.heap[id];
            && id in w'.store.heap
            && w'.store.heap[id].log == if Commits(w, id, pol) then s.log + [data] else s.log
  {
    hide Deliver;
    var s := w.store.heap[id];
    DeliverCommitsIff(s, data, pol, if s.live == None then Shut else Room(w.clients[s.live.value]), w.lim);
  }

  lemma TrySendToOther(w: Server, c: ClientId, data: bytes, pol: Policy, id: SessionId)
    requires Linked(w) && c in w.clients && id in w.store.heap && w.clients[c].session != Some(id)
    requires w.store.heap[id].member != c
    requires w.clients[c].session.Some? ==>
               w.store.heap[w.clients[c].session.value].live != Some(w.store.heap[id].member)
    ensures SameSession(w, TrySend(w, c, data, pol).0, id)
  {
    hide Deliver;
  }

  lemma BoundToMeansMember(w: Server, c: ClientId, id: SessionId)
    requires Core(w) && c in w.hub.clients && c in w.clients && id in w.store.stored && id in w.store.heap
    ensures w.clients[c].session == Some(id) <==> c == w.store.heap[id].member
    ensures w.clients[c].session.Some? && w.clients[c].session != Some(id) ==>
              w.store.heap[w.clients[c].session.value].live != Some(w.store.heap[id].member)
  {
    assert WellRegistered(w, c) && HasMember(w, id);
    if w.clients[c].session.Some? {
      OpenIsStored(w, w.clients[c].session.value);
    }
  }

  lemma SendOneCommits(w: Server, c: ClientId, data: bytes, pol: Policy, id: SessionId)
    requires Core(w) && IsEvent(data) && id in w.store.stored && id in w.store.heap
    requires c in w.clients && c in w.hub.clients
    ensures var w' := TrySend(w, c, data, pol).0; var s := w.store.heap[id];
            && Core(w') && w'.clients.Keys == w.clients.Keys && w'.hub == w.hub && w'.store.stored == w.store.stored
            && id in w'.store.heap && w'.store.heap[id].member == s.member
            && (c != s.member ==> SameSession(w, w', id))
            && (c == s.member ==> w'.store.heap[id].log == if Commits(w, id, pol) then s.log + [data] else s.log)
  {
    hide Core, TrySend, Commits, SameSession;
    CoreParts(w);
    TrySendKeepsCore(w, c, data, pol);
    BoundToMeansMember(w, c, id);
    OpenIsStored(w, id);
    if c == w.store.heap[id].member {
      TrySendCommits(w, c, data, pol, id);
    } else {
      TrySendToOther(w, c, data, pol, id);
    }
    assert SamePlace(w.store.heap[id], TrySend(w, c, data, pol).0.store.heap[id]);
  }

  lemma SameSessionSameCommits(w: Server, w': Server, id: SessionId, pol: Policy)
    requires Core(w) && Core(w') && id in w.store.stored && SameSession(w, w', id)
    ensures Linked(w) && Linked(w') && Commits(w', id, pol) == Commits(w, id, pol)
    ensures w'.store.heap[id] == w.store.heap[id]
  {
    hide Core;
    CoreParts(w);
    CoreParts(w');
    OpenIsStored(w, id);
  }

  lemma {:induction false} SendAllSkips(w: Server, order: seq<ClientId>, data: bytes, pol: Policy, id: SessionId)
    requires Core(w) && IsEvent(data) && id in w.store.stored && id in w.store.heap
    requires forall i :: 0 <= i < |order| ==> order[i] in w.clients && order[i] in w.hub.clients
    requires w.store.heap[id].member !in order
    ensures var w' := SendAll(w, order, data, pol);
            id in w'.store.heap && w'.store.heap[id].log == w.store.heap[id].log
    decreases |order|
  {
    hide Core, TrySend, Commits;
    CoreParts(w);
    if order != [] {
      SendOneCommits(w, order[0], data, pol, id);
      SendAllSkips(TrySend(w, order[0], data, pol).0, order[1..], data, pol, id);
    }
  }

  /** A frame sent to a duplicate-free list of registered clients is committed exactly once to each session
      whose member is listed and which takes it, and to no other. Whether a session takes it does not
      depend on where in the list it comes. */
  lemma {:induction false} SendAllCommitsOnce(w: Server, order: seq<ClientId>, data: bytes, pol: Policy, id: SessionId)
    requires Core(w) && IsEvent(data) && id in w.store.stored && id in w.store.heap
    requires forall i :: 0 <= i < |order| ==> order[i] in w.clients && order[i] in w.hub.clients
    requires Distinct(order)
    ensures Linked(w)
    ensures var w' := SendAll(w, order, data, pol); var s := w.store.heap[id];
            && id in w'.store.heap
            && w'.store.heap[id].log == if s.member in order && Commits(w, id, pol) then s.log + [data] else s.log
    decreases |order|
  {
    hide Core, TrySend, Commits, SameSession;
    CoreParts(w);
    if order != [] {
      var c, rest := order[0], order[1..];
      var w1 := TrySend(w, c, data, pol).0;
      SendOneCommits(w, c, data, pol, id);
      assert c !in rest;
      assert forall x :: x in order <==> x == c || x in rest;
      if c == w.store.heap[id].member {
        SendAllSkips(w1, rest, data, pol, id);
      } else {
        SameSessionSameCommits(w, w1, id, pol);
        SendAllCommitsOnce(w1, rest, data, pol, id);
      }
    }
  }

  /** Whom a job is for: everybody or the members of a room, the excluded client aside, or one client. */
  ghost predicate Addressed(h: H.Hub<ClientId>, job: H.EmitJob<ClientId>, c: ClientId) {
    if job.allClients then job.exclude != Some(c)
    else if job.only.Some? then job.only == Some(c)
    else job.room in H.RoomsOf(h, c) && job.exclude != Some(c)
  }

  /** The targets of a job are the registered clients it is for. */
  lemma TargetsAreAddressed(h: H.Hub<ClientId>, job: H.EmitJob<ClientId>, c: ClientId)
    requires H.Inv(h)
    ensures c in H.Targets(h, job) <==> c in h.clients && Addressed(h, job, c)
  {
  }

  /** Every emit, to everybody, to one client or to a room, is committed exactly once to every session that
      it is for and that takes it, whether attached or parked, and to nobody else: a reliable one is taken
      by all, a droppable one by those that are away, stalled or have room. */
  lemma EmitReachesEachOnce(w: Server, e: Step, id: SessionId)
    requires Inv(w) && Legal(w, e) && e.DoEmit?
    requires id in w.store.stored && id in w.store.heap
    ensures Linked(w)
    ensures var w' := Apply(w, e); var s := w.store.heap[id];
            && id in w'.store.heap
            && w'.store.heap[id].log
               == if Addressed(w.hub, e.job, s.member) && Commits(w, id, e.pol) then s.log + [e.data] else s.log
  {
    hide Core, Commits, Addressed, H.Targets, SendAll;
    CoreParts(w);
    TargetsAreClients(w, e.job);
    assert forall i :: 0 <= i < |e.order| ==> e.order[i] in e.order;
    SendAllCommitsOnce(w, e.order, e.data, e.pol, id);
    TargetsAreAddressed(w.hub, e.job, w.store.heap[id].member);
    assert HasMember(w, id) by { StoredHasMember(w, id); }
  }

  lemma StoredHasMember(w: Server, id: SessionId)
    requires Core(w) && id in w.store.stored && id in w.store.heap
    ensures HasMember(w, id)
  {
  }

  /** Each room broadcast is committed exactly once to every session joined to the room (the excluded
      client's aside) that takes it, and to nobody else. */
  lemma RoomBroadcastReachesEachOnce(w: Server, e: Step, id: SessionId)
    requires Inv(w) && Legal(w, e) && e.DoEmit?
    requires !e.job.allClients && e.job.only == None
    requires id in w.store.stored && id in w.store.heap
    ensures Linked(w)
    ensures var w' := Apply(w, e); var s := w.store.heap[id];
            && id in w'.store.heap
            && w'.store.heap[id].log
               == if e.job.room in SessionRooms(w, id) && e.job.exclude != Some(s.member) && Commits(w, id, e.pol)
                  then s.log + [e.data] else s.log
  {
    hide Core, Legal, Apply, Commits;
    EmitReachesEachOnce(w, e, id);
  }

  // -------------------------------------------------------------------------
  // Clients without a session

  /** What a frame does to a client without a session: it is queued when there is room; when the queue is
      full it is counted as dropped, unless the client is to be disconnected. */
  ghost predicate Offered(k: Client, k': Client, data: bytes, pol: Policy) {
    var free := !k.shut && |k.queue| < k.cap;
    k' == k.(queue := if free then k.queue + [Event(data)] else k.queue,
             dropped := if !free && !k.shut && !pol.Disconnect? then k.dropped + 1 else k.dropped)
  }

  /** A frame for a client without a session is queued exactly when there is room, and the caller is to
      disconnect the client exactly when its connection is closed or a reliable frame finds no room. */
  lemma PlainSend(w: Server, c: ClientId, data: bytes, pol: Policy)
    requires Linked(w) && c in w.clients && w.clients[c].session == None
    ensures var (w', ok) := TrySend(w, c, data, pol); var k := w.clients[c];
            && w' == w.(clients := w.clients[c := w'.clients[c]]) && Offered(k, w'.clients[c], data, pol)
            && (ok <==> !k.shut && (|k.queue| < k.cap || !pol.Disconnect?))
  {
  }

  lemma SendLeavesPlain(w: Server, c2: ClientId, data: bytes, pol: Policy, c: ClientId)
    requires Linked(w) && c2 in w.clients && c in w.clients && w.clients[c].session == None && c2 != c
    requires w.clients[c2].session.Some? ==>
               var x := w.store.heap[w.clients[c2].session.value]; x.live == Some(c) ==> x.state.Closed?
    ensures var w' := TrySend(w, c2, data, pol).0; c in w'.clients && w'.clients[c] == w.clients[c]
  {
    hide Deliver;
    if w.clients[c2].session.Some? {
      var x := w.store.heap[w.clients[c2].session.value];
      DeliverStaysPut(x, data, pol, if x.live == None then Shut else Room(w.clients[x.live.value]), w.lim);
    }
  }

  lemma LiveHasSession(w: Server, c: ClientId, x: SessionId)
    requires Core(w) && c in w.clients && w.clients[c].session == None && x in w.store.heap
    ensures w.store.heap[x].live == Some(c) ==> w.store.heap[x].state.Closed?
  {
    if !w.store.heap[x].state.Closed? {
      MemberIsBound(w, x);
    }
  }

  lemma {:induction false} SendAllReachesPlain(w: Server, order: seq<ClientId>, data: bytes, pol: Policy, c: ClientId)
    requires Core(w) && IsEvent(data) && Distinct(order) && c in w.clients && w.clients[c].session == None
    requires forall i :: 0 <= i < |order| ==> order[i] in w.clients
    ensures var w' := SendAll(w, order, data, pol);
            && c in w'.clients
            && if c in order then Offered(w.clients[c], w'.clients[c], data, pol) else w'.clients[c] == w.clients[c]
    decreases |order|
  {
    hide Core, TrySend, Offered;
    CoreParts(w);
    if order != [] {
      var c2, rest := order[0], order[1..];
      var w1 := TrySend(w, c2, data, pol).0;
      TrySendKeepsCore(w, c2, data, pol);
      assert c2 !in rest;
      assert forall x :: x in order <==> x == c2 || x in rest;
      if c2 == c {
        PlainSend(w, c, data, pol);
        assert w1.clients[c].session == None by { OfferedKeepsSession(w.clients[c], w1.clients[c], data, pol); }
      } else {
        if w.clients[c2].session.Some? {
          LiveHasSession(w, c, w.clients[c2].session.value);
        }
        SendLeavesPlain(w, c2, data, pol, c);
      }
      SendAllReachesPlain(w1, rest, data, pol, c);
    }
  }

  lemma OfferedKeepsSession(k: Client, k': Client, data: bytes, pol: Policy)
    requires Offered(k, k', data, pol)
    ensures k'.session == k.session
  {
  }

  /** Every emit is offered exactly once to every registered client without a session that it is for, and
      changes nothing for the others. */
  lemma EmitReachesPlainClients(w: Server, e: Step, c: ClientId)
    requires Inv(w) && Legal(w, e) && e.DoEmit? && c in w.hub.clients && c in w.clients && w.clients[c].session == None
    ensures var w' := Apply(w, e);
            && c in w'.clients
            && if Addressed(w.hub, e.job, c) then Offered(w.clients[c], w'.clients[c], e.data, e.pol)
               else w'.clients[c] == w.clients[c]
  {
    hide Core, Addressed, Offered, H.Targets, SendAll;
    CoreParts(w);
    TargetsAreClients(w, e.job);
    TargetsAreAddressed(w.hub, e.job, c);
    assert forall i :: 0 <= i < |e.order| ==> e.order[i] in e.order;
    SendAllReachesPlain(w, e.order, e.data, e.pol, c);
  }
}
