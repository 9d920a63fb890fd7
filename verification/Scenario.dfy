/** Runs from the empty server, within any limits: a complete recovery, a connection that is cut off and a
    peer that resumes although it was kicked. */
module Scenario {
  import opened Commons
  import opened Bytes
  import opened Frames
  import opened ReplayBuffers
  import opened SessionSpec
  import opened ClientSpec
  import opened ServerModel
  import opened ServerRuns
  import opened Stalls
  import opened Kicks
  import S = StoreSpec
  import H = Hubs

  const ID: SessionId := "a"
  const FIRST := Request(false, false, "", 0, "")
  const AGAIN := Request(true, false, ID, 0, "")

  ghost predicate Connected(w: Server) {
    && w.clients == map[0 := NewClient(1)] && w.hub.clients == {0} && w.store == S.Empty()
  }

  /** Client 0 holds the session, which has the given log and state. */
  ghost predicate Holding(w: Server, s: Session<ClientId>) {
    && 0 in w.clients && w.hub.clients == {0} && w.clients.Keys == {0}
    && w.clients[0].session == Some(ID) && w.clients[0].bound && !w.clients[0].noResume
    && !w.clients[0].shut
    && w.store.heap == map[ID := s] && w.store.stored == {ID}
  }

  function Parked0(t: int): Session<ClientId> {
    Fresh("", 0).(live := None, state := Parked, parkedAt := t)
  }

  lemma Opens(w: Server)
    requires Connected(w) && Linked(w)
    ensures var w' := OpenSession(w, 0, FIRST, Some(ID)); Holding(w', Fresh("", 0)) && w'.store.parked == []
  {
  }

  lemma Parks(w: Server)
    requires Linked(w) && Holding(w, Fresh("", 0)) && w.store.parked == [] && w.lim.maxParked > 0
    ensures var w' := Retire(w, 0); Holding(w', Parked0(w.now)) && w'.store.parked == [ID]
  {
    assert EvictOver(ParkClient(w, 0, ID)) == ParkClient(w, 0, ID);
  }

  lemma Buffers(w: Server, t: int, data: bytes)
    requires Linked(w) && Holding(w, Parked0(t)) && w.store.parked == [ID]
    requires w.lim.maxMsgs > 0 && |data| <= w.lim.maxBytes
    ensures var w' := TrySend(w, 0, data, Disconnect).0;
            Holding(w', Parked0(t).(next := 2, buf := [Entry(1, data)], log := [data])) && w'.store.parked == [ID]
  {
    assert [] + [Entry(1, data)] == [Entry(1, data)];
    assert Fits([Entry(1, data)], w.lim.maxMsgs, w.lim.maxBytes);
    assert [] + [data] == [data];
  }

  /** Client 1 has connected while the session is parked with one frame. */
  ghost predicate Returning(w: Server, t: int, data: bytes) {
    && w.clients.Keys == {0, 1} && w.clients[1] == NewClient(1) && w.hub.clients == {0, 1}
    && w.store.stored == {ID} && w.store.parked == [ID]
    && w.store.heap == map[ID := Parked0(t).(next := 2, buf := [Entry(1, data)], log := [data])]
  }

  lemma Resumes(w: Server, t: int, data: bytes)
    requires Linked(w) && Returning(w, t, data) && w.now - t <= w.lim.ttl
    ensures var w' := OpenSession(w, 1, AGAIN, None);
            && w'.clients[1].session == Some(ID) && w'.store.heap[ID].live == Some(1)
            && Stream(w'.clients[1]) == [Hello(ID, true, 1, 1, None), Event(Stamp(data, 1))]
  {
    var s := w.store.heap[ID];
    assert S.Decide(w.store, AGAIN, w.now, w.lim) == S.ResumeOf(ID);
    assert Acked(s.buf, 0) == s.buf && After(s.buf, 0) == [Entry(1, data)] by {
      assert After(s.buf[1..], 0) == [];
    }
    assert Stamped([Entry(1, data)]) == [Event(Stamp(data, 1))];
    assert Replay(ID, s, 0) == [Hello(ID, true, 1, 1, None), Event(Stamp(data, 1))];
  }

  // -------------------------------------------------------------------------
  // Runs

  /** The run leads from the empty server to `w`. */
  ghost predicate Reaches(lim: Limits, t: int, es: seq<Step>, w: Server) {
    && Inv(Start(lim, t)) && LegalRun(Start(lim, t), es) && Run(Start(lim, t), es) == w
    && w.lim == lim && w.now == t
  }

  lemma {:induction false} OneMoreStep(w: Server, es: seq<Step>, e: Step)
    requires Inv(w) && LegalRun(w, es) && Legal(Run(w, es), e)
    ensures LegalRun(w, es + [e]) && Run(w, es + [e]) == Apply(Run(w, es), e)
    decreases |es|
  {
    hide Core, Legal, Apply;
    if es == [] {
      StepKeepsInv(w, e);
      assert [e][1..] == [];
      assert es + [e] == [e];
    } else {
      StepKeepsInv(w, es[0]);
      OneMoreStep(Apply(w, es[0]), es[1..], e);
      assert (es + [e])[0] == es[0] && (es + [e])[1..] == es[1..] + [e];
    }
  }

  lemma Then(lim: Limits, t: int, es: seq<Step>, w: Server, e: Step)
    requires Reaches(lim, t, es, w) && Inv(w) && Legal(w, e) && Apply(w, e).lim == lim && Apply(w, e).now == t
    ensures Inv(Apply(w, e)) && Reaches(lim, t, es + [e], Apply(w, e))
  {
    hide Core, Legal, Apply, LegalRun, Run;
    StepKeepsInv(w, e);
    OneMoreStep(Start(lim, t), es, e);
  }

  // The first connection opens the session

  function Opening(t: int): seq<Step> {
    [DoConnect(0, 1), DoOpen(0, FIRST, Some(ID), t)]
  }

  lemma Opened(lim: Limits, t: int) returns (w: Server)
    requires ValidLimits(lim)
    ensures Inv(w) && Reaches(lim, t, Opening(t), w) && w.lim == lim && w.now == t
    ensures Holding(w, Fresh("", 0)) && w.store.parked == []
  {
    hide Core, Reaches;
    StartInv(lim, t);
    assert Reaches(lim, t, [], Start(lim, t)) by { NoSteps(lim, t); }
    Then(lim, t, [], Start(lim, t), DoConnect(0, 1));
    assert [] + [DoConnect(0, 1)] == [DoConnect(0, 1)];
    var w1, e := Apply(Start(lim, t), DoConnect(0, 1)), DoOpen(0, FIRST, Some(ID), t);
    CoreParts(w1);
    assert Tick(w1, t) == w1;
    Opens(w1);
    w := Apply(w1, e);
    Then(lim, t, [DoConnect(0, 1)], w1, e);
    assert [DoConnect(0, 1)] + [e] == Opening(t);
  }

  lemma NoSteps(lim: Limits, t: int)
    requires Inv(Start(lim, t))
    ensures Reaches(lim, t, [], Start(lim, t))
  {
  }

  // -------------------------------------------------------------------------
  // A recovery

  function Recovery(t: int, data: bytes): seq<Step> {
    Opening(t)
    + [DoRetire(0, t)] + [DoSend(0, data, Disconnect)] + [DoConnect(1, 1)] + [DoOpen(1, AGAIN, None, t)]
  }

  lemma Lost(lim: Limits, t: int) returns (w: Server)
    requires ValidLimits(lim)
    ensures Inv(w) && Reaches(lim, t, Opening(t) + [DoRetire(0, t)], w) && w.lim == lim && w.now == t
    ensures Holding(w, Parked0(t)) && w.store.parked == [ID]
  {
    hide Core, Reaches;
    var w0 := Opened(lim, t);
    CoreParts(w0);
    assert Tick(w0, t) == w0;
    Parks(w0);
    assert EvictOver(ParkClient(w0, 0, ID)) == ParkClient(w0, 0, ID);
    w := Apply(w0, DoRetire(0, t));
    Then(lim, t, Opening(t), w0, DoRetire(0, t));
  }

  lemma Buffered(lim: Limits, t: int, data: bytes) returns (w: Server)
    requires ValidLimits(lim) && IsEvent(data) && |data| <= lim.maxBytes
    ensures Inv(w) && w.lim == lim && w.now == t
    ensures Reaches(lim, t, Opening(t) + [DoRetire(0, t)] + [DoSend(0, data, Disconnect)], w)
    ensures Holding(w, Parked0(t).(next := 2, buf := [Entry(1, data)], log := [data])) && w.store.parked == [ID]
  {
    hide Core, Reaches, Deliver;
    var w0 := Lost(lim, t);
    CoreParts(w0);
    Buffers(w0, t, data);
    w := Apply(w0, DoSend(0, data, Disconnect));
    Then(lim, t, Opening(t) + [DoRetire(0, t)], w0, DoSend(0, data, Disconnect));
  }

  lemma Returned(lim: Limits, t: int, data: bytes) returns (w: Server)
    requires ValidLimits(lim) && IsEvent(data) && |data| <= lim.maxBytes
    ensures Inv(w) && Returning(w, t, data) && w.lim == lim && w.now == t
    ensures Reaches(lim, t, Opening(t) + [DoRetire(0, t)] + [DoSend(0, data, Disconnect)] + [DoConnect(1, 1)], w)
  {
    hide Core, Reaches;
    var w0 := Buffered(lim, t, data);
    w := Apply(w0, DoConnect(1, 1));
    Then(lim, t, Opening(t) + [DoRetire(0, t)] + [DoSend(0, data, Disconnect)], w0, DoConnect(1, 1));
  }

  lemma Resumed(lim: Limits, t: int, data: bytes) returns (w: Server)
    requires ValidLimits(lim) && IsEvent(data) && |data| <= lim.maxBytes
    ensures Inv(w) && Reaches(lim, t, Recovery(t, data), w)
    ensures 1 in w.clients && ID in w.store.heap && w.store.heap[ID].live == Some(1) && w.store.heap[ID].log == [data]
    ensures Stream(w.clients[1]) == [Hello(ID, true, 1, 1, None), Event(Stamp(data, 1))]
  {
    hide Core, Reaches, Stream;
    var w0 := Returned(lim, t, data);
    CoreParts(w0);
    assert Tick(w0, t) == w0;
    Resumes(w0, t, data);
    assert S.Decide(w0.store, AGAIN, w0.now, w0.lim) == S.ResumeOf(ID);
    w := Apply(w0, DoOpen(1, AGAIN, None, t));
    Then(lim, t, Opening(t) + [DoRetire(0, t)] + [DoSend(0, data, Disconnect)] + [DoConnect(1, 1)], w0,
         DoOpen(1, AGAIN, None, t));
  }

  /** A session is opened, loses its connection, buffers a frame while parked and is resumed by a second
      connection, whose stream is the control frame and that frame. */
  lemma RecoveryHappens(lim: Limits, t: int, data: bytes)
    requires ValidLimits(lim) && IsEvent(data) && |data| <= lim.maxBytes
    ensures Inv(Start(lim, t)) && LegalRun(Start(lim, t), Recovery(t, data))
    ensures var w := Run(Start(lim, t), Recovery(t, data));
            && 1 in w.clients && ID in w.store.heap
            && w.store.heap[ID].live == Some(1) && w.store.heap[ID].log == [data]
            && Stream(w.clients[1]) == [Hello(ID, true, 1, 1, None), Event(Stamp(data, 1))]
  {
    hide Core, LegalRun, Run, Recovery, Stream;
    var w := Resumed(lim, t, data);
  }

  // -------------------------------------------------------------------------
  // A connection that is cut off

  /** A second connection asks for the open session at a position that it has not reached. */
  const AHEAD := Request(true, false, ID, 1, "")

  /** Client 0 holds the session and client 1 has just connected. */
  ghost predicate Waiting(w: Server, kicked: bool) {
    && w.clients.Keys == {0, 1} && w.hub.clients == {0, 1} && w.clients[1] == NewClient(1)
    && w.clients[0].session == Some(ID) && w.clients[0].bound
    && w.clients[0].shut == w.clients[0].noResume == kicked
    && w.store.heap == map[ID := Fresh("", 0)] && w.store.stored == {ID} && w.store.parked == []
  }

  lemma SecondArrives(lim: Limits, t: int) returns (w: Server)
    requires ValidLimits(lim)
    ensures Inv(w) && Reaches(lim, t, Opening(t) + [DoConnect(1, 1)], w) && w.lim == lim && w.now == t
    ensures Waiting(w, false)
  {
    hide Core, Reaches;
    var w0 := Opened(lim, t);
    w := Apply(w0, DoConnect(1, 1));
    Then(lim, t, Opening(t), w0, DoConnect(1, 1));
  }

  lemma Ahead(w: Server, t: int)
    requires Inv(w) && Waiting(w, false) && w.now == t
    ensures var e := DoOpen(1, AHEAD, Some("b"), t);
            Legal(w, e) && Apply(w, e).lim == w.lim && Apply(w, e).now == t
            && CutOff(w, Apply(w, e), 0, ID) && !Apply(w, e).clients[0].shut
  {
    hide Core, CutOff;
    CoreParts(w);
    assert Tick(w, t) == w;
    assert CannotServe(w.store.heap[ID], AHEAD);
    AttachedSessionCutOffIff(w, 1, AHEAD, Some("b"), 0);
    CutOffIsUnchanged(w, OpenSession(w, 1, AHEAD, Some("b")), 0, ID);
  }

  lemma CutOffIsUnchanged(w: Server, w': Server, l: ClientId, id: SessionId)
    requires CutOff(w, w', l, id)
    ensures l in w.clients && l in w'.clients && w'.clients[l] == w.clients[l]
  {
  }

  /** A request for a position that the open session has not reached discards the session, and the first
      connection is cut off although it is open. */
  lemma CutOffHappens(lim: Limits, t: int)
    requires ValidLimits(lim)
    ensures Inv(Start(lim, t)) && LegalRun(Start(lim, t), Opening(t) + [DoConnect(1, 1)])
    ensures LegalRun(Start(lim, t), Opening(t) + [DoConnect(1, 1)] + [DoOpen(1, AHEAD, Some("b"), t)])
    ensures var w := Run(Start(lim, t), Opening(t) + [DoConnect(1, 1)]);
            var w' := Run(Start(lim, t), Opening(t) + [DoConnect(1, 1)] + [DoOpen(1, AHEAD, Some("b"), t)]);
            CutOff(w, w', 0, ID) && 0 in w'.clients && !w'.clients[0].shut
  {
    hide Core, Legal, Apply, LegalRun, Run, CutOff, Waiting;
    var w := SecondArrives(lim, t);
    Ahead(w, t);
    Then(lim, t, Opening(t) + [DoConnect(1, 1)], w, DoOpen(1, AHEAD, Some("b"), t));
    CutOffIsUnchanged(w, Apply(w, DoOpen(1, AHEAD, Some("b"), t)), 0, ID);
  }

  // -------------------------------------------------------------------------
  // A kick that comes to nothing

  function Comeback(t: int): seq<Step> {
    Opening(t) + [DoConnect(1, 1)] + [DoShutdown(0, true)] + [DoOpen(1, AGAIN, None, t)] + [DoRetire(0, t)]
  }

  lemma Kicked(lim: Limits, t: int) returns (w: Server)
    requires ValidLimits(lim)
    ensures Inv(w) && Waiting(w, true) && w.lim == lim && w.now == t
    ensures Reaches(lim, t, Opening(t) + [DoConnect(1, 1)] + [DoShutdown(0, true)], w)
  {
    hide Core, Reaches;
    var w0 := SecondArrives(lim, t);
    w := Apply(w0, DoShutdown(0, true));
    Then(lim, t, Opening(t) + [DoConnect(1, 1)], w0, DoShutdown(0, true));
  }

  lemma ResumesKicked(w: Server, t: int)
    requires Inv(w) && Waiting(w, true) && w.now == t
    ensures var e := DoOpen(1, AGAIN, None, t);
            && Legal(w, e)
            && var w' := Apply(w, e);
               && w'.lim == w.lim && w'.now == t && 0 in w'.clients && ID in w'.store.heap
               && w'.clients[0].session == Some(ID) && w'.clients[0].noResume && w'.clients[0].bound
               && w'.store.heap[ID].live == Some(1) && w'.store.heap[ID].state.Attached?
  {
    hide Core, Replay, H.Transfer;
    CoreParts(w);
    assert Tick(w, t) == w;
    assert S.Decide(w.store, AGAIN, w.now, w.lim) == S.ResumeOf(ID);
  }

  /** The first connection is kicked; its peer resumes on the second one before the first has retired; the
      retirement then changes nothing, and the peer keeps its session. */
  lemma KickedPeerResumes(lim: Limits, t: int)
    requires ValidLimits(lim)
    ensures Inv(Start(lim, t)) && LegalRun(Start(lim, t), Comeback(t))
    ensures var w := Run(Start(lim, t), Comeback(t));
            && 0 in w.clients && w.clients[0].noResume && w.clients[0].session == Some(ID)
            && ID in w.store.heap && w.store.heap[ID].state.Attached? && w.store.heap[ID].live == Some(1)
  {
    hide Core, Legal, Apply, LegalRun, Run, Waiting;
    var w0 := Kicked(lim, t);
    ResumesKicked(w0, t);
    var es := Opening(t) + [DoConnect(1, 1)] + [DoShutdown(0, true)];
    Then(lim, t, es, w0, DoOpen(1, AGAIN, None, t));
    var w1 := Apply(w0, DoOpen(1, AGAIN, None, t));
    assert Legal(w1, DoRetire(0, t)) by { RetireIsLegal(w1, 0, t); }
    KickEndsSessionIff(w1, 0, ID, t);
    Then(lim, t, es + [DoOpen(1, AGAIN, None, t)], w1, DoRetire(0, t));
  }

  lemma RetireIsLegal(w: Server, c: ClientId, t: int)
    requires c in w.clients && w.clients[c].bound && w.now == t
    ensures Legal(w, DoRetire(c, t))
  {
  }
}
