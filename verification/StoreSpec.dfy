/** The session store as a value: opening, leaving, sweeping and evicting sessions
    (internal/session.go, `SessionStore`). */
module StoreSpec {
  import opened Commons
  import opened Bytes
  import opened ReplayBuffers
  import opened SessionSpec

  /** Why a session was released, in the order the releases happened. */
  datatype ReleaseReason = ByExpiry | ByEviction | ByReplacement
  datatype Release = Release(id: SessionId, why: ReleaseReason)

  /** `heap` holds every session ever created (clients keep pointers to closed ones), `stored` the
      keys of the session map and `parked` the list of parked sessions, longest parked first.
      `released` and `terminated` are history. */
  datatype Store<!C> = Store(
    heap: map<SessionId, Session<C>>,
    stored: set<SessionId>,
    parked: seq<SessionId>,
    released: seq<Release>,
    terminated: set<SessionId>)

  function Empty<C>(): Store<C> {
    Store(map[], {}, [], [], {})
  }

  // -------------------------------------------------------------------------
  // The parked list

  /** Removal of one list element. */
  function Without(s: seq<SessionId>, x: SessionId): (r: seq<SessionId>)
    ensures |r| == if x in s then |s| - 1 else |s|
  {
    if s == [] then []
    else if s[0] == x then s[1..]
    else [s[0]] + Without(s[1..], x)
  }

  /** Removing an element of a duplicate-free list keeps the others in their order. */
  lemma {:induction false} WithoutKeepsOthers(s: seq<SessionId>, x: SessionId)
    requires Distinct(s)
    ensures var r := Without(s, x);
            && Distinct(r)
            && (forall y :: y in r <==> y in s && y != x)
  {
    if s != [] {
      var rest := s[1..];
      assert s[0] !in rest;
      assert forall y :: y in s <==> y == s[0] || y in rest;
      if s[0] != x {
        WithoutKeepsOthers(rest, x);
        var r1 := Without(rest, x);
        assert Without(s, x) == [s[0]] + r1;
        assert forall y :: y in [s[0]] + r1 <==> y == s[0] || y in r1;
        assert forall i :: 0 <= i < |r1| ==> r1[i] in r1;
      }
    }
  }

  // -------------------------------------------------------------------------
  // Invariant

  ghost predicate SessionsValid<C>(st: Store<C>, lim: Limits) {
    && st.stored <= st.heap.Keys
    && (forall id :: id in st.heap ==> Valid(st.heap[id], lim))
    && (forall id :: id in st.heap ==> (id in st.stored <==> !st.heap[id].state.Closed?))
  }

  ghost predicate ParkedValid<C>(st: Store<C>, now: int) {
    && Distinct(st.parked)
    && (forall id :: id in st.parked <==> id in st.heap && st.heap[id].state.Parked?)
    && (forall i :: 0 <= i < |st.parked| ==> st.parked[i] in st.heap)
    && (forall i, j :: 0 <= i <= j < |st.parked| ==>
          st.heap[st.parked[i]].parkedAt <= st.heap[st.parked[j]].parkedAt <= now)
  }

  /** Each session is released at most once, and the sessions no longer stored are exactly those
      released or terminated by a non-resumable leave. */
  ghost predicate HistoryValid<C>(st: Store<C>) {
    && ReleasedOnce(st.released)
    && IdsOf(st.released) !! st.terminated
    && st.stored !! IdsOf(st.released) + st.terminated
    && st.heap.Keys == st.stored + (IdsOf(st.released) + st.terminated)
  }

  ghost predicate ReleasedOnce(rs: seq<Release>) {
    forall i, j :: 0 <= i < j < |rs| ==> rs[i].id != rs[j].id
  }

  ghost function IdsOf(rs: seq<Release>): set<SessionId> {
    set i | 0 <= i < |rs| :: rs[i].id
  }

  lemma ReleaseAppends(rs: seq<Release>, r: Release)
    ensures IdsOf(rs + [r]) == IdsOf(rs) + {r.id}
    ensures ReleasedOnce(rs) && r.id !in IdsOf(rs) ==> ReleasedOnce(rs + [r])
  {
    var rs' := rs + [r];
    assert rs'[|rs|].id == r.id;
    forall id | id in IdsOf(rs)
      ensures id in IdsOf(rs')
    {
      var i :| 0 <= i < |rs| && rs[i].id == id;
      assert rs'[i].id == id;
    }
    forall i | 0 <= i < |rs|
      ensures rs[i].id in IdsOf(rs)
    {
    }
  }

  /** Everything but the limit on parked sessions, which `Leave` exceeds for a moment. */
  ghost predicate Core<C>(st: Store<C>, lim: Limits, now: int) {
    SessionsValid(st, lim) && ParkedValid(st, now) && HistoryValid(st)
  }

  ghost predicate Inv<C>(st: Store<C>, lim: Limits, now: int) {
    Core(st, lim, now) && |st.parked| <= lim.maxParked
  }

  // -------------------------------------------------------------------------
  // Operations

  /** `removeLocked` on a session that has just been closed, with the release it causes. */
  function Discard<C>(st: Store<C>, id: SessionId, why: ReleaseReason): Store<C>
    requires id in st.heap
  {
    st.(heap := st.heap[id := st.heap[id].(state := Closed)],
        stored := st.stored - {id},
        parked := Without(st.parked, id),
        released := st.released + [Release(id, why)])
  }

  function Create<C>(st: Store<C>, id: SessionId, owner: string, c: C): Store<C> {
    st.(heap := st.heap[id := Fresh(owner, c)], stored := st.stored + {id})
  }

  function Resume<C>(st: Store<C>, id: SessionId, c: C, lastSeq: nat): Store<C>
    requires id in st.heap
  {
    st.(heap := st.heap[id := Attach(st.heap[id], c, lastSeq)], parked := Without(st.parked, id))
  }

  /** How `Open` disposes of a request, before it creates anything. */
  datatype Decision =
    | ResumeOf(id: SessionId)
    | NewSession(reason: Option<Reason>, victim: Option<SessionId>)

  function Decide<C>(st: Store<C>, req: Request, now: int, lim: Limits): Decision
    requires st.stored <= st.heap.Keys
  {
    if req.invalid then NewSession(Some(BadRequest), None)
    else if !req.requested then NewSession(None, None)
    else if req.id !in st.stored then NewSession(Some(UnknownSession), None)
    else
      match Judge(st.heap[req.id], req, now, lim.ttl)
      case Grant => ResumeOf(req.id)
      case Refuse(reason, kill) => NewSession(Some(reason), if kill then Some(req.id) else None)
  }

  /** `session` is absent when no session id could be drawn. `replay` is the client's pre-queue. */
  datatype Opened<!C> = Opened(
    store: Store<C>,
    session: Option<SessionId>,
    resumed: bool,
    reason: Option<Reason>,
    replay: seq<Wire>,
    prev: Option<C>,
    displaced: Option<C>,
    victim: Option<SessionId>)

  /** `Open`; `newId` is the randomly drawn session id, absent when the system has no entropy. */
  function Open<C(==)>(st: Store<C>, c: C, req: Request, newId: Option<SessionId>, now: int, lim: Limits): Opened<C>
    requires st.stored <= st.heap.Keys
    requires forall id :: id in st.heap ==> st.heap[id].next > 0
  {
    match Decide(st, req, now, lim)
    case ResumeOf(id) =>
      var s := st.heap[id];
      Opened(Resume(st, id, c, req.lastSeq), Some(id), true, None, Replay(id, s, req.lastSeq),
             Some(s.member), if s.live != None && s.live != Some(c) then s.live else None, None)
    case NewSession(reason, victim) =>
      var st1 := if victim.Some? && victim.value in st.heap then Discard(st, victim.value, ByReplacement) else st;
      match newId
      case None => Opened(st1, None, false, reason, [], None, None, victim)
      case Some(id) =>
        Opened(Create(st1, id, req.owner, c), Some(id), false, reason,
               [Hello(id, false, 0, 0, reason)], None, None, victim)
  }

  datatype LeaveResult = Gone | LeftParked | Displaced

  function Terminate<C>(st: Store<C>, id: SessionId): Store<C>
    requires id in st.heap
  {
    st.(heap := st.heap[id := st.heap[id].(state := Closed, live := None)],
        stored := st.stored - {id},
        parked := Without(st.parked, id),
        terminated := st.terminated + {id})
  }

  function Park<C>(st: Store<C>, id: SessionId, now: int): Store<C>
    requires id in st.heap
  {
    st.(heap := st.heap[id := st.heap[id].(live := None, stalled := false, state := Parked, parkedAt := now)],
        parked := st.parked + [id])
  }

  /** The eviction loop of `Leave`. */
  function Evict<C>(st: Store<C>, maxParked: nat): Store<C>
    requires forall i :: 0 <= i < |st.parked| ==> st.parked[i] in st.heap
    decreases |st.parked|
  {
    if |st.parked| > maxParked then Evict(Discard(st, st.parked[0], ByEviction), maxParked) else st
  }

  function Leave<C(==)>(st: Store<C>, id: SessionId, c: C, resumable: bool, now: int, lim: Limits)
    : (r: (Store<C>, LeaveResult))
    requires id in st.heap
    requires forall i :: 0 <= i < |st.parked| ==> st.parked[i] in st.heap
  {
    var s := st.heap[id];
    if s.state.Closed? then (st, Gone)
    else if s.live != Some(c) then (st, Displaced)
    else if !resumable then (Terminate(st, id), Gone)
    else (Evict(Park(st, id, now), lim.maxParked), LeftParked)
  }

  /** `Sweep`: stop at the first parked session that is young enough. */
  function Sweep<C>(st: Store<C>, now: int, ttl: int): Store<C>
    requires forall i :: 0 <= i < |st.parked| ==> st.parked[i] in st.heap
    decreases |st.parked|
  {
    if st.parked == [] || now - st.heap[st.parked[0]].parkedAt <= ttl then st
    else Sweep(Discard(st, st.parked[0], ByExpiry), now, ttl)
  }

  // -------------------------------------------------------------------------
  // Every operation keeps the invariant

  lemma EmptyInv<C>(lim: Limits, now: int)
    ensures Inv(Empty<C>(), lim, now)
  {
  }

  lemma CoreLater<C>(st: Store<C>, lim: Limits, now: int, later: int)
    requires Core(st, lim, now) && now <= later
    ensures Core(st, lim, later)
  {
  }

  /** Removing one session from the parked list, when its new state is no longer parked. */
  lemma WithoutKeepsParked<C>(st: Store<C>, st': Store<C>, id: SessionId, now: int)
    requires ParkedValid(st, now) && id in st.heap
    requires st'.heap.Keys == st.heap.Keys && !st'.heap[id].state.Parked?
    requires forall x :: x in st.heap && x != id ==> st'.heap[x] == st.heap[x]
    requires st'.parked == Without(st.parked, id)
    ensures ParkedValid(st', now)
  {
    WithoutKeepsOthers(st.parked, id);
    forall i, j | 0 <= i <= j < |st'.parked|
      ensures st'.heap[st'.parked[i]].parkedAt <= st'.heap[st'.parked[j]].parkedAt <= now
    {
      WithoutKeepsOrder(st.parked, id, i, j);
    }
  }

  lemma {:induction false} WithoutKeepsOrder(s: seq<SessionId>, x: SessionId, i: nat, j: nat)
    requires i <= j < |Without(s, x)|
    ensures exists i', j' :: 0 <= i' <= j' < |s| && s[i'] == Without(s, x)[i] && s[j'] == Without(s, x)[j]
  {
    var r := Without(s, x);
    if s[0] == x {
      assert s[i + 1] == r[i] && s[j + 1] == r[j];
    } else if j == 0 {
      assert s[0] == r[0];
    } else {
      WithoutKeepsOrder(s[1..], x, if i == 0 then 0 else i - 1, j - 1);
      var i', j' :| 0 <= i' <= j' < |s[1..]| && s[1..][i'] == Without(s[1..], x)[if i == 0 then 0 else i - 1]
                    && s[1..][j'] == Without(s[1..], x)[j - 1];
      assert s[if i == 0 then 0 else i' + 1] == r[i] && s[j' + 1] == r[j];
    }
  }

  /** Replacing one session by a valid one, stored exactly when it is open. */
  lemma ReplaceKeepsSessions<C>(st: Store<C>, st': Store<C>, id: SessionId, s: Session<C>, lim: Limits)
    requires SessionsValid(st, lim) && Valid(s, lim)
    requires st'.heap == st.heap[id := s]
    requires st'.stored == if s.state.Closed? then st.stored - {id} else st.stored + {id}
    ensures SessionsValid(st', lim)
  {
  }

  lemma DiscardKeepsCore<C>(st: Store<C>, id: SessionId, why: ReleaseReason, lim: Limits, now: int)
    requires Core(st, lim, now) && id in st.stored
    ensures Core(Discard(st, id, why), lim, now)
  {
    var st' := Discard(st, id, why);
    assert SessionsValid(st', lim) by { ReplaceKeepsSessions(st, st', id, st.heap[id].(state := Closed), lim); }
    assert ParkedValid(st', now) by { WithoutKeepsParked(st, st', id, now); }
    assert HistoryValid(st') by { ReleaseAppends(st.released, Release(id, why)); }
  }

  lemma TerminateKeepsCore<C>(st: Store<C>, id: SessionId, lim: Limits, now: int)
    requires Core(st, lim, now) && id in st.stored
    ensures Core(Terminate(st, id), lim, now)
  {
    var st' := Terminate(st, id);
    assert SessionsValid(st', lim) by { ReplaceKeepsSessions(st, st', id, st'.heap[id], lim); }
    assert ParkedValid(st', now) by { WithoutKeepsParked(st, st', id, now); }
    TerminateKeepsHistory(st, id);
  }

  lemma TerminateKeepsHistory<C>(st: Store<C>, id: SessionId)
    requires HistoryValid(st) && id in st.stored && id in st.heap
    ensures HistoryValid(Terminate(st, id))
  {
  }

  lemma CreateKeepsParked<C>(st: Store<C>, id: SessionId, owner: string, c: C, now: int)
    requires ParkedValid(st, now) && id !in st.heap
    ensures ParkedValid(Create(st, id, owner, c), now)
  {
    assert forall i :: 0 <= i < |st.parked| ==> st.parked[i] != id;
  }

  lemma CreateKeepsCore<C>(st: Store<C>, id: SessionId, owner: string, c: C, lim: Limits, now: int)
    requires Core(st, lim, now) && id !in st.heap
    ensures Core(Create(st, id, owner, c), lim, now)
  {
    var st' := Create(st, id, owner, c);
    assert SessionsValid(st', lim) by { ReplaceKeepsSessions(st, st', id, st'.heap[id], lim); }
    CreateKeepsParked(st, id, owner, c, now);
    assert HistoryValid(st');
  }

  lemma ResumeKeepsCore<C>(st: Store<C>, id: SessionId, c: C, lastSeq: nat, lim: Limits, now: int)
    requires Core(st, lim, now) && id in st.stored
    ensures Core(Resume(st, id, c, lastSeq), lim, now)
  {
    var st' := Resume(st, id, c, lastSeq);
    assert SessionsValid(st', lim) by {
      AckKeepsValid(st.heap[id], lastSeq, lim);
      ReplaceKeepsSessions(st, st', id, st'.heap[id], lim);
    }
    assert ParkedValid(st', now) by { WithoutKeepsParked(st, st', id, now); }
    assert HistoryValid(st');
  }

  lemma ParkKeepsParked<C>(st: Store<C>, id: SessionId, now: int)
    requires ParkedValid(st, now) && id in st.heap && !st.heap[id].state.Parked?
    ensures ParkedValid(Park(st, id, now), now)
  {
    var st' := Park(st, id, now);
    assert id !in st.parked;
    assert forall x :: x in st'.parked <==> x in st.parked || x == id;
    forall i | 0 <= i < |st'.parked|
      ensures st'.parked[i] in st'.heap
      ensures i < |st.parked| ==> st'.parked[i] == st.parked[i] && st.parked[i] != id
    {
      assert i < |st.parked| ==> st.parked[i] in st.parked;
    }
    forall i, j | 0 <= i <= j < |st'.parked|
      ensures st'.heap[st'.parked[i]].parkedAt <= st'.heap[st'.parked[j]].parkedAt <= now
    {
      assert i < |st.parked| ==> st.heap[st.parked[i]].parkedAt <= now;
    }
  }

  lemma ParkKeepsCore<C>(st: Store<C>, id: SessionId, lim: Limits, now: int)
    requires Core(st, lim, now) && id in st.stored && st.heap[id].state.Attached?
    ensures Core(Park(st, id, now), lim, now)
  {
    var st' := Park(st, id, now);
    assert SessionsValid(st', lim) by { ReplaceKeepsSessions(st, st', id, st'.heap[id], lim); }
    ParkKeepsParked(st, id, now);
    assert HistoryValid(st');
  }

  lemma UpdateKeepsParked<C>(st: Store<C>, id: SessionId, s: Session<C>, now: int)
    requires ParkedValid(st, now) && id in st.heap
    requires s.state == st.heap[id].state && s.parkedAt == st.heap[id].parkedAt
    ensures ParkedValid(st.(heap := st.heap[id := s]), now)
  {
    var st' := st.(heap := st.heap[id := s]);
    assert st'.heap.Keys == st.heap.Keys;
    assert forall x :: x in st.heap ==>
        st'.heap[x].state == st.heap[x].state && st'.heap[x].parkedAt == st.heap[x].parkedAt;
  }

  /** A delivery or an acknowledgement replaces one session and leaves its place in the store alone. */
  lemma UpdateKeepsInv<C>(st: Store<C>, id: SessionId, s: Session<C>, lim: Limits, now: int)
    requires Inv(st, lim, now) && id in st.heap && Valid(s, lim)
    requires s.state == st.heap[id].state && s.parkedAt == st.heap[id].parkedAt
    ensures Inv(st.(heap := st.heap[id := s]), lim, now)
  {
    var st' := st.(heap := st.heap[id := s]);
    assert SessionsValid(st', lim) by { ReplaceKeepsSessions(st, st', id, s, lim); }
    UpdateKeepsParked(st, id, s, now);
    assert HistoryValid(st');
  }

  lemma DeliveryKeepsInv<C>(st: Store<C>, id: SessionId, data: bytes, pol: Policy, room: Enqueued, lim: Limits,
                            now: int)
    requires Inv(st, lim, now) && id in st.heap
    ensures Inv(st.(heap := st.heap[id := Deliver(st.heap[id], data, pol, room, lim).session]), lim, now)
  {
    hide Deliver;
    DeliverKeepsValid(st.heap[id], data, pol, room, lim);
    DeliverStaysPut(st.heap[id], data, pol, room, lim);
    UpdateKeepsInv(st, id, Deliver(st.heap[id], data, pol, room, lim).session, lim, now);
  }

  lemma AckKeepsInv<C>(st: Store<C>, id: SessionId, n: nat, lim: Limits, now: int)
    requires Inv(st, lim, now) && id in st.heap
    ensures Inv(st.(heap := st.heap[id := Ack(st.heap[id], n)]), lim, now)
  {
    AckKeepsValid(st.heap[id], n, lim);
    UpdateKeepsInv(st, id, Ack(st.heap[id], n), lim, now);
  }

  lemma OpenKeepsInv<C>(st: Store<C>, c: C, req: Request, newId: Option<SessionId>, now: int, lim: Limits)
    requires Inv(st, lim, now)
    requires newId.Some? ==> newId.value !in st.heap
    ensures Inv(Open(st, c, req, newId, now, lim).store, lim, now)
  {
    match Decide(st, req, now, lim)
    case ResumeOf(id) => ResumeKeepsCore(st, id, c, req.lastSeq, lim, now);
    case NewSession(_, victim) =>
      var st1 := st;
      if victim.Some? {
        DiscardKeepsCore(st, victim.value, ByReplacement, lim, now);
        st1 := Discard(st, victim.value, ByReplacement);
      }
      if newId.Some? {
        CreateKeepsCore(st1, newId.value, req.owner, c, lim, now);
      }
  }

  // -------------------------------------------------------------------------
  // Eviction and sweeping refine simple filters

  /** Parking one more session evicts nobody while there is room, and otherwise exactly the session
      that has been parked longest, never the one that has just been parked. */
  lemma LeaveEvictsLongestParked<C>(st: Store<C>, id: SessionId, c: C, now: int, lim: Limits)
    requires Inv(st, lim, now) && ValidLimits(lim)
    requires id in st.stored && st.heap[id].live == Some(c)
    ensures var (st', r) := Leave(st, id, c, true, now, lim);
            && r == LeftParked && Inv(st', lim, now)
            && id in st'.stored && st'.heap[id].state.Parked?
            && (if |st.parked| < lim.maxParked
                then st' == Park(st, id, now)
                else st' == Discard(Park(st, id, now), st.parked[0], ByEviction)
                     && st'.stored == st.stored - {st.parked[0]}
                     && st'.parked == st.parked[1..] + [id])
  {
    hide HistoryValid, Discard, IsLogSuffix, Fits;
    ParkKeepsCore(st, id, lim, now);
    var st1 := Park(st, id, now);
    if |st1.parked| > lim.maxParked {
      assert st1.parked[0] == st.parked[0];
      DiscardKeepsCore(st1, st.parked[0], ByEviction, lim, now);
      DiscardFirst(st1, ByEviction);
      assert st1.parked[1..] == st.parked[1..] + [id] && st.parked[0] != id;
      var st2 := Discard(st1, st1.parked[0], ByEviction);
      assert Evict(st1, lim.maxParked) == Evict(st2, lim.maxParked) == st2;
    }
  }

  lemma DiscardFirst<C>(st: Store<C>, why: ReleaseReason)
    requires st.parked != [] && st.parked[0] in st.heap
    ensures var st' := Discard(st, st.parked[0], why);
            && st'.parked == st.parked[1..] && st'.stored == st.stored - {st.parked[0]}
            && st'.heap.Keys == st.heap.Keys
            && (forall x :: x in st.heap && x != st.parked[0] ==> st'.heap[x] == st.heap[x])
  {
  }

  lemma LeaveKeepsInv<C>(st: Store<C>, id: SessionId, c: C, resumable: bool, now: int, lim: Limits)
    requires Inv(st, lim, now) && ValidLimits(lim) && id in st.heap
    ensures Inv(Leave(st, id, c, resumable, now, lim).0, lim, now)
  {
    if !st.heap[id].state.Closed? && st.heap[id].live == Some(c) {
      if resumable {
        LeaveEvictsLongestParked(st, id, c, now, lim);
      } else {
        TerminateKeepsCore(st, id, lim, now);
      }
    }
  }

  predicate TooOld<C>(st: Store<C>, id: SessionId, now: int, ttl: int)
    requires id in st.heap
  {
    now - st.heap[id].parkedAt > ttl
  }

  function Young<C>(st: Store<C>, ids: seq<SessionId>, now: int, ttl: int): seq<SessionId>
    requires forall i :: 0 <= i < |ids| ==> ids[i] in st.heap
  {
    if ids == [] then []
    else (if TooOld(st, ids[0], now, ttl) then [] else [ids[0]]) + Young(st, ids[1..], now, ttl)
  }

  lemma {:induction false} SweepKeepsInv<C>(st: Store<C>, now: int, lim: Limits)
    requires Inv(st, lim, now)
    ensures Inv(Sweep(st, now, lim.ttl), lim, now)
    decreases |st.parked|
  {
    if st.parked != [] && TooOld(st, st.parked[0], now, lim.ttl) {
      DiscardKeepsCore(st, st.parked[0], ByExpiry, lim, now);
      SweepKeepsInv(Discard(st, st.parked[0], ByExpiry), now, lim);
    }
  }

  /** The session as a sweep at `now` leaves it. */
  function Swept<C>(s: Session<C>, now: int, ttl: int): Session<C> {
    if s.state.Parked? && now - s.parkedAt > ttl then s.(state := Closed) else s
  }

  /** Although it stops at the first young session, `Sweep` closes exactly the parked sessions older
      than the TTL and leaves every other session, and the order of the list, untouched. */
  lemma {:induction false} SweepClosesExactlyExpired<C>(st: Store<C>, now: int, lim: Limits)
    requires Inv(st, lim, now)
    ensures var st' := Sweep(st, now, lim.ttl);
            && st'.heap.Keys == st.heap.Keys
            && st'.parked == Young(st, st.parked, now, lim.ttl)
            && (forall id :: id in st.heap ==> st'.heap[id] == Swept(st.heap[id], now, lim.ttl))
    decreases |st.parked|
  {
    if st.parked != [] && TooOld(st, st.parked[0], now, lim.ttl) {
      var id := st.parked[0];
      var st1 := Discard(st, id, ByExpiry);
      DiscardKeepsCore(st, id, ByExpiry, lim, now);
      SweepClosesExactlyExpired(st1, now, lim);
      assert st1.parked == st.parked[1..];
      YoungAgrees(st, st1, st.parked[1..], now, lim.ttl);
    } else {
      NoneTooOld(st, now, lim.ttl);
    }
  }

  /** The list is ordered by park time, so behind a young session there are only young ones. */
  lemma NoneTooOld<C>(st: Store<C>, now: int, ttl: int)
    requires ParkedValid(st, now)
    requires st.parked != [] ==> !TooOld(st, st.parked[0], now, ttl)
    ensures Young(st, st.parked, now, ttl) == st.parked
    ensures forall id :: id in st.heap && st.heap[id].state.Parked? ==> !TooOld(st, id, now, ttl)
  {
    forall i | 0 <= i < |st.parked|
      ensures !TooOld(st, st.parked[i], now, ttl)
    {
      assert st.heap[st.parked[0]].parkedAt <= st.heap[st.parked[i]].parkedAt;
    }
    AllYoung(st, st.parked, now, ttl);
    forall id | id in st.heap && st.heap[id].state.Parked?
      ensures !TooOld(st, id, now, ttl)
    {
      var i :| 0 <= i < |st.parked| && st.parked[i] == id;
    }
  }

  ghost predicate NoYoungBeforeOld<C>(st: Store<C>, ids: seq<SessionId>, now: int, ttl: int)
    requires forall i :: 0 <= i < |ids| ==> ids[i] in st.heap
  {
    forall i, j :: 0 <= i < j < |ids| && !TooOld(st, ids[i], now, ttl) ==> !TooOld(st, ids[j], now, ttl)
  }

  /** Without the ordering, stopping early is exact precisely when no young session sits in front of an
      old one: this is what reading the clock inside the critical section guarantees. */
  lemma {:induction false} SweepExactIffNoYoungBeforeOld<C>(st: Store<C>, now: int, ttl: int)
    requires Distinct(st.parked) && forall i :: 0 <= i < |st.parked| ==> st.parked[i] in st.heap
    ensures Sweep(st, now, ttl).parked == Young(st, st.parked, now, ttl)
            <==> NoYoungBeforeOld(st, st.parked, now, ttl)
    decreases |st.parked|
  {
    if st.parked != [] {
      if TooOld(st, st.parked[0], now, ttl) {
        var st1, rest := Discard(st, st.parked[0], ByExpiry), st.parked[1..];
        assert st1.parked == rest;
        AgesAgree(st, st1, rest, now, ttl);
        SweepExactIffNoYoungBeforeOld(st1, now, ttl);
        OldFirst(st, st.parked, now, ttl);
      } else {
        YoungSize(st, st.parked, now, ttl);
      }
    }
  }

  lemma AgesAgree<C>(st: Store<C>, st1: Store<C>, rest: seq<SessionId>, now: int, ttl: int)
    requires Distinct(st.parked) && st.parked != [] && rest == st.parked[1..]
    requires forall i :: 0 <= i < |st.parked| ==> st.parked[i] in st.heap
    requires st1 == Discard(st, st.parked[0], ByExpiry)
    ensures forall i :: 0 <= i < |rest| ==> rest[i] in st.heap && rest[i] in st1.heap
    ensures Young(st, rest, now, ttl) == Young(st1, rest, now, ttl)
    ensures NoYoungBeforeOld(st, rest, now, ttl) <==> NoYoungBeforeOld(st1, rest, now, ttl)
  {
    forall i | 0 <= i < |rest|
      ensures rest[i] in st.heap && rest[i] in st1.heap && st1.heap[rest[i]].parkedAt == st.heap[rest[i]].parkedAt
      ensures TooOld(st, rest[i], now, ttl) == TooOld(st1, rest[i], now, ttl)
    {
      assert rest[i] == st.parked[i + 1];
    }
    YoungAgrees(st, st1, rest, now, ttl);
  }

  lemma OldFirst<C>(st: Store<C>, ids: seq<SessionId>, now: int, ttl: int)
    requires ids != [] && (forall i :: 0 <= i < |ids| ==> ids[i] in st.heap) && TooOld(st, ids[0], now, ttl)
    ensures NoYoungBeforeOld(st, ids, now, ttl) <==> NoYoungBeforeOld(st, ids[1..], now, ttl)
  {
    var rest := ids[1..];
    assert forall i :: 0 < i < |ids| ==> ids[i] == rest[i - 1];
    assert forall i :: 0 <= i < |rest| ==> rest[i] == ids[i + 1];
  }

  lemma {:induction false} YoungSize<C>(st: Store<C>, ids: seq<SessionId>, now: int, ttl: int)
    requires forall i :: 0 <= i < |ids| ==> ids[i] in st.heap
    ensures |Young(st, ids, now, ttl)| <= |ids|
    ensures Young(st, ids, now, ttl) == ids <==> (forall i :: 0 <= i < |ids| ==> !TooOld(st, ids[i], now, ttl))
  {
    if ids != [] {
      YoungSize(st, ids[1..], now, ttl);
    }
  }

  lemma {:induction false} YoungAgrees<C>(a: Store<C>, b: Store<C>, ids: seq<SessionId>, now: int, ttl: int)
    requires forall i :: 0 <= i < |ids| ==>
               ids[i] in a.heap && ids[i] in b.heap && a.heap[ids[i]].parkedAt == b.heap[ids[i]].parkedAt
    ensures Young(a, ids, now, ttl) == Young(b, ids, now, ttl)
  {
    if ids != [] {
      YoungAgrees(a, b, ids[1..], now, ttl);
    }
  }

  lemma {:induction false} AllYoung<C>(st: Store<C>, ids: seq<SessionId>, now: int, ttl: int)
    requires forall i :: 0 <= i < |ids| ==> ids[i] in st.heap && !TooOld(st, ids[i], now, ttl)
    ensures Young(st, ids, now, ttl) == ids
  {
    if ids != [] {
      AllYoung(st, ids[1..], now, ttl);
    }
  }

  /** A parked session lives for the TTL and no longer: a sweep closes it exactly from then on, and until then
      its owner is not told that it has expired. */
  lemma ParkedLivesForTtl<C>(st: Store<C>, id: SessionId, c: C, now: int, lim: Limits, later: int, req: Request)
    requires Inv(st, lim, now) && ValidLimits(lim) && now <= later
    requires id in st.stored && st.heap[id].live == Some(c) && st.heap[id].owner == req.owner
    ensures var (st', _) := Leave(st, id, c, true, now, lim);
            && id in st'.heap && Inv(st', lim, later)
            && (var st2 := Sweep(st', later, lim.ttl);
                id in st2.heap && (st2.heap[id].state.Closed? <==> later - now > lim.ttl))
            && (Judge(st'.heap[id], req, later, lim.ttl) == Refuse(Expired, true) <==> later - now > lim.ttl)
  {
    hide Leave, Sweep, Valid, HistoryValid;
    var st' := Leave(st, id, c, true, now, lim).0;
    LeftAsParked(st, id, c, now, lim);
    CoreLater(st', lim, now, later);
    SweepClosesExactlyExpired(st', later, lim);
  }

  lemma LeftAsParked<C>(st: Store<C>, id: SessionId, c: C, now: int, lim: Limits)
    requires Inv(st, lim, now) && ValidLimits(lim) && id in st.stored && st.heap[id].live == Some(c)
    ensures var st' := Leave(st, id, c, true, now, lim).0;
            && Inv(st', lim, now) && id in st'.heap && st'.heap[id].state.Parked?
            && st'.heap[id].parkedAt == now && st'.heap[id].owner == st.heap[id].owner
  {
    hide Leave;
    LeaveEvictsLongestParked(st, id, c, now, lim);
  }

  /** What becomes of a request: a malformed one, one for a session that is not stored, and the others as
      the session itself judges; nobody who asked for nothing is given a reason. */
  lemma DecideMeans<C>(st: Store<C>, req: Request, now: int, lim: Limits)
    requires Inv(st, lim, now)
    ensures var d := Decide(st, req, now, lim); var found := req.requested && !req.invalid && req.id in st.stored;
            && (d.ResumeOf? <==> found && Judge(st.heap[req.id], req, now, lim.ttl).Grant?)
            && (d.ResumeOf? ==> d.id == req.id)
            && (d.NewSession? ==>
                  && (d.reason == None <==> !req.requested && !req.invalid)
                  && (d.reason == Some(BadRequest) <==> req.invalid)
                  && (d.reason == Some(UnknownSession) <==> req.requested && !req.invalid && req.id !in st.stored)
                  && (d.victim.Some? <==> d.reason in {Some(Expired), Some(BadSeq), Some(GapExceeded)})
                  && (d.victim.Some? ==> found && d.victim == Some(req.id) && st.heap[req.id].owner == req.owner))
  {
    if req.requested && !req.invalid && req.id in st.stored && !Judge(st.heap[req.id], req, now, lim.ttl).Grant? {
      RefusalMeans(st.heap[req.id], req, now, lim);
    }
  }

  /** What `Leave` reports: gone if the session is closed by now, displaced if another connection or none
      holds it, parked if the leaving connection holds it and may resume. */
  lemma LeaveReports<C>(st: Store<C>, id: SessionId, c: C, resumable: bool, now: int, lim: Limits)
    requires Inv(st, lim, now) && ValidLimits(lim) && id in st.heap
    ensures var (st', r) := Leave(st, id, c, resumable, now, lim);
            && id in st'.heap
            && (r == Displaced <==> !st.heap[id].state.Closed? && st.heap[id].live != Some(c))
            && (r == Displaced ==> st' == st)
            && (r == Gone <==> st'.heap[id].state.Closed?)
            && (r == LeftParked <==> !st.heap[id].state.Closed? && st.heap[id].live == Some(c) && resumable)
            && (r == LeftParked ==> id in st'.stored && st'.heap[id].state.Parked? && st'.heap[id].parkedAt == now)
  {
    if !st.heap[id].state.Closed? && st.heap[id].live == Some(c) && resumable {
      LeaveEvictsLongestParked(st, id, c, now, lim);
    }
  }

  // -------------------------------------------------------------------------
  // Conservation and memory

  /** Sessions created = sessions stored + releases + terminal leaves. */
  lemma SessionsConserved<C>(st: Store<C>, lim: Limits, now: int)
    requires Inv(st, lim, now)
    ensures |st.heap| == |st.stored| + |st.released| + |st.terminated|
  {
    IdsOfSize(st.released);
  }

  lemma {:induction false} IdsOfSize(rs: seq<Release>)
    requires ReleasedOnce(rs)
    ensures |IdsOf(rs)| == |rs|
  {
    if rs != [] {
      var init, last := rs[..|rs| - 1], rs[|rs| - 1];
      IdsOfSize(init);
      ReleaseAppends(init, last);
      assert rs == init + [last];
    }
  }

  /** Buffered bytes of the listed sessions. */
  function TotalBytes<C>(st: Store<C>, ids: seq<SessionId>): nat
    requires forall i :: 0 <= i < |ids| ==> ids[i] in st.heap
  {
    if ids == [] then 0 else Size(st.heap[ids[0]].buf) + TotalBytes(st, ids[1..])
  }

  function AttachedIds<C>(st: Store<C>): set<SessionId>
    requires st.stored <= st.heap.Keys
  {
    set id | id in st.stored && st.heap[id].state.Attached?
  }

  lemma StoredCount<C>(st: Store<C>, ids: seq<SessionId>, lim: Limits, now: int)
    requires Inv(st, lim, now)
    requires Distinct(ids) && Elements(ids) <= st.stored
    ensures |ids| <= |AttachedIds(st)| + lim.maxParked
  {
    var parked := Elements(st.parked);
    forall id | id in Elements(ids)
      ensures id in AttachedIds(st) + parked
    {
    }
    SubsetSize(Elements(ids), AttachedIds(st) + parked);
    ElementsSize(st.parked);
    ElementsSize(ids);
  }

  lemma {:induction false} TotalBytesWithin<C>(st: Store<C>, ids: seq<SessionId>, lim: Limits, n: nat)
    requires SessionsValid(st, lim) && |ids| <= n
    requires forall i :: 0 <= i < |ids| ==> ids[i] in st.stored
    ensures TotalBytes(st, ids) <= n * lim.maxBytes
  {
    if ids != [] {
      assert Valid(st.heap[ids[0]], lim);
      TotalBytesWithin(st, ids[1..], lim, n - 1);
      assert n * lim.maxBytes == (n - 1) * lim.maxBytes + lim.maxBytes;
    }
  }

  /** Global memory bound: the stored sessions, each counted once, buffer at most
      (live sessions + MaxParked) x ReplayBytes. */
  lemma MemoryBounded<C>(st: Store<C>, ids: seq<SessionId>, lim: Limits, now: int)
    requires Inv(st, lim, now)
    requires Distinct(ids) && Elements(ids) <= st.stored
    ensures forall i :: 0 <= i < |ids| ==> ids[i] in st.heap
    ensures TotalBytes(st, ids) <= (|AttachedIds(st)| + lim.maxParked) * lim.maxBytes
  {
    StoredCount(st, ids, lim, now);
    assert forall i :: 0 <= i < |ids| ==> ids[i] in Elements(ids);
    TotalBytesWithin(st, ids, lim, |AttachedIds(st)| + lim.maxParked);
  }

  lemma {:induction false} SubsetSize(a: set<SessionId>, b: set<SessionId>)
    requires a <= b
    ensures |a| <= |b|
  {
    assert b == a + (b - a);
  }

  function Elements(s: seq<SessionId>): set<SessionId> {
    set x | x in s
  }

  lemma {:induction false} ElementsSize(s: seq<SessionId>)
    ensures |Elements(s)| <= |s|
    ensures Distinct(s) ==> |Elements(s)| == |s|
  {
    if s != [] {
      ElementsSize(s[1..]);
      assert Elements(s) == Elements(s[1..]) + {s[0]};
    }
  }
}
