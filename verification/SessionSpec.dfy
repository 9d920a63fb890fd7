/** One resumable session as a value: sequencing, buffering, the resume verdict and re-attachment
    (internal/session.go). `C` is the type of client handles. */
module SessionSpec {
  import opened Commons
  import opened Bytes
  import opened Frames
  import opened ReplayBuffers

  type SessionId = string

  datatype State = Attached | Parked | Closed

  /** How much a sender cares about a frame: never lose it, lose it rather than the connection, or do not
      even number it. */
  datatype Policy = Disconnect | Drop | Volatile

  /** Why a resume was refused. */
  datatype Reason = UnknownSession | Expired | OwnerMismatch | GapExceeded | BadSeq | BadRequest

  /** Outcome of a non-blocking send on a client queue. */
  datatype Enqueued = Accepted | Full | Shut

  /** `enqueue` on a channel of the given capacity. */
  function RoomIn(shut: bool, queued: nat, cap: nat): Enqueued {
    if shut then Shut else if queued < cap then Accepted else Full
  }

  /** What travels to the peer: the `$session` control frame or an event frame. */
  datatype Wire =
    | Hello(id: SessionId, resumed: bool, replayed: nat, lastSeq: nat, reason: Option<Reason>)
    | Event(data: bytes)

  datatype Limits = Limits(maxMsgs: nat, maxBytes: nat, ttl: int, maxParked: nat)

  /** Limits after `NewSessionStore` has applied its defaults. */
  predicate ValidLimits(lim: Limits) {
    lim.maxMsgs > 0 && lim.maxBytes > 0 && lim.ttl > 0 && lim.maxParked > 0
  }

  /** `log` is the history of committed frames: frame number n is `log[n - 1]`. */
  datatype Session<!C> = Session(
    owner: string,
    state: State,
    next: nat,
    buf: seq<Entry>,
    live: Option<C>,
    member: C,
    stalled: bool,
    parkedAt: int,
    dropped: nat,
    log: seq<bytes>)

  datatype Request = Request(requested: bool, invalid: bool, id: SessionId, lastSeq: nat, owner: string)

  ghost predicate Valid<C>(s: Session<C>, lim: Limits) {
    && s.next == |s.log| + 1
    && IsLogSuffix(s.buf, s.log)
    && Fits(s.buf, lim.maxMsgs, lim.maxBytes)
    && (s.state.Attached? ==> s.live == Some(s.member))
    && (s.state.Parked? ==> s.live == None && !s.stalled)
  }

  function Fresh<C>(owner: string, c: C): Session<C> {
    Session(owner, Attached, 1, [], Some(c), c, false, 0, 0, [])
  }

  // -------------------------------------------------------------------------
  // Outbound path

  function Commit<C>(s: Session<C>, data: bytes, lim: Limits): Session<C> {
    s.(next := s.next + 1,
       buf := Pushed(s.buf, Entry(s.next, data), lim.maxMsgs, lim.maxBytes),
       log := s.log + [data])
  }

  /** Effect of one delivery: the new session, the frame put on the live client's queue, whether
      that client's drop counter advanced, and `false` for "disconnect the slow peer". */
  datatype Delivery<!C> = Delivery(session: Session<C>, queued: Option<Wire>, clientDrop: bool, ok: bool)

  predicate Offline<C>(s: Session<C>) {
    s.live == None || s.stalled
  }

  /** `deliver`; `room` is the outcome a send on the live client's queue would have. */
  function Deliver<C>(s: Session<C>, data: bytes, pol: Policy, room: Enqueued, lim: Limits): Delivery<C> {
    if s.state.Closed? then
      Delivery(s, None, false, true)
    else if pol.Volatile? then
      if Offline(s) then Delivery(s.(dropped := s.dropped + 1), None, false, true)
      else if room.Accepted? then Delivery(s, Some(Event(data)), false, true)
      else Delivery(s, None, true, true)
    else if Offline(s) then
      Delivery(Commit(s, data, lim), None, false, true)
    else
      match room
      case Accepted => Delivery(Commit(s, data, lim), Some(Event(Stamp(data, s.next))), false, true)
      case Shut => Delivery(Commit(s, data, lim).(stalled := true), None, false, true)
      case Full =>
        if pol.Drop? then Delivery(s, None, true, true)
        else Delivery(Commit(s, data, lim).(stalled := true), None, false, false)
  }

  /** Every delivery keeps the session consistent, and either commits the frame once at the end of
      the log or leaves the log alone. */
  lemma DeliverKeepsValid<C>(s: Session<C>, data: bytes, pol: Policy, room: Enqueued, lim: Limits)
    requires Valid(s, lim)
    ensures var d := Deliver(s, data, pol, room, lim);
            && Valid(d.session, lim)
            && (d.session.log == s.log || d.session.log == s.log + [data])
  {
    PushKeepsLogSuffix(s.buf, s.log, data, lim.maxMsgs, lim.maxBytes);
  }

  /** Every frame handed to an open session is accounted for exactly once: committed, sent
      unnumbered, or counted as dropped by the session or by its client. */
  lemma DeliverAccountsForFrame<C>(s: Session<C>, data: bytes, pol: Policy, room: Enqueued, lim: Limits)
    requires !s.state.Closed?
    ensures var d := Deliver(s, data, pol, room, lim);
            (|d.session.log| - |s.log|)
            + (d.session.dropped - s.dropped)
            + (if d.clientDrop then 1 else 0)
            + (if d.queued.Some? && |d.session.log| == |s.log| then 1 else 0) == 1
    ensures pol.Disconnect? ==> Deliver(s, data, pol, room, lim).session.log == s.log + [data]
  {
  }

  /** Exactly when a frame handed to an open session is committed. */
  lemma DeliverCommitsIff<C>(s: Session<C>, data: bytes, pol: Policy, room: Enqueued, lim: Limits)
    requires !s.state.Closed?
    ensures Deliver(s, data, pol, room, lim).session.log
            == if pol.Disconnect? || (pol.Drop? && (Offline(s) || !room.Full?)) then s.log + [data] else s.log
  {
  }

  /** Exactly when a delivery asks for a disconnect: a frame that must not be lost meets the full queue of
      a connection that has not stalled. A queue that has been closed asks for nothing. */
  lemma DeliverAsksIff<C>(s: Session<C>, data: bytes, pol: Policy, room: Enqueued, lim: Limits)
    ensures Deliver(s, data, pol, room, lim).ok
            <==> !(!s.state.Closed? && !Offline(s) && pol.Disconnect? && room.Full?)
  {
  }

  /** Where a frame handed to an open session goes: with room it is queued, numbered unless it is a
      best-effort one; otherwise a best-effort one is counted by the session while it is offline and by
      its client when the queue has no room. A reliable frame that finds no room stalls the session. */
  lemma DeliverGoes<C>(s: Session<C>, data: bytes, pol: Policy, room: Enqueued, lim: Limits)
    requires !s.state.Closed?
    ensures var d := Deliver(s, data, pol, room, lim); var free := !Offline(s) && room.Accepted?;
            && d.queued == (if !free then None
                            else if pol.Volatile? then Some(Event(data)) else Some(Event(Stamp(data, s.next))))
            && d.session.dropped - s.dropped == (if pol.Volatile? && Offline(s) then 1 else 0)
            && (d.clientDrop <==> !Offline(s) && !free && (pol.Volatile? || (pol.Drop? && room.Full?)))
            && (d.session.stalled <==>
                  s.stalled || (!Offline(s) && !free && !pol.Volatile? && !(pol.Drop? && room.Full?)))
  {
  }

  /** A delivery never moves the session; a closed session ignores it; a stalled one queues nothing and
      asks for nothing; and one that asks for a disconnect has stalled the session. */
  lemma DeliverStaysPut<C>(s: Session<C>, data: bytes, pol: Policy, room: Enqueued, lim: Limits)
    ensures var d := Deliver(s, data, pol, room, lim);
            && d.session.live == s.live && d.session.state == s.state && d.session.member == s.member
            && d.session.parkedAt == s.parkedAt && d.session.owner == s.owner
            && (s.state.Closed? ==> d == Delivery(s, None, false, true))
            && (s.stalled ==> d.session.stalled && d.queued == None && !d.clientDrop && d.ok)
            && (!d.ok ==> d.session.stalled && !s.state.Closed? && s.live.Some? && d.queued == None)
  {
  }

  // -------------------------------------------------------------------------
  // Acknowledgement

  function Ack<C>(s: Session<C>, n: nat): Session<C> {
    if n < s.next then s.(buf := Acked(s.buf, n)) else s
  }

  // -------------------------------------------------------------------------
  // Resume

  datatype Verdict = Grant | Refuse(reason: Reason, kill: bool)

  function Judge<C>(s: Session<C>, req: Request, now: int, ttl: int): Verdict {
    if s.state.Closed? then Refuse(UnknownSession, false)
    else if s.owner != req.owner then Refuse(OwnerMismatch, false)
    else if s.state.Parked? && now - s.parkedAt > ttl then Refuse(Expired, true)
    else if req.lastSeq >= s.next then Refuse(BadSeq, true)
    else if req.lastSeq < s.next - 1 && !Covers(s.buf, req.lastSeq) then Refuse(GapExceeded, true)
    else Grant
  }

  /** Frames waiting for the peer, each with the number it was committed under. */
  function Stamped(es: seq<Entry>): seq<Wire> {
    seq(|es|, i requires 0 <= i < |es| => Event(Stamp(es[i].data, es[i].num)))
  }

  /** The pre-queue of a client that resumes `s` at `lastSeq`: the control frame, then the replay. */
  function Replay<C>(id: SessionId, s: Session<C>, lastSeq: nat): seq<Wire>
    requires s.next > 0
  {
    var es := After(Acked(s.buf, lastSeq), lastSeq);
    [Hello(id, true, |es|, s.next - 1, None)] + Stamped(es)
  }

  /** `attachLocked`: the session as rebound to `c`. */
  function Attach<C>(s: Session<C>, c: C, lastSeq: nat): Session<C> {
    s.(buf := Acked(s.buf, lastSeq), live := Some(c), member := c, state := Attached, stalled := false)
  }

  lemma AckKeepsValid<C>(s: Session<C>, n: nat, lim: Limits)
    requires Valid(s, lim)
    ensures Valid(s.(buf := Acked(s.buf, n)), lim)
  {
    AckedOnLogSuffix(s.buf, s.log, n);
    SizeOfSuffix(Acked(s.buf, n), s.buf);
  }

  /** The frames numbered above `from`, as they look on the wire. */
  function MissingFrames(log: seq<bytes>, from: nat): seq<Wire>
    requires from <= |log|
  {
    seq(|log| - from, i requires 0 <= i < |log| - from => Event(Stamp(log[from + i], from + i + 1)))
  }

  /** No silent partial replay: a granted resume primes exactly the frames the peer lacks, with their
      original numbers and bytes, whatever evictions, acknowledgements and resets came before. */
  lemma GrantReplaysExactlyMissing<C>(id: SessionId, s: Session<C>, req: Request, now: int, lim: Limits)
    requires Valid(s, lim)
    requires Judge(s, req, now, lim.ttl).Grant?
    ensures req.lastSeq <= |s.log|
    ensures Replay(id, s, req.lastSeq)
            == [Hello(id, true, |s.log| - req.lastSeq, |s.log|, None)] + MissingFrames(s.log, req.lastSeq)
  {
    ReplayIsMissing(s.buf, s.log, req.lastSeq);
    assert Stamped(Missing(s.log, req.lastSeq)) == MissingFrames(s.log, req.lastSeq);
  }

  /** A resume by the right owner, in time, is granted exactly when the requested position lies in the
      log and every frame after it is still buffered. */
  lemma GrantIffNothingLost<C>(s: Session<C>, req: Request, now: int, lim: Limits)
    requires Valid(s, lim)
    requires !s.state.Closed? && s.owner == req.owner
    requires s.state.Parked? ==> now - s.parkedAt <= lim.ttl
    ensures Judge(s, req, now, lim.ttl).Grant?
            <==> req.lastSeq <= |s.log|
                 && forall i :: req.lastSeq <= i < |s.log| ==> Entry(i + 1, s.log[i]) in s.buf
  {
    if req.lastSeq < |s.log| {
      CoversMeansNothingMissing(s.buf, s.log, req.lastSeq);
    }
  }

  ghost predicate InTime<C>(s: Session<C>, now: int, lim: Limits) {
    s.state.Parked? ==> now - s.parkedAt <= lim.ttl
  }

  ghost predicate AllBuffered<C>(s: Session<C>, from: nat) {
    forall i :: from <= i < |s.log| ==> Entry(i + 1, s.log[i]) in s.buf
  }

  /** Exactly when a resume is granted: the session is open, the request comes from its owner and in time,
      the position lies in the log and every later frame is still buffered. */
  lemma GrantIff<C>(s: Session<C>, req: Request, now: int, lim: Limits)
    requires Valid(s, lim)
    ensures Judge(s, req, now, lim.ttl).Grant?
            <==> && !s.state.Closed? && s.owner == req.owner && InTime(s, now, lim)
                 && req.lastSeq <= |s.log| && AllBuffered(s, req.lastSeq)
  {
    if !s.state.Closed? && s.owner == req.owner && InTime(s, now, lim) {
      GrantIffNothingLost(s, req, now, lim);
    }
  }

  /** Why a resume is refused: the first of the conditions that fails, in the order closed, owner, time,
      position, buffer. The session is of no further use to its owner in the last three cases and is
      kept in the first two. */
  lemma RefusalMeans<C>(s: Session<C>, req: Request, now: int, lim: Limits)
    requires Valid(s, lim) && Judge(s, req, now, lim.ttl).Refuse?
    ensures var v := Judge(s, req, now, lim.ttl); var mine := !s.state.Closed? && s.owner == req.owner;
            && (v.reason == UnknownSession <==> s.state.Closed?)
            && (v.reason == OwnerMismatch <==> !s.state.Closed? && s.owner != req.owner)
            && (v.reason == Expired <==> mine && !InTime(s, now, lim))
            && (v.reason == BadSeq <==> mine && InTime(s, now, lim) && req.lastSeq > |s.log|)
            && (v.reason == GapExceeded <==>
                  mine && InTime(s, now, lim) && req.lastSeq <= |s.log| && !AllBuffered(s, req.lastSeq))
            && (v.kill <==> mine)
  {
    GrantIff(s, req, now, lim);
  }

  /** Exactly which acknowledgements cost a resume: those past the resume position, within the log,
      while something is missing. An acknowledgement at or beyond `next` changes nothing. */
  lemma AckCostsResumeIff<C>(s: Session<C>, n: nat, req: Request, now: int, lim: Limits)
    requires Valid(s, lim)
    requires Judge(s, req, now, lim.ttl).Grant?
    ensures Judge(Ack(s, n), req, now, lim.ttl).Grant?
            <==> n <= req.lastSeq || n >= s.next || req.lastSeq == s.next - 1
    ensures n >= s.next ==> Ack(s, n) == s
  {
    AckedOnLogSuffix(s.buf, s.log, n);
  }

  /** What happens to a session: frames are delivered, each with the room its live connection had, the
      peer confirms frames, the connection is lost, and the peer resumes at a position. */
  datatype Happening<!C> =
    | Sent(data: bytes, pol: Policy, room: Enqueued)
    | Confirmed(n: nat)
    | Lost(when: int)
    | Resumed(c: C, at: nat)

  function Happened<C>(s: Session<C>, h: Happening<C>, lim: Limits): Session<C> {
    match h
    case Sent(data, pol, room) => Deliver(s, data, pol, room, lim).session
    case Confirmed(n) => Ack(s, n)
    case Lost(when) =>
      if s.state.Attached? then s.(live := None, stalled := false, state := Parked, parkedAt := when) else s
    case Resumed(c, at) => if s.state.Closed? then s else Attach(s, c, at)
  }

  function Lived<C>(s: Session<C>, hs: seq<Happening<C>>, lim: Limits): Session<C>
    decreases |hs|
  {
    if hs == [] then s else Lived(Happened(s, hs[0], lim), hs[1..], lim)
  }

  /** The same history without the confirmations. */
  function Unconfirmed<C>(hs: seq<Happening<C>>): seq<Happening<C>> {
    if hs == [] then []
    else (if hs[0].Confirmed? then [] else [hs[0]]) + Unconfirmed(hs[1..])
  }

  /** The peer never claimed more than the first `n` frames. */
  ghost predicate Honest<C>(hs: seq<Happening<C>>, n: nat) {
    forall i :: 0 <= i < |hs| ==> (hs[i].Confirmed? ==> hs[i].n <= n) && (hs[i].Resumed? ==> hs[i].at <= n)
  }

  /** `s` differs from `t` only in having dropped buffered frames numbered `n` or below. */
  ghost predicate Lighter<C>(s: Session<C>, t: Session<C>, n: nat, lim: Limits) {
    && Valid(s, lim) && Valid(t, lim) && s == t.(buf := s.buf)
    && |s.buf| <= |t.buf| && (|s.buf| < |t.buf| ==> |s.log| - |s.buf| <= n)
  }

  lemma LogSuffixesNest<C>(s: Session<C>, t: Session<C>, lim: Limits)
    requires Valid(s, lim) && Valid(t, lim) && s.log == t.log && |s.buf| <= |t.buf|
    ensures IsSuffix(s.buf, t.buf)
  {
  }

  lemma CommitKeepsLighter<C>(s: Session<C>, t: Session<C>, n: nat, data: bytes, lim: Limits)
    requires Lighter(s, t, n, lim)
    ensures Lighter(Commit(s, data, lim), Commit(t, data, lim), n, lim)
  {
    hide Pushed, IsLogSuffix, IsSuffix, Fits;
    PushKeepsLogSuffix(s.buf, s.log, data, lim.maxMsgs, lim.maxBytes);
    PushKeepsLogSuffix(t.buf, t.log, data, lim.maxMsgs, lim.maxBytes);
    LogSuffixesNest(s, t, lim);
    PushOfSuffix(s.buf, t.buf, Entry(s.next, data), lim.maxMsgs, lim.maxBytes);
  }

  lemma CommitKeepsPlace<C>(s: Session<C>, data: bytes, lim: Limits)
    ensures var s' := Commit(s, data, lim); s' == s.(next := s'.next, buf := s'.buf, log := s'.log)
  {
  }

  lemma DeliverKeepsLighter<C>(s: Session<C>, t: Session<C>, n: nat, data: bytes, pol: Policy, room: Enqueued,
                                     lim: Limits)
    requires Lighter(s, t, n, lim)
    ensures Lighter(Deliver(s, data, pol, room, lim).session, Deliver(t, data, pol, room, lim).session, n, lim)
  {
    hide Commit;
    CommitKeepsLighter(s, t, n, data, lim);
    CommitKeepsPlace(s, data, lim);
    CommitKeepsPlace(t, data, lim);
  }

  lemma AckKeepsLighter<C>(s: Session<C>, t: Session<C>, n: nat, m: nat, lim: Limits)
    requires Lighter(s, t, n, lim) && m <= n
    ensures Lighter(Ack(s, m), t, n, lim)
  {
    AckKeepsValid(s, m, lim);
    AckedOnLogSuffix(s.buf, s.log, m);
  }

  lemma LighterSameVerdict<C>(s: Session<C>, t: Session<C>, req: Request, now: int, lim: Limits)
    requires Lighter(s, t, req.lastSeq, lim)
    ensures Judge(s, req, now, lim.ttl) == Judge(t, req, now, lim.ttl)
  {
  }

  lemma AttachKeepsLighter<C>(s: Session<C>, t: Session<C>, n: nat, c: C, at: nat, lim: Limits)
    requires Lighter(s, t, n, lim)
    ensures Lighter(Attach(s, c, at), Attach(t, c, at), n, lim)
  {
    AckKeepsValid(s, at, lim);
    AckKeepsValid(t, at, lim);
    AckedOnLogSuffix(s.buf, s.log, at);
    AckedOnLogSuffix(t.buf, t.log, at);
  }

  lemma HappenedKeepsLighter<C>(s: Session<C>, t: Session<C>, n: nat, h: Happening<C>, lim: Limits)
    requires Lighter(s, t, n, lim) && !h.Confirmed?
    ensures Lighter(Happened(s, h, lim), Happened(t, h, lim), n, lim)
  {
    hide Deliver, Attach;
    match h
    case Sent(data, pol, room) => DeliverKeepsLighter(s, t, n, data, pol, room, lim);
    case Lost(when) =>
    case Resumed(c, at) => AttachKeepsLighter(s, t, n, c, at, lim);
  }

  lemma {:induction false} LivedKeepsLighter<C>(s: Session<C>, t: Session<C>, hs: seq<Happening<C>>, n: nat,
                                                lim: Limits)
    requires Lighter(s, t, n, lim)
    requires forall i :: 0 <= i < |hs| && hs[i].Confirmed? ==> hs[i].n <= n
    ensures Lighter(Lived(s, hs, lim), Lived(t, Unconfirmed(hs), lim), n, lim)
    decreases |hs|
  {
    hide Happened, Lighter;
    if hs != [] {
      var rest := hs[1..];
      if hs[0].Confirmed? {
        assert Happened(s, hs[0], lim) == Ack(s, hs[0].n) by { HappenedAck(s, hs[0].n, lim); }
        AckKeepsLighter(s, t, n, hs[0].n, lim);
        LivedKeepsLighter(Ack(s, hs[0].n), t, rest, n, lim);
        assert Unconfirmed(hs) == Unconfirmed(rest);
      } else {
        HappenedKeepsLighter(s, t, n, hs[0], lim);
        LivedKeepsLighter(Happened(s, hs[0], lim), Happened(t, hs[0], lim), rest, n, lim);
        assert Unconfirmed(hs)[0] == hs[0] && Unconfirmed(hs)[1..] == Unconfirmed(rest);
      }
    }
  }

  lemma HappenedAck<C>(s: Session<C>, n: nat, lim: Limits)
    ensures Happened(s, Confirmed(n), lim) == Ack(s, n)
  {
  }

  /** Honest acknowledgements are free: as long as the peer only confirms frames it has handled, then
      however its acknowledgements interleave with deliveries, evictions, resets, losses and resumes, a
      request at its position gets the very verdict it would have got without them. */
  lemma HonestAcksAreFree<C>(s: Session<C>, hs: seq<Happening<C>>, req: Request, now: int, lim: Limits)
    requires Valid(s, lim)
    requires forall i :: 0 <= i < |hs| && hs[i].Confirmed? ==> hs[i].n <= req.lastSeq
    ensures var (a, b) := (Lived(s, hs, lim), Lived(s, Unconfirmed(hs), lim));
            Judge(a, req, now, lim.ttl) == Judge(b, req, now, lim.ttl) && a.log == b.log
  {
    LivedKeepsLighter(s, s, hs, req.lastSeq, lim);
    LighterSameVerdict(Lived(s, hs, lim), Lived(s, Unconfirmed(hs), lim), req, now, lim);
  }

  // -------------------------------------------------------------------------
  // How far back a session remembers

  /** The same session with as much of its log buffered as fits. */
  function Replete<C>(s: Session<C>, lim: Limits): Session<C> {
    s.(buf := Trim(Missing(s.log, 0), lim.maxMsgs, lim.maxBytes))
  }

  lemma RepleteIsValid<C>(s: Session<C>, lim: Limits)
    requires Valid(s, lim)
    ensures Valid(Replete(s, lim), lim)
  {
    hide Trim;
    TrimIsLongestFittingSuffix(Missing(s.log, 0), lim.maxMsgs, lim.maxBytes);
    SuffixOfLogSuffix(Trim(Missing(s.log, 0), lim.maxMsgs, lim.maxBytes), Missing(s.log, 0), s.log);
  }

  lemma CommitKeepsReplete<C>(s: Session<C>, data: bytes, lim: Limits)
    requires s.next == |s.log| + 1
    ensures Commit(Replete(s, lim), data, lim) == Replete(Commit(s, data, lim), lim)
  {
    hide Trim, Pushed;
    MissingNext(s.log, data);
    PushOntoLongest(Missing(s.log, 0), Entry(s.next, data), lim.maxMsgs, lim.maxBytes);
  }

  lemma DeliverKeepsReplete<C>(s: Session<C>, data: bytes, pol: Policy, room: Enqueued, lim: Limits)
    requires s.next == |s.log| + 1
    ensures Deliver(Replete(s, lim), data, pol, room, lim).session
            == Replete(Deliver(s, data, pol, room, lim).session, lim)
  {
    hide Trim, Commit;
    CommitKeepsReplete(s, data, lim);
    CommitKeepsPlace(s, data, lim);
    CommitKeepsPlace(Replete(s, lim), data, lim);
  }

  /** Whatever happens, a session forgets only what does not fit, or what its peer claims to have. */
  lemma HappenedForgets<C>(s: Session<C>, h: Happening<C>, n: nat, lim: Limits)
    requires Lighter(s, Replete(s, lim), n, lim) && Honest([h], n)
    ensures var s' := Happened(s, h, lim); Lighter(s', Replete(s', lim), n, lim)
  {
    hide Trim, Deliver, Ack;
    assert [h][0] == h;
    match h
    case Sent(data, pol, room) =>
      DeliverKeepsReplete(s, data, pol, room, lim);
      DeliverKeepsLighter(s, Replete(s, lim), n, data, pol, room, lim);
    case Confirmed(m) =>
      AckKeepsLighter(s, Replete(s, lim), n, m, lim);
      assert Replete(Ack(s, m), lim) == Replete(s, lim) by { AckKeepsReplete(s, m, lim); }
    case Lost(when) =>
    case Resumed(c, at) =>
      AckKeepsValid(s, at, lim);
      AckedOnLogSuffix(s.buf, s.log, at);
      RepleteIsValid(Attach(s, c, at), lim);
  }

  lemma AckKeepsReplete<C>(s: Session<C>, n: nat, lim: Limits)
    ensures Replete(Ack(s, n), lim) == Replete(s, lim)
  {
  }

  lemma {:induction false} LivedForgets<C>(s: Session<C>, hs: seq<Happening<C>>, n: nat, lim: Limits)
    requires Lighter(s, Replete(s, lim), n, lim) && Honest(hs, n)
    ensures var s' := Lived(s, hs, lim); Lighter(s', Replete(s', lim), n, lim)
    decreases |hs|
  {
    hide Happened, Lighter, Replete;
    if hs != [] {
      HappenedForgets(s, hs[0], n, lim);
      LivedForgets(Happened(s, hs[0], lim), hs[1..], n, lim);
    }
  }

  /** The replay window. Whatever has happened to a session since it was created, a resume at a position
      that its peer has reached, by its owner and in time, is granted if and only if the frames after that
      position fit both limits. */
  lemma ResumeGrantedIffWindowFits<C>(owner: string, c: C, hs: seq<Happening<C>>, req: Request, now: int, lim: Limits)
    requires Honest(hs, req.lastSeq)
    ensures var s := Lived(Fresh(owner, c), hs, lim);
            Judge(s, req, now, lim.ttl).Grant?
            <==> && !s.state.Closed? && s.owner == req.owner && InTime(s, now, lim)
                 && req.lastSeq <= |s.log| && Fits(Missing(s.log, req.lastSeq), lim.maxMsgs, lim.maxBytes)
  {
    hide Trim, Lived, Fits;
    var s0 := Fresh(owner, c);
    assert Fits([], lim.maxMsgs, lim.maxBytes) by { NothingFits(lim); }
    assert Missing(s0.log, 0) == [] && Replete(s0, lim) == s0 by { NothingToTrim(lim); }
    LivedForgets(s0, hs, req.lastSeq, lim);
    var s := Lived(s0, hs, lim);
    LighterSameVerdict(s, Replete(s, lim), req, now, lim);
    if req.lastSeq < |s.log| {
      LongestCoversIff(s.log, req.lastSeq, lim.maxMsgs, lim.maxBytes);
    } else if req.lastSeq == |s.log| {
      assert Missing(s.log, req.lastSeq) == [];
    }
  }

  lemma NothingFits(lim: Limits)
    ensures Fits([], lim.maxMsgs, lim.maxBytes)
  {
  }

  lemma NothingToTrim(lim: Limits)
    ensures Trim([], lim.maxMsgs, lim.maxBytes) == []
  {
  }

  /** A resumed session is attached to the new connection, has not stalled, and buffers exactly the frames
      after the position, which the peer has not confirmed. */
  lemma AttachMeans<C>(s: Session<C>, c: C, req: Request, now: int, lim: Limits)
    requires Valid(s, lim) && Judge(s, req, now, lim.ttl).Grant?
    ensures var s' := Attach(s, c, req.lastSeq);
            && s'.state.Attached? && s'.live == Some(c) && s'.member == c && !s'.stalled
            && s'.owner == s.owner && s'.log == s.log && s'.next == s.next && s'.dropped == s.dropped
            && req.lastSeq <= |s.log| && s'.buf == Missing(s.log, req.lastSeq)
  {
    GrantIff(s, req, now, lim);
    ReplayIsMissing(s.buf, s.log, req.lastSeq);
  }
}
