/** Sessions and their connections as the source's objects: fields updated in place under the session's
    lock, each operation tied to the function that gives its meaning (internal/session.go,
    internal/client.go). */
module Sessions {
  import opened Commons
  import opened Bytes
  import opened Frames
  import opened ReplayBuffers
  import opened SessionSpec
  import K = KeyWindows

  function ToOption(c: Client?): Option<Client> {
    if c == null then None else Some(c)
  }

  class Client {
    const cap: nat
    var send: seq<Wire>
    var shut: bool
    var replay: seq<Wire>
    var out: seq<Wire>
    var session: Session?
    var parked: bool
    var noResume: bool
    var dropped: nat

    constructor (cap: nat)
      ensures this.cap == cap && send == [] && replay == [] && out == [] && session == null
      ensures !shut && !parked && !noResume && dropped == 0
    {
      this.cap := cap;
      send, replay, out, session := [], [], [], null;
      shut, parked, noResume, dropped := false, false, false, 0;
    }

    ghost function Room(): Enqueued
      reads this
    {
      RoomIn(shut, |send|, cap)
    }

    /** Queues a frame if there is room, without waiting; nothing is queued once the channel is closed. */
    method Enqueue(frame: Wire) returns (r: Enqueued)
      modifies `send
      ensures r == old(Room())
      ensures send == if r.Accepted? then old(send) + [frame] else old(send)
    {
      if shut {
        return Shut;
      }
      if |send| < cap {
        send := send + [frame];
        return Accepted;
      }
      return Full;
    }

    /** The state of this connection's queue after a delivery addressed to it. */
    twostate predicate Received(queued: Option<Wire>, drop: bool)
      reads this
    {
      && send == (if queued.Some? then old(send) + [queued.value] else old(send))
      && dropped == old(dropped) + (if drop then 1 else 0)
    }

    method TrySendPolicy(data: bytes, pol: Policy) returns (ok: bool)
      requires session != null ==> session.Valid()
      modifies `send, `dropped, session, if session == null then {} else {session.buf}
      modifies (if session == null || session.live == null then {} else {session.live})`send
      modifies (if session == null || session.live == null then {} else {session.live})`dropped
      ensures session == old(session)
      ensures session != null ==>
                && session.Valid()
                && var d := Deliver(old(session.Model()), data, pol, old(session.LiveRoom()), session.lim);
                   && session.Model() == d.session && ok == d.ok
                   && (session.live != null ==> session.live.Received(d.queued, d.clientDrop))
                   && (session.live != this ==> Received(None, false))
      ensures session == null ==>
                && ok == (old(Room()).Accepted? || (old(Room()).Full? && !pol.Disconnect?))
                && Received(if old(Room()).Accepted? then Some(Event(data)) else None,
                            old(Room()).Full? && !pol.Disconnect?)
    {
      if session != null {
        ok := session.DeliverFrame(data, pol);
        return;
      }
      var r := Enqueue(Event(data));
      match r
      case Accepted => return true;
      case Full =>
        if pol.Disconnect? {
          return false;
        }
        dropped := dropped + 1;
        return true;
      case Shut => return false;
    }

    /** Closes the transport and the queue; a terminal close forbids resuming. */
    method Shutdown(terminal: bool)
      modifies `shut, `noResume
      ensures shut && noResume == (old(noResume) || terminal)
    {
      if terminal {
        noResume := true;
      }
      shut := true;
    }

    /** One write of the pump: the pre-queue first, then the queue, so the peer's stream is fixed. */
    method PumpOnce()
      modifies `out, `replay, `send
      ensures out + replay + send == old(out + replay + send)
      ensures |out| == |old(out)| + (if |old(replay + send)| > 0 then 1 else 0)
      ensures |replay| == if |old(replay)| > 0 then |old(replay)| - 1 else 0
    {
      if |replay| > 0 {
        assert out + replay == (out + [replay[0]]) + replay[1..];
        out, replay := out + [replay[0]], replay[1..];
      } else if |send| > 0 {
        assert out + replay + send == (out + [send[0]]) + replay + send[1..];
        out, send := out + [send[0]], send[1..];
      }
    }
  }

  class Session {
    const id: SessionId
    const owner: string
    const buf: ReplayBuffer
    const keys: K.KeyWindow
    ghost const lim: Limits
    var state: State
    var next: nat
    var live: Client?
    var member: Client
    var stalled: bool
    var parkedAt: int
    var dropped: nat
    ghost var log: seq<bytes>

    ghost predicate Valid()
      reads this, buf, keys
    {
      && buf.Valid() && buf.maxMsgs == lim.maxMsgs && buf.maxBytes == lim.maxBytes
      && keys.Valid()
      && next == |log| + 1
    }

    ghost function Model(): SessionSpec.Session<Client>
      requires Valid()
      reads this, buf, keys
    {
      SessionSpec.Session(owner, state, next, buf.Live(), ToOption(live), member, stalled, parkedAt, dropped, log)
    }

    /** The outcome a send on the live connection's queue would have. */
    ghost function LiveRoom(): Enqueued
      reads this, live
    {
      if live == null then Shut else live.Room()
    }

    constructor (id: SessionId, owner: string, c: Client, lim: Limits, window: int)
      ensures Valid() && fresh(buf) && fresh(keys) && this.id == id && this.lim == lim
      ensures keys.max == window && keys.claims == []
      ensures Model() == Fresh(owner, c)
    {
      this.id, this.owner, this.lim := id, owner, lim;
      buf := new ReplayBuffer(lim.maxMsgs, lim.maxBytes);
      keys := new K.KeyWindow(window);
      state, next, live, member, stalled := Attached, 1, c, c, false;
      parkedAt, dropped, log := 0, 0, [];
    }

    method Commit(data: bytes)
      requires Valid()
      modifies `next, `log, buf
      ensures Valid()
      ensures Model() == SessionSpec.Commit(old(Model()), data, lim)
    {
      var num := next;
      next := num + 1;
      log := log + [data];
      buf.Push(num, data);
    }

    /** The single outbound path of a session: numbering and queueing happen together, so the order of
        numbers is the order on the wire. */
    method DeliverFrame(data: bytes, pol: Policy) returns (ok: bool)
      requires Valid()
      modifies `next, `log, `stalled, `dropped, buf
      modifies (if live == null then {} else {live})`send, (if live == null then {} else {live})`dropped
      ensures Valid()
      ensures var d := Deliver(old(Model()), data, pol, old(LiveRoom()), lim);
              && Model() == d.session && ok == d.ok
              && (live != null ==> live.Received(d.queued, d.clientDrop))
    {
      hide K.KeyWindow.Valid, ReplayBuffer.Valid, SessionSpec.Commit, Stamp;
      if state == Closed {
        return true;
      }
      var offline := live == null || stalled;
      if pol == Volatile {
        if offline {
          dropped := dropped + 1;
          return true;
        }
        var r := live.Enqueue(Event(data));
        if r != Accepted {
          live.dropped := live.dropped + 1;
        }
        return true;
      }
      if offline {
        Commit(data);
        return true;
      }
      var r := live.Enqueue(Event(Stamp(data, next)));
      match r
      case Accepted =>
        Commit(data);
        return true;
      case Shut =>
        Commit(data);
        stalled := true;
        return true;
      case Full =>
        if pol == SessionSpec.Drop {
          live.dropped := live.dropped + 1;
          return true;
        }
        Commit(data);
        stalled := true;
        return false;
    }

    method AckTo(n: nat)
      requires Valid()
      modifies buf
      ensures Valid() && Model() == Ack(old(Model()), n)
    {
      if n < next {
        buf.AckUpTo(n);
      }
    }

    /** Records an idempotency key (after hashing a long one); false when it is still in the window. */
    method ClaimKey(key: K.Key) returns (granted: bool)
      requires Valid()
      modifies keys
      ensures Valid() && Model() == old(Model()) && keys.claims == old(keys.claims) + [key]
      ensures granted == (key !in K.Window(old(keys.accepted), keys.max))
    {
      granted := keys.Claim(key);
    }

    method Verdict(req: Request, now: int, ttl: int) returns (v: SessionSpec.Verdict)
      requires Valid()
      ensures v == Judge(Model(), req, now, ttl)
    {
      if state == Closed {
        return Refuse(UnknownSession, false);
      }
      if owner != req.owner {
        return Refuse(OwnerMismatch, false);
      }
      if state == Parked && now - parkedAt > ttl {
        return Refuse(Expired, true);
      }
      if req.lastSeq >= next {
        return Refuse(BadSeq, true);
      }
      if req.lastSeq < next - 1 {
        var covered := buf.CoversAfter(req.lastSeq);
        if !covered {
          return Refuse(GapExceeded, true);
        }
      }
      return Grant;
    }

    /** The session is unusable from now on; `live` stays as it is. */
    method Close()
      requires Valid()
      modifies `state
      ensures Valid() && Model() == old(Model()).(state := Closed)
    {
      state := Closed;
    }

    /** A terminal leave. */
    method End()
      requires Valid()
      modifies `state, `live
      ensures Valid() && Model() == old(Model()).(state := Closed, live := None)
    {
      state := Closed;
      live := null;
    }

    /** A resumable leave: from now on frames are only buffered. */
    method ParkAt(now: int)
      requires Valid()
      modifies `live, `stalled, `state, `parkedAt
      ensures Valid()
      ensures Model() == old(Model()).(live := None, stalled := false, state := Parked, parkedAt := now)
    {
      live := null;
      stalled := false;
      state := Parked;
      parkedAt := now;
    }

    /** The control frame of a resumed session and the frames to replay, as they look on the wire. */
    method Frames(entries: seq<Entry>) returns (frames: seq<Wire>)
      requires next > 0
      ensures frames == [Hello(id, true, |entries|, next - 1, None)] + Stamped(entries)
    {
      hide Stamp;
      frames := [Hello(id, true, |entries|, next - 1, None)];
      ghost var hello := frames;
      var i := 0;
      while i < |entries|
        invariant 0 <= i <= |entries|
        invariant frames == hello + Stamped(entries[..i])
      {
        frames := frames + [Event(Stamp(entries[i].data, entries[i].num))];
        i := i + 1;
        assert Stamped(entries[..i])
            == Stamped(entries[..i - 1]) + [Event(Stamp(entries[i - 1].data, entries[i - 1].num))];
      }
      assert entries[..i] == entries;
    }

    /** Rebinds the session to `c` and primes the connection's pre-queue. */
    method AttachTo(c: Client, lastSeq: nat) returns (prev: Client, displaced: Client?)
      requires Valid()
      modifies `live, `member, `state, `stalled, buf, c`session, c`replay
      ensures Valid() && Model() == Attach(old(Model()), c, lastSeq)
      ensures c.session == this && c.replay == Replay(id, old(Model()), lastSeq)
      ensures prev == old(member)
      ensures displaced == if old(live) != c then old(live) else null
    {
      hide K.KeyWindow.Valid, ReplayBuffer.Valid, Stamped;
      buf.AckUpTo(lastSeq);
      var entries := buf.EntriesAfter(lastSeq);
      var frames := Frames(entries);
      prev := member;
      displaced := if live != c then live else null;
      live, member := c, c;
      state := Attached;
      stalled := false;
      c.session := this;
      c.replay := frames;
    }
  }
}
