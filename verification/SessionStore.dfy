/** The registry of sessions: the map, the list of parked sessions and the operations under the store's
    lock (internal/session.go, `SessionStore`). Release callbacks run after the lock is dropped, so the
    operations return the sessions to release. */
module SessionStores {
  import opened Commons
  import opened Bytes
  import opened SessionSpec
  import opened Sessions
  import S = StoreSpec

  type Session = Sessions.Session

  class SessionStore {
    const lim: Limits
    const window: int
    var sessions: map<SessionId, Session>
    var parked: seq<Session>

    /** Every session ever created, and the store as a value, with its history of releases. */
    ghost var objects: map<SessionId, Session>
    ghost var model: S.Store<Client>

    /** `s` is the session created under its id. */
    ghost predicate Known(s: Session)
      reads this
    {
      s.id in objects && objects[s.id] == s
    }

    /** Every session is consistent and has a replay buffer of its own. */
    ghost predicate Sound()
      reads `objects, objects.Values, set x | x in objects.Values :: x.buf, set x | x in objects.Values :: x.keys
    {
      && ValidLimits(lim)
      && (forall id :: id in objects ==> objects[id].id == id && objects[id].lim == lim && objects[id].Valid())
      && (forall a, b :: a in objects && b in objects && a != b ==> objects[a].buf != objects[b].buf)
    }

    /** The map and the list refer to known sessions. */
    ghost predicate Listed()
      reads this
    {
      && (forall id :: id in sessions ==> sessions[id].id == id && Known(sessions[id]))
      && (forall x :: x in parked ==> Known(x))
    }

    ghost function Heap(): map<SessionId, SessionSpec.Session<Client>>
      requires Sound()
      reads `objects, objects.Values, set x | x in objects.Values :: x.buf, set x | x in objects.Values :: x.keys
    {
      map id | id in objects :: objects[id].Model()
    }

    ghost predicate Valid()
      reads this, objects.Values, set x | x in objects.Values :: x.buf, set x | x in objects.Values :: x.keys
    {
      && Sound() && Listed() && Callable(model)
      && model.heap == Heap() && model.stored == sessions.Keys && model.parked == Ids(parked)
    }

    lemma ListedIsCallable()
      requires Sound() && Listed()
      requires model.heap == Heap() && model.stored == sessions.Keys && model.parked == Ids(parked)
      ensures Callable(model)
    {
      forall i | 0 <= i < |parked|
        ensures Ids(parked)[i] in Heap()
      {
        assert parked[i] in parked;
      }
    }

    /** What a change to one session makes of the store. */
    twostate lemma OneChanged(s: Session)
      requires old(Sound()) && Known(s) && objects == old(objects)
      requires s.Valid()
      requires forall x :: x in objects.Values && x != s ==> unchanged(x) && unchanged(x.buf) && unchanged(x.keys)
      ensures Sound() && Heap() == old(Heap())[s.id := s.Model()]
    {
      hide Sessions.Session.Valid, Sessions.Session.Model;
      forall id | id in objects && id != s.id
        ensures objects[id].Valid() && objects[id].Model() == old(objects[id].Model())
      {
        Unmoved(objects[id]);
      }
    }

    /** What a new session makes of the store. */
    twostate lemma OneAdded(new s: Session)
      requires old(Sound()) && s.id !in old(objects) && objects == old(objects)[s.id := s]
      requires s.Valid() && s.lim == lim && fresh(s) && fresh(s.buf)
      requires forall x :: x in old(objects).Values ==> unchanged(x) && unchanged(x.buf) && unchanged(x.keys)
      ensures Sound() && Heap() == old(Heap())[s.id := s.Model()]
    {
      hide Sessions.Session.Valid, Sessions.Session.Model;
      forall id | id in old(objects)
        ensures objects[id] == old(objects[id]) && objects[id].buf != s.buf
        ensures objects[id].Valid() && objects[id].Model() == old(objects[id].Model())
      {
        Unmoved(old(objects)[id]);
      }
      assert Sound();
    }

    /** Zero or negative options fall back to the defaults. */
    constructor (replayMessages: int, replayBytes: int, ttl: int, maxParked: int, keyWindow: int)
      ensures Valid() && model == S.Empty() && forall now :: S.Inv(model, lim, now)
      ensures lim.maxMsgs == (if replayMessages > 0 then replayMessages else 256)
      ensures lim.maxBytes == (if replayBytes > 0 then replayBytes else 262144)
      ensures lim.ttl == (if ttl > 0 then ttl else 120_000_000_000)
      ensures lim.maxParked == (if maxParked > 0 then maxParked else 10000)
      ensures window == (if keyWindow > 0 then keyWindow else 1024)
    {
      var msgs, size, life, room, keys := replayMessages, replayBytes, ttl, maxParked, keyWindow;
      if msgs <= 0 {
        msgs := 256;
      }
      if size <= 0 {
        size := 262144;
      }
      if life <= 0 {
        life := 120_000_000_000;
      }
      if room <= 0 {
        room := 10000;
      }
      if keys <= 0 {
        keys := 1024;
      }
      lim := Limits(msgs, size, life, room);
      window := keys;
      sessions, parked, objects, model := map[], [], map[], S.Empty();
    }

    lemma KnownIsValid(s: Session)
      requires Sound() && Known(s)
      ensures s.Valid() && s.lim == lim && Heap().Keys == objects.Keys && Heap()[s.id] == s.Model()
      ensures forall x :: x in objects.Values && x != s ==> x.buf != s.buf
    {
    }

    /** A known session and its value. */
    lemma Lookup(s: Session)
      requires Valid() && Known(s)
      ensures s.Valid() && s in objects.Values && s.id in model.heap && model.heap[s.id] == s.Model()
      ensures var v := model.heap[s.id];
              v.state == s.state && v.live == ToOption(s.live) && v.member == s.member && v.parkedAt == s.parkedAt
    {
      KnownIsValid(s);
    }

    /** The map and the list as the specification sees them. */
    lemma Listing()
      requires Valid()
      ensures Callable(model) && model.stored == sessions.Keys && |model.parked| == |parked|
      ensures forall id :: id in sessions ==> sessions[id].id == id && Known(sessions[id])
      ensures forall x :: x in parked ==> x in objects.Values
      ensures parked != [] ==> parked[0] in parked && Known(parked[0]) && model.parked[0] == parked[0].id
    {
    }

    lemma OpenKeepsInv(c: Client, req: Request, newId: Option<SessionId>, now: int)
      requires Valid() && (newId.Some? ==> newId.value !in objects)
      ensures S.Inv(model, lim, now) ==> S.Inv(S.Open(model, c, req, newId, now, lim).store, lim, now)
    {
      if S.Inv(model, lim, now) {
        S.OpenKeepsInv(model, c, req, newId, now, lim);
      }
    }

    lemma LeaveKeepsInv(s: Session, c: Client, resumable: bool, now: int)
      requires Valid() && Known(s)
      ensures s.id in model.heap
      ensures S.Inv(model, lim, now) ==> S.Inv(S.Leave(model, s.id, c, resumable, now, lim).0, lim, now)
    {
      Lookup(s);
      if S.Inv(model, lim, now) {
        S.LeaveKeepsInv(model, s.id, c, resumable, now, lim);
      }
    }

    lemma SweepKeepsInv(now: int)
      requires Valid()
      ensures S.Inv(model, lim, now) ==> S.Inv(S.Sweep(model, now, lim.ttl), lim, now)
    {
      if S.Inv(model, lim, now) {
        S.SweepKeepsInv(model, now, lim);
      }
    }

    /** Takes a session out of the map and the list. */
    method RemoveLocked(s: Session)
      requires Listed() && Known(s)
      modifies `sessions, `parked
      ensures Listed()
      ensures sessions.Keys == old(sessions).Keys - {s.id} && Ids(parked) == S.Without(Ids(old(parked)), s.id)
      ensures forall x :: x in parked ==> x in old(parked)
      ensures s in old(parked) ==> |parked| < |old(parked)|
    {
      sessions := sessions - {s.id};
      Unpark(s);
    }

    /** Takes a session out of the list, if it is there. */
    method Unpark(s: Session)
      requires Listed() && Known(s)
      modifies `parked
      ensures Listed() && Ids(parked) == S.Without(Ids(old(parked)), s.id)
      ensures forall x :: x in parked ==> x in old(parked)
      ensures s in old(parked) ==> |parked| < |old(parked)|
    {
      RemovedIds(parked, s);
      parked := Removed(parked, s);
    }

    /** Closes a session and takes it out of the store; the caller releases it. */
    method Discard(s: Session, ghost why: S.ReleaseReason)
      requires Valid() && Known(s)
      modifies `sessions, `parked, `model, s`state
      ensures Valid() && model == S.Discard(old(model), s.id, why)
      ensures forall x :: x in parked ==> x in old(parked)
      ensures s in old(parked) ==> |parked| < |old(parked)|
    {
      hide Sessions.Session.Valid, Sessions.Session.Model, Ids, Sound, Heap, Callable, S.Without;
      KnownIsValid(s);
      s.Close();
      RemoveLocked(s);
      model := S.Discard(model, s.id, why);
      OneChanged(s);
      ListedIsCallable();
    }

    /** Rebinds a stored session to `c` and primes its pre-queue; returns the previous member and the
        connection that has been displaced. */
    method AttachLocked(s: Session, c: Client, lastSeq: nat) returns (prev: Client, displaced: Client?)
      requires Valid() && Known(s)
      modifies `parked, `model, s, s.buf, c`session, c`replay
      ensures Valid() && model == S.Resume(old(model), s.id, c, lastSeq)
      ensures c.session == s && c.replay == Replay(s.id, old(s.Model()), lastSeq)
      ensures prev == old(s.member)
      ensures displaced == if old(s.live) != c then old(s.live) else null
    {
      hide Sessions.Session.Valid, Sessions.Session.Model, Ids, Replay, Sound, Heap, Callable, Attach, S.Without;
      KnownIsValid(s);
      prev, displaced := s.AttachTo(c, lastSeq);
      Unpark(s);
      model := S.Resume(model, s.id, c, lastSeq);
      OneChanged(s);
      ListedIsCallable();
    }

    method Enter(s: Session)
      requires Listed() && s.id !in objects
      modifies `objects, `sessions
      ensures Listed() && objects == old(objects)[s.id := s] && sessions == old(sessions)[s.id := s]
    {
      assert (forall x :: x in parked ==> x.id != s.id) && (forall x :: x in sessions ==> sessions[x].id != s.id);
      sessions := sessions[s.id := s];
      objects := objects[s.id := s];
    }

    /** A brand-new session for `c`, with the control frame that says so. */
    method Create(id: SessionId, owner: string, c: Client, reason: Option<Reason>) returns (s: Session)
      requires Valid() && id !in objects
      modifies `objects, `sessions, `model, c`session, c`replay
      ensures Valid() && Known(s) && s.id == id && fresh(s) && model == S.Create(old(model), id, owner, c)
      ensures c.session == s && c.replay == [Hello(id, false, 0, 0, reason)]
    {
      hide Sessions.Session.Valid, Sessions.Session.Model, Ids, Sound, Heap, Callable;
      s := new Sessions.Session(id, owner, c, lim, window);
      Enter(s);
      c.session := s;
      c.replay := [Hello(id, false, 0, 0, reason)];
      model := S.Create(model, id, owner, c);
      OneAdded(s);
      ListedIsCallable();
    }

    /** Resumes the requested session if that is possible; otherwise gives the reason, and discards the
        session if it is of no use to its peer. */
    method TryResume(c: Client, req: Request, now: int)
      returns (session: Session?, prev: Client?, displaced: Client?, reason: Option<Reason>, victim: Session?)
      requires Valid() && Callable(model)
      modifies `sessions, `parked, `model, objects.Values, set x | x in objects.Values :: x.buf
      modifies c`session, c`replay
      ensures Valid()
      ensures match S.Decide(old(model), req, now, lim)
              case ResumeOf(id) =>
                && session != null && Known(session) && session.id == id && reason == None && victim == null
                && id in old(model).heap && old(model).heap[id].next > 0
                && var s := old(model).heap[id];
                   && model == S.Resume(old(model), id, c, req.lastSeq)
                   && c.session == session && c.replay == Replay(id, s, req.lastSeq)
                   && ToOption(prev) == Some(s.member)
                   && ToOption(displaced) == if s.live != None && s.live != Some(c) then s.live else None
              case NewSession(why, v) =>
                && session == null && prev == null && displaced == null && reason == why && IdOf(victim) == v
                && (v.Some? ==> v.value in old(model).heap)
                && model == (if v.Some? then S.Discard(old(model), v.value, S.ByReplacement) else old(model))
                && c.session == old(c.session) && c.replay == old(c.replay)
    {
      hide Valid, Sessions.Session.Valid, Sessions.Session.Model, Replay, Judge, S.Discard, S.Resume;
      Listing();
      session, prev, displaced, reason, victim := null, null, null, None, null;
      if req.invalid {
        reason := Some(BadRequest);
      } else if req.requested {
        if req.id !in sessions {
          reason := Some(UnknownSession);
        } else {
          var s := sessions[req.id];
          Lookup(s);
          var v := s.Verdict(req, now, lim.ttl);
          match v
          case Grant =>
            prev, displaced := AttachLocked(s, c, req.lastSeq);
            session := s;
          case Refuse(why, kill) =>
            reason := Some(why);
            if kill {
              Discard(s, S.ByReplacement);
              victim := s;
            }
        }
      }
    }

    /** Answers a connection's request: the session it asked for, another one, or, when no id could be drawn,
        none. */
    method Open(c: Client, req: Request, newId: Option<SessionId>, now: int)
      returns (session: Session?, resumed: bool, reason: Option<Reason>, prev: Client?, displaced: Client?,
               victim: Session?)
      requires Valid() && (newId.Some? ==> newId.value !in objects)
      modifies this, objects.Values, set x | x in objects.Values :: x.buf
      modifies c`session, c`replay
      ensures Valid()
      ensures var o := S.Open(old(model), c, req, newId, now, lim);
              && model == o.store && resumed == o.resumed && reason == o.reason
              && ToOption(prev) == o.prev && ToOption(displaced) == o.displaced
              && IdOf(session) == o.session && IdOf(victim) == o.victim
              && (session != null ==> Known(session) && c.session == session && c.replay == o.replay)
              && (session == null ==> c.session == old(c.session) && c.replay == old(c.replay))
      ensures S.Inv(old(model), lim, now) ==> S.Inv(model, lim, now)
    {
      hide Valid, Sessions.Session.Model, Replay, Judge, S.Inv, S.Discard, S.Resume, S.Create;
      Listing();
      OpenKeepsInv(c, req, newId, now);
      session, prev, displaced, reason, victim := TryResume(c, req, now);
      resumed := session != null;
      if session == null && newId.Some? {
        session := Create(newId.value, req.owner, c, reason);
      }
    }

    /** Deliveries and acknowledgements bypass the store's lock; this is what they make of the store. */
    method DeliverThrough(s: Session, data: bytes, pol: Policy) returns (ok: bool)
      requires Valid() && Known(s)
      modifies `model, s, s.buf
      modifies (if s.live == null then {} else {s.live})`send, (if s.live == null then {} else {s.live})`dropped
      ensures Valid()
      ensures var d := Deliver(old(model).heap[s.id], data, pol, old(s.LiveRoom()), lim);
              ok == d.ok && model == old(model).(heap := old(model).heap[s.id := d.session])
      ensures forall now :: S.Inv(old(model), lim, now) ==> S.Inv(model, lim, now)
    {
      hide Sessions.Session.Valid, Sessions.Session.Model, Ids, Sound, Heap, Callable, Deliver, S.Inv;
      KnownIsValid(s);
      forall now | S.Inv(model, lim, now)
        ensures var d := Deliver(model.heap[s.id], data, pol, s.LiveRoom(), lim);
                S.Inv(model.(heap := model.heap[s.id := d.session]), lim, now)
      {
        S.DeliveryKeepsInv(model, s.id, data, pol, s.LiveRoom(), lim, now);
      }
      ok := s.DeliverFrame(data, pol);
      model := model.(heap := model.heap[s.id := s.Model()]);
      OneChanged(s);
      ListedIsCallable();
    }

    method AckThrough(s: Session, n: nat)
      requires Valid() && Known(s)
      modifies `model, s.buf
      ensures Valid() && model == old(model).(heap := old(model).heap[s.id := Ack(old(model).heap[s.id], n)])
      ensures forall now :: S.Inv(old(model), lim, now) ==> S.Inv(model, lim, now)
    {
      hide Sessions.Session.Valid, Sessions.Session.Model, Ids, Sound, Heap, Callable, Ack, S.Inv;
      KnownIsValid(s);
      forall now | S.Inv(model, lim, now)
        ensures S.Inv(model.(heap := model.heap[s.id := Ack(model.heap[s.id], n)]), lim, now)
      {
        S.AckKeepsInv(model, s.id, n, lim, now);
      }
      s.AckTo(n);
      model := model.(heap := model.heap[s.id := s.Model()]);
      OneChanged(s);
      ListedIsCallable();
    }

    /** Ends `c`'s hold on the session; a parked session may push out the longest parked one. */
    method Leave(s: Session, c: Client, resumable: bool, now: int)
      returns (r: S.LeaveResult, evicted: seq<Session>)
      requires Valid() && Known(s)
      modifies this, objects.Values, c`parked
      ensures Valid()
      ensures (model, r) == S.Leave(old(model), s.id, c, resumable, now, lim)
      ensures model.released == old(model).released + Releases(evicted, S.ByEviction)
      ensures c.parked == (old(c.parked) || r.LeftParked?)
      ensures S.Inv(old(model), lim, now) ==> S.Inv(model, lim, now)
    {
      hide Valid, Sessions.Session.Valid, Sessions.Session.Model, S.Inv;
      evicted := [];
      Listing();
      Lookup(s);
      LeaveKeepsInv(s, c, resumable, now);
      if s.state == Closed {
        return S.Gone, evicted;
      }
      if s.live != c {
        return S.Displaced, evicted;
      }
      if !resumable {
        EndLocked(s);
        return S.Gone, evicted;
      }
      ParkLocked(s, c, now);
      evicted := EvictLongestParked();
      return S.LeftParked, evicted;
    }

    method EndLocked(s: Session)
      requires Valid() && Known(s)
      modifies `sessions, `parked, `model, s
      ensures Valid() && model == S.Terminate(old(model), s.id)
    {
      hide Sessions.Session.Valid, Sessions.Session.Model, Ids, Sound, Heap, Callable, S.Without;
      KnownIsValid(s);
      s.End();
      RemoveLocked(s);
      model := S.Terminate(model, s.id);
      OneChanged(s);
      ListedIsCallable();
    }

    method ParkLocked(s: Session, c: Client, now: int)
      requires Valid() && Known(s)
      modifies `parked, `model, s, c`parked
      ensures Valid() && model == S.Park(old(model), s.id, now) && c.parked && objects == old(objects)
      ensures forall x :: x in parked ==> x in old(parked) || x == s
    {
      hide Sessions.Session.Valid, Sessions.Session.Model, Ids, Sound, Heap, Callable;
      KnownIsValid(s);
      s.ParkAt(now);
      c.parked := true;
      IdsAppend(parked, s);
      parked := parked + [s];
      model := S.Park(model, s.id, now);
      OneChanged(s);
      ListedIsCallable();
    }

    method EvictLongestParked() returns (evicted: seq<Session>)
      requires Valid()
      modifies `sessions, `parked, `model, set x | x in parked
      ensures Valid() && model == S.Evict(old(model), lim.maxParked)
      ensures model.released == old(model).released + Releases(evicted, S.ByEviction)
    {
      hide Valid, S.Evict, S.Discard;
      evicted := [];
      Listing();
      while |parked| > lim.maxParked
        invariant Valid() && Callable(model) && |model.parked| == |parked|
        invariant forall x :: x in parked ==> x in old(parked)
        invariant S.Evict(model, lim.maxParked) == S.Evict(old(model), lim.maxParked)
        invariant model.released == old(model).released + Releases(evicted, S.ByEviction)
        decreases |parked|
      {
        Listing();
        EvictStep(model, lim.maxParked);
        var v := parked[0];
        Discard(v, S.ByEviction);
        Listing();
        ReleasesAppend(evicted, v, S.ByEviction);
        evicted := evicted + [v];
      }
      EvictStep(model, lim.maxParked);
    }

    /** Walks the list from its front and ends at the first session that may still be resumed. */
    method Sweep(now: int) returns (expired: seq<Session>)
      requires Valid()
      modifies `sessions, `parked, `model, set x | x in parked
      ensures Valid()
      ensures model == S.Sweep(old(model), now, lim.ttl)
      ensures model.released == old(model).released + Releases(expired, S.ByExpiry)
      ensures S.Inv(old(model), lim, now) ==> S.Inv(model, lim, now)
    {
      hide Valid, Sessions.Session.Valid, Sessions.Session.Model, S.Sweep, S.Discard, S.Inv;
      expired := [];
      Listing();
      SweepKeepsInv(now);
      while |parked| > 0
        invariant Valid() && Callable(model) && |model.parked| == |parked|
        invariant forall x :: x in parked ==> x in old(parked)
        invariant S.Sweep(model, now, lim.ttl) == S.Sweep(old(model), now, lim.ttl)
        invariant model.released == old(model).released + Releases(expired, S.ByExpiry)
        decreases |parked|
      {
        var s := parked[0];
        Listing();
        Lookup(s);
        SweepStep(model, now, lim.ttl);
        if now - s.parkedAt <= lim.ttl {
          break;
        }
        Discard(s, S.ByExpiry);
        Listing();
        ReleasesAppend(expired, s, S.ByExpiry);
        expired := expired + [s];
      }
      SweepStep(model, now, lim.ttl);
    }
  }

  /** What the operations of the store's specification need. */
  ghost predicate Callable(st: S.Store<Client>) {
    && st.stored <= st.heap.Keys
    && (forall id :: id in st.heap ==> st.heap[id].next > 0)
    && (forall i :: 0 <= i < |st.parked| ==> st.parked[i] in st.heap)
  }

  lemma EvictStep(st: S.Store<Client>, maxParked: nat)
    requires Callable(st)
    ensures S.Evict(st, maxParked)
            == if |st.parked| > maxParked then S.Evict(S.Discard(st, st.parked[0], S.ByEviction), maxParked) else st
    ensures |st.parked| > 0 ==> S.Discard(st, st.parked[0], S.ByEviction).released
                                == st.released + [S.Release(st.parked[0], S.ByEviction)]
  {
  }

  lemma SweepStep(st: S.Store<Client>, now: int, ttl: int)
    requires Callable(st)
    ensures S.Sweep(st, now, ttl)
            == if st.parked == [] || now - st.heap[st.parked[0]].parkedAt <= ttl then st
               else S.Sweep(S.Discard(st, st.parked[0], S.ByExpiry), now, ttl)
    ensures |st.parked| > 0 ==> S.Discard(st, st.parked[0], S.ByExpiry).released
                                == st.released + [S.Release(st.parked[0], S.ByExpiry)]
  {
  }

  function IdOf(s: Session?): Option<SessionId> {
    if s == null then None else Some(s.id)
  }

  function Releases(ss: seq<Session>, why: S.ReleaseReason): (rs: seq<S.Release>)
    ensures |rs| == |ss| && forall i :: 0 <= i < |ss| ==> rs[i] == S.Release(ss[i].id, why)
  {
    seq(|ss|, i requires 0 <= i < |ss| => S.Release(ss[i].id, why))
  }

  lemma ReleasesAppend(ss: seq<Session>, s: Session, why: S.ReleaseReason)
    ensures Releases(ss + [s], why) == Releases(ss, why) + [S.Release(s.id, why)]
  {
  }

  lemma IdsAppend(ss: seq<Session>, s: Session)
    ensures Ids(ss + [s]) == Ids(ss) + [s.id]
  {
  }

  /** A session that nothing has been done to. */
  twostate lemma Unmoved(x: Session)
    requires unchanged(x) && unchanged(x.buf) && unchanged(x.keys) && old(x.Valid())
    ensures x.Valid() && x.Model() == old(x.Model())
  {
  }

  function Ids(ss: seq<Session>): (ids: seq<SessionId>)
    ensures |ids| == |ss| && forall i :: 0 <= i < |ss| ==> ids[i] == ss[i].id
  {
    seq(|ss|, i requires 0 <= i < |ss| => ss[i].id)
  }

  /** Removal of a list element. */
  function Removed(ss: seq<Session>, s: Session): (r: seq<Session>)
    ensures forall x :: x in r ==> x in ss
  {
    if ss == [] then [] else if ss[0] == s then ss[1..] else [ss[0]] + Removed(ss[1..], s)
  }

  lemma {:induction false} RemovedIds(ss: seq<Session>, s: Session)
    requires forall x :: x in ss && x.id == s.id ==> x == s
    ensures Ids(Removed(ss, s)) == S.Without(Ids(ss), s.id)
  {
    if ss != [] {
      assert Ids(ss)[1..] == Ids(ss[1..]);
      RemovedIds(ss[1..], s);
    }
  }
}
