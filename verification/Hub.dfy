/** Hub membership: registered clients and room members, as a value and as the maps that the hub
    goroutine updates in place (internal/hub.go). `C` is the type of client handles. */
module Hubs {
  import opened Commons
  import Sessions

  type Room = string
  type Client = Sessions.Client

  /** `created` records when each room received its first member. */
  datatype Hub<!C> = Hub(clients: set<C>, rooms: map<Room, set<C>>, created: map<Room, int>)

  /** A fan-out request: to every client, to one client, or to the members of a room. */
  datatype EmitJob<!C> = EmitJob(room: Room, exclude: Option<C>, only: Option<C>, allClients: bool)

  function NoClients<C>(): Hub<C> {
    Hub({}, map[], map[])
  }

  /** No room is empty, every room has a creation time and nothing else has one, and room members are
      registered clients. */
  ghost predicate Inv<C>(h: Hub<C>) {
    && h.rooms.Keys == h.created.Keys
    && (forall r :: r in h.rooms ==> h.rooms[r] != {} && h.rooms[r] <= h.clients)
  }

  function RoomsOf<C(==)>(h: Hub<C>, c: C): set<Room> {
    set r | r in h.rooms && c in h.rooms[r]
  }

  // -------------------------------------------------------------------------
  // Meaning of the operations

  function Register<C>(h: Hub<C>, c: C): Hub<C> {
    h.(clients := h.clients + {c})
  }

  function Join<C>(h: Hub<C>, c: C, r: Room, now: int): Hub<C> {
    if r in h.rooms then h.(rooms := h.rooms[r := h.rooms[r] + {c}])
    else h.(rooms := h.rooms[r := {c}], created := h.created[r := now])
  }

  function LeaveRoom<C>(h: Hub<C>, c: C, r: Room): Hub<C> {
    if r !in h.rooms then h
    else if h.rooms[r] - {c} == {} then h.(rooms := h.rooms - {r}, created := h.created - {r})
    else h.(rooms := h.rooms[r := h.rooms[r] - {c}])
  }

  function Moved<C>(m: set<C>, from: C, to: C): set<C> {
    if from in m then m - {from} + {to} else m
  }

  /** The resuming client takes the place of the session's previous client in every room. */
  function Transfer<C>(h: Hub<C>, from: C, to: C): Hub<C> {
    h.(clients := h.clients - {from}, rooms := map r | r in h.rooms :: Moved(h.rooms[r], from, to))
  }

  predicate EmptyWithout<C>(m: set<C>, c: C) {
    m - {c} == {}
  }

  function EmptiedRooms<C>(rooms: map<Room, set<C>>, c: C): set<Room> {
    set r | r in rooms && EmptyWithout(rooms[r], c)
  }

  function Unregister<C>(h: Hub<C>, c: C): Hub<C> {
    var emptied := EmptiedRooms(h.rooms, c);
    h.(clients := h.clients - {c},
       rooms := map r | r in h.rooms && r !in emptied :: h.rooms[r] - {c},
       created := h.created - emptied)
  }

  function Targets<C>(h: Hub<C>, job: EmitJob<C>): set<C> {
    var excluded := if job.exclude.Some? then {job.exclude.value} else {};
    if job.allClients then h.clients - excluded
    else if job.only.Some? then h.clients * {job.only.value}
    else if job.room in h.rooms then h.rooms[job.room] - excluded
    else {}
  }

  // -------------------------------------------------------------------------
  // Membership laws

  /** A join keeps room members registered exactly when the joining client is registered. */
  lemma JoinKeepsInvIff<C>(h: Hub<C>, c: C, r: Room, now: int)
    requires Inv(h)
    ensures Inv(Join(h, c, r, now)) <==> c in h.clients
    ensures RoomsOf(Join(h, c, r, now), c) == RoomsOf(h, c) + {r}
    ensures Join(h, c, r, now).created == if r in h.rooms then h.created else h.created[r := now]
    ensures Join(h, c, r, now).clients == h.clients
  {
    var h' := Join(h, c, r, now);
    assert r in h'.rooms && c in h'.rooms[r];
  }

  lemma LeaveRoomKeepsInv<C>(h: Hub<C>, c: C, r: Room)
    requires Inv(h)
    ensures Inv(LeaveRoom(h, c, r)) && LeaveRoom(h, c, r).clients == h.clients
    ensures forall x :: x in LeaveRoom(h, c, r).created ==>
              x in h.created && LeaveRoom(h, c, r).created[x] == h.created[x]
    ensures RoomsOf(LeaveRoom(h, c, r), c) == RoomsOf(h, c) - {r}
  {
  }

  /** A transfer empties no room: the new client ends up in the rooms of both. */
  lemma TransferMovesRooms<C>(h: Hub<C>, from: C, to: C)
    requires Inv(h) && from != to && to in h.clients
    ensures var h' := Transfer(h, from, to);
            && Inv(h') && h'.created == h.created && h'.clients == h.clients - {from}
            && RoomsOf(h', to) == RoomsOf(h, from) + RoomsOf(h, to)
            && RoomsOf(h', from) == {}
  {
    var h' := Transfer(h, from, to);
    assert h'.rooms.Keys == h.rooms.Keys;
    assert forall r :: r in h.rooms && from in h.rooms[r] ==> to in h'.rooms[r];
  }

  lemma UnregisterKeepsInv<C>(h: Hub<C>, c: C)
    requires Inv(h)
    ensures Inv(Unregister(h, c)) && RoomsOf(Unregister(h, c), c) == {}
    ensures Unregister(h, c).clients == h.clients - {c}
    ensures forall x :: x in Unregister(h, c).created ==>
              x in h.created && Unregister(h, c).created[x] == h.created[x]
  {
  }

  /** Nobody else's rooms change when `c` joins, leaves or is removed. */
  lemma OthersKeepRooms<C>(h: Hub<C>, c: C, other: C, r: Room, now: int)
    requires c != other
    ensures RoomsOf(Join(h, c, r, now), other) == RoomsOf(h, other)
    ensures RoomsOf(LeaveRoom(h, c, r), other) == RoomsOf(h, other)
    ensures RoomsOf(Unregister(h, c), other) == RoomsOf(h, other)
  {
    assert forall x :: x in h.rooms && other in h.rooms[x] ==> other in h.rooms[x] - {c};
  }

  lemma TransferKeepsOtherRooms<C>(h: Hub<C>, from: C, to: C, other: C)
    requires other != from && other != to
    ensures RoomsOf(Transfer(h, from, to), other) == RoomsOf(h, other)
  {
    var h' := Transfer(h, from, to);
    assert forall r :: r in h.rooms ==> (other in h'.rooms[r] <==> other in h.rooms[r]);
  }

  /** The handover has to be one step. When two successive resumes of one session hand over in the
      wrong order, the rooms of the first client end up with a client that is gone: the transfer from
      `b` to `c` finds nothing, and the later one from `a` leaves the rooms with `b`. */
  lemma ReorderedHandoversLoseRooms<C>(h: Hub<C>, a: C, b: C, c: C)
    requires a != b && b != c && a != c
    requires RoomsOf(h, b) == {} && RoomsOf(h, c) == {}
    ensures RoomsOf(Transfer(Transfer(h, a, b), b, c), c) == RoomsOf(h, a)
    ensures RoomsOf(Transfer(Transfer(h, b, c), a, b), c) == {}
    ensures RoomsOf(Transfer(Transfer(h, b, c), a, b), b) == RoomsOf(h, a)
  {
    forall r | r in h.rooms
      ensures b !in h.rooms[r] && c !in h.rooms[r]
    {
      assert r !in RoomsOf(h, b) && r !in RoomsOf(h, c);
    }
    var good := Transfer(Transfer(h, a, b), b, c);
    var bad := Transfer(Transfer(h, b, c), a, b);
    assert forall r :: r in h.rooms ==> (c in good.rooms[r] <==> a in h.rooms[r]);
    assert forall r :: r in h.rooms ==> (b in bad.rooms[r] <==> a in h.rooms[r]);
    assert forall r :: r in h.rooms ==> c !in bad.rooms[r];
  }

  /** The loop in `removeClientMaps` with the rooms in `todo` still to be visited. */
  function PartlyRemoved<C>(h: Hub<C>, c: C, todo: set<Room>): Hub<C> {
    var emptied := EmptiedRooms(h.rooms, c) - todo;
    h.(clients := h.clients - {c},
       rooms := map r | r in h.rooms && r !in emptied :: if r in todo then h.rooms[r] else h.rooms[r] - {c},
       created := h.created - emptied)
  }

  lemma RemoveFromOneRoom<C>(h: Hub<C>, c: C, todo: set<Room>, r: Room)
    requires r in todo && r in h.rooms
    ensures LeaveRoom(PartlyRemoved(h, c, todo), c, r) == PartlyRemoved(h, c, todo - {r})
  {
    var h1, h2 := LeaveRoom(PartlyRemoved(h, c, todo), c, r), PartlyRemoved(h, c, todo - {r});
    var emptied := EmptiedRooms(h.rooms, c);
    if EmptyWithout(h.rooms[r], c) {
      assert emptied - (todo - {r}) == (emptied - todo) + {r};
    } else {
      assert emptied - (todo - {r}) == emptied - todo;
    }
    assert h1.rooms == h2.rooms;
  }

  lemma RemovalStartsAndEnds<C>(h: Hub<C>, c: C)
    ensures PartlyRemoved(h, c, h.rooms.Keys) == h.(clients := h.clients - {c})
    ensures PartlyRemoved(h, c, {}) == Unregister(h, c)
  {
    assert EmptiedRooms(h.rooms, c) - h.rooms.Keys == {};
    assert PartlyRemoved(h, c, h.rooms.Keys).rooms == h.rooms;
    assert EmptiedRooms(h.rooms, c) - {} == EmptiedRooms(h.rooms, c);
    assert PartlyRemoved(h, c, {}).rooms == Unregister(h, c).rooms;
  }

  // -------------------------------------------------------------------------
  // The maps

  class Registry {
    var clients: set<Client>
    var rooms: map<Room, set<Client>>
    var created: map<Room, int>

    ghost function Model(): Hub<Client>
      reads this
    {
      Hub(clients, rooms, created)
    }

    constructor ()
      ensures Model() == NoClients()
    {
      clients, rooms, created := {}, map[], map[];
    }

    method RegisterClient(c: Client)
      modifies this
      ensures Model() == Register(old(Model()), c)
    {
      clients := clients + {c};
    }

    method JoinRoom(c: Client, room: Room, now: int)
      modifies this
      ensures Model() == Join(old(Model()), c, room, now)
    {
      if room !in rooms {
        rooms := rooms[room := {}];
        created := created[room := now];
        assert rooms[room] + {c} == {c};
      }
      rooms := rooms[room := rooms[room] + {c}];
      assert rooms == Join(old(Model()), c, room, now).rooms;
    }

    method LeaveRoomOf(c: Client, room: Room)
      modifies this
      ensures Model() == LeaveRoom(old(Model()), c, room)
    {
      if room in rooms {
        rooms := rooms[room := rooms[room] - {c}];
        if |rooms[room]| == 0 {
          rooms := rooms - {room};
          created := created - {room};
        }
      }
    }

    method TransferMembership(from: Client, to: Client)
      modifies this
      ensures Model() == Transfer(old(Model()), from, to)
    {
      clients := clients - {from};
      var todo := rooms.Keys;
      while todo != {}
        invariant clients == old(clients) - {from} && created == old(created)
        invariant rooms.Keys == old(rooms).Keys && todo <= rooms.Keys
        invariant forall r :: r in rooms ==>
                    rooms[r] == if r in todo then old(rooms)[r] else Moved(old(rooms)[r], from, to)
        decreases |todo|
      {
        var r :| r in todo;
        if from in rooms[r] {
          rooms := rooms[r := rooms[r] - {from} + {to}];
        }
        todo := todo - {r};
      }
    }

    method RemoveClientMaps(c: Client)
      modifies this
      ensures Model() == Unregister(old(Model()), c)
    {
      ghost var before := Model();
      RemovalStartsAndEnds(before, c);
      clients := clients - {c};
      var todo := rooms.Keys;
      while todo != {}
        invariant todo <= before.rooms.Keys
        invariant Model() == PartlyRemoved(before, c, todo)
        decreases |todo|
      {
        var r :| r in todo;
        RemoveFromOneRoom(before, c, todo, r);
        LeaveRoomOf(c, r);
        todo := todo - {r};
      }
    }

    /** The targets of a job, each once, in whatever order the map is walked. */
    method CollectTargets(job: EmitJob<Client>) returns (out: seq<Client>)
      ensures forall c :: c in out <==> c in Targets(Model(), job)
      ensures Distinct(out)
    {
      if job.allClients {
        out := Enumerate(clients, job.exclude);
      } else if job.only.Some? {
        out := if job.only.value in clients then [job.only.value] else [];
      } else if job.room in rooms {
        out := Enumerate(rooms[job.room], job.exclude);
      } else {
        out := [];
      }
    }

    /** The number of live members of a room; parked members are hidden. */
    method RoomSize(room: Room) returns (n: nat)
      ensures n == if room in rooms then |LiveOf(rooms[room])| else 0
    {
      n := 0;
      if room in rooms {
        var todo := rooms[room];
        ghost var seen: set<Client> := {};
        while todo != {}
          invariant seen !! todo && seen + todo == rooms[room]
          invariant n == |LiveOf(seen)|
          decreases |todo|
        {
          var c :| c in todo;
          assert LiveOf(seen + {c}) == if c.parked then LiveOf(seen) else LiveOf(seen) + {c};
          if !c.parked {
            n := n + 1;
          }
          seen := seen + {c};
          todo := todo - {c};
        }
        assert seen == rooms[room];
      }
    }
  }

  ghost function LiveOf(m: set<Client>): set<Client>
    reads m
  {
    set c | c in m && !c.parked
  }

  method Enumerate<C(==)>(m: set<C>, exclude: Option<C>) returns (out: seq<C>)
    ensures forall c :: c in out <==> c in m && Some(c) != exclude
    ensures Distinct(out)
  {
    out := [];
    var todo := m;
    while todo != {}
      invariant todo <= m
      invariant forall c :: c in out <==> c in m && c !in todo && Some(c) != exclude
      invariant Distinct(out)
      decreases |todo|
    {
      var c :| c in todo;
      if exclude != Some(c) {
        out := out + [c];
      }
      todo := todo - {c};
    }
  }
}
