/**
 * The active-room registry of the current key format (src/util/emitUtils.js):
 * for each namespace, the set of room ids that have at least one
 * authenticated member, kept beside the transport's table of connected sockets.
 */
module Registry {

  /** A connected socket as the transport knows it: the room id it asked for
      in its handshake query, and whether it has joined that room. */
  datatype Sock = Sock(queryId: string, joined: bool)

  /** `Object.keys(socket.rooms)`: every socket is in the room named by its own
      id, and in its requested room once joined. */
  function RoomsOf(sid: string, s: Sock): set<string>
  {
    if s.joined then {sid, s.queryId} else {sid}
  }

  /** The disconnect handler's test: some connected socket is in the room. */
  predicate RoomIsActive(sockets: map<string, Sock>, room: string)
  {
    exists sid :: sid in sockets && room in RoomsOf(sid, sockets[sid])
  }

  /** Some connected socket has joined the room. */
  predicate HasMember(sockets: map<string, Sock>, room: string)
  {
    exists sid :: sid in sockets && sockets[sid].joined && sockets[sid].queryId == room
  }

  /** No socket id is also a room id asked for by a socket of the namespace. */
  predicate IdsDistinct(sockets: map<string, Sock>)
  {
    forall sid :: sid in sockets ==> sockets[sid].queryId !in sockets
  }

  /** Every registered room has a member. */
  predicate Sound(rooms: seq<string>, sockets: map<string, Sock>)
  {
    forall r :: r in rooms ==> HasMember(sockets, r)
  }

  /** Every joined room is registered. */
  predicate Complete(rooms: seq<string>, sockets: map<string, Sock>)
  {
    forall sid :: sid in sockets && sockets[sid].joined ==> sockets[sid].queryId in rooms
  }

  /** An insertion-ordered set has no repeated element. */
  predicate NoDup(xs: seq<string>)
  {
    forall i, j :: 0 <= i < j < |xs| ==> xs[i] != xs[j]
  }

  /** `Set.prototype.add` on an insertion-ordered set. */
  function SetAdd(xs: seq<string>, x: string): (ys: seq<string>)
    ensures forall y :: y in ys <==> y in xs || y == x
    ensures NoDup(xs) ==> NoDup(ys)
    ensures x in xs ==> ys == xs
    ensures x !in xs ==> ys == xs + [x]
  {
    if x in xs then xs else xs + [x]
  }

  /** `Set.prototype.delete` on an insertion-ordered set: the others keep their order. */
  function SetDelete(xs: seq<string>, x: string): (ys: seq<string>)
    ensures forall y :: y in ys <==> y in xs && y != x
    ensures NoDup(xs) ==> NoDup(ys)
    ensures |ys| <= |xs|
  {
    if xs == [] then []
    else if xs[0] == x then SetDelete(xs[1..], x)
    else
      var rest := SetDelete(xs[1..], x);
      assert NoDup(xs) ==> xs[0] !in rest;
      [xs[0]] + rest
  }

  /**
   * With sound and complete bookkeeping, a room id that is not a socket id is
   * registered exactly when a member remains, and that is exactly the
   * disconnect handler's activity test.
   */
  lemma RegisteredIffMember(rooms: seq<string>, sockets: map<string, Sock>, r: string)
    requires Sound(rooms, sockets) && Complete(rooms, sockets)
    requires r !in sockets
    ensures r in rooms <==> HasMember(sockets, r)
    ensures HasMember(sockets, r) <==> RoomIsActive(sockets, r)
  {
    if HasMember(sockets, r) {
      var sid :| sid in sockets && sockets[sid].joined && sockets[sid].queryId == r;
      assert r in RoomsOf(sid, sockets[sid]);
    }
  }

  class RoomRegistry {
    /** `connectedRooms`: namespace name to its set of active room ids. */
    var connectedRooms: map<string, seq<string>>
    /** The transport's `nsp.connected`: namespace name to its sockets by id. */
    var connected: map<string, map<string, Sock>>

    /** The bookkeeping every operation keeps. */
    ghost predicate Valid()
      reads this
    {
      && (forall nsp :: nsp in connectedRooms ==> nsp in connected)
      && (forall nsp :: nsp in connectedRooms ==> NoDup(connectedRooms[nsp]))
      && (forall nsp :: nsp in connectedRooms ==> Sound(connectedRooms[nsp], connected[nsp]))
      && (forall nsp :: nsp in connected ==> IdsDistinct(connected[nsp]))
    }

    /** No joined room of an initialized namespace is missing from its set. */
    ghost predicate AllRegistered()
      reads this
      requires Valid()
    {
      forall nsp :: nsp in connectedRooms ==> Complete(connectedRooms[nsp], connected[nsp])
    }

    constructor()
      ensures Valid() && AllRegistered()
      ensures connectedRooms == map[] && connected == map[]
    {
      connectedRooms := map[];
      connected := map[];
    }

    /** initializeNamespace: the namespace's room set starts empty; the
        namespace is created on the transport if it was not there. */
    method InitializeNamespace(nsp: string)
      requires Valid()
      modifies this
      ensures Valid()
      ensures connectedRooms == old(connectedRooms)[nsp := []]
      ensures connected == if nsp in old(connected) then old(connected) else old(connected)[nsp := map[]]
      ensures (forall sid :: sid in connected[nsp] ==> !connected[nsp][sid].joined) ==>
        (old(AllRegistered()) ==> AllRegistered())
    {
      if nsp !in connected {
        connected := connected[nsp := map[]];
      }
      connectedRooms := connectedRooms[nsp := []];
      forall n | n in connectedRooms
        ensures Sound(connectedRooms[n], connected[n])
      {
        if n != nsp {
          assert connectedRooms[n] == old(connectedRooms)[n];
          assert connected[n] == old(connected)[n];
        }
      }
    }

    /** A client connects to the namespace asking for a room; it has joined nothing yet. */
    method Connect(nsp: string, sid: string, queryId: string)
      requires Valid()
      requires nsp in connected && sid !in connected[nsp]
      requires sid != queryId
      requires forall other :: other in connected[nsp] ==>
        other != queryId && connected[nsp][other].queryId != sid
      modifies this
      ensures Valid()
      ensures connected == old(connected)[nsp := old(connected)[nsp][sid := Sock(queryId, false)]]
      ensures connectedRooms == old(connectedRooms)
      ensures old(AllRegistered()) ==> AllRegistered()
    {
      connected := connected[nsp := connected[nsp][sid := Sock(queryId, false)]];
      forall n | n in connectedRooms
        ensures Sound(connectedRooms[n], connected[n])
      {
        if n == nsp {
          forall r | r in connectedRooms[n]
            ensures HasMember(connected[n], r)
          {
            var w :| w in old(connected)[n] && old(connected)[n][w].joined && old(connected)[n][w].queryId == r;
            assert w in connected[n] && connected[n][w] == old(connected)[n][w];
          }
        } else {
          assert connected[n] == old(connected)[n];
        }
      }
    }

    /** Both checks passed: addToRoom joins the requested room and
        trackConnectedRooms adds it to the namespace's set. */
    method Authenticated(nsp: string, sid: string)
      requires Valid()
      requires nsp in connectedRooms && sid in connected[nsp] && !connected[nsp][sid].joined
      modifies this
      ensures Valid()
      ensures connected == old(connected)[nsp := old(connected)[nsp][sid := Sock(old(connected)[nsp][sid].queryId, true)]]
      ensures connectedRooms == old(connectedRooms)[nsp := SetAdd(old(connectedRooms)[nsp], old(connected)[nsp][sid].queryId)]
      ensures old(AllRegistered()) ==> AllRegistered()
    {
      var room := connected[nsp][sid].queryId;
      connected := connected[nsp := connected[nsp][sid := Sock(room, true)]];
      connectedRooms := connectedRooms[nsp := SetAdd(connectedRooms[nsp], room)];
      assert HasMember(connected[nsp], room) by {
        assert sid in connected[nsp] && connected[nsp][sid].joined;
      }
      forall r | r in connectedRooms[nsp]
        ensures HasMember(connected[nsp], r)
      {
        if r != room {
          var w :| w in old(connected)[nsp] && old(connected)[nsp][w].joined && old(connected)[nsp][w].queryId == r;
          assert w != sid;
          assert w in connected[nsp] && connected[nsp][w].joined && connected[nsp][w].queryId == r;
        }
      }
    }

    /** A check failed: the socket is disconnected without a disconnect handler. */
    method Rejected(nsp: string, sid: string)
      requires Valid()
      requires nsp in connected && sid in connected[nsp] && !connected[nsp][sid].joined
      modifies this
      ensures Valid()
      ensures connected == old(connected)[nsp := old(connected)[nsp] - {sid}]
      ensures connectedRooms == old(connectedRooms)
      ensures old(AllRegistered()) ==> AllRegistered()
    {
      connected := connected[nsp := connected[nsp] - {sid}];
      if nsp in connectedRooms {
        forall r | r in connectedRooms[nsp]
          ensures HasMember(connected[nsp], r)
        {
          var w :| w in old(connected)[nsp] && old(connected)[nsp][w].joined && old(connected)[nsp][w].queryId == r;
          assert w != sid;
          assert w in connected[nsp];
        }
      }
    }

    /**
     * A client goes away. The transport drops the socket first; for an
     * authenticated socket the disconnect handler then deletes its room from
     * the set when no remaining socket is in that room.
     */
    method Disconnect(nsp: string, sid: string)
      requires Valid()
      requires nsp in connected && sid in connected[nsp]
      requires connected[nsp][sid].joined ==> nsp in connectedRooms
      modifies this
      ensures Valid()
      ensures connected == old(connected)[nsp := old(connected)[nsp] - {sid}]
      ensures connectedRooms ==
        var s := old(connected)[nsp][sid];
        if s.joined && !RoomIsActive(connected[nsp], s.queryId)
        then old(connectedRooms)[nsp := SetDelete(old(connectedRooms)[nsp], s.queryId)]
        else old(connectedRooms)
      ensures old(AllRegistered()) ==> AllRegistered()
    {
      var s := connected[nsp][sid];
      connected := connected[nsp := connected[nsp] - {sid}];
      if s.joined && !RoomIsActive(connected[nsp], s.queryId) {
        connectedRooms := connectedRooms[nsp := SetDelete(connectedRooms[nsp], s.queryId)];
      }
      if nsp in connectedRooms {
        forall r | r in connectedRooms[nsp]
          ensures HasMember(connected[nsp], r)
        {
          var w :| w in old(connected)[nsp] && old(connected)[nsp][w].joined && old(connected)[nsp][w].queryId == r;
          if w == sid {
            assert r == s.queryId && s.joined;
            assert RoomIsActive(connected[nsp], r);
            var v :| v in connected[nsp] && r in RoomsOf(v, connected[nsp][v]);
            assert v != r by {
              assert v in old(connected)[nsp];
            }
            assert connected[nsp][v].joined && connected[nsp][v].queryId == r;
          } else {
            assert w in connected[nsp];
          }
        }
      }
    }

    /** Whether a room of a namespace is registered. */
    function IsRegistered(nsp: string, room: string): bool
      reads this
    {
      nsp in connectedRooms && room in connectedRooms[nsp]
    }
  }

  /** The namespace's sockets are `members`, every one of them a member of
      `room`, which is registered exactly while there is one. */
  ghost predicate Settled(reg: RoomRegistry, nsp: string, room: string, members: set<string>)
    reads reg
  {
    && reg.Valid() && nsp in reg.connectedRooms
    && reg.connected[nsp].Keys == members
    && (forall sid :: sid in reg.connected[nsp] ==> reg.connected[nsp][sid] == Sock(room, true))
    && room !in members
    && reg.connectedRooms[nsp] == if members == {} then [] else [room]
  }

  /** Updating a key twice keeps the second value. */
  lemma Overwrite<K, V>(m: map<K, V>, k: K, first: V, second: V)
    ensures m[k := first][k := second] == m[k := second]
  {
  }

  /** One more member of the room among sockets that are all its members. */
  lemma JoinAll(before: map<string, Sock>, after: map<string, Sock>, sid: string, room: string,
    members: set<string>)
    requires before.Keys == members
    requires forall other :: other in before ==> before[other] == Sock(room, true)
    requires after == before[sid := Sock(room, true)]
    ensures after.Keys == members + {sid}
    ensures forall other :: other in after ==> after[other] == Sock(room, true)
  {
  }

  /** A client asking for the room connects and authenticates: the room is registered. */
  method Enter(reg: RoomRegistry, nsp: string, room: string, sid: string, ghost members: set<string>)
    returns (registered: bool)
    requires Settled(reg, nsp, room, members)
    requires sid !in members && sid != room
    modifies reg
    ensures Settled(reg, nsp, room, members + {sid})
    ensures registered
  {
    ghost var before := reg.connected[nsp];
    ghost var roomsBefore := reg.connectedRooms[nsp];
    assert forall other :: other in before ==> other != room && before[other].queryId != sid;
    reg.Connect(nsp, sid, room);
    ghost var mid := reg.connected[nsp];
    assert mid == before[sid := Sock(room, false)];
    assert mid[sid].queryId == room;
    reg.Authenticated(nsp, sid);
    ghost var after := reg.connected[nsp];
    assert after == mid[sid := Sock(room, true)];
    Overwrite(before, sid, Sock(room, false), Sock(room, true));
    JoinAll(before, after, sid, room, members);
    assert reg.connectedRooms[nsp] == SetAdd(roomsBefore, room) == [room];
    registered := reg.IsRegistered(nsp, room);
  }

  /** A member of the room leaves: the room stays registered while any other member remains. */
  method Leave(reg: RoomRegistry, nsp: string, room: string, sid: string, ghost members: set<string>)
    returns (registered: bool)
    requires Settled(reg, nsp, room, members)
    requires sid in members
    modifies reg
    ensures Settled(reg, nsp, room, members - {sid})
    ensures registered <==> members - {sid} != {}
  {
    reg.Disconnect(nsp, sid);
    var rest := reg.connected[nsp];
    if rest.Keys != {} {
      var other :| other in rest;
      assert room in RoomsOf(other, rest[other]);
    }
    registered := reg.IsRegistered(nsp, room);
  }

  /** One client comes and goes in an empty namespace. */
  method OneClient(reg: RoomRegistry, nsp: string, room: string, sid: string) returns (registered: seq<bool>)
    requires Settled(reg, nsp, room, {}) && sid != room
    modifies reg
    ensures Settled(reg, nsp, room, {})
    ensures registered == [true, false]
  {
    var entered := Enter(reg, nsp, room, sid, {});
    var left := Leave(reg, nsp, room, sid, {sid});
    registered := [entered, left];
  }

  /** Three clients come, one after another. */
  method ThreeEnter(reg: RoomRegistry, nsp: string, room: string) returns (registered: seq<bool>)
    requires Settled(reg, nsp, room, {}) && room !in {"a2", "b1", "c1"}
    modifies reg
    ensures Settled(reg, nsp, room, {"a2", "b1", "c1"})
    ensures registered == [true, true, true]
  {
    ghost var m0: set<string> := {};
    var r1 := Enter(reg, nsp, room, "a2", m0);
    ghost var m1 := m0 + {"a2"};
    var r2 := Enter(reg, nsp, room, "b1", m1);
    ghost var m2 := m1 + {"b1"};
    var r3 := Enter(reg, nsp, room, "c1", m2);
    assert m2 + {"c1"} == {"a2", "b1", "c1"};
    registered := [r1, r2, r3];
  }

  /** The three clients leave in the order they came. */
  method ThreeLeave(reg: RoomRegistry, nsp: string, room: string) returns (registered: seq<bool>)
    requires Settled(reg, nsp, room, {"a2", "b1", "c1"})
    modifies reg
    ensures Settled(reg, nsp, room, {})
    ensures registered == [true, true, false]
  {
    ghost var m3: set<string> := {"a2", "b1", "c1"};
    var r4 := Leave(reg, nsp, room, "a2", m3);
    ghost var m4 := m3 - {"a2"};
    assert "b1" in m4;
    var r5 := Leave(reg, nsp, room, "b1", m4);
    ghost var m5 := m4 - {"b1"};
    assert "c1" in m5;
    var r6 := Leave(reg, nsp, room, "c1", m5);
    assert m5 - {"c1"} == {};
    registered := [r4, r5, r6];
  }

  /** Three clients come, then leave in the order they came. */
  method ThreeClients(reg: RoomRegistry, nsp: string, room: string) returns (registered: seq<bool>)
    requires Settled(reg, nsp, room, {}) && room !in {"a2", "b1", "c1"}
    modifies reg
    ensures Settled(reg, nsp, room, {})
    ensures registered == [true, true, true, true, true, false]
  {
    var entered := ThreeEnter(reg, nsp, room);
    var left := ThreeLeave(reg, nsp, room);
    registered := entered + left;
  }

  /**
   * The registry oracle: clients asking for the same room connect and
   * disconnect in turn; after each step the room is registered exactly while
   * one of them is connected.
   */
  method RoomLifecycle() returns (registered: seq<bool>)
    ensures registered == [true, false, true, true, true, true, true, false, true, false]
  {
    var nsp, room := "/perspectives", "persp1";
    var reg := new RoomRegistry();
    reg.InitializeNamespace(nsp);
    var first := OneClient(reg, nsp, room, "a1");
    var middle := ThreeClients(reg, nsp, room);
    var last := OneClient(reg, nsp, room, "a3");
    registered := first + middle + last;
  }
}
