/** The relay's room service as the object it is: a table of rooms and an index of hints that
    the handlers change in place. */
module ServiceObjects {
  import opened Options
  import opened Protocol
  import opened Identity
  import opened Rooms
  import opened RoomObjects

  /** How often each of the service's hooks was called. */
  datatype Counts = Counts(created: nat, removed: nat, joined: nat, left: nat)

  function Counted(st: Service): Counts {
    Counts(st.created, st.removed, st.joined, st.left)
  }

  // ---------- the stages of a handler, as values ----------

  ghost function OwnerGone(st: Service, sid: SessionId, id: ClientId, reason: string, successor: Option<ClientId>)
    : (Service, Outcome)
    requires InRoom(st, sid, id) && (successor.Some? ==> successor.value in Rest(st, sid, id))
  {
    if successor.Some? then (Succeed(st, sid, id, reason, successor.value), LeftRoom(id, |Rest(st, sid, id)|))
    else (EndRoom(st, sid, id), LeftRoom(id, 0))
  }

  ghost function WithSuccessor(st: Service, sid: SessionId, id: ClientId, isOwner: bool, reason: string, successor: Option<ClientId>)
    : (Service, Outcome)
    requires InRoom(st, sid, id) && (successor.Some? ==> successor.value in Rest(st, sid, id))
  {
    var count := |Rest(st, sid, id)|;
    if isOwner && count > 0 then OwnerGone(st, sid, id, reason, successor)
    else if count == 0 then (CloseRoom(st, sid, id), LeftRoom(id, count))
    else (Depart(st, sid, id, reason), LeftRoom(id, count))
  }

  ghost predicate FoundHeir(st: Service, sid: SessionId, id: ClientId, successor: Option<ClientId>)
    requires InRoom(st, sid, id)
  {
    var heirs := Heirs(Rest(st, sid, id), st.rooms[sid].clients[id].browserId);
    if successor.Some? then successor.value in heirs else heirs == {}
  }

  /** The same but for the history. */
  ghost predicate Agree(a: Service, b: Service) {
    a.rooms == b.rooms && a.hints == b.hints && a.maxPeers == b.maxPeers && a.nextEvent == b.nextEvent
    && Counted(a) == Counted(b)
  }

  ghost function Told(room: Room, e: Event): Room {
    room.(clients := OfferTo(room.clients, e, room.clients.Keys))
  }

  ghost function ToldAll(st: Service, sid: SessionId, from: ClientId, b: Body): Service
    requires sid in st.rooms
  {
    st.(rooms := st.rooms[sid := Told(st.rooms[sid], Event(st.nextEvent, from, b))], nextEvent := st.nextEvent + 1)
  }

  ghost function CrownedIn(st: Service, sid: SessionId, heir: ClientId): Service
    requires sid in st.rooms
  {
    if heir in st.rooms[sid].clients then st.(rooms := st.rooms[sid := OwnedBy(st.rooms[sid], heir)], nextEvent := st.nextEvent)
    else st
  }

  ghost function PassedOn(st: Service, sid: SessionId, id: ClientId, heir: ClientId, left: Body): Service
    requires sid in st.rooms
  {
    ToldAll(ToldAll(CrownedIn(st, sid, heir), sid, id, OwnerChanged(heir)), sid, id, left)
  }

  /** The room of a succession, one change after the other. */
  ghost function HeirsRoom(room: Room, n: nat, id: ClientId, heir: ClientId, left: Body): Room
    requires heir in room.clients
  {
    Told(Told(OwnedBy(room, heir), Event(n, id, OwnerChanged(heir))), Event(n + 1, id, left))
  }

  ghost function Remaining(room: Room, id: ClientId): Room {
    room.(clients := room.clients - {id})
  }

  ghost function Withdrawn(st: Service, sid: SessionId, id: ClientId): Service
    requires sid in st.rooms
  {
    st.(rooms := st.rooms[sid := Remaining(st.rooms[sid], id)], left := st.left + 1)
  }

  ghost function Disbanded(st: Service, sid: SessionId): Service
    requires sid in st.rooms
  {
    st.(rooms := st.rooms[sid := st.rooms[sid].(clients := map[])], nextEvent := st.nextEvent + 1)
  }

  ghost function Dropped(st: Service, sid: SessionId): Service {
    st.(rooms := st.rooms - {sid}, hints := HintsWithout(st.hints, sid), removed := st.removed + 1)
  }

  ghost function Declaring(room: Room, encrypted: bool): Room {
    room.(encrypted := room.encrypted || encrypted)
  }

  ghost function PastEncryption(st: Service, sid: SessionId, p: Option<Principal>, j: JoinRequest, id: ClientId): (Service, Outcome)
    requires sid in st.rooms
  {
    if st.rooms[sid].encrypted && j.protocolVersion < 2 then (st, Refused(PROTOCOL_VERSION_TOO_OLD, []))
    else Admit(st, sid, p, j, id)
  }

  /** The table once a client is let into a room. */
  ghost function RoomsWith(st: Service, sid: SessionId, c: Client, j: JoinRequest): map<SessionId, Room>
    requires sid in st.rooms
  {
    var note := Event(st.nextEvent + 1, c.info.clientId, PeerJoined(c.info));
    st.rooms[sid := TakenPlace(st.rooms[sid], c, note, j.isOwner, j.title)]
  }

  lemma WithdrawnRest(st: Service, sid: SessionId, id: ClientId)
    requires InRoom(st, sid, id)
    ensures Withdrawn(st, sid, id).rooms[sid].clients == Rest(st, sid, id)
  {
  }

  lemma KindIs(st: Service, sid: SessionId, id: ClientId, successor: Option<ClientId>, heir: ClientId)
    requires InRoom(st, sid, id) && FoundHeir(st, sid, id, successor) && (successor.Some? ==> heir == successor.value)
    ensures var count := |Rest(st, sid, id)|;
            KindOf(st, sid, id, heir) ==
            if count == 0 then ClosesRoom
            else if !st.rooms[sid].clients[id].info.isOwner then Departs
            else if successor.Some? then Succeeds else EndsRoom
  {
  }

  lemma LeaveIs(st: Service, sid: SessionId, id: ClientId, reason: string, successor: Option<ClientId>, heir: ClientId)
    requires InRoom(st, sid, id) && FoundHeir(st, sid, id, successor) && (successor.Some? ==> successor.value in Rest(st, sid, id))
    requires successor.Some? ==> heir == successor.value
    ensures Rooms.HandleLeave(st, sid, id, reason, heir) ==
            WithSuccessor(st, sid, id, st.rooms[sid].clients[id].info.isOwner, reason, successor)
  {
    KindIs(st, sid, id, successor, heir);
    match KindOf(st, sid, id, heir) {
      case Departs => assert Rooms.HandleLeave(st, sid, id, reason, heir).0 == Depart(st, sid, id, reason);
      case Succeeds => assert Rooms.HandleLeave(st, sid, id, reason, heir).0 == Succeed(st, sid, id, reason, heir);
      case EndsRoom => assert Rooms.HandleLeave(st, sid, id, reason, heir).0 == EndRoom(st, sid, id);
      case ClosesRoom => assert Rooms.HandleLeave(st, sid, id, reason, heir).0 == CloseRoom(st, sid, id);
    }
  }

  /** The heir to name for the successor that was found, or for none. */
  lemma PickHeir(st: Service, sid: SessionId, id: ClientId, reason: string, successor: Option<ClientId>)
    returns (heir: ClientId)
    requires InRoom(st, sid, id) && FoundHeir(st, sid, id, successor) && (successor.Some? ==> successor.value in Rest(st, sid, id))
    ensures Allowed(st, Leave(sid, id, reason, heir)) && (successor.Some? ==> heir == successor.value)
  {
    heir := if successor.Some? then successor.value else "";
  }

  lemma NameHeir(st: Service, sid: SessionId, id: ClientId, reason: string, successor: Option<ClientId>)
    returns (heir: ClientId)
    requires InRoom(st, sid, id) && FoundHeir(st, sid, id, successor) && (successor.Some? ==> successor.value in Rest(st, sid, id))
    ensures Allowed(st, Leave(sid, id, reason, heir))
    ensures Rooms.HandleLeave(st, sid, id, reason, heir) ==
            WithSuccessor(st, sid, id, st.rooms[sid].clients[id].info.isOwner, reason, successor)
  {
    heir := PickHeir(st, sid, id, reason, successor);
    LeaveIs(st, sid, id, reason, successor, heir);
  }

  lemma DepartIs(st: Service, sid: SessionId, id: ClientId, reason: string)
    requires InRoom(st, sid, id)
    ensures Agree(ToldAll(Withdrawn(st, sid, id), sid, id, PeerLeft(id, reason, |Rest(st, sid, id)|)), Depart(st, sid, id, reason))
  {
  }

  lemma CloseRoomIs(st: Service, sid: SessionId, id: ClientId, reason: string)
    requires InRoom(st, sid, id) && Rest(st, sid, id) == map[]
    ensures var told := ToldAll(Withdrawn(st, sid, id), sid, id, PeerLeft(id, reason, 0));
            told.rooms[sid].clients == map[] && Agree(Dropped(told, sid), CloseRoom(st, sid, id))
  {
  }

  lemma EndRoomIs(st: Service, sid: SessionId, id: ClientId)
    requires InRoom(st, sid, id)
    ensures Agree(Dropped(Disbanded(Withdrawn(st, sid, id), sid), sid), EndRoom(st, sid, id))
  {
    assert Dropped(Disbanded(Withdrawn(st, sid, id), sid), sid).rooms == st.rooms - {sid};
    assert EndRoom(st, sid, id).rooms == st.rooms - {sid};
  }

  lemma ToldTwice(room: Room, heir: ClientId, first: Event, second: Event)
    requires heir in room.clients
    ensures Told(Told(OwnedBy(room, heir), first), second) ==
            room.(clients := Informed(Crowned(room.clients, heir), first, second), ownerId := heir)
  {
  }

  lemma PassedOnRooms(st: Service, sid: SessionId, id: ClientId, heir: ClientId, left: Body)
    requires sid in st.rooms && heir in st.rooms[sid].clients
    ensures var first, second := Event(st.nextEvent, id, OwnerChanged(heir)), Event(st.nextEvent + 1, id, left);
            PassedOn(st, sid, id, heir, left).rooms == st.rooms[sid := Told(Told(OwnedBy(st.rooms[sid], heir), first), second)]
  {
  }

  lemma Overwritten(rooms: map<SessionId, Room>, sid: SessionId, a: Room, b: Room)
    ensures rooms[sid := a][sid := b] == rooms[sid := b]
  {
  }

  lemma PassedOnAfterLeave(st: Service, sid: SessionId, id: ClientId, heir: ClientId, left: Body)
    requires InRoom(st, sid, id) && heir in Remaining(st.rooms[sid], id).clients
    ensures PassedOn(Withdrawn(st, sid, id), sid, id, heir, left).rooms ==
            st.rooms[sid := HeirsRoom(Remaining(st.rooms[sid], id), st.nextEvent, id, heir, left)]
  {
    PassedOnRooms(Withdrawn(st, sid, id), sid, id, heir, left);
    Overwritten(st.rooms, sid, Remaining(st.rooms[sid], id), HeirsRoom(Remaining(st.rooms[sid], id), st.nextEvent, id, heir, left));
  }

  lemma SucceedRooms(st: Service, sid: SessionId, id: ClientId, reason: string, heir: ClientId)
    requires InRoom(st, sid, id) && heir in Rest(st, sid, id)
    ensures Succeed(st, sid, id, reason, heir).rooms ==
            st.rooms[sid := HeirsRoom(Remaining(st.rooms[sid], id), st.nextEvent, id, heir, PeerLeft(id, reason, |Rest(st, sid, id)|))]
  {
    var left, rest := Remaining(st.rooms[sid], id), Rest(st, sid, id);
    var first, second := Event(st.nextEvent, id, OwnerChanged(heir)), Event(st.nextEvent + 1, id, PeerLeft(id, reason, |rest|));
    ToldTwice(left, heir, first, second);
    assert left.clients == rest;
  }

  /** The fields in which an object and its value meet. */
  ghost predicate Stands(st: Service, rooms: map<SessionId, Room>, hints: map<string, SessionId>, maxPeers: int, events: nat, counts: Counts) {
    st.rooms == rooms && st.hints == hints && st.maxPeers == maxPeers && st.nextEvent == events && Counted(st) == counts
  }

  lemma PassedOnStands(st: Service, sid: SessionId, id: ClientId, heir: ClientId, left: Body)
    requires InRoom(st, sid, id) && heir in Remaining(st.rooms[sid], id).clients
    ensures Stands(PassedOn(Withdrawn(st, sid, id), sid, id, heir, left),
                   st.rooms[sid := HeirsRoom(Remaining(st.rooms[sid], id), st.nextEvent, id, heir, left)],
                   st.hints, st.maxPeers, st.nextEvent + 2, Counted(st).(left := st.left + 1))
  {
    PassedOnAfterLeave(st, sid, id, heir, left);
  }

  lemma SucceedStands(st: Service, sid: SessionId, id: ClientId, reason: string, heir: ClientId, left: Body)
    requires InRoom(st, sid, id) && heir in Rest(st, sid, id) && left == PeerLeft(id, reason, |Rest(st, sid, id)|)
    ensures Stands(Succeed(st, sid, id, reason, heir),
                   st.rooms[sid := HeirsRoom(Remaining(st.rooms[sid], id), st.nextEvent, id, heir, left)],
                   st.hints, st.maxPeers, st.nextEvent + 2, Counted(st).(left := st.left + 1))
  {
    SucceedRooms(st, sid, id, reason, heir);
  }

  lemma StandAlike(a: Service, b: Service, rooms: map<SessionId, Room>, hints: map<string, SessionId>, maxPeers: int,
                                      events: nat, counts: Counts)
    requires Stands(a, rooms, hints, maxPeers, events, counts) && Stands(b, rooms, hints, maxPeers, events, counts)
    ensures Agree(a, b)
  {
  }

  /** The successive changes come to what the service does in one go. */
  lemma SucceedIs(st: Service, sid: SessionId, id: ClientId, reason: string, heir: ClientId)
    requires InRoom(st, sid, id) && heir in Rest(st, sid, id)
    ensures Agree(PassedOn(Withdrawn(st, sid, id), sid, id, heir, PeerLeft(id, reason, |Rest(st, sid, id)|)),
                  Succeed(st, sid, id, reason, heir))
  {
    var left := PeerLeft(id, reason, |Rest(st, sid, id)|);
    PassedOnStands(st, sid, id, heir, left);
    SucceedStands(st, sid, id, reason, heir, left);
    StandAlike(PassedOn(Withdrawn(st, sid, id), sid, id, heir, left), Succeed(st, sid, id, reason, heir),
               st.rooms[sid := HeirsRoom(Remaining(st.rooms[sid], id), st.nextEvent, id, heir, left)],
               st.hints, st.maxPeers, st.nextEvent + 2, Counted(st).(left := st.left + 1));
  }

  lemma EnterIs(st: Service, sid: SessionId, p: Option<Principal>, j: JoinRequest, id: ClientId)
    requires sid in st.rooms
    ensures var room := st.rooms[sid];
            EnterRoom(st, sid, p, j, id) ==
            if st.maxPeers > 0 && |room.clients| >= st.maxPeers then (st, Refused(ROOM_FULL, []))
            else if j.isOwner && room.ownerId != "" && room.ownerBrowser != j.browserId then
              (st, Failed("room already has an owner from a different browser"))
            else PastEncryption(Declared(st, sid, j), sid, p, j, id)
  {
  }

  lemma WithNewcomer(st: Service, rooms: map<SessionId, Room>, sid: SessionId, c: Client, note: Event, j: JoinRequest)
    requires sid in st.rooms && rooms == st.rooms[sid := TakenPlace(st.rooms[sid], c, note, j.isOwner, j.title)]
    requires note == Event(st.nextEvent + 1, c.info.clientId, PeerJoined(c.info))
    ensures rooms == RoomsWith(st, sid, c, j)
  {
  }

  lemma AdmitIs(st: Service, sid: SessionId, p: Option<Principal>, j: JoinRequest, id: ClientId)
    requires sid in st.rooms
    ensures var c, (next, o) := Newcomer(st, sid, p, j, id), Admit(st, sid, p, j, id);
            && o == Joined(c.welcome) && next.rooms == RoomsWith(st, sid, c, j)
            && next.hints == st.hints && next.maxPeers == st.maxPeers && next.nextEvent == st.nextEvent + 2
            && Counted(next) == Counted(st).(joined := st.joined + 1)
  {
  }

  lemma RelayIs(st: Service, sid: SessionId, from: ClientId, b: Body)
    requires sid in st.rooms
    ensures var e, (next, o) := Event(st.nextEvent, from, b), Relay(st, sid, from, b);
            && next.rooms == st.rooms[sid := TakenIn(st.rooms[sid], e)]
            && next.hints == st.hints && next.maxPeers == st.maxPeers && next.nextEvent == st.nextEvent + 1
            && Counted(next) == Counted(st)
            && o == if Unheard(st.rooms[sid], e) != [] then Refused(PEER_NOT_FOUND, Unheard(st.rooms[sid], e)) else Silent
  {
  }

  // ---------- the service object ----------

  class CollabService {
    const maxPeers: int
    var rooms: map<SessionId, CollabRoom>
    var hintIndex: map<string, SessionId>
    var nextEvent: nat
    var counts: Counts
    ghost var state: Service       // the service as a value: the fields and the history

    /** Rooms and clients are not shared. */
    ghost predicate Unshared()
      reads this`rooms, rooms.Values`clients
    {
      && (forall s :: s in rooms ==> rooms[s].Valid())
      && (forall s, t, x, y :: s in rooms && t in rooms && s != t && x in rooms[s].clients && y in rooms[t].clients ==>
            rooms[s].clients[x] != rooms[t].clients[y])
      && (forall s, t :: s in rooms && t in rooms && rooms[s] == rooms[t] ==> s == t)
    }

    ghost function Clients(): set<CollabClient>
      reads this`rooms, rooms.Values`clients
    {
      set s, id | s in rooms && id in rooms[s].clients :: rooms[s].clients[id]
    }

    ghost function Models(): map<SessionId, Room>
      reads this`rooms, rooms.Values, Clients()
    {
      map s | s in rooms :: rooms[s].Model()
    }

    ghost predicate Valid()
      reads this, rooms.Values, Clients()
    {
      && Unshared()
      && state.rooms == Models() && state.hints == hintIndex && state.maxPeers == maxPeers && state.nextEvent == nextEvent
      && Counted(state) == counts
    }

    constructor (limit: int)
      ensures Valid() && state == NewService(limit) && rooms == map[]
    {
      maxPeers, rooms, hintIndex, nextEvent, counts := limit, map[], map[], 0, Counts(0, 0, 0, 0);
      state := NewService(limit);
    }

    /** Rooms that a method does not touch keep their state. */
    twostate lemma OtherRooms(sid: SessionId)
      requires sid in rooms && old(Unshared()) && rooms == old(rooms)
      requires forall s :: s in rooms && s != sid ==> unchanged(rooms[s]) && unchanged(rooms[s].clients.Values)
      ensures Models() == old(Models())[sid := rooms[sid].Model()]
    {
    }

    twostate lemma StillApart()
      requires old(Unshared()) && rooms == old(rooms)
      requires forall s :: s in rooms ==> rooms[s].clients == old(rooms[s].clients)
      ensures Unshared()
    {
    }

    /** Nor do the rooms change when only the service's other fields do. */
    twostate lemma SameRooms()
      requires rooms == old(rooms) && unchanged(rooms.Values) && unchanged(Clients()) && old(Unshared())
      ensures Unshared() && Models() == old(Models())
    {
    }

    /** findRoomForClient. */
    method FindRoomForClient(id: ClientId) returns (found: Option<SessionId>)
      requires Valid()
      ensures Valid()
      ensures found.Some? ==> InRoom(state, found.value, id)
      ensures found.None? ==> forall sid :: !InRoom(state, sid, id)
    {
      var todo := rooms.Keys;
      while todo != {}
        invariant todo <= rooms.Keys
        invariant forall s :: s in rooms && s !in todo ==> id !in rooms[s].clients
      {
        var s :| s in todo;
        todo := todo - {s};
        if id in rooms[s].clients {
          return Some(s);
        }
      }
      found := None;
    }

    // ---------- relaying ----------

    /** A room takes a message in; the other rooms are as they were. */
    method TakeIn(sid: SessionId, e: Event) returns (missing: seq<ClientId>)
      requires Unshared() && sid in rooms
      modifies rooms[sid], rooms[sid].clients.Values
      ensures Unshared()
      ensures Models() == old(Models())[sid := TakenIn(old(Models())[sid], e)]
      ensures missing == Unheard(old(Models())[sid], e)
    {
      missing := rooms[sid].Take(e);
      StillApart();
      OtherRooms(sid);
    }

    /** The rooms are as they should be: the value that goes with them. */
    method Settle(ghost next: Service, events: nat)
      requires Unshared() && Models() == next.rooms && next.hints == hintIndex && next.maxPeers == maxPeers && next.nextEvent == events
      requires Counted(next) == counts
      modifies this`nextEvent, this`state
      ensures Valid() && state == next
    {
      nextEvent := events;
      state := next;
      SameRooms();
    }

    /** The same once a hook was called. */
    method Count(ghost next: Service, events: nat, now: Counts)
      requires Unshared() && Models() == next.rooms && next.hints == hintIndex && next.maxPeers == maxPeers && next.nextEvent == events
      requires Counted(next) == now
      modifies this`nextEvent, this`counts, this`state
      ensures Valid() && state == next
    {
      nextEvent, counts := events, now;
      state := next;
      SameRooms();
    }

    /** handleBroadcast and DeliverAppMessage, the room found. */
    method Fan(sid: SessionId, from: ClientId, b: Body) returns (o: Outcome)
      requires Valid() && sid in rooms
      modifies this`nextEvent, this`state, rooms[sid], rooms[sid].clients.Values
      ensures Valid() && (state, o) == Relay(old(state), sid, from, b)
    {
      RelayIs(state, sid, from, b);
      ghost var next := Relay(state, sid, from, b).0;
      var missing := TakeIn(sid, Event(nextEvent, from, b));
      Settle(next, nextEvent + 1);
      o := if missing != [] then Refused(PEER_NOT_FOUND, missing) else Silent;
    }

    // ---------- join ----------

    /** The session asked for, else the hint's, else a new one. */
    method ResolveSession(j: JoinRequest, newSession: SessionId) returns (sid: SessionId)
      requires Valid()
      ensures Valid()
      ensures sid == Resolve(state, j, newSession)
    {
      sid := j.sessionId;
      if sid == "" {
        if j.hint != "" && j.hint in hintIndex {
          sid := hintIndex[j.hint];
        }
        if sid == "" {
          sid := newSession;
        }
      }
    }

    method Index(hint: string, sid: SessionId)
      requires Valid()
      modifies this`hintIndex, this`state
      ensures Valid() && state == IndexHint(old(state), hint, sid)
    {
      if hint != "" {
        hintIndex := hintIndex[hint := sid];
      }
      state := IndexHint(state, hint, sid);
      SameRooms();
    }

    /** GetOrCreateRoom. */
    method OpenRoom(sid: SessionId)
      requires Valid()
      modifies this`rooms, this`counts, this`state
      ensures Valid() && state == GetOrCreateRoom(old(state), sid) && sid in rooms
      ensures rooms == old(rooms) || (sid !in old(rooms) && rooms == old(rooms)[sid := rooms[sid]] && fresh(rooms[sid]) && rooms[sid].clients == map[])
    {
      if sid !in rooms {
        var room := new CollabRoom();
        rooms := rooms[sid := room];
        counts := counts.(created := counts.created + 1);
        state := GetOrCreateRoom(state, sid);
        RoomAdded(sid);
        EmptyRoomAdded(sid);
      }
    }

    twostate lemma RoomAdded(sid: SessionId)
      requires old(Unshared()) && sid !in old(rooms) && sid in rooms && rooms == old(rooms)[sid := rooms[sid]]
      requires fresh(rooms[sid]) && rooms[sid].clients == map[]
      requires unchanged(old(rooms).Values)
      ensures Unshared()
    {
    }

    twostate lemma EmptyRoomAdded(sid: SessionId)
      requires sid !in old(rooms) && sid in rooms && rooms == old(rooms)[sid := rooms[sid]]
      requires rooms[sid].Model() == EMPTY_ROOM
      requires unchanged(old(rooms).Values) && unchanged(old(Clients()))
      ensures Models() == old(Models())[sid := EMPTY_ROOM]
    {
    }

    /** An owner may declare the room encrypted. */
    method Declare(sid: SessionId, j: JoinRequest)
      requires Valid() && sid in rooms
      modifies this`state, this`nextEvent, rooms[sid]
      ensures Valid() && state == Declared(old(state), sid, j) && rooms[sid].clients == old(rooms[sid].clients)
    {
      ghost var next := Declared(state, sid, j);
      assert next.rooms == Models()[sid := Declaring(Models()[sid], j.isOwner && j.encrypted)];
      DeclareRoom(sid, j.isOwner && j.encrypted);
      Settle(next, nextEvent);
    }

    method DeclareRoom(sid: SessionId, encrypted: bool)
      requires Unshared() && sid in rooms
      modifies rooms[sid]
      ensures Unshared() && rooms[sid].clients == old(rooms[sid].clients)
      ensures Models() == old(Models())[sid := Declaring(old(Models())[sid], encrypted)]
    {
      if encrypted {
        rooms[sid].encrypted := true;
      }
      StillApart();
      OtherRooms(sid);
    }

    /** A client object with the answer to its join. */
    method Newborn(sid: SessionId, p: Option<Principal>, j: JoinRequest, id: ClientId) returns (c: CollabClient)
      requires Valid() && sid in rooms
      ensures fresh(c) && c !in Clients() && c.Model() == Newcomer(state, sid, p, j, id) && Valid()
    {
      var room := rooms[sid];
      assert state.rooms[sid] == room.Model();
      var peers := room.GetPeerInfo();
      var name := if j.username == "" then "Anonymous" else j.username;
      var owner := if j.isOwner then id else room.ownerId;
      c := new CollabClient(Client(PeerInfo(id, name, j.isOwner), j.browserId, p,
                                   Event(nextEvent, "", RoomJoined(id, sid, peers, owner)), Boarded(j.connection)));
    }

    /** A room may lose clients, and gain clients that were in no room. */
    twostate lemma ApartWith(sid: SessionId)
      requires old(Unshared()) && rooms == old(rooms) && sid in rooms && rooms[sid].Valid()
      requires forall s :: s in rooms && s != sid ==> rooms[s].clients == old(rooms[s].clients)
      requires forall x :: x in rooms[sid].clients ==>
        rooms[sid].clients[x] !in old(Clients()) || rooms[sid].clients[x] in old(rooms[sid].clients.Values)
      ensures Unshared()
    {
    }

    /** The newcomer in its room; the other rooms are as they were. */
    method SeatIn(sid: SessionId, c: CollabClient, id: ClientId, note: Event, j: JoinRequest)
      requires Unshared() && sid in rooms && c !in Clients() && c.info.clientId == id
      modifies rooms[sid], rooms[sid].clients.Values, c
      ensures rooms[sid].Valid() && rooms[sid].clients == old(rooms[sid].clients)[id := c]
      ensures forall s :: s in rooms && s != sid ==> rooms[s].clients == old(rooms[s].clients)
      ensures Models() == old(Models())[sid := TakenPlace(old(Models())[sid], old(c.Model()), note, j.isOwner, j.title)]
    {
      rooms[sid].Admit(id, c, note, j.isOwner, j.title);
      OtherRooms(sid);
    }

    method SeatNewcomer(sid: SessionId, c: CollabClient, j: JoinRequest)
      requires Valid() && sid in rooms && c !in Clients()
      modifies rooms[sid], rooms[sid].clients.Values, c
      ensures Unshared() && Models() == RoomsWith(state, sid, old(c.Model()), j)
    {
      ghost var st, newcomer := state, c.Model();
      var note := Event(nextEvent + 1, c.info.clientId, PeerJoined(c.info));
      SeatIn(sid, c, c.info.clientId, note, j);
      ApartWith(sid);
      WithNewcomer(st, Models(), sid, newcomer, note, j);
    }

    method Receive(sid: SessionId, c: CollabClient, j: JoinRequest, ghost next: Service)
      requires Valid() && sid in rooms && c !in Clients()
      requires next.rooms == RoomsWith(state, sid, c.Model(), j)
      requires next.hints == state.hints && next.maxPeers == state.maxPeers && next.nextEvent == state.nextEvent + 2
      requires Counted(next) == Counted(state).(joined := state.joined + 1)
      modifies this`state, this`counts, this`nextEvent, rooms[sid], rooms[sid].clients.Values, c
      ensures Valid() && state == next
    {
      SeatNewcomer(sid, c, j);
      Count(next, nextEvent + 2, counts.(joined := counts.joined + 1));
    }

    /** The end of handleJoin: the client is let in. */
    method LetIn(sid: SessionId, p: Option<Principal>, j: JoinRequest, id: ClientId) returns (o: Outcome)
      requires Valid() && sid in rooms
      modifies this`state, this`counts, this`nextEvent, rooms[sid], rooms[sid].clients.Values
      ensures Valid() && (state, o) == Admit(old(state), sid, p, j, id)
    {
      AdmitIs(state, sid, p, j, id);
      ghost var next := Admit(state, sid, p, j, id).0;
      var c := Newborn(sid, p, j, id);
      o := Joined(c.welcome);
      Receive(sid, c, j, next);
    }

    /** The encryption check, then in. */
    method EnterDeclared(sid: SessionId, p: Option<Principal>, j: JoinRequest, id: ClientId) returns (o: Outcome)
      requires Valid() && sid in rooms
      modifies this`state, this`counts, this`nextEvent, rooms[sid], rooms[sid].clients.Values
      ensures Valid() && (state, o) == PastEncryption(old(state), sid, p, j, id)
    {
      assert state.rooms[sid] == rooms[sid].Model();
      if rooms[sid].encrypted && j.protocolVersion < 2 {
        return Refused(PROTOCOL_VERSION_TOO_OLD, []);
      }
      o := LetIn(sid, p, j, id);
    }

    /** handleJoin once there is a room: full, owned elsewhere, too old for it, or let in. */
    method Enter(sid: SessionId, p: Option<Principal>, j: JoinRequest, id: ClientId) returns (o: Outcome)
      requires Valid() && sid in rooms
      modifies this`state, this`counts, this`nextEvent, rooms[sid], rooms[sid].clients.Values
      ensures Valid() && (state, o) == EnterRoom(old(state), sid, p, j, id)
    {
      var room := rooms[sid];
      EnterIs(state, sid, p, j, id);
      assert state.rooms[sid] == room.Model() && |state.rooms[sid].clients.Keys| == |room.clients.Keys|;
      if maxPeers > 0 && |room.clients| >= maxPeers {
        return Refused(ROOM_FULL, []);
      }
      if j.isOwner && room.ownerId != "" && room.ownerBrowser != j.browserId {
        return Failed("room already has an owner from a different browser");
      }
      Declare(sid, j);
      o := EnterDeclared(sid, p, j, id);
    }

    /** handleJoin. */
    method HandleJoin(p: Option<Principal>, j: JoinRequest, newSession: SessionId, newClient: ClientId) returns (o: Outcome)
      requires Valid()
      modifies this, rooms.Values, Clients()
      ensures Valid() && (state, o) == Rooms.HandleJoin(old(state), p, j, newSession, newClient)
    {
      if !AllowsRoom(p, j.sessionId) {
        return Refused(ROOM_FORBIDDEN, []);
      }
      var sid := ResolveSession(j, newSession);
      Index(j.hint, sid);
      if j.mustExist && sid !in rooms {
        Settle(state.(refused := state.refused + {sid}), nextEvent);
        return Refused(ROOM_NOT_FOUND, []);
      }
      OpenRoom(sid);
      o := Enter(sid, p, j, newClient);
    }

    // ---------- leave ----------

    /** One room changed: the value that goes with it. */
    method SettleRoom(sid: SessionId, ghost room: Room, events: nat)
      requires Unshared() && sid in rooms && sid in state.rooms && Models() == state.rooms[sid := room]
      requires state.hints == hintIndex && state.maxPeers == maxPeers && Counted(state) == counts
      modifies this`nextEvent, this`state
      ensures Valid() && state == old(state).(rooms := old(state).rooms[sid := room], nextEvent := events)
    {
      Settle(state.(rooms := state.rooms[sid := room], nextEvent := events), events);
    }

    /** RemoveClient. */
    method Withdraw(sid: SessionId, id: ClientId)
      requires Valid() && sid in rooms && id in rooms[sid].clients
      modifies this`nextEvent, this`counts, this`state, rooms[sid], rooms[sid].clients.Values
      ensures Valid() && rooms[sid].clients == old(rooms[sid].clients) - {id}
      ensures state == Withdrawn(old(state), sid, id)
      ensures old(rooms[sid].clients)[id].Model() == Gone(old(state).rooms[sid].clients[id])
    {
      var c := rooms[sid].RemoveClient(id);
      OtherRooms(sid);
      ApartWith(sid);
      Count(Withdrawn(state, sid, id), nextEvent, counts.(left := counts.left + 1));
    }

    /** BroadcastToAll. */
    method TellAll(sid: SessionId, from: ClientId, b: Body)
      requires Valid() && sid in rooms
      modifies this`nextEvent, this`state, rooms[sid].clients.Values
      ensures Valid() && state == ToldAll(old(state), sid, from, b)
    {
      var e := Event(nextEvent, from, b);
      rooms[sid].Broadcast(e, rooms[sid].clients.Keys);
      StillApart();
      OtherRooms(sid);
      SettleRoom(sid, Told(state.rooms[sid], e), nextEvent + 1);
    }

    /** Ownership passes to another tab. */
    method Crown(sid: SessionId, heir: ClientId)
      requires Valid() && sid in rooms && heir in rooms[sid].clients
      modifies this`nextEvent, this`state, rooms[sid], rooms[sid].clients.Values
      ensures Valid() && rooms[sid].clients == old(rooms[sid].clients)
      ensures state == CrownedIn(old(state), sid, heir)
    {
      assert state.rooms[sid].clients.Keys == rooms[sid].clients.Keys;
      rooms[sid].CrownMember(heir);
      StillApart();
      OtherRooms(sid);
      SettleRoom(sid, OwnedBy(state.rooms[sid], heir), nextEvent);
    }

    method EmptyRoom(sid: SessionId, e: Event)
      requires Unshared() && sid in rooms
      modifies rooms[sid], rooms[sid].clients.Values
      ensures Unshared() && rooms[sid].clients == map[]
      ensures Models() == old(Models())[sid := old(Models())[sid].(clients := map[])]
      ensures forall x :: x in old(rooms[sid].clients) ==>
        old(rooms[sid].clients)[x].Model() == Rooms.Closed(Offered(old(Models())[sid].clients[x], e))
    {
      rooms[sid].Disperse(e);
      OtherRooms(sid);
      ApartWith(sid);
    }

    /** CloseAllClients after a last message. */
    method Disband(sid: SessionId, from: ClientId, b: Body)
      requires Valid() && sid in rooms
      modifies this`nextEvent, this`state, rooms[sid], rooms[sid].clients.Values
      ensures Valid() && rooms[sid].clients == map[]
      ensures state == Disbanded(old(state), sid)
      ensures forall x :: x in old(rooms[sid].clients) ==>
        old(rooms[sid].clients)[x].Model() ==
          Rooms.Closed(Offered(old(state).rooms[sid].clients[x], Event(old(state).nextEvent, from, b)))
    {
      EmptyRoom(sid, Event(nextEvent, from, b));
      SettleRoom(sid, state.rooms[sid].(clients := map[]), nextEvent + 1);
    }

    /** The hints that led to a session. */
    method ForgetHints(sid: SessionId)
      modifies this`hintIndex
      ensures hintIndex == HintsWithout(old(hintIndex), sid)
    {
      var all := hintIndex;
      var todo := all.Keys;
      while todo != {}
        invariant todo <= all.Keys && hintIndex.Keys <= all.Keys
        invariant forall h :: h in hintIndex ==> hintIndex[h] == all[h]
        invariant forall h :: h in all ==> (h in hintIndex <==> h in todo || all[h] != sid)
      {
        var h :| h in todo;
        todo := todo - {h};
        if all[h] == sid {
          hintIndex := hintIndex - {h};
        }
      }
    }

    twostate lemma RoomGone(sid: SessionId)
      requires old(Unshared()) && rooms == old(rooms) - {sid}
      requires unchanged(old(rooms).Values) && unchanged(old(Clients()))
      ensures Unshared() && Models() == old(Models()) - {sid}
    {
    }

    /** Room and hints go together. */
    method TakeOut(sid: SessionId)
      requires Unshared() && sid in rooms
      modifies this`rooms, this`hintIndex
      ensures Unshared() && Models() == old(Models()) - {sid}
      ensures hintIndex == HintsWithout(old(hintIndex), sid)
    {
      rooms := rooms - {sid};
      ForgetHints(sid);
      RoomGone(sid);
    }

    /** removeRoom. */
    method DropRoom(sid: SessionId)
      requires Valid()
      modifies this`rooms, this`hintIndex, this`counts, this`state, this`nextEvent
      ensures Valid()
      ensures state == if sid in old(state).rooms && old(state).rooms[sid].clients == map[] then Dropped(old(state), sid) else old(state)
    {
      if sid in rooms {
        assert state.rooms[sid].clients.Keys == rooms[sid].clients.Keys;
        if rooms[sid].clients == map[] {
          TakeOut(sid);
          Count(Dropped(state, sid), nextEvent, counts.(removed := counts.removed + 1));
        }
      }
    }

    method CrownAndTell(sid: SessionId, id: ClientId, heir: ClientId)
      requires Valid() && sid in rooms && heir in rooms[sid].clients
      modifies this`nextEvent, this`state, rooms[sid], rooms[sid].clients.Values
      ensures Valid() && rooms[sid].clients == old(rooms[sid].clients)
      ensures state == ToldAll(CrownedIn(old(state), sid, heir), sid, id, OwnerChanged(heir))
    {
      ghost var next := CrownedIn(state, sid, heir);
      Crown(sid, heir);
      assert state == next;
      TellAll(sid, id, OwnerChanged(heir));
    }

    /** Ownership to another tab: OwnerChanged, then PeerLeft. */
    method PassOn(sid: SessionId, id: ClientId, heir: ClientId, left: Body)
      requires Valid() && sid in rooms && heir in rooms[sid].clients
      modifies this`nextEvent, this`state, rooms[sid], rooms[sid].clients.Values
      ensures Valid() && state == PassedOn(old(state), sid, id, heir, left)
    {
      CrownAndTell(sid, id, heir);
      TellAll(sid, id, left);
    }

    /** ClientCount. */
    method CountIn(sid: SessionId) returns (n: nat)
      requires Valid() && sid in rooms
      ensures Valid()
      ensures n == |state.rooms[sid].clients| && (n == 0 <==> rooms[sid].clients == map[])
    {
      n := |rooms[sid].clients|;
      assert n == |rooms[sid].clients.Keys| == |rooms[sid].Members().Keys|;
    }

    /** The history is brought up to date. */
    method Conclude(ghost next: Service)
      requires Valid() && Agree(state, next)
      modifies this`nextEvent, this`state
      ensures Valid() && state == next
    {
      Settle(next, nextEvent);
    }

    /** handleLeave when the owner has another tab. */
    method LeaveToHeir(sid: SessionId, id: ClientId, reason: string, heir: ClientId, count: nat, ghost st: Service)
      requires Valid() && sid in rooms && InRoom(st, sid, id) && state == Withdrawn(st, sid, id)
      requires heir in rooms[sid].clients && heir in Rest(st, sid, id) && count == |Rest(st, sid, id)|
      modifies this`nextEvent, this`state, rooms[sid], rooms[sid].clients.Values
      ensures Valid() && state == Succeed(st, sid, id, reason, heir)
    {
      PassOn(sid, id, heir, PeerLeft(id, reason, count));
      SucceedIs(st, sid, id, reason, heir);
      Conclude(Succeed(st, sid, id, reason, heir));
    }

    /** handleLeave when the owner has no other tab: the session ends for everyone. */
    method LeaveAndEnd(sid: SessionId, id: ClientId, ghost st: Service)
      requires Valid() && sid in rooms && InRoom(st, sid, id) && state == Withdrawn(st, sid, id)
      modifies this, rooms[sid], rooms[sid].clients.Values
      ensures Valid() && state == EndRoom(st, sid, id)
      ensures forall x :: x in old(rooms[sid].clients) ==>
        old(rooms[sid].clients)[x].Model() ==
          Rooms.Closed(Offered(old(state).rooms[sid].clients[x], Event(st.nextEvent, id, SessionEnded("owner_disconnected"))))
    {
      Disband(sid, id, SessionEnded("owner_disconnected"));
      DropDisbanded(sid, id, st);
    }

    method DropDisbanded(sid: SessionId, id: ClientId, ghost st: Service)
      requires Valid() && InRoom(st, sid, id) && state == Disbanded(Withdrawn(st, sid, id), sid)
      modifies this
      ensures Valid() && state == EndRoom(st, sid, id)
    {
      DropRoom(sid);
      EndRoomIs(st, sid, id);
      Conclude(EndRoom(st, sid, id));
    }

    /** handleLeave otherwise: PeerLeft to those who stay, and an empty room goes. */
    method LeaveOthers(sid: SessionId, id: ClientId, reason: string, count: nat, ghost st: Service)
      requires Valid() && sid in rooms && InRoom(st, sid, id) && state == Withdrawn(st, sid, id)
      requires count == |Rest(st, sid, id)|
      modifies this, rooms[sid].clients.Values
      ensures Valid() && state == if count == 0 then CloseRoom(st, sid, id) else Depart(st, sid, id, reason)
    {
      TellAll(sid, id, PeerLeft(id, reason, count));
      DepartIs(st, sid, id, reason);
      if count == 0 {
        DropRoom(sid);
        CloseRoomIs(st, sid, id, reason);
        Conclude(CloseRoom(st, sid, id));
      } else {
        Conclude(Depart(st, sid, id, reason));
      }
    }

    /** After RemoveClient, the owner gone and others left. */
    method OwnerLeft(sid: SessionId, id: ClientId, reason: string, count: nat, successor: Option<ClientId>, ghost st: Service)
      returns (o: Outcome)
      requires Valid() && sid in rooms && InRoom(st, sid, id) && state == Withdrawn(st, sid, id)
      requires successor.Some? ==> successor.value in rooms[sid].clients && successor.value in Rest(st, sid, id)
      requires count == |Rest(st, sid, id)|
      modifies this, rooms[sid], rooms[sid].clients.Values
      ensures Valid() && (state, o) == OwnerGone(st, sid, id, reason, successor)
    {
      if successor.Some? {
        LeaveToHeir(sid, id, reason, successor.value, count, st);
        o := LeftRoom(id, count);
      } else {
        LeaveAndEnd(sid, id, st);
        o := LeftRoom(id, 0);
      }
    }

    /** After RemoveClient: who takes over, who is told, whether the room goes. */
    method AfterLeave(sid: SessionId, id: ClientId, isOwner: bool, reason: string, count: nat, successor: Option<ClientId>, ghost st: Service)
      returns (o: Outcome)
      requires Valid() && sid in rooms && InRoom(st, sid, id) && state == Withdrawn(st, sid, id)
      requires successor.Some? ==> successor.value in rooms[sid].clients && successor.value in Rest(st, sid, id)
      requires count == |Rest(st, sid, id)|
      modifies this, rooms[sid], rooms[sid].clients.Values
      ensures Valid() && (state, o) == WithSuccessor(st, sid, id, isOwner, reason, successor)
    {
      if isOwner && count > 0 {
        o := OwnerLeft(sid, id, reason, count, successor, st);
      } else {
        LeaveOthers(sid, id, reason, count, st);
        o := LeftRoom(id, count);
      }
    }

    method FindHeir(sid: SessionId, id: ClientId, browserId: string) returns (heir: Option<ClientId>)
      requires Valid() && sid in rooms && id !in rooms[sid].clients
      ensures Valid()
      ensures heir.Some? ==> heir.value in rooms[sid].clients && heir.value in Heirs(state.rooms[sid].clients, browserId)
      ensures heir.None? ==> Heirs(state.rooms[sid].clients, browserId) == {}
    {
      heir := None;
      assert state.rooms[sid] == rooms[sid].Model();
      if browserId != "" {
        heir := rooms[sid].FindByBrowserId(browserId, id);
      }
    }

    /** handleLeave. */
    method HandleLeave(id: ClientId, reason: string) returns (o: Outcome, found: Option<SessionId>, ghost heir: ClientId)
      requires Valid()
      modifies this, rooms.Values, Clients()
      ensures Valid()
      ensures found.None? ==> state == old(state) && o.Failed? && forall s :: !InRoom(state, s, id)
      ensures found.Some? ==> Allowed(old(state), Leave(found.value, id, reason, heir))
                              && (state, o) == Rooms.HandleLeave(old(state), found.value, id, reason, heir)
    {
      heir := "";
      found := FindRoomForClient(id);
      if found.None? {
        return Failed("client not found in any room"), found, heir;
      }
      o, heir := LeaveRoom(found.value, id, reason);
    }

    /** handleLeave, the room found. */
    method LeaveRoom(sid: SessionId, id: ClientId, reason: string) returns (o: Outcome, ghost heir: ClientId)
      requires Valid() && sid in rooms && id in rooms[sid].clients
      modifies this, rooms[sid], rooms[sid].clients.Values
      ensures Valid() && Allowed(old(state), Leave(sid, id, reason, heir))
      ensures (state, o) == Rooms.HandleLeave(old(state), sid, id, reason, heir)
    {
      ghost var st := state;
      var isOwner, browserId := rooms[sid].clients[id].info.isOwner, rooms[sid].clients[id].browserId;
      assert st.rooms[sid] == rooms[sid].Model() && st.rooms[sid].clients[id] == rooms[sid].clients[id].Model();
      Withdraw(sid, id);
      o, heir := Succession(sid, id, isOwner, browserId, reason, st);
    }

    method Succession(sid: SessionId, id: ClientId, isOwner: bool, browserId: string, reason: string, ghost st: Service)
      returns (o: Outcome, ghost heir: ClientId)
      requires Valid() && sid in rooms && id !in rooms[sid].clients && InRoom(st, sid, id) && state == Withdrawn(st, sid, id)
      requires isOwner == st.rooms[sid].clients[id].info.isOwner && browserId == st.rooms[sid].clients[id].browserId
      modifies this, rooms[sid], rooms[sid].clients.Values
      ensures Valid() && Allowed(st, Leave(sid, id, reason, heir))
      ensures (state, o) == Rooms.HandleLeave(st, sid, id, reason, heir)
    {
      var successor;
      o, successor := Succeeded(sid, id, isOwner, browserId, reason, st);
      heir := NameHeir(st, sid, id, reason, successor);
    }

    method Succeeded(sid: SessionId, id: ClientId, isOwner: bool, browserId: string, reason: string, ghost st: Service)
      returns (o: Outcome, successor: Option<ClientId>)
      requires Valid() && sid in rooms && id !in rooms[sid].clients && InRoom(st, sid, id) && state == Withdrawn(st, sid, id)
      requires browserId == st.rooms[sid].clients[id].browserId
      modifies this, rooms[sid], rooms[sid].clients.Values
      ensures FoundHeir(st, sid, id, successor) && (successor.Some? ==> successor.value in Rest(st, sid, id))
      ensures Valid() && (state, o) == WithSuccessor(st, sid, id, isOwner, reason, successor)
    {
      var count := CountRest(sid, id, st);
      successor := FindSuccessor(sid, id, browserId, st);
      o := AfterLeave(sid, id, isOwner, reason, count, successor, st);
    }

    method FindSuccessor(sid: SessionId, id: ClientId, browserId: string, ghost st: Service) returns (successor: Option<ClientId>)
      requires Valid() && sid in rooms && id !in rooms[sid].clients && InRoom(st, sid, id) && state == Withdrawn(st, sid, id)
      requires browserId == st.rooms[sid].clients[id].browserId
      ensures Valid()
      ensures successor.Some? ==> successor.value in rooms[sid].clients && successor.value in Rest(st, sid, id)
      ensures FoundHeir(st, sid, id, successor)
    {
      successor := FindHeir(sid, id, browserId);
      WithdrawnRest(st, sid, id);
    }

    method CountRest(sid: SessionId, id: ClientId, ghost st: Service) returns (count: nat)
      requires Valid() && sid in rooms && InRoom(st, sid, id) && state == Withdrawn(st, sid, id)
      ensures Valid()
      ensures count == |Rest(st, sid, id)|
    {
      count := CountIn(sid);
      WithdrawnRest(st, sid, id);
    }

    /** handleBroadcast and its like: one client's message, relayed. */
    method HandleBroadcast(id: ClientId, b: Body) returns (o: Outcome, found: Option<SessionId>)
      requires Valid() && Relayable(b)
      modifies this, rooms.Values, Clients()
      ensures Valid()
      ensures found.None? ==> state == old(state) && o.Failed? && forall s :: !InRoom(state, s, id)
      ensures found.Some? ==> InRoom(old(state), found.value, id) && (state, o) == Relay(old(state), found.value, id, b)
    {
      found := FindRoomForClient(id);
      if found.None? {
        return Failed("client not found in any room"), found;
      }
      o := Fan(found.value, id, b);
    }

    /** DeliverAppMessage, on behalf of the embedding server. */
    method DeliverAppMessage(sid: SessionId, from: ClientId, kind: string, content: string, to: seq<ClientId>) returns (o: Outcome)
      requires Valid()
      modifies this, rooms.Values, Clients()
      ensures Valid()
      ensures if sid in old(state).rooms then (state, o) == Relay(old(state), sid, from, AppMessage(kind, content, to))
              else state == old(state) && o == Failed("room not found")
    {
      if sid !in rooms {
        return Failed("room not found");
      }
      o := Fan(sid, from, AppMessage(kind, content, to));
    }
  }
}
