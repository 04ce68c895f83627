/** What every handler call keeps of the room table: ids, capacity, admission, ownership,
    hints and the metrics. */
module RoomTable {
  import opened Options
  import opened Protocol
  import opened Identity
  import opened Rooms

  // ---------- one room ----------

  /** The same clients but for what is in their pipes. */
  ghost predicate SameFaces(a: map<ClientId, Client>, b: map<ClientId, Client>) {
    a.Keys == b.Keys && forall id :: id in a ==> b[id] == a[id].(pipe := b[id].pipe)
  }

  /** An owner is a member flagged as one; every flagged member shares the owner's browser;
      a room without an owner flags nobody. */
  predicate OwnerOk(room: Room) {
    && (room.ownerId != "" ==> room.ownerId in room.clients && room.clients[room.ownerId].info.isOwner)
    && (forall id :: id in room.clients && room.clients[id].info.isOwner ==> room.clients[id].browserId == room.ownerBrowser)
    && (room.ownerId == "" ==> forall id :: id in room.clients ==> !room.clients[id].info.isOwner)
  }

  predicate RoomOk(maxPeers: int, sid: SessionId, room: Room) {
    && (forall id :: id in room.clients ==> room.clients[id].info.clientId == id && id != "")
    && (maxPeers > 0 ==> |room.clients.Keys| <= maxPeers)
    && (forall id :: id in room.clients ==> AllowsRoom(room.clients[id].principal, sid))
    && OwnerOk(room)
  }

  lemma FacesKeepRoomOk(maxPeers: int, sid: SessionId, room: Room, changed: Room)
    requires RoomOk(maxPeers, sid, room) && SameFaces(room.clients, changed.clients)
    requires changed.ownerId == room.ownerId && changed.ownerBrowser == room.ownerBrowser
    ensures RoomOk(maxPeers, sid, changed)
  {
  }

  // ---------- counting peers ----------

  type Roll = map<SessionId, set<ClientId>>

  function RollOf(rooms: map<SessionId, Room>): Roll {
    map sid | sid in rooms :: rooms[sid].clients.Keys
  }

  function Seats(roll: Roll): set<(SessionId, ClientId)> {
    set sid, id | sid in roll && id in roll[sid] :: (sid, id)
  }

  function Row(sid: SessionId, ids: set<ClientId>): set<(SessionId, ClientId)> {
    set id | id in ids :: (sid, id)
  }

  lemma {:induction false} RowSize(sid: SessionId, ids: set<ClientId>)
    ensures |Row(sid, ids)| == |ids|
  {
    if ids != {} {
      var id :| id in ids;
      RowSize(sid, ids - {id});
      assert Row(sid, ids) == Row(sid, ids - {id}) + {(sid, id)};
    }
  }

  lemma SeatsWithout(roll: Roll, sid: SessionId)
    requires sid in roll
    ensures |Seats(roll)| == |Seats(roll - {sid})| + |roll[sid]|
  {
    var others := roll - {sid};
    RowSize(sid, roll[sid]);
    forall x: (SessionId, ClientId)
      ensures x in Seats(roll) <==> x in Seats(others) || x in Row(sid, roll[sid])
    {
    }
    assert Seats(others) !! Row(sid, roll[sid]);
    assert Seats(roll) == Seats(others) + Row(sid, roll[sid]);
  }

  /** Peers present, over all rooms. */
  function PeerTotal(rooms: map<SessionId, Room>): nat {
    |Seats(RollOf(rooms))|
  }

  lemma PeerTotalWithout(rooms: map<SessionId, Room>, sid: SessionId)
    requires sid in rooms
    ensures PeerTotal(rooms) == PeerTotal(rooms - {sid}) + |rooms[sid].clients.Keys|
  {
    SeatsWithout(RollOf(rooms), sid);
    assert RollOf(rooms - {sid}) == RollOf(rooms) - {sid};
  }

  lemma SeatsWith(roll: Roll, sid: SessionId, ids: set<ClientId>)
    ensures |Seats(roll[sid := ids])| + (if sid in roll then |roll[sid]| else 0) == |Seats(roll)| + |ids|
  {
    SeatsWithout(roll[sid := ids], sid);
    assert roll[sid := ids] - {sid} == roll - {sid};
    if sid in roll {
      SeatsWithout(roll, sid);
    } else {
      assert roll - {sid} == roll;
    }
  }

  lemma PeerTotalWith(rooms: map<SessionId, Room>, sid: SessionId, room: Room)
    ensures PeerTotal(rooms[sid := room]) + (if sid in rooms then |rooms[sid].clients.Keys| else 0)
         == PeerTotal(rooms) + |room.clients.Keys|
  {
    SeatsWith(RollOf(rooms), sid, room.clients.Keys);
    assert RollOf(rooms[sid := room]) == RollOf(rooms)[sid := room.clients.Keys];
  }

  // ---------- the table ----------

  ghost predicate RoomsOk(st: Service) {
    forall sid :: sid in st.rooms ==> RoomOk(st.maxPeers, sid, st.rooms[sid])
  }

  /** A client id is in one room at most, and never given out twice. */
  ghost predicate IdsOk(st: Service) {
    && (forall sid, id :: InRoom(st, sid, id) ==> id in st.issued && id !in st.departed)
    && (forall s1, s2, id :: InRoom(st, s1, id) && InRoom(st, s2, id) ==> s1 == s2)
    && st.departed.Keys <= st.issued
  }

  ghost predicate HintsOk(st: Service) {
    forall h :: h in st.hints ==> st.hints[h] in st.rooms || st.hints[h] in st.refused
  }

  /** OnRoomCreated less OnRoomRemoved counts the rooms; OnPeerJoined less OnPeerLeft counts
      the peers present and those CloseAllClients took out. */
  predicate CountsOk(st: Service) {
    && st.created == st.removed + |st.rooms.Keys|
    && st.joined == st.left + PeerTotal(st.rooms) + st.ejected
  }

  ghost predicate TableInv(st: Service) {
    RoomsOk(st) && IdsOk(st) && HintsOk(st) && CountsOk(st)
  }

  lemma NewServiceInv(maxPeers: int)
    ensures TableInv(NewService(maxPeers))
  {
  }

  lemma RoomsOkWith(st: Service, next: Service, sid: SessionId, room: Room)
    requires RoomsOk(st) && RoomOk(st.maxPeers, sid, room)
    requires next.rooms == st.rooms[sid := room] && next.maxPeers == st.maxPeers
    ensures RoomsOk(next)
  {
  }

  ghost predicate SameMembers(st: Service, next: Service) {
    forall s, id :: InRoom(next, s, id) <==> InRoom(st, s, id)
  }

  lemma SameMembersKeepIds(st: Service, next: Service)
    requires IdsOk(st) && SameMembers(st, next) && next.issued == st.issued && next.departed.Keys == st.departed.Keys
    ensures IdsOk(next)
  {
  }

  lemma SameFacesKeepMembers(st: Service, next: Service, sid: SessionId, room: Room)
    requires sid in st.rooms && room.clients.Keys == st.rooms[sid].clients.Keys
    requires next.rooms == st.rooms[sid := room]
    ensures SameMembers(st, next)
  {
  }

  lemma CountsWith(st: Service, next: Service, sid: SessionId, room: Room)
    requires CountsOk(st) && next.rooms == st.rooms[sid := room]
    requires next.removed == st.removed && next.left == st.left && next.ejected == st.ejected
    requires next.created == st.created + (if sid in st.rooms then 0 else 1)
    requires next.joined + (if sid in st.rooms then |st.rooms[sid].clients.Keys| else 0) == st.joined + |room.clients.Keys|
    ensures CountsOk(next)
  {
    PeerTotalWith(st.rooms, sid, room);
    assert next.rooms.Keys == st.rooms.Keys + {sid};
  }

  /** A room replaced by one with the same faces. */
  lemma SameFacesKeepTable(st: Service, next: Service, sid: SessionId, room: Room)
    requires TableInv(st) && sid in st.rooms && SameFaces(st.rooms[sid].clients, room.clients)
    requires room.ownerId == st.rooms[sid].ownerId && room.ownerBrowser == st.rooms[sid].ownerBrowser
    requires next == st.(rooms := st.rooms[sid := room], nextEvent := next.nextEvent, at := next.at)
    ensures TableInv(next)
  {
    FacesKeepRoomOk(st.maxPeers, sid, st.rooms[sid], room);
    RoomsOkWith(st, next, sid, room);
    SameFacesKeepMembers(st, next, sid, room);
    SameMembersKeepIds(st, next);
    CountsWith(st, next, sid, room);
  }

  // ---------- join ----------

  /** Steps that leave the rooms alone keep the table if they keep the hints. */
  lemma SameRoomsKeepTable(st: Service, next: Service)
    requires RoomsOk(st) && IdsOk(st) && CountsOk(st) && HintsOk(next)
    requires next == st.(hints := next.hints, refused := next.refused)
    ensures TableInv(next)
  {
    assert SameMembers(st, next);
    SameMembersKeepIds(st, next);
  }

  lemma OpenedRoom(st: Service, sid: SessionId)
    requires RoomsOk(st) && IdsOk(st) && CountsOk(st) && sid !in st.rooms
    ensures var next := GetOrCreateRoom(st, sid); RoomsOk(next) && IdsOk(next) && CountsOk(next)
  {
    var next := GetOrCreateRoom(st, sid);
    assert SameMembers(st, next);
    SameMembersKeepIds(st, next);
    RoomsOkWith(st, next, sid, EMPTY_ROOM);
    CountsWith(st, next, sid, EMPTY_ROOM);
  }

  lemma IndexedAndRefused(st: Service, hint: string, sid: SessionId)
    requires TableInv(st)
    ensures var indexed := IndexHint(st, hint, sid); TableInv(indexed.(refused := indexed.refused + {sid}))
  {
    var indexed := IndexHint(st, hint, sid);
    SameRoomsKeepTable(st, indexed.(refused := indexed.refused + {sid}));
  }

  lemma IndexedAndOpened(st: Service, hint: string, sid: SessionId)
    requires TableInv(st)
    ensures TableInv(GetOrCreateRoom(IndexHint(st, hint, sid), sid))
  {
    var made := GetOrCreateRoom(st, sid);
    if sid !in st.rooms {
      OpenedRoom(st, sid);
    }
    SameRoomsKeepTable(made, GetOrCreateRoom(IndexHint(st, hint, sid), sid));
  }

  lemma IndexedOrRefused(st: Service, hint: string, sid: SessionId)
    requires TableInv(st)
    ensures var indexed := IndexHint(st, hint, sid);
            && TableInv(indexed.(refused := indexed.refused + {sid}))
            && TableInv(GetOrCreateRoom(indexed, sid))
  {
    IndexedAndRefused(st, hint, sid);
    IndexedAndOpened(st, hint, sid);
  }

  lemma OfferToFaces(clients: map<ClientId, Client>, e: Event, to: set<ClientId>)
    ensures SameFaces(clients, OfferTo(clients, e, to))
  {
  }

  lemma OfferEachFaces(clients: map<ClientId, Client>, e: Event, to: set<ClientId>)
    ensures SameFaces(clients, OfferEach(clients, e, to))
  {
  }

  /** The room after a newcomer was let in, up to what the others were told. */
  lemma AdmittedRoomOk(maxPeers: int, sid: SessionId, room: Room, c: Client, entered: Room)
    requires RoomOk(maxPeers, sid, room) && c.info.clientId !in room.clients && c.info.clientId != ""
    requires AllowsRoom(c.principal, sid)
    requires maxPeers > 0 ==> |room.clients.Keys| < maxPeers
    requires c.info.isOwner && room.ownerId != "" ==> room.ownerBrowser == c.browserId
    requires SameFaces(room.clients[c.info.clientId := c], entered.clients)
    requires entered.ownerId == (if c.info.isOwner then c.info.clientId else room.ownerId)
    requires entered.ownerBrowser == (if c.info.isOwner then c.browserId else room.ownerBrowser)
    ensures RoomOk(maxPeers, sid, entered)
  {
    var id := c.info.clientId;
    var grown := Room(room.clients[id := c], entered.ownerId, entered.ownerBrowser, entered.encrypted, entered.title);
    assert grown.clients.Keys == room.clients.Keys + {id};
    AdmittedOwnerOk(room, c, grown);
    FacesKeepRoomOk(maxPeers, sid, grown, entered);
  }

  lemma AdmittedOwnerOk(room: Room, c: Client, grown: Room)
    requires OwnerOk(room) && grown.clients == room.clients[c.info.clientId := c] && c.info.clientId != ""
    requires c.info.clientId !in room.clients
    requires c.info.isOwner && room.ownerId != "" ==> room.ownerBrowser == c.browserId
    requires grown.ownerId == (if c.info.isOwner then c.info.clientId else room.ownerId)
    requires grown.ownerBrowser == (if c.info.isOwner then c.browserId else room.ownerBrowser)
    ensures OwnerOk(grown)
  {
  }

  /** What `next` is to `st` when client c was let into room sid. */
  ghost predicate Seats1(st: Service, next: Service, sid: SessionId, c: Client)
    requires sid in st.rooms
  {
    && sid in next.rooms
    && next == st.(rooms := st.rooms[sid := next.rooms[sid]], issued := st.issued + {c.info.clientId},
                   joined := st.joined + 1, nextEvent := next.nextEvent, at := next.at)
    && SameFaces(st.rooms[sid].clients[c.info.clientId := c], next.rooms[sid].clients)
    && next.rooms[sid].ownerId == (if c.info.isOwner then c.info.clientId else st.rooms[sid].ownerId)
    && next.rooms[sid].ownerBrowser == (if c.info.isOwner then c.browserId else st.rooms[sid].ownerBrowser)
  }

  lemma AdmitSeats(st: Service, sid: SessionId, p: Option<Principal>, j: JoinRequest, id: ClientId)
    requires sid in st.rooms && id !in st.rooms[sid].clients
    ensures Seats1(st, Admit(st, sid, p, j, id).0, sid, Newcomer(st, sid, p, j, id))
  {
  }

  lemma SeatedIds(st: Service, next: Service, sid: SessionId, id: ClientId)
    requires IdsOk(st) && sid in st.rooms && id !in st.issued && sid in next.rooms
    requires next.rooms == st.rooms[sid := next.rooms[sid]]
    requires next.rooms[sid].clients.Keys == st.rooms[sid].clients.Keys + {id}
    requires next.issued == st.issued + {id} && next.departed == st.departed
    ensures IdsOk(next)
  {
    assert forall s, k :: InRoom(next, s, k) <==> InRoom(st, s, k) || (s == sid && k == id);
    assert forall s :: InRoom(st, s, id) ==> id in st.issued;
  }

  predicate MayEnter(maxPeers: int, sid: SessionId, room: Room, c: Client) {
    && c.info.clientId != "" && c.info.clientId !in room.clients && AllowsRoom(c.principal, sid)
    && (maxPeers > 0 ==> |room.clients.Keys| < maxPeers)
    && (c.info.isOwner && room.ownerId != "" ==> room.ownerBrowser == c.browserId)
  }

  lemma SeatedInTable(st: Service, next: Service, sid: SessionId, c: Client)
    requires TableInv(st) && sid in st.rooms && c.info.clientId !in st.issued
    requires MayEnter(st.maxPeers, sid, st.rooms[sid], c) && Seats1(st, next, sid, c)
    ensures TableInv(next)
  {
    AdmittedRoomOk(st.maxPeers, sid, st.rooms[sid], c, next.rooms[sid]);
    assert next.rooms[sid].clients.Keys == st.rooms[sid].clients.Keys + {c.info.clientId};
    RoomsOkWith(st, next, sid, next.rooms[sid]);
    SeatedIds(st, next, sid, c.info.clientId);
    CountsWith(st, next, sid, next.rooms[sid]);
  }

  lemma FreshIsNotInRoom(st: Service, sid: SessionId, id: ClientId)
    requires IdsOk(st) && sid in st.rooms && id !in st.issued
    ensures id !in st.rooms[sid].clients
  {
    assert InRoom(st, sid, id) ==> id in st.issued;
  }

  /** A join is turned away, perhaps after declaring the room encrypted, or the newcomer
      fits the room and is seated. */
  lemma EnterCases(st: Service, sid: SessionId, p: Option<Principal>, j: JoinRequest, id: ClientId)
    requires sid in st.rooms && id != "" && id !in st.rooms[sid].clients && AllowsRoom(p, sid)
    ensures var next := EnterRoom(st, sid, p, j, id).0;
            var declared := Declared(st, sid, j);
            || next == st
            || next == declared
            || (&& next == Admit(declared, sid, p, j, id).0
                && MayEnter(st.maxPeers, sid, declared.rooms[sid], Newcomer(declared, sid, p, j, id)))
  {
    assert |st.rooms[sid].clients| == |st.rooms[sid].clients.Keys|;
  }

  lemma DeclaredKeepsTable(st: Service, sid: SessionId, j: JoinRequest)
    requires TableInv(st) && sid in st.rooms
    ensures TableInv(Declared(st, sid, j))
  {
    SameFacesKeepTable(st, Declared(st, sid, j), sid, Declared(st, sid, j).rooms[sid]);
  }

  lemma EnterKeepsTable(st: Service, sid: SessionId, p: Option<Principal>, j: JoinRequest, id: ClientId)
    requires TableInv(st) && sid in st.rooms && id !in st.issued && id != "" && AllowsRoom(p, sid)
    ensures TableInv(EnterRoom(st, sid, p, j, id).0)
  {
    FreshIsNotInRoom(st, sid, id);
    EnterCases(st, sid, p, j, id);
    DeclaredKeepsTable(st, sid, j);
    var next, declared := EnterRoom(st, sid, p, j, id).0, Declared(st, sid, j);
    if next != st && next != declared {
      AdmitSeats(declared, sid, p, j, id);
      SeatedInTable(declared, next, sid, Newcomer(declared, sid, p, j, id));
    }
  }

  /** A token that may join without naming a session may join any. */
  lemma ResolvedIsAllowed(st: Service, p: Option<Principal>, j: JoinRequest, newSession: SessionId)
    requires AllowsRoom(p, j.sessionId)
    ensures AllowsRoom(p, Resolve(st, j, newSession))
  {
  }

  lemma JoinKeepsTable(st: Service, p: Option<Principal>, j: JoinRequest, newSession: SessionId, id: ClientId)
    requires TableInv(st) && id !in st.issued && id != ""
    ensures TableInv(HandleJoin(st, p, j, newSession, id).0)
  {
    if AllowsRoom(p, j.sessionId) {
      var sid := Resolve(st, j, newSession);
      ResolvedIsAllowed(st, p, j, newSession);
      IndexedOrRefused(st, j.hint, sid);
      var entered := GetOrCreateRoom(IndexHint(st, j.hint, sid), sid);
      EnterKeepsTable(entered, sid, p, j, id);
    }
  }

  // ---------- leave ----------

  /** What `next` is to `st` when `id` left room sid and the room stayed, its clients renamed `room`. */
  ghost predicate Unseats(st: Service, next: Service, sid: SessionId, id: ClientId, room: Room)
    requires InRoom(st, sid, id)
  {
    && next == st.(rooms := st.rooms[sid := room], departed := next.departed, left := st.left + 1,
                   nextEvent := next.nextEvent, at := next.at)
    && next.departed.Keys == st.departed.Keys + {id}
    && room.clients.Keys == st.rooms[sid].clients.Keys - {id}
  }

  lemma UnseatedIds(st: Service, next: Service, sid: SessionId, id: ClientId, room: Room)
    requires IdsOk(st) && InRoom(st, sid, id) && Unseats(st, next, sid, id, room)
    ensures IdsOk(next)
  {
    forall s, k
      ensures InRoom(next, s, k) <==> InRoom(st, s, k) && !(s == sid && k == id)
    {
    }
    assert forall s :: InRoom(next, s, id) ==> InRoom(st, s, id) && s != sid;
  }

  lemma UnseatedInTable(st: Service, next: Service, sid: SessionId, id: ClientId, room: Room)
    requires TableInv(st) && InRoom(st, sid, id)
    requires Unseats(st, next, sid, id, room) && RoomOk(st.maxPeers, sid, room)
    ensures TableInv(next)
  {
    RoomsOkWith(st, next, sid, room);
    UnseatedIds(st, next, sid, id, room);
    PeerTotalWith(st.rooms, sid, room);
    assert next.rooms.Keys == st.rooms.Keys;
  }

  /** What `next` is to `st` when room sid went, and everybody in it. */
  ghost predicate Drops(st: Service, next: Service, sid: SessionId, ejected: nat)
    requires sid in st.rooms
  {
    && next == st.(rooms := st.rooms - {sid}, hints := HintsWithout(st.hints, sid), removed := st.removed + 1,
                   departed := next.departed, left := st.left + 1, ejected := st.ejected + ejected,
                   nextEvent := next.nextEvent, at := next.at)
    && next.departed.Keys == st.departed.Keys + st.rooms[sid].clients.Keys
  }

  lemma DroppedIds(st: Service, next: Service, sid: SessionId, ejected: nat)
    requires IdsOk(st) && sid in st.rooms && Drops(st, next, sid, ejected)
    ensures IdsOk(next)
  {
    forall s, k
      ensures InRoom(next, s, k) <==> InRoom(st, s, k) && s != sid
    {
    }
    assert forall k :: k in st.rooms[sid].clients ==> InRoom(st, sid, k);
  }

  lemma DroppedCounts(st: Service, next: Service, sid: SessionId, ejected: nat)
    requires CountsOk(st) && sid in st.rooms
    requires Drops(st, next, sid, ejected) && |st.rooms[sid].clients.Keys| == ejected + 1
    ensures CountsOk(next)
  {
    PeerTotalWithout(st.rooms, sid);
    assert next.rooms.Keys == st.rooms.Keys - {sid};
  }

  lemma DroppedFromTable(st: Service, next: Service, sid: SessionId, ejected: nat)
    requires TableInv(st) && sid in st.rooms
    requires Drops(st, next, sid, ejected) && |st.rooms[sid].clients.Keys| == ejected + 1
    ensures TableInv(next)
  {
    DroppedIds(st, next, sid, ejected);
    DroppedCounts(st, next, sid, ejected);
    assert RoomsOk(next) && HintsOk(next);
  }

  lemma RestSize(st: Service, sid: SessionId, id: ClientId)
    requires InRoom(st, sid, id)
    ensures var rest := Rest(st, sid, id);
            && rest.Keys == st.rooms[sid].clients.Keys - {id}
            && |rest| == |rest.Keys| == |st.rooms[sid].clients.Keys| - 1
            && |st.rooms[sid].clients| == |st.rooms[sid].clients.Keys|
  {
  }

  lemma SmallerRoomOk(maxPeers: int, sid: SessionId, room: Room, id: ClientId, smaller: Room)
    requires RoomOk(maxPeers, sid, room) && id in room.clients && !room.clients[id].info.isOwner
    requires SameFaces(room.clients - {id}, smaller.clients)
    requires smaller.ownerId == room.ownerId && smaller.ownerBrowser == room.ownerBrowser
    ensures RoomOk(maxPeers, sid, smaller)
  {
    assert smaller.clients.Keys == room.clients.Keys - {id};
    assert |smaller.clients.Keys| <= |room.clients.Keys|;
  }

  lemma DepartUnseats(st: Service, sid: SessionId, id: ClientId, reason: string)
    requires InRoom(st, sid, id)
    ensures var next := Depart(st, sid, id, reason);
            && sid in next.rooms && Unseats(st, next, sid, id, next.rooms[sid])
            && SameFaces(Rest(st, sid, id), next.rooms[sid].clients)
            && next.rooms[sid].ownerId == st.rooms[sid].ownerId
            && next.rooms[sid].ownerBrowser == st.rooms[sid].ownerBrowser
  {
    var rest := Rest(st, sid, id);
    OfferToFaces(rest, Event(st.nextEvent, id, PeerLeft(id, reason, |rest|)), rest.Keys);
  }

  lemma DepartKeepsTable(st: Service, sid: SessionId, id: ClientId, reason: string)
    requires TableInv(st) && InRoom(st, sid, id) && !st.rooms[sid].clients[id].info.isOwner
    ensures TableInv(Depart(st, sid, id, reason))
  {
    var next := Depart(st, sid, id, reason);
    DepartUnseats(st, sid, id, reason);
    SmallerRoomOk(st.maxPeers, sid, st.rooms[sid], id, next.rooms[sid]);
    UnseatedInTable(st, next, sid, id, next.rooms[sid]);
  }

  lemma CloseRoomDrops(st: Service, sid: SessionId, id: ClientId)
    requires InRoom(st, sid, id) && Rest(st, sid, id) == map[]
    ensures Drops(st, CloseRoom(st, sid, id), sid, 0) && |st.rooms[sid].clients.Keys| == 1
  {
    assert Rest(st, sid, id).Keys == {};
    assert st.rooms[sid].clients.Keys == {id};
  }

  lemma CloseRoomKeepsTable(st: Service, sid: SessionId, id: ClientId)
    requires TableInv(st) && InRoom(st, sid, id) && Rest(st, sid, id) == map[]
    ensures TableInv(CloseRoom(st, sid, id))
  {
    CloseRoomDrops(st, sid, id);
    DroppedFromTable(st, CloseRoom(st, sid, id), sid, 0);
  }

  /** The heir becomes the room's owner in a room that is otherwise the smaller one. */
  lemma CrownedRoomOk(maxPeers: int, sid: SessionId, room: Room, id: ClientId, heir: ClientId, crowned: Room)
    requires RoomOk(maxPeers, sid, room) && id in room.clients && room.clients[id].info.isOwner
    requires heir in Heirs(room.clients - {id}, room.clients[id].browserId)
    requires SameFaces(Crowned(room.clients - {id}, heir), crowned.clients)
    requires crowned.ownerId == heir && crowned.ownerBrowser == room.ownerBrowser
    ensures RoomOk(maxPeers, sid, crowned)
  {
    assert crowned.clients.Keys == room.clients.Keys - {id};
    assert |crowned.clients.Keys| <= |room.clients.Keys|;
  }

  lemma SameFacesTwice(a: map<ClientId, Client>, b: map<ClientId, Client>, c: map<ClientId, Client>)
    requires SameFaces(a, b) && SameFaces(b, c)
    ensures SameFaces(a, c)
  {
  }

  lemma InformedFaces(clients: map<ClientId, Client>, first: Event, second: Event)
    ensures SameFaces(clients, Informed(clients, first, second))
  {
    OfferToFaces(clients, first, clients.Keys);
    OfferToFaces(OfferTo(clients, first, clients.Keys), second, clients.Keys);
    SameFacesTwice(clients, OfferTo(clients, first, clients.Keys), Informed(clients, first, second));
  }

  lemma SucceedFaces(st: Service, sid: SessionId, id: ClientId, reason: string, heir: ClientId)
    requires InRoom(st, sid, id) && heir in Rest(st, sid, id)
    ensures var next := Succeed(st, sid, id, reason, heir);
            && sid in next.rooms
            && SameFaces(Crowned(Rest(st, sid, id), heir), next.rooms[sid].clients)
            && next.rooms[sid].ownerId == heir && next.rooms[sid].ownerBrowser == st.rooms[sid].ownerBrowser
  {
    var rest, n := Rest(st, sid, id), st.nextEvent;
    InformedFaces(Crowned(rest, heir), Event(n, id, OwnerChanged(heir)), Event(n + 1, id, PeerLeft(id, reason, |rest|)));
  }

  lemma SucceedUnseats(st: Service, sid: SessionId, id: ClientId, reason: string, heir: ClientId)
    requires InRoom(st, sid, id) && heir in Rest(st, sid, id)
    ensures var next := Succeed(st, sid, id, reason, heir);
            sid in next.rooms && Unseats(st, next, sid, id, next.rooms[sid])
  {
  }

  lemma SucceedKeepsTable(st: Service, sid: SessionId, id: ClientId, reason: string, heir: ClientId)
    requires TableInv(st) && InRoom(st, sid, id) && st.rooms[sid].clients[id].info.isOwner
    requires heir in Heirs(Rest(st, sid, id), st.rooms[sid].clients[id].browserId)
    ensures TableInv(Succeed(st, sid, id, reason, heir))
  {
    var next := Succeed(st, sid, id, reason, heir);
    SucceedFaces(st, sid, id, reason, heir);
    SucceedUnseats(st, sid, id, reason, heir);
    CrownedRoomOk(st.maxPeers, sid, st.rooms[sid], id, heir, next.rooms[sid]);
    UnseatedInTable(st, next, sid, id, next.rooms[sid]);
  }

  lemma EndRoomDrops(st: Service, sid: SessionId, id: ClientId)
    requires InRoom(st, sid, id)
    ensures Drops(st, EndRoom(st, sid, id), sid, |Rest(st, sid, id)|)
  {
  }

  lemma EndRoomKeepsTable(st: Service, sid: SessionId, id: ClientId)
    requires TableInv(st) && InRoom(st, sid, id)
    ensures TableInv(EndRoom(st, sid, id))
  {
    RestSize(st, sid, id);
    EndRoomDrops(st, sid, id);
    DroppedFromTable(st, EndRoom(st, sid, id), sid, |Rest(st, sid, id)|);
  }

  lemma LeaveKeepsTable(st: Service, sid: SessionId, id: ClientId, reason: string, heir: ClientId)
    requires TableInv(st) && InRoom(st, sid, id)
    ensures TableInv(HandleLeave(st, sid, id, reason, heir).0)
  {
    match KindOf(st, sid, id, heir) {
      case Departs => DepartKeepsTable(st, sid, id, reason);
      case Succeeds => SucceedKeepsTable(st, sid, id, reason, heir);
      case EndsRoom => EndRoomKeepsTable(st, sid, id);
      case ClosesRoom => CloseRoomKeepsTable(st, sid, id);
    }
  }

  // ---------- relaying and streams ----------

  lemma HeardFaces(clients: map<ClientId, Client>, e: Event)
    ensures SameFaces(clients, Heard(clients, e))
  {
    OfferToFaces(clients, e, clients.Keys - {e.from});
    if IsAddressed(e.body) {
      OfferEachFaces(clients, e, Ids(e.body.toClientIds));
    }
  }

  lemma RelayKeepsTable(st: Service, sid: SessionId, from: ClientId, b: Body)
    requires TableInv(st) && sid in st.rooms
    ensures TableInv(Relay(st, sid, from, b).0)
  {
    var next := Relay(st, sid, from, b).0;
    HeardFaces(st.rooms[sid].clients, Event(st.nextEvent, from, b));
    SameFacesKeepTable(st, next, sid, next.rooms[sid]);
  }

  lemma StreamKeepsTable(st: Service, s: Step)
    requires TableInv(st) && Allowed(st, s) && (s.MemberStream? || s.DepartedStream?)
    ensures TableInv(Next(st, s))
  {
    var next := Next(st, s);
    if s.MemberStream? {
      SameFacesKeepTable(st, next, s.sid, next.rooms[s.sid]);
    } else {
      assert SameMembers(st, next);
      assert next.departed.Keys == st.departed.Keys;
      SameMembersKeepIds(st, next);
    }
  }

  lemma StepKeepsTable(st: Service, s: Step)
    requires TableInv(st) && Allowed(st, s)
    ensures TableInv(Next(st, s))
  {
    match s {
      case Join(p, j, newSession, newClient) => JoinKeepsTable(st, p, j, newSession, newClient);
      case Leave(sid, id, reason, heir) => LeaveKeepsTable(st, sid, id, reason, heir);
      case Send(sid, id, body) => RelayKeepsTable(st, sid, id, body);
      case ServerMessage(sid, from, kind, content, to) => RelayKeepsTable(st, sid, from, AppMessage(kind, content, to));
      case MemberStream(_, _, _) => StreamKeepsTable(st, s);
      case DepartedStream(_, _) => StreamKeepsTable(st, s);
    }
  }

  /** The table invariant holds after every run of handler calls and stream steps. */
  lemma {:induction false} RunKeepsTable(st: Service, steps: seq<Step>)
    requires TableInv(st) && Execute(st, steps).Some?
    ensures TableInv(Execute(st, steps).value)
    decreases |steps|
  {
    if steps != [] {
      StepKeepsTable(st, steps[0]);
      RunKeepsTable(Next(st, steps[0]), steps[1..]);
    }
  }
}
