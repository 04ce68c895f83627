/**
 The room service: what each handler call does to the room table, the hint index and the
 members' channels. One handler call is one step. Each member carries the whole delivery
 pipe behind its SendCh, so the service's runs are also runs of the delivery protocol.
 */
module Rooms {
  import opened Options
  import opened Protocol
  import opened Delivery
  import opened NoGap
  import opened Identity

  datatype Client = Client(
    info: PeerInfo,
    browserId: string,
    principal: Option<Principal>,
    welcome: Event,                 // the RoomJoined this client was answered with
    pipe: Pipe)

  datatype Room = Room(
    clients: map<ClientId, Client>,
    ownerId: ClientId,              // "" while the room has no owner
    ownerBrowser: string,
    encrypted: bool,
    title: string)

  datatype Crowd = Crowd(sid: SessionId, members: set<ClientId>)

  datatype Service = Service(
    rooms: map<SessionId, Room>,
    hints: map<string, SessionId>,
    maxPeers: int,                  // 0 or less: no limit
    nextEvent: nat,                 // event ids handed out so far
    issued: set<ClientId>,          // history: client ids ever given out
    departed: map<ClientId, Client>, // history: clients no longer in a room, with their pipes
    refused: set<SessionId>,        // history: sessions some join was refused ROOM_NOT_FOUND for
    at: map<nat, Crowd>,            // history: the membership each room event leaves its receivers with
    created: nat, removed: nat,     // OnRoomCreated, OnRoomRemoved
    joined: nat, left: nat,         // OnPeerJoined, OnPeerLeft
    ejected: nat)                   // peers taken out by CloseAllClients

  function Recorded(at: map<nat, Crowd>, n: nat, crowd: Crowd): map<nat, Crowd> {
    at[n := crowd]
  }

  function RecordedTwice(at: map<nat, Crowd>, n: nat, first: Crowd, second: Crowd): map<nat, Crowd> {
    at[n := first][n + 1 := second]
  }

  datatype JoinRequest = JoinRequest(
    username: string, isOwner: bool, browserId: string, hint: string, sessionId: SessionId,
    encrypted: bool, protocolVersion: int, mustExist: bool, title: string,
    connection: Stream)             // the stream it came on

  datatype Outcome =
    | Joined(welcome: Event)
    | LeftRoom(clientId: ClientId, peerCount: nat)
    | Refused(code: string, missing: seq<ClientId>)
    | Silent
    | Failed(error: string)

  const ROOM_FORBIDDEN := "ROOM_FORBIDDEN"
  const ROOM_NOT_FOUND := "ROOM_NOT_FOUND"
  const ROOM_FULL := "ROOM_FULL"
  const PROTOCOL_VERSION_TOO_OLD := "PROTOCOL_VERSION_TOO_OLD"
  const PEER_NOT_FOUND := "PEER_NOT_FOUND"

  function NewService(maxPeers: int): Service {
    Service(map[], map[], maxPeers, 0, {}, map[], {}, map[], 0, 0, 0, 0, 0)
  }

  const EMPTY_ROOM := Room(map[], "", "", false, "")

  // ---------- broadcasting ----------

  function Offered(c: Client, e: Event): Client {
    c.(pipe := Deliver(c.pipe, e.from, e))
  }

  /** deliver(event) to the clients named; the others keep what they have. */
  function OfferTo(clients: map<ClientId, Client>, e: Event, to: set<ClientId>): (r: map<ClientId, Client>)
    ensures r.Keys == clients.Keys
  {
    map id | id in clients :: if id in to then Offered(clients[id], e) else clients[id]
  }

  function Addressed(e: Event, to: ClientId): Event {
    if e.body.AppMessage? then e.(body := e.body.(toClientIds := [to])) else e
  }

  /** The addressed copies of one message, each naming its receiver alone. */
  function OfferEach(clients: map<ClientId, Client>, e: Event, to: set<ClientId>): (r: map<ClientId, Client>)
    ensures r.Keys == clients.Keys
  {
    map id | id in clients :: if id in to then Offered(clients[id], Addressed(e, id)) else clients[id]
  }

  function Ids(s: seq<ClientId>): set<ClientId> {
    set id | id in s
  }

  /** The addressees that are not in the room, once each, in the order first named. */
  function Missing(to: seq<ClientId>, present: set<ClientId>): seq<ClientId> {
    if to == [] then []
    else
      var before := to[..|to| - 1];
      var last := to[|to| - 1];
      if last in before || last in present then Missing(before, present)
      else Missing(before, present) + [last]
  }

  // ---------- join ----------

  function Resolve(st: Service, j: JoinRequest, newSession: SessionId): SessionId {
    if j.sessionId != "" then j.sessionId
    else if j.hint != "" && j.hint in st.hints && st.hints[j.hint] != "" then st.hints[j.hint]
    else newSession
  }

  function IndexHint(st: Service, hint: string, sid: SessionId): Service {
    if hint == "" then st else st.(hints := st.hints[hint := sid])
  }

  function GetOrCreateRoom(st: Service, sid: SessionId): Service {
    if sid in st.rooms then st else st.(rooms := st.rooms[sid := EMPTY_ROOM], created := st.created + 1)
  }

  function Peers(room: Room): map<ClientId, PeerInfo> {
    map id | id in room.clients :: room.clients[id].info
  }

  function HandleJoin(st: Service, p: Option<Principal>, j: JoinRequest, newSession: SessionId, newClient: ClientId)
    : (Service, Outcome)
  {
    if !AllowsRoom(p, j.sessionId) then (st, Refused(ROOM_FORBIDDEN, []))
    else
      var sid := Resolve(st, j, newSession);
      var indexed := IndexHint(st, j.hint, sid);
      if j.mustExist && sid !in indexed.rooms then
        (indexed.(refused := indexed.refused + {sid}), Refused(ROOM_NOT_FOUND, []))
      else EnterRoom(GetOrCreateRoom(indexed, sid), sid, p, j, newClient)
  }

  /** An owner may declare its room encrypted as it joins. */
  function Declared(st: Service, sid: SessionId, j: JoinRequest): Service
    requires sid in st.rooms
  {
    var room := st.rooms[sid];
    st.(rooms := st.rooms[sid := room.(encrypted := room.encrypted || (j.isOwner && j.encrypted))])
  }

  function EnterRoom(st: Service, sid: SessionId, p: Option<Principal>, j: JoinRequest, newClient: ClientId)
    : (Service, Outcome)
    requires sid in st.rooms
  {
    var room, declared := st.rooms[sid], Declared(st, sid, j);
    if st.maxPeers > 0 && |room.clients| >= st.maxPeers then (st, Refused(ROOM_FULL, []))
    else if j.isOwner && room.ownerId != "" && room.ownerBrowser != j.browserId then
      (st, Failed("room already has an owner from a different browser"))
    else if declared.rooms[sid].encrypted && j.protocolVersion < 2 then
      (declared, Refused(PROTOCOL_VERSION_TOO_OLD, []))
    else Admit(declared, sid, p, j, newClient)
  }

  /** A connection a join may come on: whatever has happened on it before, an ended session
      included, it has no client. */
  ghost predicate MayJoin(s: Stream) {
    exists acts :: Run(OPENED, acts) == Some(Pipe(OPENED.room, EMPTY_CHANNEL, s)) && s.bridge.Unjoined?
  }

  /** The pipe of a client let in on that connection. */
  function Boarded(s: Stream): Pipe {
    JoinApply(Pipe(OPENED.room, EMPTY_CHANNEL, s), Board)
  }

  function Newcomer(st: Service, sid: SessionId, p: Option<Principal>, j: JoinRequest, id: ClientId): Client
    requires sid in st.rooms
  {
    var room := st.rooms[sid];
    var name := if j.username == "" then "Anonymous" else j.username;
    var owner := if j.isOwner then id else room.ownerId;
    Client(PeerInfo(id, name, j.isOwner), j.browserId, p,
           Event(st.nextEvent, "", RoomJoined(id, sid, Peers(room), owner)), Boarded(j.connection))
  }

  function Admit(st: Service, sid: SessionId, p: Option<Principal>, j: JoinRequest, id: ClientId): (Service, Outcome)
    requires sid in st.rooms
  {
    var entered, n := Entered(st, sid, p, j, id), st.nextEvent;
    var crowd := Crowd(sid, entered.clients.Keys);
    (st.(rooms := st.rooms[sid := entered], issued := st.issued + {id}, joined := st.joined + 1,
         nextEvent := n + 2, at := RecordedTwice(st.at, n, crowd, crowd)),
     Joined(Newcomer(st, sid, p, j, id).welcome))
  }

  function Entered(st: Service, sid: SessionId, p: Option<Principal>, j: JoinRequest, id: ClientId): (r: Room)
    requires sid in st.rooms
    ensures r.clients.Keys == st.rooms[sid].clients.Keys + {id}
  {
    var room, c := st.rooms[sid], Newcomer(st, sid, p, j, id);
    Room(Seated(room.clients, c, Arrival(st, c)),
         if j.isOwner then id else room.ownerId,
         if j.isOwner then j.browserId else room.ownerBrowser,
         room.encrypted,
         if room.title == "" then j.title else room.title)
  }

  /** The PeerJoined the others get. */
  function Arrival(st: Service, c: Client): Event {
    Event(st.nextEvent + 1, c.info.clientId, PeerJoined(c.info))
  }

  /** The newcomer among those already there, who were told of it. */
  function Seated(clients: map<ClientId, Client>, c: Client, note: Event): (r: map<ClientId, Client>)
    ensures r.Keys == clients.Keys + {c.info.clientId}
  {
    OfferTo(clients, note, clients.Keys - {c.info.clientId})[c.info.clientId := c]
  }

  // ---------- leave ----------

  predicate InRoom(st: Service, sid: SessionId, id: ClientId) {
    sid in st.rooms && id in st.rooms[sid].clients
  }

  /** findRoomForClient: some room that holds the client. */
  ghost function FindRoom(st: Service, id: ClientId): Option<SessionId> {
    if exists sid :: InRoom(st, sid, id) then
      var sid :| InRoom(st, sid, id);
      Some(sid)
    else None
  }

  /** The other tabs of the leaving client's browser. */
  function Heirs(rest: map<ClientId, Client>, browserId: string): set<ClientId> {
    if browserId == "" then {} else set id | id in rest && rest[id].browserId == browserId
  }

  function Gone(c: Client): Client {
    c.(pipe := LockedApply(c.pipe, Remove))
  }

  function Ejected(clients: map<ClientId, Client>): (r: map<ClientId, Client>)
    ensures r.Keys == clients.Keys
  {
    map id | id in clients :: Closed(clients[id])
  }

  function Closed(c: Client): Client {
    c.(pipe := LockedApply(c.pipe, CloseChannel))
  }

  function HintsWithout(hints: map<string, SessionId>, sid: SessionId): map<string, SessionId> {
    map h | h in hints && hints[h] != sid :: hints[h]
  }

  function Rest(st: Service, sid: SessionId, id: ClientId): (rest: map<ClientId, Client>)
    requires InRoom(st, sid, id)
    ensures rest.Keys == st.rooms[sid].clients.Keys - {id}
  {
    st.rooms[sid].clients - {id}
  }

  /** The clients that are out of the table once `id` has left, their pipes kept as history. */
  function Out(st: Service, sid: SessionId, id: ClientId): (r: map<ClientId, Client>)
    requires InRoom(st, sid, id)
    ensures r.Keys == st.departed.Keys + {id}
  {
    st.departed[id := Gone(st.rooms[sid].clients[id])]
  }

  /** The branches of handleLeave. */
  datatype LeaveKind = Departs | Succeeds | EndsRoom | ClosesRoom

  function KindOf(st: Service, sid: SessionId, id: ClientId, heir: ClientId): LeaveKind
    requires InRoom(st, sid, id)
  {
    var c, rest := st.rooms[sid].clients[id], Rest(st, sid, id);
    if rest == map[] then ClosesRoom
    else if !c.info.isOwner then Departs
    else if heir in Heirs(rest, c.browserId) then Succeeds
    else EndsRoom
  }

  function HandleLeave(st: Service, sid: SessionId, id: ClientId, reason: string, heir: ClientId): (Service, Outcome)
    requires InRoom(st, sid, id)
  {
    var remaining := |Rest(st, sid, id)|;
    match KindOf(st, sid, id, heir)
    case Departs => (Depart(st, sid, id, reason), LeftRoom(id, remaining))
    case Succeeds => (Succeed(st, sid, id, reason, heir), LeftRoom(id, remaining))
    case EndsRoom => (EndRoom(st, sid, id), LeftRoom(id, 0))
    case ClosesRoom => (CloseRoom(st, sid, id), LeftRoom(id, 0))
  }

  /** The last client leaves: nobody is told, and removeRoom takes the empty room. */
  function CloseRoom(st: Service, sid: SessionId, id: ClientId): Service
    requires InRoom(st, sid, id)
  {
    st.(rooms := st.rooms - {sid}, hints := HintsWithout(st.hints, sid), removed := st.removed + 1,
        departed := Out(st, sid, id), left := st.left + 1,
        nextEvent := st.nextEvent + 1, at := Recorded(st.at, st.nextEvent, Crowd(sid, {})))
  }

  /** Nobody's ownership changes: PeerLeft to those who stay. */
  function Depart(st: Service, sid: SessionId, id: ClientId, reason: string): Service
    requires InRoom(st, sid, id)
  {
    var rest := Rest(st, sid, id);
    var note := Event(st.nextEvent, id, PeerLeft(id, reason, |rest|));
    st.(rooms := st.rooms[sid := st.rooms[sid].(clients := OfferTo(rest, note, rest.Keys))],
        departed := Out(st, sid, id), left := st.left + 1,
        nextEvent := st.nextEvent + 1, at := Recorded(st.at, st.nextEvent, Crowd(sid, rest.Keys)))
  }

  /** The owner leaves and another tab of its browser takes over. */
  function Succeed(st: Service, sid: SessionId, id: ClientId, reason: string, heir: ClientId): Service
    requires InRoom(st, sid, id) && heir in Rest(st, sid, id)
  {
    var room, n := st.rooms[sid], st.nextEvent;
    st.(rooms := st.rooms[sid := room.(clients := TookOver(Rest(st, sid, id), n, id, reason, heir), ownerId := heir)],
        departed := Out(st, sid, id), left := st.left + 1, nextEvent := n + 2,
        at := RecordedTwice(st.at, n, Crowd(sid, room.clients.Keys), Crowd(sid, Rest(st, sid, id).Keys)))
  }

  /** Those who stay, once the heir is the owner and both broadcasts are out. */
  function TookOver(rest: map<ClientId, Client>, n: nat, id: ClientId, reason: string, heir: ClientId)
    : (r: map<ClientId, Client>)
    requires heir in rest
    ensures r.Keys == rest.Keys
  {
    Informed(Crowned(rest, heir), Event(n, id, OwnerChanged(heir)), Event(n + 1, id, PeerLeft(id, reason, |rest|)))
  }

  function Crowned(rest: map<ClientId, Client>, heir: ClientId): (r: map<ClientId, Client>)
    requires heir in rest
    ensures r.Keys == rest.Keys
  {
    rest[heir := rest[heir].(info := rest[heir].info.(isOwner := true))]
  }

  /** Two broadcasts to everyone in the room. */
  function Informed(clients: map<ClientId, Client>, first: Event, second: Event): (r: map<ClientId, Client>)
    ensures r.Keys == clients.Keys
  {
    OfferTo(OfferTo(clients, first, clients.Keys), second, clients.Keys)
  }

  /** The owner leaves with no other tab: the session ends for everyone. */
  function EndRoom(st: Service, sid: SessionId, id: ClientId): Service
    requires InRoom(st, sid, id)
  {
    st.(rooms := st.rooms - {sid}, hints := HintsWithout(st.hints, sid), removed := st.removed + 1,
        departed := AllOut(st, sid, id), left := st.left + 1, ejected := st.ejected + |Rest(st, sid, id)|,
        nextEvent := st.nextEvent + 1, at := Recorded(st.at, st.nextEvent, Crowd(sid, {})))
  }

  /** Everyone who stayed is told that the session ended, then CloseAllClients takes them out. */
  function AllOut(st: Service, sid: SessionId, id: ClientId): (r: map<ClientId, Client>)
    requires InRoom(st, sid, id)
    ensures r.Keys == st.departed.Keys + st.rooms[sid].clients.Keys
  {
    var rest := Rest(st, sid, id);
    var end := Event(st.nextEvent, id, SessionEnded("owner_disconnected"));
    Out(st, sid, id) + Ejected(OfferTo(rest, end, rest.Keys))
  }

  // ---------- relaying ----------

  /** The bodies a client may have relayed. */
  predicate Relayable(b: Body) {
    b.Presence? || b.SceneUpdate? || b.CursorUpdate? || b.TextUpdate? || b.SceneInitRequest? ||
    b.SceneInitResponse? || b.CredentialsChanged? || b.TitleChanged? || b.AppMessage?
  }

  /** What a relayed message changes in the room itself. */
  function Noted(room: Room, b: Body): (r: Room)
    ensures r.clients == room.clients && r.ownerId == room.ownerId && r.ownerBrowser == room.ownerBrowser
  {
    match b
    case CredentialsChanged(reason) => if reason == "password_removed" then room.(encrypted := false) else room
    case TitleChanged(title) => room.(title := title)
    case _ => room
  }

  predicate IsAddressed(b: Body) {
    b.AppMessage? && b.toClientIds != []
  }

  /** The members once a relayed message went to its addressees, or to all but its sender. */
  function Heard(clients: map<ClientId, Client>, e: Event): (r: map<ClientId, Client>)
    ensures r.Keys == clients.Keys
  {
    if IsAddressed(e.body) then OfferEach(clients, e, Ids(e.body.toClientIds))
    else OfferTo(clients, e, clients.Keys - {e.from})
  }

  function Relay(st: Service, sid: SessionId, from: ClientId, b: Body): (Service, Outcome)
    requires sid in st.rooms
  {
    var room := Noted(st.rooms[sid], b);
    var clients := Heard(room.clients, Event(st.nextEvent, from, b));
    var missing := if IsAddressed(b) then Missing(b.toClientIds, room.clients.Keys) else [];
    (st.(rooms := st.rooms[sid := room.(clients := clients)],
         nextEvent := st.nextEvent + 1, at := Recorded(st.at, st.nextEvent, Crowd(sid, room.clients.Keys))),
     if missing != [] then Refused(PEER_NOT_FOUND, missing) else Silent)
  }

  // ---------- the streams ----------

  predicate StreamSide(a: Action) {
    a.BridgeDoes? || a.EndDoes? || a.LineDoes? || (a.JoinDoes? && !a.join.Board?)
  }

  /** A stream's own step, on a member's pipe or on one that has left. */
  function OnMember(st: Service, sid: SessionId, id: ClientId, a: Action): Service
    requires InRoom(st, sid, id) && Enabled(st.rooms[sid].clients[id].pipe, a)
  {
    var room := st.rooms[sid];
    var c := room.clients[id];
    st.(rooms := st.rooms[sid := room.(clients := room.clients[id := c.(pipe := Apply(c.pipe, a))])])
  }

  function OnDeparted(st: Service, id: ClientId, a: Action): Service
    requires id in st.departed && Enabled(st.departed[id].pipe, a)
  {
    var c := st.departed[id];
    st.(departed := st.departed[id := c.(pipe := Apply(c.pipe, a))])
  }

  // ---------- steps ----------

  datatype Step =
    | Join(principal: Option<Principal>, request: JoinRequest, newSession: SessionId, newClient: ClientId)
    | Leave(sid: SessionId, id: ClientId, reason: string, heir: ClientId)
    | Send(sid: SessionId, id: ClientId, body: Body)
    | ServerMessage(sid: SessionId, from: ClientId, kind: string, content: string, to: seq<ClientId>)
    | MemberStream(sid: SessionId, id: ClientId, action: Action)
    | DepartedStream(id: ClientId, action: Action)

  /** Ids are fresh uuids; the heir is one of the tabs FindByBrowserId could return. */
  ghost predicate Allowed(st: Service, s: Step) {
    match s
    case Join(_, j, newSession, newClient) =>
      newSession != "" && newClient != "" && newClient !in st.issued && MayJoin(j.connection)
    case Leave(sid, id, _, heir) =>
      && InRoom(st, sid, id)
      && var heirs := Heirs(Rest(st, sid, id), st.rooms[sid].clients[id].browserId);
         heirs == {} || heir in heirs
    case Send(sid, id, body) => InRoom(st, sid, id) && Relayable(body)
    case ServerMessage(sid, _, _, _, _) => sid in st.rooms
    case MemberStream(sid, id, a) => InRoom(st, sid, id) && StreamSide(a) && Enabled(st.rooms[sid].clients[id].pipe, a)
    case DepartedStream(id, a) => id in st.departed && StreamSide(a) && Enabled(st.departed[id].pipe, a)
  }

  function Next(st: Service, s: Step): Service
    requires Allowed(st, s)
  {
    match s
    case Join(p, j, newSession, newClient) => HandleJoin(st, p, j, newSession, newClient).0
    case Leave(sid, id, reason, heir) => HandleLeave(st, sid, id, reason, heir).0
    case Send(sid, id, body) => Relay(st, sid, id, body).0
    case ServerMessage(sid, from, kind, content, to) => Relay(st, sid, from, AppMessage(kind, content, to)).0
    case MemberStream(sid, id, a) => OnMember(st, sid, id, a)
    case DepartedStream(id, a) => OnDeparted(st, id, a)
  }

  /** The states a run passes through, None when a step was not allowed. */
  ghost function Execute(st: Service, steps: seq<Step>): Option<Service>
    decreases |steps|
  {
    if steps == [] then Some(st)
    else if Allowed(st, steps[0]) then Execute(Next(st, steps[0]), steps[1..])
    else None
  }
}
