/** The roster a client builds from its events, against the room's membership. */
module Rosters {
  import opened Options
  import opened Protocol
  import opened Delivery
  import opened Identity
  import opened Rooms
  import opened RoomTable
  import opened Pipes

  // ---------- the client's fold ----------

  function Known(peers: map<ClientId, PeerInfo>): set<ClientId> {
    set k | k in peers && peers[k].clientId != "" :: peers[k].clientId
  }

  /** What handleEvent does to the ids in `peers`. */
  function Handle(roster: set<ClientId>, e: Event): set<ClientId> {
    match e.body
    case RoomJoined(self, _, peers, _) => (if self != "" then {self} else {}) + Known(peers)
    case PeerJoined(peer) => if peer.clientId != "" then roster + {peer.clientId} else roster
    case PeerLeft(id, _, _) => roster - {id}
    case SessionEnded(_) => {}
    case _ => roster
  }

  /** The roster after the join's answer and then these room events. */
  function Roster(welcome: Event, log: seq<Offer>): set<ClientId> {
    if log == [] then Handle({}, welcome)
    else Handle(Roster(welcome, log[..|log| - 1]), log[|log| - 1].event)
  }

  lemma RosterSnoc(welcome: Event, log: seq<Offer>, o: Offer)
    ensures Roster(welcome, log + [o]) == Handle(Roster(welcome, log), o.event)
  {
    assert (log + [o])[..|log|] == log;
  }

  // ---------- invariant ----------

  /** Every event offered to the client leaves it with the membership recorded for it. */
  ghost predicate LogOk(welcome: Event, log: seq<Offer>, sid: SessionId, at: map<nat, Crowd>) {
    forall i :: 0 <= i <= |log| ==> RecordOk(welcome, log, i, sid, at)
  }

  /** The same for the first i events. */
  ghost predicate RecordOk(welcome: Event, log: seq<Offer>, i: nat, sid: SessionId, at: map<nat, Crowd>)
    requires i <= |log|
  {
    var e := if i == 0 then welcome else log[i - 1].event;
    && (i > 0 ==> !e.body.RoomJoined?)
    && e.eventId in at && at[e.eventId] == Crowd(sid, Roster(welcome, log[..i]))
  }

  function SessionOf(c: Client): SessionId {
    if c.welcome.body.RoomJoined? then c.welcome.body.sessionId else ""
  }

  /** The id the join's answer gave the client. */
  function SelfOf(c: Client): ClientId {
    if c.welcome.body.RoomJoined? then c.welcome.body.self else ""
  }

  ghost predicate ClientLogOk(c: Client, at: map<nat, Crowd>) {
    LogOk(c.welcome, c.pipe.room.offered, SessionOf(c), at)
  }

  predicate Current(c: Client, sid: SessionId, members: set<ClientId>) {
    SessionOf(c) == sid && Roster(c.welcome, c.pipe.room.offered) == members
  }

  /** Clients of one room who all hold the roster `members`. */
  ghost predicate Agree(clients: map<ClientId, Client>, sid: SessionId, members: set<ClientId>, at: map<nat, Crowd>) {
    forall id :: id in clients ==>
      SelfOf(clients[id]) == id && Current(clients[id], sid, members) && ClientLogOk(clients[id], at)
  }

  ghost predicate LogsOk(clients: map<ClientId, Client>, at: map<nat, Crowd>) {
    forall id :: id in clients ==> SelfOf(clients[id]) == id && ClientLogOk(clients[id], at)
  }

  predicate Issued(st: Service) {
    forall n :: n in st.at ==> n < st.nextEvent
  }

  ghost predicate RosterInv(st: Service) {
    && Issued(st)
    && (forall sid :: sid in st.rooms ==> Agree(st.rooms[sid].clients, sid, st.rooms[sid].clients.Keys, st.at))
    && LogsOk(st.departed, st.at)
  }

  // ---------- the record only grows ----------

  ghost predicate Extends(at: map<nat, Crowd>, more: map<nat, Crowd>) {
    forall n :: n in at ==> n in more && more[n] == at[n]
  }

  lemma LogOkExtends(welcome: Event, log: seq<Offer>, sid: SessionId, at: map<nat, Crowd>, more: map<nat, Crowd>)
    requires LogOk(welcome, log, sid, at) && Extends(at, more)
    ensures LogOk(welcome, log, sid, more)
  {
    forall i | 0 <= i <= |log| ensures RecordOk(welcome, log, i, sid, more)
    {
      assert RecordOk(welcome, log, i, sid, at);
    }
  }

  lemma LogsOkExtend(clients: map<ClientId, Client>, at: map<nat, Crowd>, more: map<nat, Crowd>)
    requires LogsOk(clients, at) && Extends(at, more)
    ensures LogsOk(clients, more)
  {
    forall id | id in clients ensures ClientLogOk(clients[id], more)
    {
      LogOkExtends(clients[id].welcome, clients[id].pipe.room.offered, SessionOf(clients[id]), at, more);
    }
  }

  lemma AgreeExtends(clients: map<ClientId, Client>, sid: SessionId, members: set<ClientId>, at: map<nat, Crowd>, more: map<nat, Crowd>)
    requires Agree(clients, sid, members, at) && Extends(at, more)
    ensures Agree(clients, sid, members, more)
  {
    forall id | id in clients ensures ClientLogOk(clients[id], more)
    {
      LogOkExtends(clients[id].welcome, clients[id].pipe.room.offered, SessionOf(clients[id]), at, more);
    }
  }

  lemma RecordedExtends(at: map<nat, Crowd>, n: nat, crowd: Crowd)
    requires forall k :: k in at ==> k < n
    ensures Extends(at, Recorded(at, n, crowd))
    ensures forall k :: k in Recorded(at, n, crowd) ==> k < n + 1
  {
  }

  lemma RecordedTwiceExtends(at: map<nat, Crowd>, n: nat, first: Crowd, second: Crowd)
    requires forall k :: k in at ==> k < n
    ensures Extends(at, RecordedTwice(at, n, first, second))
    ensures forall k :: k in RecordedTwice(at, n, first, second) ==> k < n + 2
  {
  }

  // ---------- broadcasts ----------

  lemma RecordAfter(welcome: Event, log: seq<Offer>, o: Offer, i: nat, sid: SessionId, at: map<nat, Crowd>)
    requires LogOk(welcome, log, sid, at) && i <= |log + [o]| && !o.event.body.RoomJoined?
    requires o.event.eventId in at && at[o.event.eventId] == Crowd(sid, Roster(welcome, log + [o]))
    ensures RecordOk(welcome, log + [o], i, sid, at)
  {
    if i <= |log| {
      assert RecordOk(welcome, log, i, sid, at);
      assert (log + [o])[..i] == log[..i];
    } else {
      assert (log + [o])[..i] == log + [o];
    }
  }

  lemma OfferedLog(c: Client, e: Event, sid: SessionId, members: set<ClientId>, at: map<nat, Crowd>)
    requires Current(c, sid, members) && ClientLogOk(c, at) && !e.body.RoomJoined?
    requires e.eventId in at && at[e.eventId] == Crowd(sid, Handle(members, e))
    ensures Current(Offered(c, e), sid, Handle(members, e)) && ClientLogOk(Offered(c, e), at)
  {
    var log, o := c.pipe.room.offered, Offer(e.from, e);
    assert Offered(c, e).pipe.room.offered == log + [o];
    RosterSnoc(c.welcome, log, o);
    forall i | 0 <= i <= |log + [o]| ensures RecordOk(c.welcome, log + [o], i, sid, at)
    {
      RecordAfter(c.welcome, log, o, i, sid, at);
    }
  }

  /** A broadcast to everyone leaves everyone with what the event says. */
  lemma ToldAll(clients: map<ClientId, Client>, e: Event, to: set<ClientId>, sid: SessionId, members: set<ClientId>, at: map<nat, Crowd>)
    requires Agree(clients, sid, members, at) && clients.Keys <= to && !e.body.RoomJoined?
    requires e.eventId in at && at[e.eventId] == Crowd(sid, Handle(members, e))
    ensures Agree(OfferTo(clients, e, to), sid, Handle(members, e), at)
  {
    forall id | id in clients ensures Current(OfferTo(clients, e, to)[id], sid, Handle(members, e)) && ClientLogOk(OfferTo(clients, e, to)[id], at)
    {
      OfferedLog(clients[id], e, sid, members, at);
    }
  }

  /** One that says nothing about membership may go to some only. */
  lemma ToldSome(clients: map<ClientId, Client>, e: Event, to: set<ClientId>, sid: SessionId, members: set<ClientId>, at: map<nat, Crowd>)
    requires Agree(clients, sid, members, at) && Handle(members, e) == members && !e.body.RoomJoined?
    requires e.eventId in at && at[e.eventId] == Crowd(sid, members)
    ensures Agree(OfferTo(clients, e, to), sid, members, at)
  {
    forall id | id in clients ensures Current(OfferTo(clients, e, to)[id], sid, members) && ClientLogOk(OfferTo(clients, e, to)[id], at)
    {
      OfferedLog(clients[id], e, sid, members, at);
    }
  }

  lemma AddressedLog(c: Client, e: Event, id: ClientId, sid: SessionId, members: set<ClientId>, at: map<nat, Crowd>)
    requires Current(c, sid, members) && ClientLogOk(c, at) && e.body.AppMessage?
    requires e.eventId in at && at[e.eventId] == Crowd(sid, members)
    ensures Current(Offered(c, Addressed(e, id)), sid, members) && ClientLogOk(Offered(c, Addressed(e, id)), at)
  {
    OfferedLog(c, Addressed(e, id), sid, members, at);
  }

  lemma ToldEach(clients: map<ClientId, Client>, e: Event, to: set<ClientId>, sid: SessionId, members: set<ClientId>, at: map<nat, Crowd>)
    requires Agree(clients, sid, members, at) && e.body.AppMessage?
    requires e.eventId in at && at[e.eventId] == Crowd(sid, members)
    ensures Agree(OfferEach(clients, e, to), sid, members, at)
  {
    var told := OfferEach(clients, e, to);
    forall id | id in clients ensures SelfOf(told[id]) == id && Current(told[id], sid, members) && ClientLogOk(told[id], at)
    {
      AddressedLog(clients[id], e, id, sid, members, at);
    }
  }

  // ---------- join ----------

  lemma KnownIsKeys(st: Service, sid: SessionId)
    requires RoomsOk(st) && sid in st.rooms
    ensures Known(Peers(st.rooms[sid])) == st.rooms[sid].clients.Keys
  {
    var peers := Peers(st.rooms[sid]);
    assert RoomOk(st.maxPeers, sid, st.rooms[sid]);
    assert forall k :: k in peers ==> peers[k].clientId == k && k != "";
    forall k | k in peers ensures k in Known(peers)
    {
      assert peers[k].clientId == k;
    }
  }

  lemma NewcomerAgrees(st: Service, sid: SessionId, p: Option<Principal>, j: JoinRequest, id: ClientId, at: map<nat, Crowd>)
    requires RoomsOk(st) && sid in st.rooms && id != ""
    requires st.nextEvent in at && at[st.nextEvent] == Crowd(sid, st.rooms[sid].clients.Keys + {id})
    ensures var c := Newcomer(st, sid, p, j, id);
            Current(c, sid, st.rooms[sid].clients.Keys + {id}) && ClientLogOk(c, at)
  {
    KnownIsKeys(st, sid);
    var c := Newcomer(st, sid, p, j, id);
    assert Roster(c.welcome, []) == {id} + st.rooms[sid].clients.Keys;
  }

  lemma SeatedAgree(clients: map<ClientId, Client>, c: Client, note: Event, sid: SessionId, at: map<nat, Crowd>)
    requires Agree(clients, sid, clients.Keys, at) && c.info.clientId !in clients && c.info.clientId != ""
    requires Current(c, sid, clients.Keys + {c.info.clientId}) && ClientLogOk(c, at) && SelfOf(c) == c.info.clientId
    requires note.body == PeerJoined(c.info)
    requires note.eventId in at && at[note.eventId] == Crowd(sid, clients.Keys + {c.info.clientId})
    ensures Agree(Seated(clients, c, note), sid, clients.Keys + {c.info.clientId}, at)
  {
    ToldAll(clients, note, clients.Keys - {c.info.clientId}, sid, clients.Keys, at);
  }

  lemma GrownAgree(clients: map<ClientId, Client>, c: Client, id: ClientId, n: nat, sid: SessionId, at: map<nat, Crowd>)
    requires Agree(clients, sid, clients.Keys, at) && (forall k :: k in at ==> k < n)
    requires c.info.clientId == id && id !in clients && id != "" && SelfOf(c) == id
    requires var crowd := Crowd(sid, clients.Keys + {id});
             Current(c, sid, crowd.members) && ClientLogOk(c, RecordedTwice(at, n, crowd, crowd))
    ensures var crowd := Crowd(sid, clients.Keys + {id});
            Agree(Seated(clients, c, Event(n + 1, id, PeerJoined(c.info))), sid, crowd.members,
                  RecordedTwice(at, n, crowd, crowd))
  {
    var crowd := Crowd(sid, clients.Keys + {id});
    RecordedTwiceExtends(at, n, crowd, crowd);
    AgreeExtends(clients, sid, clients.Keys, at, RecordedTwice(at, n, crowd, crowd));
    SeatedAgree(clients, c, Event(n + 1, id, PeerJoined(c.info)), sid, RecordedTwice(at, n, crowd, crowd));
  }

  lemma EnteredClients(st: Service, sid: SessionId, p: Option<Principal>, j: JoinRequest, id: ClientId)
    requires sid in st.rooms
    ensures var c := Newcomer(st, sid, p, j, id);
            c.info.clientId == id && SelfOf(c) == id
            && IsSeated(Entered(st, sid, p, j, id).clients, st.rooms[sid].clients, c, st.nextEvent)
  {
  }

  /** Rooms the step does not touch, and clients already gone, keep their record. */
  lemma OthersAgree(st: Service, next: Service, sid: SessionId)
    requires RosterInv(st) && Extends(st.at, next.at) && Issued(next)
    requires forall s :: s in next.rooms && s != sid ==> s in st.rooms && next.rooms[s] == st.rooms[s]
    requires sid in next.rooms ==> Agree(next.rooms[sid].clients, sid, next.rooms[sid].clients.Keys, next.at)
    requires LogsOk(next.departed, next.at)
    ensures RosterInv(next)
  {
    forall s | s in next.rooms ensures Agree(next.rooms[s].clients, s, next.rooms[s].clients.Keys, next.at)
    {
      if s != sid {
        AgreeExtends(st.rooms[s].clients, s, st.rooms[s].clients.Keys, st.at, next.at);
      }
    }
  }

  /** A room replaced, the record grown, nobody gone. */
  lemma WithRoomAgrees(st: Service, next: Service, sid: SessionId, room: Room)
    requires RosterInv(st) && Extends(st.at, next.at) && Issued(next)
    requires next.rooms == st.rooms[sid := room] && next.departed == st.departed
    requires Agree(room.clients, sid, room.clients.Keys, next.at)
    ensures RosterInv(next)
  {
    LogsOkExtend(st.departed, st.at, next.at);
    OthersAgree(st, next, sid);
  }

  /** A newcomer that can be seated among clients who agree, and the record its seating leaves. */
  ghost predicate CanSeat(
    clients: map<ClientId, Client>, c: Client, id: ClientId, n: nat, sid: SessionId, at: map<nat, Crowd>, more: map<nat, Crowd>)
  {
    && Settled(clients, n, sid, at) && id !in clients && id != "" && Fits(c, id, sid, clients.Keys + {id}, more)
    && more == RecordedTwice(at, n, Crowd(sid, clients.Keys + {id}), Crowd(sid, clients.Keys + {id}))
  }

  ghost predicate Settled(clients: map<ClientId, Client>, n: nat, sid: SessionId, at: map<nat, Crowd>) {
    Agree(clients, sid, clients.Keys, at) && forall k :: k in at ==> k < n
  }

  ghost predicate Fits(c: Client, id: ClientId, sid: SessionId, members: set<ClientId>, at: map<nat, Crowd>) {
    c.info.clientId == id && SelfOf(c) == id && Current(c, sid, members) && ClientLogOk(c, at)
  }

  lemma SeatedRoomAgrees(
    clients: map<ClientId, Client>, c: Client, id: ClientId, n: nat, sid: SessionId, at: map<nat, Crowd>, more: map<nat, Crowd>,
    entered: map<ClientId, Client>)
    requires CanSeat(clients, c, id, n, sid, at, more) && IsSeated(entered, clients, c, n)
    ensures Agree(entered, sid, entered.Keys, more)
  {
    GrownAgree(clients, c, id, n, sid, at);
    assert entered.Keys == clients.Keys + {id};
  }

  /** The room's clients once c has been let in and the others told. */
  ghost predicate IsSeated(entered: map<ClientId, Client>, clients: map<ClientId, Client>, c: Client, n: nat) {
    entered == Seated(clients, c, Event(n + 1, c.info.clientId, PeerJoined(c.info)))
  }

  lemma SeatedKeepsRosters(st: Service, next: Service, sid: SessionId, crowd: Crowd, room: Room)
    requires RosterInv(st) && Agree(room.clients, sid, room.clients.Keys, next.at)
    requires next.rooms == st.rooms[sid := room] && next.departed == st.departed && next.nextEvent == st.nextEvent + 2
    requires next.at == RecordedTwice(st.at, st.nextEvent, crowd, crowd)
    ensures RosterInv(next)
  {
    RecordedTwiceExtends(st.at, st.nextEvent, crowd, crowd);
    WithRoomAgrees(st, next, sid, room);
  }

  lemma RecordedFirst(at: map<nat, Crowd>, n: nat, crowd: Crowd)
    ensures n in RecordedTwice(at, n, crowd, crowd) && RecordedTwice(at, n, crowd, crowd)[n] == crowd
  {
  }

  /** The newcomer the service makes, and its room once it is seated. */
  lemma NewcomerCanSeat(
    st: Service, sid: SessionId, p: Option<Principal>, j: JoinRequest, id: ClientId, crowd: Crowd, more: map<nat, Crowd>)
    returns (c: Client)
    requires RoomsOk(st) && sid in st.rooms && id != "" && id !in st.rooms[sid].clients
    requires Settled(st.rooms[sid].clients, st.nextEvent, sid, st.at)
    requires crowd == Crowd(sid, st.rooms[sid].clients.Keys + {id}) && more == RecordedTwice(st.at, st.nextEvent, crowd, crowd)
    ensures CanSeat(st.rooms[sid].clients, c, id, st.nextEvent, sid, st.at, more)
    ensures IsSeated(Entered(st, sid, p, j, id).clients, st.rooms[sid].clients, c, st.nextEvent)
  {
    RecordedFirst(st.at, st.nextEvent, crowd);
    NewcomerAgrees(st, sid, p, j, id, more);
    EnteredClients(st, sid, p, j, id);
    c := Newcomer(st, sid, p, j, id);
  }

  lemma EnteredRoomAgrees(
    st: Service, sid: SessionId, p: Option<Principal>, j: JoinRequest, id: ClientId, crowd: Crowd, more: map<nat, Crowd>)
    requires RoomsOk(st) && sid in st.rooms && id != "" && id !in st.rooms[sid].clients
    requires Settled(st.rooms[sid].clients, st.nextEvent, sid, st.at)
    requires crowd == Crowd(sid, st.rooms[sid].clients.Keys + {id}) && more == RecordedTwice(st.at, st.nextEvent, crowd, crowd)
    ensures Agree(Entered(st, sid, p, j, id).clients, sid, Entered(st, sid, p, j, id).clients.Keys, more)
  {
    var c := NewcomerCanSeat(st, sid, p, j, id, crowd, more);
    SeatedRoomAgrees(st.rooms[sid].clients, c, id, st.nextEvent, sid, st.at, more, Entered(st, sid, p, j, id).clients);
  }

  lemma AdmitKeepsRosters(st: Service, sid: SessionId, p: Option<Principal>, j: JoinRequest, id: ClientId)
    requires RosterInv(st) && RoomsOk(st) && sid in st.rooms && id != "" && id !in st.rooms[sid].clients
    ensures RosterInv(Admit(st, sid, p, j, id).0)
  {
    var crowd := Crowd(sid, st.rooms[sid].clients.Keys + {id});
    EnteredRoomAgrees(st, sid, p, j, id, crowd, RecordedTwice(st.at, st.nextEvent, crowd, crowd));
    SeatedKeepsRosters(st, Admit(st, sid, p, j, id).0, sid, crowd, Entered(st, sid, p, j, id));
  }

  /** What the join touches besides the newcomer says nothing about membership. */
  lemma SameClientsKeepRosters(st: Service, next: Service)
    requires RosterInv(st) && next.at == st.at && next.nextEvent == st.nextEvent && next.departed == st.departed
    requires forall s :: s in next.rooms ==>
               (if s in st.rooms then next.rooms[s].clients == st.rooms[s].clients else next.rooms[s].clients == map[])
    ensures RosterInv(next)
  {
  }

  lemma EnterKeepsRosters(st: Service, sid: SessionId, p: Option<Principal>, j: JoinRequest, id: ClientId)
    requires RosterInv(st) && TableInv(st) && sid in st.rooms && id != "" && id !in st.issued && AllowsRoom(p, sid)
    ensures RosterInv(EnterRoom(st, sid, p, j, id).0)
  {
    var declared := Declared(st, sid, j);
    DeclaredKeepsTable(st, sid, j);
    FreshIsNotInRoom(st, sid, id);
    SameClientsKeepRosters(st, declared);
    AdmitKeepsRosters(declared, sid, p, j, id);
    EnterCases(st, sid, p, j, id);
  }

  lemma IndexKeepsRosters(st: Service, hint: string, sid: SessionId)
    requires RosterInv(st)
    ensures var indexed := IndexHint(st, hint, sid);
            RosterInv(indexed.(refused := indexed.refused + {sid})) && RosterInv(GetOrCreateRoom(indexed, sid))
  {
    var indexed := IndexHint(st, hint, sid);
    SameClientsKeepRosters(st, indexed.(refused := indexed.refused + {sid}));
    SameClientsKeepRosters(st, GetOrCreateRoom(indexed, sid));
  }

  lemma JoinKeepsRosters(st: Service, p: Option<Principal>, j: JoinRequest, newSession: SessionId, id: ClientId)
    requires RosterInv(st) && TableInv(st) && id != "" && id !in st.issued
    ensures RosterInv(HandleJoin(st, p, j, newSession, id).0)
  {
    if AllowsRoom(p, j.sessionId) {
      var sid := Resolve(st, j, newSession);
      ResolvedIsAllowed(st, p, j, newSession);
      IndexedOrRefused(st, j.hint, sid);
      IndexKeepsRosters(st, j.hint, sid);
      EnterKeepsRosters(GetOrCreateRoom(IndexHint(st, j.hint, sid), sid), sid, p, j, id);
    }
  }

  // ---------- leave ----------

  lemma OutLogs(st: Service, sid: SessionId, id: ClientId)
    requires RosterInv(st) && InRoom(st, sid, id)
    ensures LogsOk(Out(st, sid, id), st.at)
  {
    assert Agree(st.rooms[sid].clients, sid, st.rooms[sid].clients.Keys, st.at);
    assert Gone(st.rooms[sid].clients[id]).pipe.room.offered == st.rooms[sid].clients[id].pipe.room.offered;
  }

  lemma RestAgrees(st: Service, sid: SessionId, id: ClientId)
    requires RosterInv(st) && InRoom(st, sid, id)
    ensures Agree(Rest(st, sid, id), sid, st.rooms[sid].clients.Keys, st.at)
  {
    assert Agree(st.rooms[sid].clients, sid, st.rooms[sid].clients.Keys, st.at);
  }

  /** The room that stays, once everyone left in it agrees. */
  lemma LeftBehind(st: Service, next: Service, sid: SessionId, id: ClientId, room: Room)
    requires RosterInv(st) && InRoom(st, sid, id) && Extends(st.at, next.at) && Issued(next)
    requires next.rooms == st.rooms[sid := room] && next.departed == Out(st, sid, id)
    requires Agree(room.clients, sid, room.clients.Keys, next.at)
    ensures RosterInv(next)
  {
    OutLogs(st, sid, id);
    LogsOkExtend(next.departed, st.at, next.at);
    OthersAgree(st, next, sid);
  }

  lemma DepartKeepsRosters(st: Service, sid: SessionId, id: ClientId, reason: string)
    requires RosterInv(st) && InRoom(st, sid, id)
    ensures RosterInv(Depart(st, sid, id, reason))
  {
    var next, rest := Depart(st, sid, id, reason), Rest(st, sid, id);
    var note := Event(st.nextEvent, id, PeerLeft(id, reason, |rest|));
    RecordedExtends(st.at, st.nextEvent, Crowd(sid, rest.Keys));
    RestAgrees(st, sid, id);
    AgreeExtends(rest, sid, st.rooms[sid].clients.Keys, st.at, next.at);
    ToldAll(rest, note, rest.Keys, sid, st.rooms[sid].clients.Keys, next.at);
    LeftBehind(st, next, sid, id, next.rooms[sid]);
  }

  lemma CrownedAgree(rest: map<ClientId, Client>, heir: ClientId, sid: SessionId, members: set<ClientId>, at: map<nat, Crowd>)
    requires heir in rest && Agree(rest, sid, members, at)
    ensures Agree(Crowned(rest, heir), sid, members, at)
  {
    forall k | k in rest
      ensures ClientLogOk(Crowned(rest, heir)[k], at) && Current(Crowned(rest, heir)[k], sid, members)
    {
      assert ClientLogOk(rest[k], at);
    }
  }

  lemma InformedAgree(clients: map<ClientId, Client>, first: Event, second: Event,
                                         sid: SessionId, members: set<ClientId>, at: map<nat, Crowd>)
    requires Agree(clients, sid, members, at) && !first.body.RoomJoined? && !second.body.RoomJoined?
    requires first.eventId in at && at[first.eventId] == Crowd(sid, Handle(members, first))
    requires second.eventId in at && at[second.eventId] == Crowd(sid, Handle(Handle(members, first), second))
    ensures Agree(Informed(clients, first, second), sid, Handle(Handle(members, first), second), at)
  {
    ToldAll(clients, first, clients.Keys, sid, members, at);
    ToldAll(OfferTo(clients, first, clients.Keys), second, clients.Keys, sid, Handle(members, first), at);
  }

  lemma TookOverAgree(rest: map<ClientId, Client>, n: nat, id: ClientId, reason: string, heir: ClientId,
                                         sid: SessionId, members: set<ClientId>, at: map<nat, Crowd>)
    requires heir in rest && Agree(rest, sid, members, at) && rest.Keys == members - {id}
    requires n in at && at[n] == Crowd(sid, members) && n + 1 in at && at[n + 1] == Crowd(sid, rest.Keys)
    ensures Agree(TookOver(rest, n, id, reason, heir), sid, rest.Keys, at)
  {
    CrownedAgree(rest, heir, sid, members, at);
    var change, note := Event(n, id, OwnerChanged(heir)), Event(n + 1, id, PeerLeft(id, reason, |rest|));
    assert Handle(members, change) == members && Handle(members, note) == rest.Keys;
    InformedAgree(Crowned(rest, heir), change, note, sid, members, at);
  }

  lemma SuccessorsAgree(rest: map<ClientId, Client>, n: nat, id: ClientId, reason: string, heir: ClientId,
                                           sid: SessionId, members: set<ClientId>, at: map<nat, Crowd>)
    requires heir in rest && Agree(rest, sid, members, at) && rest.Keys == members - {id}
    requires forall k :: k in at ==> k < n
    ensures Agree(TookOver(rest, n, id, reason, heir), sid, rest.Keys, RecordedTwice(at, n, Crowd(sid, members), Crowd(sid, rest.Keys)))
  {
    var more := RecordedTwice(at, n, Crowd(sid, members), Crowd(sid, rest.Keys));
    RecordedTwiceExtends(at, n, Crowd(sid, members), Crowd(sid, rest.Keys));
    AgreeExtends(rest, sid, members, at, more);
    TookOverAgree(rest, n, id, reason, heir, sid, members, more);
  }

  lemma SucceedKeepsRosters(st: Service, sid: SessionId, id: ClientId, reason: string, heir: ClientId)
    requires RosterInv(st) && InRoom(st, sid, id) && heir in Rest(st, sid, id)
    ensures RosterInv(Succeed(st, sid, id, reason, heir))
  {
    var members, rest, n := st.rooms[sid].clients.Keys, Rest(st, sid, id), st.nextEvent;
    RestAgrees(st, sid, id);
    RecordedTwiceExtends(st.at, n, Crowd(sid, members), Crowd(sid, rest.Keys));
    SuccessorsAgree(rest, n, id, reason, heir, sid, members, st.at);
    var room := st.rooms[sid].(clients := TookOver(rest, n, id, reason, heir), ownerId := heir);
    LeftBehind(st, Succeed(st, sid, id, reason, heir), sid, id, room);
  }

  /** Everyone still there hears that the session ended, and is taken out. */
  lemma EndedLogs(rest: map<ClientId, Client>, end: Event, sid: SessionId, members: set<ClientId>, at: map<nat, Crowd>)
    requires Agree(rest, sid, members, at) && end.body.SessionEnded?
    requires end.eventId in at && at[end.eventId] == Crowd(sid, {})
    ensures LogsOk(Ejected(OfferTo(rest, end, rest.Keys)), at)
  {
    ToldAll(rest, end, rest.Keys, sid, members, at);
    EjectedLogs(OfferTo(rest, end, rest.Keys), at);
  }

  lemma LogsOkJoin(a: map<ClientId, Client>, b: map<ClientId, Client>, at: map<nat, Crowd>)
    requires LogsOk(a, at) && LogsOk(b, at)
    ensures LogsOk(a + b, at)
  {
  }

  lemma StayersLogs(st: Service, sid: SessionId, id: ClientId, at: map<nat, Crowd>)
    requires RosterInv(st) && InRoom(st, sid, id) && at == Recorded(st.at, st.nextEvent, Crowd(sid, {})) && Extends(st.at, at)
    ensures var rest, end := Rest(st, sid, id), Event(st.nextEvent, id, SessionEnded("owner_disconnected"));
            LogsOk(Ejected(OfferTo(rest, end, rest.Keys)), at)
  {
    var rest := Rest(st, sid, id);
    RestAgrees(st, sid, id);
    AgreeExtends(rest, sid, st.rooms[sid].clients.Keys, st.at, at);
    EndedLogs(rest, Event(st.nextEvent, id, SessionEnded("owner_disconnected")), sid, st.rooms[sid].clients.Keys, at);
  }

  lemma AllOutLogs(st: Service, sid: SessionId, id: ClientId)
    requires RosterInv(st) && InRoom(st, sid, id)
    ensures LogsOk(AllOut(st, sid, id), Recorded(st.at, st.nextEvent, Crowd(sid, {})))
  {
    var rest, at := Rest(st, sid, id), Recorded(st.at, st.nextEvent, Crowd(sid, {}));
    RecordedExtends(st.at, st.nextEvent, Crowd(sid, {}));
    OutLogs(st, sid, id);
    LogsOkExtend(Out(st, sid, id), st.at, at);
    StayersLogs(st, sid, id, at);
    var end := Event(st.nextEvent, id, SessionEnded("owner_disconnected"));
    LogsOkJoin(Out(st, sid, id), Ejected(OfferTo(rest, end, rest.Keys)), at);
  }

  lemma EjectedLogs(clients: map<ClientId, Client>, at: map<nat, Crowd>)
    requires LogsOk(clients, at)
    ensures LogsOk(Ejected(clients), at)
  {
    forall id | id in clients ensures ClientLogOk(Ejected(clients)[id], at)
    {
      assert ClientLogOk(clients[id], at);
    }
  }

  lemma ClosedKeepsRosters(st: Service, sid: SessionId, id: ClientId)
    requires RosterInv(st) && InRoom(st, sid, id)
    ensures RosterInv(CloseRoom(st, sid, id)) && RosterInv(EndRoom(st, sid, id))
  {
    var closed, over := CloseRoom(st, sid, id), EndRoom(st, sid, id);
    RecordedExtends(st.at, st.nextEvent, Crowd(sid, {}));
    OutLogs(st, sid, id);
    LogsOkExtend(closed.departed, st.at, closed.at);
    OthersAgree(st, closed, sid);
    AllOutLogs(st, sid, id);
    OthersAgree(st, over, sid);
  }

  lemma LeaveKeepsRosters(st: Service, sid: SessionId, id: ClientId, reason: string, heir: ClientId)
    requires RosterInv(st) && InRoom(st, sid, id)
    ensures RosterInv(HandleLeave(st, sid, id, reason, heir).0)
  {
    match KindOf(st, sid, id, heir) {
      case Departs => DepartKeepsRosters(st, sid, id, reason);
      case Succeeds => SucceedKeepsRosters(st, sid, id, reason, heir);
      case EndsRoom => ClosedKeepsRosters(st, sid, id);
      case ClosesRoom => ClosedKeepsRosters(st, sid, id);
    }
  }

  // ---------- relaying and streams ----------

  lemma HeardAgree(clients: map<ClientId, Client>, e: Event, sid: SessionId, at: map<nat, Crowd>)
    requires Agree(clients, sid, clients.Keys, at) && Relayable(e.body) && (forall k :: k in at ==> k < e.eventId)
    ensures Agree(Heard(clients, e), sid, clients.Keys, Recorded(at, e.eventId, Crowd(sid, clients.Keys)))
  {
    var more := Recorded(at, e.eventId, Crowd(sid, clients.Keys));
    RecordedExtends(at, e.eventId, Crowd(sid, clients.Keys));
    AgreeExtends(clients, sid, clients.Keys, at, more);
    ToldSome(clients, e, clients.Keys - {e.from}, sid, clients.Keys, more);
    if IsAddressed(e.body) {
      ToldEach(clients, e, Ids(e.body.toClientIds), sid, clients.Keys, more);
    }
  }

  lemma RelayKeepsRosters(st: Service, sid: SessionId, from: ClientId, b: Body)
    requires RosterInv(st) && sid in st.rooms && Relayable(b)
    ensures RosterInv(Relay(st, sid, from, b).0)
  {
    var next, clients := Relay(st, sid, from, b).0, st.rooms[sid].clients;
    RecordedExtends(st.at, st.nextEvent, Crowd(sid, clients.Keys));
    HeardAgree(clients, Event(st.nextEvent, from, b), sid, st.at);
    WithRoomAgrees(st, next, sid, next.rooms[sid]);
  }

  lemma StreamKeepsRosters(st: Service, s: Step)
    requires RosterInv(st) && Allowed(st, s) && (s.MemberStream? || s.DepartedStream?)
    ensures RosterInv(Next(st, s))
  {
    var next := Next(st, s);
    if s.MemberStream? {
      StreamSideFrame(st.rooms[s.sid].clients[s.id].pipe, s.action);
      assert Agree(st.rooms[s.sid].clients, s.sid, st.rooms[s.sid].clients.Keys, st.at);
      assert next.rooms[s.sid].clients.Keys == st.rooms[s.sid].clients.Keys;
      assert Agree(next.rooms[s.sid].clients, s.sid, next.rooms[s.sid].clients.Keys, st.at);
      WithRoomAgrees(st, next, s.sid, next.rooms[s.sid]);
    } else {
      StreamSideFrame(st.departed[s.id].pipe, s.action);
      assert LogsOk(next.departed, st.at);
    }
  }

  lemma StepKeepsRosters(st: Service, s: Step)
    requires RosterInv(st) && TableInv(st) && Allowed(st, s)
    ensures RosterInv(Next(st, s))
  {
    match s {
      case Join(p, j, newSession, newClient) => JoinKeepsRosters(st, p, j, newSession, newClient);
      case Leave(sid, id, reason, heir) => LeaveKeepsRosters(st, sid, id, reason, heir);
      case Send(sid, id, body) => RelayKeepsRosters(st, sid, id, body);
      case ServerMessage(sid, from, kind, content, to) => RelayKeepsRosters(st, sid, from, AppMessage(kind, content, to));
      case MemberStream(_, _, _) => StreamKeepsRosters(st, s);
      case DepartedStream(_, _) => StreamKeepsRosters(st, s);
    }
  }

  lemma {:induction false} RunKeepsRosters(st: Service, steps: seq<Step>)
    requires RosterInv(st) && TableInv(st) && Execute(st, steps).Some?
    ensures RosterInv(Execute(st, steps).value)
    decreases |steps|
  {
    if steps != [] {
      StepKeepsRosters(st, steps[0]);
      StepKeepsTable(st, steps[0]);
      RunKeepsRosters(Next(st, steps[0]), steps[1..]);
    }
  }
}
