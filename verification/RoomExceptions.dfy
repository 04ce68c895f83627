/** Where a natural expectation about rooms fails, and exactly when: a room nobody is in, and
    a second owner. */
module RoomExceptions {
  import opened Options
  import opened Protocol
  import opened Identity
  import opened Rooms
  import opened RoomTable
  import RoomEvents
  import RoomLaws

  // ---------- rooms nobody is in ----------

  predicate NobodyIn(st: Service, sid: SessionId) {
    sid in st.rooms && st.rooms[sid].clients == map[]
  }

  /** An owner opens a session, declares it encrypted, and is too old for that itself. */
  predicate OpensForNobody(st: Service, s: Step) {
    && s.Join? && AllowsRoom(s.principal, s.request.sessionId) && !s.request.mustExist
    && Resolve(st, s.request, s.newSession) !in st.rooms
    && s.request.isOwner && s.request.encrypted && s.request.protocolVersion < 2
  }

  /** Entering room `into` does not empty any room, and a client let in is in it. */
  lemma EnterEmpties(st: Service, into: SessionId, p: Option<Principal>, j: JoinRequest, id: ClientId, sid: SessionId)
    requires into in st.rooms
    ensures NobodyIn(EnterRoom(st, into, p, j, id).0, sid) <==>
            NobodyIn(st, sid) && !(into == sid && EnterRoom(st, into, p, j, id).1.Joined?)
  {
    var next, declared := EnterRoom(st, into, p, j, id).0, Declared(st, into, j);
    assert id in Entered(declared, into, p, j, id).clients;
    if EnterRoom(st, into, p, j, id).1.Joined? {
      assert next == Admit(declared, into, p, j, id).0;
    } else {
      assert next == st || next == declared;
    }
  }

  /** A room just opened lets its first client in, but for the encryption check. */
  lemma FirstIsLetIn(st: Service, sid: SessionId, p: Option<Principal>, j: JoinRequest, id: ClientId)
    requires sid in st.rooms && st.rooms[sid] == EMPTY_ROOM
    ensures EnterRoom(st, sid, p, j, id).1.Joined? <==> !(j.isOwner && j.encrypted && j.protocolVersion < 2)
  {
    assert |st.rooms[sid].clients| == 0;
  }

  lemma JoinEmpties(st: Service, s: Step, sid: SessionId)
    requires s.Join? && Allowed(st, s) && !NobodyIn(st, sid)
    ensures NobodyIn(Next(st, s), sid) <==> OpensForNobody(st, s) && Resolve(st, s.request, s.newSession) == sid
  {
    var j := s.request;
    var into := Resolve(st, j, s.newSession);
    if AllowsRoom(s.principal, j.sessionId) && !(j.mustExist && into !in st.rooms) {
      var made := GetOrCreateRoom(IndexHint(st, j.hint, into), into);
      EnterEmpties(made, into, s.principal, j, s.newClient, sid);
      if into !in st.rooms {
        FirstIsLetIn(made, into, s.principal, j, s.newClient);
      }
    }
  }

  lemma DepartEmpties(st: Service, at: SessionId, id: ClientId, reason: string, sid: SessionId)
    requires InRoom(st, at, id) && Rest(st, at, id) != map[] && !NobodyIn(st, sid)
    ensures !NobodyIn(Depart(st, at, id, reason), sid)
  {
    assert Depart(st, at, id, reason).rooms[at].clients.Keys == Rest(st, at, id).Keys;
  }

  lemma SucceedEmpties(st: Service, at: SessionId, id: ClientId, reason: string, heir: ClientId, sid: SessionId)
    requires InRoom(st, at, id) && heir in Rest(st, at, id) && !NobodyIn(st, sid)
    ensures !NobodyIn(Succeed(st, at, id, reason, heir), sid)
  {
    assert heir in Succeed(st, at, id, reason, heir).rooms[at].clients;
  }

  lemma RemovalEmpties(st: Service, at: SessionId, id: ClientId, sid: SessionId)
    requires InRoom(st, at, id) && !NobodyIn(st, sid)
    ensures !NobodyIn(EndRoom(st, at, id), sid) && !NobodyIn(CloseRoom(st, at, id), sid)
  {
  }

  lemma LeaveEmpties(st: Service, at: SessionId, id: ClientId, reason: string, heir: ClientId, sid: SessionId)
    requires InRoom(st, at, id) && !NobodyIn(st, sid)
    ensures !NobodyIn(HandleLeave(st, at, id, reason, heir).0, sid)
  {
    match KindOf(st, at, id, heir) {
      case Departs => DepartEmpties(st, at, id, reason, sid);
      case Succeeds => SucceedEmpties(st, at, id, reason, heir, sid);
      case EndsRoom => RemovalEmpties(st, at, id, sid);
      case ClosesRoom => RemovalEmpties(st, at, id, sid);
    }
  }

  lemma RelayEmpties(st: Service, at: SessionId, from: ClientId, b: Body, sid: SessionId)
    requires at in st.rooms && !NobodyIn(st, sid)
    ensures !NobodyIn(Relay(st, at, from, b).0, sid)
  {
    assert Relay(st, at, from, b).0.rooms[at].clients.Keys == st.rooms[at].clients.Keys;
  }

  /** In any state, whatever rooms are empty already: a session comes to have a room nobody is in
      exactly when an owner is refused for the encryption it has just declared on that session,
      which was not in the table. */
  lemma EmptyRoomExactly(st: Service, s: Step, sid: SessionId)
    requires Allowed(st, s) && !NobodyIn(st, sid)
    ensures NobodyIn(Next(st, s), sid) <==> OpensForNobody(st, s) && Resolve(st, s.request, s.newSession) == sid
  {
    match s {
      case Join(_, _, _, _) => JoinEmpties(st, s, sid);
      case Leave(at, id, reason, heir) => LeaveEmpties(st, at, id, reason, heir, sid);
      case Send(at, id, body) => RelayEmpties(st, at, id, body, sid);
      case ServerMessage(at, from, kind, content, to) => RelayEmpties(st, at, from, AppMessage(kind, content, to), sid);
      case MemberStream(at, id, a) =>
        assert OnMember(st, at, id, a).rooms[at].clients.Keys == st.rooms[at].clients.Keys;
      case DepartedStream(_, _) =>
    }
  }

  // ---------- a second owner ----------

  predicate OneOwner(clients: map<ClientId, Client>) {
    forall a, b :: a in clients && b in clients && clients[a].info.isOwner && clients[b].info.isOwner ==> a == b
  }

  /** An owner that is welcome asks for a room that has one. */
  predicate JoinsAsSecond(st: Service, s: Step, sid: SessionId)
    requires sid in st.rooms
  {
    && s.Join? && RoomEvents.Welcome(st, s.principal, s.request, s.newSession)
    && Resolve(st, s.request, s.newSession) == sid && s.request.isOwner && st.rooms[sid].ownerId != ""
  }

  lemma SameFacesSameOwners(a: map<ClientId, Client>, b: map<ClientId, Client>)
    requires SameFaces(a, b)
    ensures OneOwner(a) <==> OneOwner(b)
  {
  }

  lemma SeatedOwners(room: Room, c: Client)
    requires OwnerOk(room) && OneOwner(room.clients) && c.info.clientId !in room.clients
    ensures OneOwner(room.clients[c.info.clientId := c]) <==> !(c.info.isOwner && room.ownerId != "")
  {
    var grown := room.clients[c.info.clientId := c];
    if c.info.isOwner && room.ownerId != "" {
      assert grown[room.ownerId].info.isOwner && grown[c.info.clientId].info.isOwner;
    }
  }

  lemma AdmitOwners(st: Service, sid: SessionId, p: Option<Principal>, j: JoinRequest, id: ClientId)
    requires sid in st.rooms && OwnerOk(st.rooms[sid]) && OneOwner(st.rooms[sid].clients) && id !in st.rooms[sid].clients
    ensures OneOwner(Admit(st, sid, p, j, id).0.rooms[sid].clients) <==> !(j.isOwner && st.rooms[sid].ownerId != "")
  {
    var c := Newcomer(st, sid, p, j, id);
    AdmitSeats(st, sid, p, j, id);
    SeatedOwners(st.rooms[sid], c);
    SameFacesSameOwners(st.rooms[sid].clients[id := c], Admit(st, sid, p, j, id).0.rooms[sid].clients);
  }

  lemma EnterOwners(st: Service, at: SessionId, p: Option<Principal>, j: JoinRequest, id: ClientId, sid: SessionId)
    requires at in st.rooms && sid in st.rooms && OwnerOk(st.rooms[sid]) && OneOwner(st.rooms[sid].clients) && id !in st.rooms[sid].clients
    ensures var (next, o) := EnterRoom(st, at, p, j, id);
            sid in next.rooms
            && (OneOwner(next.rooms[sid].clients) <==> !(o.Joined? && at == sid && j.isOwner && st.rooms[sid].ownerId != ""))
  {
    var declared := Declared(st, at, j);
    assert declared.rooms[sid].clients == st.rooms[sid].clients && declared.rooms[sid].ownerId == st.rooms[sid].ownerId;
    if EnterRoom(st, at, p, j, id).1.Joined? && at == sid {
      AdmitOwners(declared, sid, p, j, id);
    }
  }

  lemma LetInOwners(st: Service, s: Step, sid: SessionId)
    requires TableInv(st) && s.Join? && Allowed(st, s) && sid in st.rooms && OneOwner(st.rooms[sid].clients)
    ensures var (next, o) := HandleJoin(st, s.principal, s.request, s.newSession, s.newClient);
            sid in next.rooms
            && (OneOwner(next.rooms[sid].clients) <==>
                !(o.Joined? && Resolve(st, s.request, s.newSession) == sid && s.request.isOwner && st.rooms[sid].ownerId != ""))
  {
    var j := s.request;
    var at := Resolve(st, j, s.newSession);
    var indexed := IndexHint(st, j.hint, at);
    FreshIsNotInRoom(st, sid, s.newClient);
    assert RoomOk(st.maxPeers, sid, st.rooms[sid]);
    if AllowsRoom(s.principal, j.sessionId) && !(j.mustExist && at !in st.rooms) {
      EnterOwners(GetOrCreateRoom(indexed, at), at, s.principal, j, s.newClient, sid);
    }
  }

  lemma JoinOwners(st: Service, s: Step, sid: SessionId)
    requires TableInv(st) && s.Join? && Allowed(st, s) && sid in st.rooms && OneOwner(st.rooms[sid].clients)
    ensures sid in Next(st, s).rooms && (OneOwner(Next(st, s).rooms[sid].clients) <==> !JoinsAsSecond(st, s, sid))
  {
    LetInOwners(st, s, sid);
    RoomEvents.LetInIffWelcome(st, s.principal, s.request, s.newSession, s.newClient);
  }

  lemma DepartOwners(st: Service, sid: SessionId, id: ClientId, reason: string)
    requires InRoom(st, sid, id) && OneOwner(st.rooms[sid].clients)
    ensures OneOwner(Depart(st, sid, id, reason).rooms[sid].clients)
  {
    DepartUnseats(st, sid, id, reason);
    SameFacesSameOwners(Rest(st, sid, id), Depart(st, sid, id, reason).rooms[sid].clients);
  }

  lemma SucceedOwners(st: Service, sid: SessionId, id: ClientId, reason: string, heir: ClientId)
    requires InRoom(st, sid, id) && OneOwner(st.rooms[sid].clients)
    requires st.rooms[sid].clients[id].info.isOwner && heir in Rest(st, sid, id)
    ensures OneOwner(Succeed(st, sid, id, reason, heir).rooms[sid].clients)
  {
    var crowned := Crowned(Rest(st, sid, id), heir);
    assert OneOwner(crowned);
    SucceedFaces(st, sid, id, reason, heir);
    SameFacesSameOwners(crowned, Succeed(st, sid, id, reason, heir).rooms[sid].clients);
  }

  lemma ElsewhereOwners(st: Service, at: SessionId, id: ClientId, reason: string, heir: ClientId, sid: SessionId)
    requires InRoom(st, at, id) && sid in st.rooms && sid != at
    ensures heir in Rest(st, at, id) ==> Succeed(st, at, id, reason, heir).rooms[sid] == st.rooms[sid]
    ensures Depart(st, at, id, reason).rooms[sid] == st.rooms[sid]
  {
  }

  lemma LeaveOwners(st: Service, at: SessionId, id: ClientId, reason: string, heir: ClientId, sid: SessionId)
    requires InRoom(st, at, id) && sid in st.rooms && OneOwner(st.rooms[sid].clients)
    requires sid in HandleLeave(st, at, id, reason, heir).0.rooms
    ensures OneOwner(HandleLeave(st, at, id, reason, heir).0.rooms[sid].clients)
  {
    match KindOf(st, at, id, heir) {
      case Departs =>
        if sid == at {
          DepartOwners(st, at, id, reason);
        } else {
          ElsewhereOwners(st, at, id, reason, heir, sid);
        }
      case Succeeds =>
        if sid == at {
          SucceedOwners(st, at, id, reason, heir);
        } else {
          ElsewhereOwners(st, at, id, reason, heir, sid);
        }
      case EndsRoom => RoomLaws.RestKeepsOwner(st, at, id, sid);
      case ClosesRoom => RoomLaws.RestKeepsOwner(st, at, id, sid);
    }
  }

  lemma RelayOwners(st: Service, at: SessionId, from: ClientId, b: Body, sid: SessionId)
    requires at in st.rooms && sid in st.rooms && OneOwner(st.rooms[sid].clients)
    ensures OneOwner(Relay(st, at, from, b).0.rooms[sid].clients)
  {
    HeardFaces(st.rooms[at].clients, Event(st.nextEvent, from, b));
    if sid == at {
      SameFacesSameOwners(st.rooms[at].clients, Relay(st, at, from, b).0.rooms[at].clients);
    }
  }

  lemma SecondOwnerNow(st: Service, s: Step, sid: SessionId)
    requires TableInv(st) && Allowed(st, s) && sid in st.rooms && OneOwner(st.rooms[sid].clients) && sid in Next(st, s).rooms
    ensures OneOwner(Next(st, s).rooms[sid].clients) <==> !JoinsAsSecond(st, s, sid)
  {
    match s {
      case Join(_, _, _, _) => JoinOwners(st, s, sid);
      case Leave(at, id, reason, heir) => LeaveOwners(st, at, id, reason, heir, sid);
      case Send(at, id, body) => RelayOwners(st, at, id, body, sid);
      case ServerMessage(at, from, kind, content, to) => RelayOwners(st, at, from, AppMessage(kind, content, to), sid);
      case MemberStream(at, id, a) =>
        if at == sid {
          SameFacesSameOwners(st.rooms[at].clients, OnMember(st, at, id, a).rooms[at].clients);
        }
      case DepartedStream(_, _) =>
    }
  }

  /** In every run, a room comes to have two clients flagged as owner exactly when an owner,
      another tab of the first one's browser, is let in beside it. */
  lemma SecondOwnerExactly(maxPeers: int, steps: seq<Step>, s: Step, sid: SessionId)
    requires Execute(NewService(maxPeers), steps).Some?
    ensures var st := Execute(NewService(maxPeers), steps).value;
            Allowed(st, s) && sid in st.rooms && OneOwner(st.rooms[sid].clients) && sid in Next(st, s).rooms ==>
              (OneOwner(Next(st, s).rooms[sid].clients) <==> !JoinsAsSecond(st, s, sid))
  {
    RoomLaws.TableAfter(maxPeers, steps);
    var st := Execute(NewService(maxPeers), steps).value;
    if Allowed(st, s) && sid in st.rooms && OneOwner(st.rooms[sid].clients) && sid in Next(st, s).rooms {
      SecondOwnerNow(st, s, sid);
    }
  }
}
