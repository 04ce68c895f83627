/** What a join and a leave come to for everyone concerned: who is let in, who is told what,
    and who is left alone. */
module RoomEvents {
  import opened Options
  import opened Protocol
  import opened Delivery
  import opened Identity
  import opened Rooms
  import opened RoomTable
  import RoomLaws

  /** The clients of a session before a step, none if it has no room. */
  function Before(st: Service, sid: SessionId): map<ClientId, Client> {
    if sid in st.rooms then st.rooms[sid].clients else map[]
  }

  function Offers(c: Client): seq<Offer> {
    c.pipe.room.offered
  }

  function OffersOf(events: seq<Event>): (r: seq<Offer>)
    ensures |r| == |events| && forall i :: 0 <= i < |r| ==> r[i] == Offer(events[i].from, events[i])
  {
    seq(|events|, i requires 0 <= i < |events| => Offer(events[i].from, events[i]))
  }

  /** Was offered just these events, in this order, and is otherwise the same client; what its
      channel had accepted stays accepted. */
  predicate Told(before: Client, after: Client, events: seq<Event>) {
    && after.info.clientId == before.info.clientId && after.browserId == before.browserId
    && after.principal == before.principal && after.welcome == before.welcome
    && Offers(after) == Offers(before) + OffersOf(events)
    && before.pipe.chan.accepted <= after.pipe.chan.accepted
  }

  lemma OfferedOnce(c: Client, e: Event)
    ensures Told(c, Offered(c, e), [e])
  {
  }

  lemma OfferedTwice(c: Client, first: Event, second: Event)
    ensures Told(c, Offered(Offered(c, first), second), [first, second])
  {
    assert Offers(Offered(Offered(c, first), second)) == Offers(c) + [Offer(first.from, first)] + [Offer(second.from, second)];
  }

  // ---------- who is let in ----------

  /** Its token covers the session, the session has a room or may have one, there is a place in
      it, no owner from another browser is there before an owner, and the client is new enough. */
  predicate Welcome(st: Service, p: Option<Principal>, j: JoinRequest, newSession: SessionId) {
    var sid := Resolve(st, j, newSession);
    && AllowsRoom(p, j.sessionId)
    && (sid in st.rooms || !j.mustExist)
    && (st.maxPeers > 0 ==> |Before(st, sid)| < st.maxPeers)
    && (sid in st.rooms && j.isOwner && st.rooms[sid].ownerId != "" ==> st.rooms[sid].ownerBrowser == j.browserId)
    && ((sid in st.rooms && st.rooms[sid].encrypted) || (j.isOwner && j.encrypted) ==> j.protocolVersion >= 2)
  }

  lemma EnterLetsIn(st: Service, sid: SessionId, p: Option<Principal>, j: JoinRequest, id: ClientId)
    requires sid in st.rooms
    ensures EnterRoom(st, sid, p, j, id).1.Joined? <==>
            && (st.maxPeers > 0 ==> |st.rooms[sid].clients| < st.maxPeers)
            && (j.isOwner && st.rooms[sid].ownerId != "" ==> st.rooms[sid].ownerBrowser == j.browserId)
            && (st.rooms[sid].encrypted || (j.isOwner && j.encrypted) ==> j.protocolVersion >= 2)
  {
  }

  lemma MadeRoom(st: Service, hint: string, sid: SessionId)
    ensures var made := GetOrCreateRoom(IndexHint(st, hint, sid), sid);
            && sid in made.rooms && made.rooms[sid] == (if sid in st.rooms then st.rooms[sid] else EMPTY_ROOM)
            && made.maxPeers == st.maxPeers && made.nextEvent == st.nextEvent
            && forall s :: s in st.rooms ==> s in made.rooms && made.rooms[s] == st.rooms[s]
  {
  }

  /** A join is let in exactly when it is welcome. */
  lemma LetInIffWelcome(st: Service, p: Option<Principal>, j: JoinRequest, newSession: SessionId, id: ClientId)
    ensures HandleJoin(st, p, j, newSession, id).1.Joined? <==> Welcome(st, p, j, newSession)
  {
    var sid := Resolve(st, j, newSession);
    if AllowsRoom(p, j.sessionId) && (sid in st.rooms || !j.mustExist) {
      MadeRoom(st, j.hint, sid);
      EnterLetsIn(GetOrCreateRoom(IndexHint(st, j.hint, sid), sid), sid, p, j, id);
    }
  }

  /** Who is not let in is told why, the first reason that applies. */
  lemma TurnedAwayBecause(st: Service, p: Option<Principal>, j: JoinRequest, newSession: SessionId, id: ClientId)
    ensures var o, sid := HandleJoin(st, p, j, newSession, id).1, Resolve(st, j, newSession);
            !o.Joined? ==>
              if !AllowsRoom(p, j.sessionId) then o == Refused("ROOM_FORBIDDEN", [])
              else if j.mustExist && sid !in st.rooms then o == Refused("ROOM_NOT_FOUND", [])
              else if st.maxPeers > 0 && |Before(st, sid)| >= st.maxPeers then o == Refused("ROOM_FULL", [])
              else if sid in st.rooms && j.isOwner && st.rooms[sid].ownerId != "" && st.rooms[sid].ownerBrowser != j.browserId then o.Failed?
              else o == Refused("PROTOCOL_VERSION_TOO_OLD", [])
  {
    var sid := Resolve(st, j, newSession);
    if AllowsRoom(p, j.sessionId) && (sid in st.rooms || !j.mustExist) {
      MadeRoom(st, j.hint, sid);
      DoorSays(GetOrCreateRoom(IndexHint(st, j.hint, sid), sid), sid, p, j, id);
    }
  }

  lemma DoorSays(st: Service, sid: SessionId, p: Option<Principal>, j: JoinRequest, id: ClientId)
    requires sid in st.rooms
    ensures var o, room := EnterRoom(st, sid, p, j, id).1, st.rooms[sid];
            !o.Joined? ==>
              if st.maxPeers > 0 && |room.clients| >= st.maxPeers then o == Refused("ROOM_FULL", [])
              else if j.isOwner && room.ownerId != "" && room.ownerBrowser != j.browserId then o.Failed?
              else o == Refused("PROTOCOL_VERSION_TOO_OLD", [])
  {
  }

  const TOO_OLD := Refused("PROTOCOL_VERSION_TOO_OLD", [])

  /** An owner that declares its room encrypted and is itself too old for that. */
  predicate DeclaresInVain(o: Outcome, j: JoinRequest) {
    o == TOO_OLD && j.isOwner && j.encrypted
  }

  /** Nobody comes or goes with a join that is turned away. What stays of it: the room it asked for,
      empty if it had none, when it got as far as the encryption, and encrypted if it said so. */
  ghost predicate TurnedAwayWell(st: Service, next: Service, o: Outcome, j: JoinRequest, sid: SessionId) {
    && next.rooms.Keys == st.rooms.Keys + (if o == TOO_OLD then {sid} else {})
    && (forall s :: s in st.rooms ==>
          next.rooms[s] == st.rooms[s].(encrypted := st.rooms[s].encrypted || (s == sid && DeclaresInVain(o, j))))
    && (sid in next.rooms && sid !in st.rooms ==> next.rooms[sid] == Room(map[], "", "", DeclaresInVain(o, j), ""))
    && next.departed == st.departed && next.nextEvent == st.nextEvent
    && next.joined == st.joined && next.left == st.left && next.removed == st.removed
  }

  lemma NothingLeft(st: Service, o: Outcome, j: JoinRequest, sid: SessionId)
    requires o != TOO_OLD
    ensures TurnedAwayWell(st, st, o, j, sid)
  {
  }

  lemma DeclarationLeft(st: Service, j: JoinRequest, sid: SessionId)
    requires sid in st.rooms
    ensures TurnedAwayWell(st, Declared(st, sid, j), TOO_OLD, j, sid)
  {
  }

  lemma DoorLeaves(st: Service, sid: SessionId, p: Option<Principal>, j: JoinRequest, id: ClientId)
    requires sid in st.rooms && !EnterRoom(st, sid, p, j, id).1.Joined?
    ensures var (next, o) := EnterRoom(st, sid, p, j, id); next == if o == TOO_OLD then Declared(st, sid, j) else st
  {
  }

  lemma DoorTurnsAway(st: Service, sid: SessionId, p: Option<Principal>, j: JoinRequest, id: ClientId, next: Service, o: Outcome)
    requires sid in st.rooms && (next, o) == EnterRoom(st, sid, p, j, id) && !o.Joined?
    ensures TurnedAwayWell(st, next, o, j, sid)
  {
    DoorLeaves(st, sid, p, j, id);
    if o == TOO_OLD {
      DeclarationLeft(st, j, sid);
    } else {
      NothingLeft(st, o, j, sid);
    }
  }

  /** The room was made for this join. */
  predicate MadeFor(st: Service, made: Service, sid: SessionId) {
    && made.rooms == (if sid in st.rooms then st.rooms else st.rooms[sid := EMPTY_ROOM])
    && made.departed == st.departed && made.nextEvent == st.nextEvent
    && made.joined == st.joined && made.left == st.left && made.removed == st.removed
  }

  lemma IsMadeFor(st: Service, hint: string, sid: SessionId)
    ensures MadeFor(st, GetOrCreateRoom(IndexHint(st, hint, sid), sid), sid)
  {
  }

  lemma TurnedAwayFromMade(st: Service, made: Service, next: Service, o: Outcome, j: JoinRequest, sid: SessionId)
    requires TurnedAwayWell(made, next, o, j, sid) && MadeFor(st, made, sid) && (sid in st.rooms || o == TOO_OLD)
    ensures TurnedAwayWell(st, next, o, j, sid)
  {
  }

  lemma NewRoomTurnsAway(st: Service, sid: SessionId, p: Option<Principal>, j: JoinRequest, id: ClientId)
    requires sid in st.rooms && st.rooms[sid] == EMPTY_ROOM && !EnterRoom(st, sid, p, j, id).1.Joined?
    ensures EnterRoom(st, sid, p, j, id).1 == TOO_OLD
  {
    assert |st.rooms[sid].clients| == 0;
  }

  lemma RefusedEarly(st: Service, p: Option<Principal>, j: JoinRequest, newSession: SessionId, id: ClientId, next: Service, o: Outcome)
    requires (next, o) == HandleJoin(st, p, j, newSession, id)
    requires !AllowsRoom(p, j.sessionId) || (j.mustExist && Resolve(st, j, newSession) !in st.rooms)
    ensures TurnedAwayWell(st, next, o, j, Resolve(st, j, newSession))
  {
  }

  /** What a join that is turned away leaves behind. */
  lemma TurnedAwayLeaves(st: Service, p: Option<Principal>, j: JoinRequest, newSession: SessionId, id: ClientId)
    ensures var (next, o) := HandleJoin(st, p, j, newSession, id);
            !o.Joined? ==> TurnedAwayWell(st, next, o, j, Resolve(st, j, newSession))
  {
    var (next, o) := HandleJoin(st, p, j, newSession, id);
    if !AllowsRoom(p, j.sessionId) || (j.mustExist && Resolve(st, j, newSession) !in st.rooms) {
      RefusedEarly(st, p, j, newSession, id, next, o);
    } else if !o.Joined? {
      var sid := Resolve(st, j, newSession);
      var made := GetOrCreateRoom(IndexHint(st, j.hint, sid), sid);
      IsMadeFor(st, j.hint, sid);
      LateRefusal(st, made, sid, p, j, id, next, o);
    }
  }

  lemma LateRefusal(st: Service, made: Service, sid: SessionId, p: Option<Principal>, j: JoinRequest, id: ClientId, next: Service, o: Outcome)
    requires MadeFor(st, made, sid) && (next, o) == EnterRoom(made, sid, p, j, id) && !o.Joined?
    ensures TurnedAwayWell(st, next, o, j, sid)
  {
    DoorTurnsAway(made, sid, p, j, id, next, o);
    if sid !in st.rooms {
      NewRoomTurnsAway(made, sid, p, j, id);
    }
    TurnedAwayFromMade(st, made, next, o, j, sid);
  }

  // ---------- what a join does ----------

  /** The newcomer is in the room with an empty queue; its answer lists who was there and who
      owns the room now; each of those was told of it once; every other room is as it was. */
  ghost predicate JoinedWell(st: Service, next: Service, sid: SessionId, id: ClientId, welcome: Event) {
    && sid in next.rooms && next.rooms[sid].clients.Keys == Before(st, sid).Keys + {id}
    && var clients := next.rooms[sid].clients;
       var peers := map k | k in Before(st, sid) :: Before(st, sid)[k].info;
    && clients[id].info.clientId == id && Offers(clients[id]) == [] && clients[id].welcome == welcome
    && welcome.body == RoomJoined(id, sid, peers, next.rooms[sid].ownerId)
    && (forall k :: k in Before(st, sid) && k != id ==>
          Told(Before(st, sid)[k], clients[k], [Event(st.nextEvent + 1, id, PeerJoined(clients[id].info))]))
    && (forall s :: s in st.rooms && s != sid ==> s in next.rooms && next.rooms[s] == st.rooms[s])
  }

  lemma SeatedTold(clients: map<ClientId, Client>, c: Client, note: Event, k: ClientId)
    requires k in clients && k != c.info.clientId
    ensures Told(clients[k], Seated(clients, c, note)[k], [note])
  {
    OfferedOnce(clients[k], note);
  }

  lemma AdmitShape(st: Service, sid: SessionId, p: Option<Principal>, j: JoinRequest, id: ClientId)
    requires sid in st.rooms
    ensures var next, c := Admit(st, sid, p, j, id).0, Newcomer(st, sid, p, j, id);
            && next.rooms == st.rooms[sid := Entered(st, sid, p, j, id)]
            && next.rooms[sid].clients == Seated(st.rooms[sid].clients, c, Event(st.nextEvent + 1, id, PeerJoined(c.info)))
            && c.info.clientId == id && Offers(c) == []
            && c.welcome.body == RoomJoined(id, sid, Peers(st.rooms[sid]), next.rooms[sid].ownerId)
  {
  }

  lemma SeatsWell(st: Service, next: Service, sid: SessionId, c: Client, id: ClientId)
    requires sid in st.rooms && sid in next.rooms && id !in st.rooms[sid].clients
    requires next.rooms == st.rooms[sid := next.rooms[sid]]
    requires next.rooms[sid].clients == Seated(st.rooms[sid].clients, c, Event(st.nextEvent + 1, id, PeerJoined(c.info)))
    requires c.info.clientId == id && Offers(c) == []
    requires c.welcome.body == RoomJoined(id, sid, Peers(st.rooms[sid]), next.rooms[sid].ownerId)
    ensures JoinedWell(st, next, sid, id, c.welcome)
  {
    var note := Event(st.nextEvent + 1, id, PeerJoined(c.info));
    forall k | k in st.rooms[sid].clients ensures Told(st.rooms[sid].clients[k], Seated(st.rooms[sid].clients, c, note)[k], [note])
    {
      SeatedTold(st.rooms[sid].clients, c, note, k);
    }
  }

  lemma AdmitsWell(st: Service, sid: SessionId, p: Option<Principal>, j: JoinRequest, id: ClientId)
    requires sid in st.rooms && id !in st.rooms[sid].clients
    ensures JoinedWell(st, Admit(st, sid, p, j, id).0, sid, id, Newcomer(st, sid, p, j, id).welcome)
  {
    AdmitShape(st, sid, p, j, id);
    SeatsWell(st, Admit(st, sid, p, j, id).0, sid, Newcomer(st, sid, p, j, id), id);
  }

  lemma SameBefore(st: Service, made: Service, next: Service, sid: SessionId, id: ClientId, welcome: Event)
    requires JoinedWell(made, next, sid, id, welcome) && made.nextEvent == st.nextEvent
    requires Before(made, sid) == Before(st, sid)
    requires forall s :: s in st.rooms && s != sid ==> s in made.rooms && made.rooms[s] == st.rooms[s]
    ensures JoinedWell(st, next, sid, id, welcome)
  {
  }

  lemma EntersWell(st: Service, sid: SessionId, p: Option<Principal>, j: JoinRequest, id: ClientId)
    requires sid in st.rooms && id !in st.rooms[sid].clients && EnterRoom(st, sid, p, j, id).1.Joined?
    ensures var (next, o) := EnterRoom(st, sid, p, j, id); JoinedWell(st, next, sid, id, o.welcome)
  {
    var declared := Declared(st, sid, j);
    AdmitsWell(declared, sid, p, j, id);
    SameBefore(st, declared, Admit(declared, sid, p, j, id).0, sid, id, Newcomer(declared, sid, p, j, id).welcome);
  }

  /** The newcomer is as its request and token say, and the room takes from an owner what an owner
      may bring, a title if it has none, and nothing else; the hooks are called as they should be. */
  ghost predicate Registered(st: Service, next: Service, sid: SessionId, p: Option<Principal>, j: JoinRequest, id: ClientId) {
    && sid in next.rooms && id in next.rooms[sid].clients
    && var c, room, known := next.rooms[sid].clients[id], next.rooms[sid], sid in st.rooms;
    && c.info == PeerInfo(id, if j.username == "" then "Anonymous" else j.username, j.isOwner)
    && c.browserId == j.browserId && c.principal == p
    && room.ownerId == (if j.isOwner then id else if known then st.rooms[sid].ownerId else "")
    && room.ownerBrowser == (if j.isOwner then j.browserId else if known then st.rooms[sid].ownerBrowser else "")
    && (room.encrypted <==> (known && st.rooms[sid].encrypted) || (j.isOwner && j.encrypted))
    && room.title == (if known && st.rooms[sid].title != "" then st.rooms[sid].title else j.title)
    && next.joined == st.joined + 1 && next.left == st.left
    && next.created == st.created + (if known then 0 else 1) && next.removed == st.removed
  }

  lemma AdmitRegisters(st: Service, sid: SessionId, p: Option<Principal>, j: JoinRequest, id: ClientId)
    requires sid in st.rooms && (st.rooms[sid].encrypted <== j.isOwner && j.encrypted)
    ensures Registered(st, Admit(st, sid, p, j, id).0, sid, p, j, id)
  {
  }

  lemma DoorRegisters(st: Service, sid: SessionId, p: Option<Principal>, j: JoinRequest, id: ClientId)
    requires sid in st.rooms && EnterRoom(st, sid, p, j, id).1.Joined?
    ensures Registered(st, EnterRoom(st, sid, p, j, id).0, sid, p, j, id)
  {
    AdmitRegisters(Declared(st, sid, j), sid, p, j, id);
  }

  lemma JoinRegisters(st: Service, p: Option<Principal>, j: JoinRequest, newSession: SessionId, id: ClientId)
    requires HandleJoin(st, p, j, newSession, id).1.Joined?
    ensures Registered(st, HandleJoin(st, p, j, newSession, id).0, Resolve(st, j, newSession), p, j, id)
  {
    var sid := Resolve(st, j, newSession);
    DoorRegisters(GetOrCreateRoom(IndexHint(st, j.hint, sid), sid), sid, p, j, id);
  }

  /** In every run, this is what a join that is let in does. */
  lemma JoinDoes(maxPeers: int, steps: seq<Step>,
    p: Option<Principal>, j: JoinRequest, newSession: SessionId, id: ClientId)
    requires Execute(NewService(maxPeers), steps).Some?
    ensures var st := Execute(NewService(maxPeers), steps).value;
            var (next, o) := HandleJoin(st, p, j, newSession, id);
            Allowed(st, Join(p, j, newSession, id)) && o.Joined? ==>
              && JoinedWell(st, next, Resolve(st, j, newSession), id, o.welcome)
              && Registered(st, next, Resolve(st, j, newSession), p, j, id)
  {
    RoomLaws.TableAfter(maxPeers, steps);
    var st := Execute(NewService(maxPeers), steps).value;
    if Allowed(st, Join(p, j, newSession, id)) && HandleJoin(st, p, j, newSession, id).1.Joined? {
      JoinDoesNow(st, p, j, newSession, id);
      JoinRegisters(st, p, j, newSession, id);
    }
  }

  lemma JoinDoesNow(st: Service, p: Option<Principal>, j: JoinRequest, newSession: SessionId, id: ClientId)
    requires TableInv(st) && id !in st.issued && HandleJoin(st, p, j, newSession, id).1.Joined?
    ensures var (next, o) := HandleJoin(st, p, j, newSession, id); JoinedWell(st, next, Resolve(st, j, newSession), id, o.welcome)
  {
    var sid := Resolve(st, j, newSession);
    var made := GetOrCreateRoom(IndexHint(st, j.hint, sid), sid);
    MadeRoom(st, j.hint, sid);
    if sid in st.rooms {
      FreshIsNotInRoom(st, sid, id);
    }
    EntersWell(made, sid, p, j, id);
    var (next, o) := EnterRoom(made, sid, p, j, id);
    SameBefore(st, made, next, sid, id, o.welcome);
  }

  // ---------- what a leave does ----------

  /** Where a client of the room is after the leave: still in it, or among the departed. */
  function Now(next: Service, sid: SessionId, k: ClientId): Option<Client> {
    if InRoom(next, sid, k) then Some(next.rooms[sid].clients[k])
    else if k in next.departed then Some(next.departed[k]) else None
  }

  function HeirNews(n: nat, id: ClientId, reason: string, heir: ClientId, count: nat): seq<Event> {
    [Event(n, id, OwnerChanged(heir)), Event(n + 1, id, PeerLeft(id, reason, count))]
  }

  /** What those who stay behind are told. */
  function News(st: Service, sid: SessionId, id: ClientId, reason: string, heir: ClientId): seq<Event>
    requires InRoom(st, sid, id)
  {
    var n, left := st.nextEvent, PeerLeft(id, reason, |st.rooms[sid].clients| - 1);
    match KindOf(st, sid, id, heir)
    case Departs => [Event(n, id, left)]
    case Succeeds => HeirNews(n, id, reason, heir, |st.rooms[sid].clients| - 1)
    case _ => [Event(n, id, SessionEnded("owner_disconnected"))]
  }

  /** The client is out, its queue untouched. Either the room stays with everyone else in it, or
      it is gone and everyone is out with a closed channel. Each of them was told the news, the
      answer counts those left, and every other room is as it was. */
  ghost predicate LeftWell(st: Service, next: Service, o: Outcome, sid: SessionId, id: ClientId, news: seq<Event>)
    requires InRoom(st, sid, id)
  {
    var others := st.rooms[sid].clients - {id};
    && id in next.departed && Told(st.rooms[sid].clients[id], next.departed[id], [])
    && (sid in next.rooms ==> next.rooms[sid].clients.Keys == others.Keys && o == LeftRoom(id, |others|))
    && (sid !in next.rooms ==> o == LeftRoom(id, 0) && forall k :: k in others ==> k in next.departed && next.departed[k].pipe.chan.closed)
    && (forall k :: k in others ==> Now(next, sid, k).Some? && Told(others[k], Now(next, sid, k).value, news))
    && (forall s :: s in st.rooms && s != sid ==> s in next.rooms && next.rooms[s] == st.rooms[s])
  }

  lemma LeaverKeepsQueue(c: Client)
    ensures Told(c, Gone(c), [])
  {
    assert Offers(Gone(c)) == Offers(c) + [];
  }

  ghost predicate AllTold(before: map<ClientId, Client>, after: map<ClientId, Client>, news: seq<Event>) {
    after.Keys == before.Keys && forall k :: k in before ==> Told(before[k], after[k], news)
  }

  /** The room stays. */
  lemma StaysWell(st: Service, next: Service, sid: SessionId, id: ClientId, room: Room, news: seq<Event>)
    requires InRoom(st, sid, id) && next.rooms == st.rooms[sid := room]
    requires AllTold(Rest(st, sid, id), room.clients, news)
    requires next.departed == st.departed[id := Gone(st.rooms[sid].clients[id])]
    ensures LeftWell(st, next, LeftRoom(id, |Rest(st, sid, id)|), sid, id, news)
  {
    LeaverKeepsQueue(st.rooms[sid].clients[id]);
    forall k | k in Rest(st, sid, id) ensures Now(next, sid, k) == Some(room.clients[k])
    {
      assert InRoom(next, sid, k);
    }
  }

  /** The room goes. */
  lemma GoesWell(
    st: Service, next: Service, sid: SessionId, id: ClientId, out: map<ClientId, Client>, news: seq<Event>)
    requires InRoom(st, sid, id) && next.rooms == st.rooms - {sid}
    requires AllTold(Rest(st, sid, id), out, news) && forall k :: k in out ==> out[k].pipe.chan.closed
    requires next.departed == st.departed[id := Gone(st.rooms[sid].clients[id])] + out
    ensures LeftWell(st, next, LeftRoom(id, 0), sid, id, news)
  {
    LeaverKeepsQueue(st.rooms[sid].clients[id]);
    forall k | k in Rest(st, sid, id) ensures Now(next, sid, k) == Some(out[k])
    {
      assert !InRoom(next, sid, k);
    }
  }

  lemma OfferToTold(rest: map<ClientId, Client>, note: Event)
    ensures AllTold(rest, OfferTo(rest, note, rest.Keys), [note])
  {
    forall k | k in rest ensures Told(rest[k], OfferTo(rest, note, rest.Keys)[k], [note])
    {
      OfferedOnce(rest[k], note);
    }
  }

  lemma EjectedTold(rest: map<ClientId, Client>, note: Event)
    ensures var out := Ejected(OfferTo(rest, note, rest.Keys));
            AllTold(rest, out, [note]) && forall k :: k in out ==> out[k].pipe.chan.closed
  {
    forall k | k in rest ensures Told(rest[k], Closed(Offered(rest[k], note)), [note])
    {
      OfferedOnce(rest[k], note);
    }
  }

  lemma TookOverTold(rest: map<ClientId, Client>, n: nat, id: ClientId, reason: string, heir: ClientId)
    requires heir in rest
    ensures AllTold(rest, TookOver(rest, n, id, reason, heir),
                    HeirNews(n, id, reason, heir, |rest|))
  {
    var first, second := Event(n, id, OwnerChanged(heir)), Event(n + 1, id, PeerLeft(id, reason, |rest|));
    forall k | k in rest ensures Told(rest[k], TookOver(rest, n, id, reason, heir)[k], [first, second])
    {
      OfferedTwice(Crowned(rest, heir)[k], first, second);
    }
  }

  lemma DepartsWell(st: Service, sid: SessionId, id: ClientId, reason: string)
    requires InRoom(st, sid, id)
    ensures var rest := Rest(st, sid, id);
            LeftWell(st, Depart(st, sid, id, reason), LeftRoom(id, |rest|), sid, id, [Event(st.nextEvent, id, PeerLeft(id, reason, |rest|))])
  {
    var rest, next := Rest(st, sid, id), Depart(st, sid, id, reason);
    var note := Event(st.nextEvent, id, PeerLeft(id, reason, |rest|));
    OfferToTold(rest, note);
    StaysWell(st, next, sid, id, st.rooms[sid].(clients := OfferTo(rest, note, rest.Keys)), [note]);
  }

  lemma SucceedShape(st: Service, sid: SessionId, id: ClientId, reason: string, heir: ClientId)
    requires InRoom(st, sid, id) && heir in Rest(st, sid, id)
    ensures var next := Succeed(st, sid, id, reason, heir);
            && next.rooms == st.rooms[sid := st.rooms[sid].(clients := TookOver(Rest(st, sid, id), st.nextEvent, id, reason, heir), ownerId := heir)]
            && next.departed == st.departed[id := Gone(st.rooms[sid].clients[id])]
  {
  }

  lemma SucceedsWell(st: Service, next: Service, sid: SessionId, id: ClientId, reason: string, heir: ClientId)
    requires InRoom(st, sid, id) && heir in Rest(st, sid, id)
    requires next.rooms == st.rooms[sid := st.rooms[sid].(clients := TookOver(Rest(st, sid, id), st.nextEvent, id, reason, heir), ownerId := heir)]
    requires next.departed == st.departed[id := Gone(st.rooms[sid].clients[id])]
    ensures LeftWell(st, next, LeftRoom(id, |Rest(st, sid, id)|), sid, id,
                     HeirNews(st.nextEvent, id, reason, heir, |Rest(st, sid, id)|))
  {
    var rest, n := Rest(st, sid, id), st.nextEvent;
    TookOverTold(rest, n, id, reason, heir);
    var room := st.rooms[sid].(clients := TookOver(rest, n, id, reason, heir), ownerId := heir);
    StaysWell(st, next, sid, id, room, HeirNews(n, id, reason, heir, |rest|));
  }

  lemma EndsWell(st: Service, sid: SessionId, id: ClientId)
    requires InRoom(st, sid, id)
    ensures LeftWell(st, EndRoom(st, sid, id), LeftRoom(id, 0), sid, id,
                     [Event(st.nextEvent, id, SessionEnded("owner_disconnected"))])
  {
    var rest, end := Rest(st, sid, id), Event(st.nextEvent, id, SessionEnded("owner_disconnected"));
    EjectedTold(rest, end);
    GoesWell(st, EndRoom(st, sid, id), sid, id, Ejected(OfferTo(rest, end, rest.Keys)), [end]);
  }

  lemma ClosesWell(st: Service, sid: SessionId, id: ClientId, news: seq<Event>)
    requires InRoom(st, sid, id) && Rest(st, sid, id) == map[]
    ensures LeftWell(st, CloseRoom(st, sid, id), LeftRoom(id, 0), sid, id, news)
  {
    GoesWell(st, CloseRoom(st, sid, id), sid, id, map[], news);
  }

  lemma HeirLeaves(st: Service, sid: SessionId, id: ClientId, reason: string, heir: ClientId)
    requires InRoom(st, sid, id) && KindOf(st, sid, id, heir).Succeeds?
    ensures LeftWell(st, Succeed(st, sid, id, reason, heir), LeftRoom(id, |Rest(st, sid, id)|), sid, id, News(st, sid, id, reason, heir))
  {
    RestSize(st, sid, id);
    SucceedShape(st, sid, id, reason, heir);
    SucceedsWell(st, Succeed(st, sid, id, reason, heir), sid, id, reason, heir);
  }

  lemma OthersLeave(st: Service, sid: SessionId, id: ClientId, reason: string, heir: ClientId)
    requires InRoom(st, sid, id) && KindOf(st, sid, id, heir).Departs?
    ensures LeftWell(st, Depart(st, sid, id, reason), LeftRoom(id, |Rest(st, sid, id)|), sid, id, News(st, sid, id, reason, heir))
  {
    RestSize(st, sid, id);
    DepartsWell(st, sid, id, reason);
  }

  /** What a leave does, in any state. */
  lemma LeaveDoes(st: Service, sid: SessionId, id: ClientId, reason: string, heir: ClientId)
    requires InRoom(st, sid, id)
    ensures var (next, o) := HandleLeave(st, sid, id, reason, heir);
            LeftWell(st, next, o, sid, id, News(st, sid, id, reason, heir))
  {
    match KindOf(st, sid, id, heir) {
      case Departs => OthersLeave(st, sid, id, reason, heir);
      case Succeeds => HeirLeaves(st, sid, id, reason, heir);
      case EndsRoom => EndsWell(st, sid, id);
      case ClosesRoom => ClosesWell(st, sid, id, News(st, sid, id, reason, heir));
    }
  }

  // ---------- what a relayed message does ----------

  /** What one client of the room gets of a message: everyone but its sender the message itself,
      or each addressee a copy naming it alone. */
  function CopyFor(e: Event, k: ClientId): seq<Event> {
    if e.body.AppMessage? && |e.body.toClientIds| > 0 then
      if k in e.body.toClientIds then [e.(body := AppMessage(e.body.kind, e.body.content, [k]))] else []
    else if k == e.from then [] else [e]
  }

  lemma HeardTold(clients: map<ClientId, Client>, e: Event, k: ClientId)
    requires k in clients
    ensures Told(clients[k], Heard(clients, e)[k], CopyFor(e, k))
  {
    var c := clients[k];
    OfferedOnce(c, e);
    OfferedOnce(c, Addressed(e, k));
    assert Offers(c) + [] == Offers(c);
  }

  /** Everyone gets its copy; a removed password ends the encryption, a new title is kept, and
      that is all. The sender hears of it just when an addressee is not in the room. */
  lemma RelayDoes(st: Service, sid: SessionId, from: ClientId, b: Body)
    requires sid in st.rooms
    ensures var (next, o) := Relay(st, sid, from, b);
            && next.rooms.Keys == st.rooms.Keys && (forall s :: s in st.rooms && s != sid ==> next.rooms[s] == st.rooms[s])
            && var before, after := st.rooms[sid], next.rooms[sid];
            && after.clients.Keys == before.clients.Keys
            && (forall k :: k in before.clients ==> Told(before.clients[k], after.clients[k], CopyFor(Event(st.nextEvent, from, b), k)))
            && (after.encrypted <==> before.encrypted && b != CredentialsChanged("password_removed"))
            && after.title == (if b.TitleChanged? then b.title else before.title)
            && after.ownerId == before.ownerId && after.ownerBrowser == before.ownerBrowser
            && (o != Silent <==> b.AppMessage? && exists k :: k in b.toClientIds && k !in before.clients)
  {
    var e := Event(st.nextEvent, from, b);
    forall k | k in st.rooms[sid].clients ensures Told(st.rooms[sid].clients[k], Heard(st.rooms[sid].clients, e)[k], CopyFor(e, k))
    {
      HeardTold(st.rooms[sid].clients, e, k);
    }
    SilentUnlessMissing(st, sid, from, b);
  }

  lemma SilentUnlessMissing(st: Service, sid: SessionId, from: ClientId, b: Body)
    requires sid in st.rooms
    ensures Relay(st, sid, from, b).1 != Silent <==> b.AppMessage? && exists k :: k in b.toClientIds && k !in st.rooms[sid].clients
  {
    if b.AppMessage? && b.toClientIds != [] {
      RoomLaws.SendEachSplits(st, sid, from, b.kind, b.content, b.toClientIds);
    }
  }
}
