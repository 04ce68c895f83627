/** What the relay promises about its rooms, spelled out for every run of handler calls. */
module RoomLaws {
  import opened Options
  import opened Protocol
  import opened Delivery
  import opened Identity
  import opened Rooms
  import opened RoomTable

  lemma TableAfter(maxPeers: int, steps: seq<Step>)
    requires Execute(NewService(maxPeers), steps).Some?
    ensures TableInv(Execute(NewService(maxPeers), steps).value)
  {
    NewServiceInv(maxPeers);
    RunKeepsTable(NewService(maxPeers), steps);
  }

  lemma JoinKeepsLimit(st: Service, p: Option<Principal>, j: JoinRequest, newSession: SessionId, id: ClientId)
    ensures HandleJoin(st, p, j, newSession, id).0.maxPeers == st.maxPeers
  {
    var sid := Resolve(st, j, newSession);
    EnterKeepsLimit(GetOrCreateRoom(IndexHint(st, j.hint, sid), sid), sid, p, j, id);
  }

  lemma EnterKeepsLimit(st: Service, sid: SessionId, p: Option<Principal>, j: JoinRequest, id: ClientId)
    requires sid in st.rooms
    ensures EnterRoom(st, sid, p, j, id).0.maxPeers == st.maxPeers
  {
  }

  lemma LeaveKeepsLimit(st: Service, sid: SessionId, id: ClientId, reason: string, heir: ClientId)
    requires InRoom(st, sid, id)
    ensures HandleLeave(st, sid, id, reason, heir).0.maxPeers == st.maxPeers
  {
  }

  lemma StepKeepsLimit(st: Service, s: Step)
    requires Allowed(st, s)
    ensures Next(st, s).maxPeers == st.maxPeers
  {
    match s
    case Join(p, j, newSession, newClient) => JoinKeepsLimit(st, p, j, newSession, newClient);
    case Leave(sid, id, reason, heir) => LeaveKeepsLimit(st, sid, id, reason, heir);
    case _ =>
  }

  lemma {:induction false} MaxPeersStays(st: Service, steps: seq<Step>)
    requires Execute(st, steps).Some?
    ensures Execute(st, steps).value.maxPeers == st.maxPeers
    decreases |steps|
  {
    if steps != [] {
      StepKeepsLimit(st, steps[0]);
      MaxPeersStays(Next(st, steps[0]), steps[1..]);
    }
  }

  /** A client is in one room at most, and findRoomForClient returns that room. */
  lemma FindRoomFinds(maxPeers: int, steps: seq<Step>, id: ClientId, sid: SessionId)
    requires Execute(NewService(maxPeers), steps).Some?
    ensures var st := Execute(NewService(maxPeers), steps).value;
            FindRoom(st, id) == Some(sid) <==> InRoom(st, sid, id)
  {
    TableAfter(maxPeers, steps);
  }

  /** No room exceeds a positive limit, and every member's token allows that room, also when
      the room came from a hint. */
  lemma RoomsAreAdmitted(maxPeers: int, steps: seq<Step>, sid: SessionId)
    requires Execute(NewService(maxPeers), steps).Some?
    ensures var st := Execute(NewService(maxPeers), steps).value;
            sid in st.rooms ==>
              && (maxPeers > 0 ==> |st.rooms[sid].clients| <= maxPeers)
              && (forall id :: id in st.rooms[sid].clients ==> AllowsRoom(st.rooms[sid].clients[id].principal, sid))
  {
    TableAfter(maxPeers, steps);
    MaxPeersStays(NewService(maxPeers), steps);
    var st := Execute(NewService(maxPeers), steps).value;
    if sid in st.rooms {
      assert RoomOk(st.maxPeers, sid, st.rooms[sid]);
      assert |st.rooms[sid].clients.Keys| == |st.rooms[sid].clients|;
    }
  }

  /** Every hint points at a room of the table, or at a session some join was refused for
      because it had none. */
  lemma HintsPointSomewhere(maxPeers: int, steps: seq<Step>, hint: string)
    requires Execute(NewService(maxPeers), steps).Some?
    requires hint in Execute(NewService(maxPeers), steps).value.hints
    ensures var st := Execute(NewService(maxPeers), steps).value;
            st.hints[hint] in st.rooms || st.hints[hint] in st.refused
  {
    TableAfter(maxPeers, steps);
  }

  /** An owner is a flagged member, flagged members share the owner's browser, and a room
      without an owner has none. */
  lemma Ownership(maxPeers: int, steps: seq<Step>, sid: SessionId)
    requires Execute(NewService(maxPeers), steps).Some?
    ensures var st := Execute(NewService(maxPeers), steps).value;
            sid in st.rooms ==>
              var room := st.rooms[sid];
              && (room.ownerId != "" ==> room.ownerId in room.clients && room.clients[room.ownerId].info.isOwner)
              && (forall id :: id in room.clients && room.clients[id].info.isOwner ==>
                    room.ownerId != "" && room.clients[id].browserId == room.ownerBrowser)
  {
    TableAfter(maxPeers, steps);
    var st := Execute(NewService(maxPeers), steps).value;
    if sid in st.rooms {
      assert RoomOk(st.maxPeers, sid, st.rooms[sid]);
    }
  }

  lemma EnterOwner(st: Service, sid: SessionId, p: Option<Principal>, j: JoinRequest, id: ClientId, s: SessionId)
    requires sid in st.rooms && s in st.rooms && id != "" && st.rooms[s].ownerId != ""
    ensures var next := EnterRoom(st, sid, p, j, id).0; s in next.rooms && next.rooms[s].ownerId != ""
  {
    var declared := Declared(st, sid, j);
    assert declared.rooms[s].ownerId == st.rooms[s].ownerId;
    assert Entered(declared, sid, p, j, id).ownerId == if j.isOwner then id else st.rooms[sid].ownerId;
  }

  lemma HeirIsNamed(st: Service, sid: SessionId, id: ClientId, reason: string, heir: ClientId, s: SessionId)
    requires RoomsOk(st) && InRoom(st, sid, id) && heir in Rest(st, sid, id) && s in st.rooms && st.rooms[s].ownerId != ""
    ensures Succeed(st, sid, id, reason, heir).rooms[s].ownerId != ""
  {
    assert RoomOk(st.maxPeers, sid, st.rooms[sid]);
    assert heir in st.rooms[sid].clients;
  }

  lemma DepartKeepsOwner(st: Service, sid: SessionId, id: ClientId, reason: string, s: SessionId)
    requires InRoom(st, sid, id) && s in st.rooms
    ensures Depart(st, sid, id, reason).rooms[s].ownerId == st.rooms[s].ownerId
  {
  }

  lemma RestKeepsOwner(st: Service, sid: SessionId, id: ClientId, s: SessionId)
    requires InRoom(st, sid, id) && s in st.rooms
    ensures s in EndRoom(st, sid, id).rooms ==> EndRoom(st, sid, id).rooms[s] == st.rooms[s]
    ensures s in CloseRoom(st, sid, id).rooms ==> CloseRoom(st, sid, id).rooms[s] == st.rooms[s]
  {
  }

  lemma LeaveOwner(st: Service, sid: SessionId, id: ClientId, reason: string, heir: ClientId, s: SessionId)
    requires RoomsOk(st) && InRoom(st, sid, id)
    requires s in st.rooms && s in HandleLeave(st, sid, id, reason, heir).0.rooms && st.rooms[s].ownerId != ""
    ensures HandleLeave(st, sid, id, reason, heir).0.rooms[s].ownerId != ""
  {
    match KindOf(st, sid, id, heir) {
      case Departs => DepartKeepsOwner(st, sid, id, reason, s);
      case Succeeds => HeirIsNamed(st, sid, id, reason, heir, s);
      case EndsRoom => RestKeepsOwner(st, sid, id, s);
      case ClosesRoom => RestKeepsOwner(st, sid, id, s);
    }
  }

  lemma JoinOwner(st: Service, p: Option<Principal>, j: JoinRequest, newSession: SessionId, id: ClientId, s: SessionId)
    requires s in st.rooms && st.rooms[s].ownerId != "" && id != ""
    ensures var next := HandleJoin(st, p, j, newSession, id).0; s in next.rooms && next.rooms[s].ownerId != ""
  {
    var resolved := Resolve(st, j, newSession);
    EnterOwner(GetOrCreateRoom(IndexHint(st, j.hint, resolved), resolved), resolved, p, j, id, s);
  }

  lemma OwnerStaysNow(st: Service, s: Step, sid: SessionId)
    requires TableInv(st) && Allowed(st, s)
    requires sid in st.rooms && st.rooms[sid].ownerId != "" && sid in Next(st, s).rooms
    ensures Next(st, s).rooms[sid].ownerId != ""
  {
    match s {
      case Join(p, j, newSession, newClient) =>
        JoinOwner(st, p, j, newSession, newClient, sid);
      case Leave(left, id, reason, heir) => LeaveOwner(st, left, id, reason, heir, sid);
      case _ =>
    }
  }

  /** A room with an owner keeps having one for as long as it stays in the table, in every run. */
  lemma OwnerStays(maxPeers: int, steps: seq<Step>, s: Step, sid: SessionId)
    requires Execute(NewService(maxPeers), steps).Some?
    ensures var st := Execute(NewService(maxPeers), steps).value;
            Allowed(st, s) && sid in st.rooms && st.rooms[sid].ownerId != "" && sid in Next(st, s).rooms
            ==> Next(st, s).rooms[sid].ownerId != ""
  {
    TableAfter(maxPeers, steps);
    var st := Execute(NewService(maxPeers), steps).value;
    if Allowed(st, s) && sid in st.rooms && st.rooms[sid].ownerId != "" && sid in Next(st, s).rooms {
      OwnerStaysNow(st, s, sid);
    }
  }

  /** Nothing is miscounted: rooms opened less rooms removed are the rooms there are, and
      peers joined are those who left, those present and those a dying session took out. */
  lemma Conservation(maxPeers: int, steps: seq<Step>)
    requires Execute(NewService(maxPeers), steps).Some?
    ensures var st := Execute(NewService(maxPeers), steps).value;
            && st.created - st.removed == |st.rooms|
            && st.joined == st.left + PeerTotal(st.rooms) + st.ejected
  {
    TableAfter(maxPeers, steps);
    var st := Execute(NewService(maxPeers), steps).value;
    assert |st.rooms.Keys| == |st.rooms|;
  }

  lemma EnterKeepsKeys(st: Service, sid: SessionId, p: Option<Principal>, j: JoinRequest, id: ClientId)
    requires sid in st.rooms
    ensures EnterRoom(st, sid, p, j, id).0.rooms.Keys == st.rooms.Keys
  {
  }

  /** A rejoin never opens a room, whatever it is answered. */
  lemma MustExistOpensNothing(st: Service, p: Option<Principal>, j: JoinRequest, newSession: SessionId, id: ClientId)
    requires j.mustExist
    ensures HandleJoin(st, p, j, newSession, id).0.rooms.Keys == st.rooms.Keys
  {
    var sid := Resolve(st, j, newSession);
    var indexed := IndexHint(st, j.hint, sid);
    if AllowsRoom(p, j.sessionId) && sid in st.rooms {
      assert GetOrCreateRoom(indexed, sid) == indexed;
      EnterKeepsKeys(indexed, sid, p, j, id);
    }
  }

  // ---------- what is not promised ----------

  function Asking(isOwner: bool, browserId: string, sid: SessionId, encrypted: bool, version: int): JoinRequest {
    JoinRequest("", isOwner, browserId, "", sid, encrypted, version, false, "", OPENED.stream)
  }

  /** An owner whose client is too old for the encryption it declares leaves an empty room behind. */
  lemma EmptyRoomStays(maxPeers: int, sid: SessionId, id: ClientId)
    requires sid != "" && id != ""
    ensures var j := Asking(true, "b", sid, true, 1);
            var next := HandleJoin(NewService(maxPeers), None, j, "s", id);
            next.1 == Refused(PROTOCOL_VERSION_TOO_OLD, []) && sid in next.0.rooms && next.0.rooms[sid].clients == map[]
  {
  }

  lemma FirstJoin(sid: SessionId, id: ClientId)
    requires sid != "" && id != ""
    ensures var j := Asking(true, "b", sid, false, 2);
            var next := HandleJoin(NewService(0), None, j, "s", id).0;
            && next == Admit(GetOrCreateRoom(NewService(0), sid), sid, None, j, id).0
            && sid in next.rooms && next.rooms[sid].clients.Keys == {id} && next.rooms[sid].clients[id].info.isOwner
            && next.rooms[sid].ownerBrowser == "b" && !next.rooms[sid].encrypted && next.issued == {id} && next.maxPeers == 0
  {
  }

  lemma SecondJoin(st: Service, sid: SessionId, id1: ClientId, id2: ClientId)
    requires sid in st.rooms && st.rooms[sid].clients.Keys == {id1} && id1 != id2 && sid != ""
    requires st.rooms[sid].ownerBrowser == "b" && !st.rooms[sid].encrypted && st.maxPeers == 0
    requires st.rooms[sid].clients[id1].info.isOwner
    ensures var next := HandleJoin(st, None, Asking(true, "b", sid, false, 2), "s", id2).0;
            && sid in next.rooms && next.rooms[sid].clients.Keys == {id1, id2}
            && next.rooms[sid].clients[id1].info.isOwner && next.rooms[sid].clients[id2].info.isOwner
  {
    var j := Asking(true, "b", sid, false, 2);
    assert GetOrCreateRoom(IndexHint(st, j.hint, sid), sid) == st;
    assert HandleJoin(st, None, j, "s", id2) == EnterRoom(st, sid, None, j, id2);
    assert EnterRoom(st, sid, None, j, id2) == Admit(Declared(st, sid, j), sid, None, j, id2);
  }

  lemma TwoSteps(st: Service, s1: Step, s2: Step)
    requires Allowed(st, s1) && Allowed(Next(st, s1), s2)
    ensures Execute(st, [s1, s2]) == Some(Next(Next(st, s1), s2))
  {
    var steps := [s1, s2];
    var one := Next(st, s1);
    assert steps[1..] == [s2] && steps[1..][1..] == [];
    assert Execute(Next(one, s2), steps[1..][1..]) == Some(Next(one, s2));
    assert Execute(one, steps[1..]) == Some(Next(one, s2));
  }

  /** Two tabs of one browser can both be flagged as owner. */
  lemma TwoOwners(sid: SessionId, id1: ClientId, id2: ClientId)
    requires sid != "" && id1 != id2 && id1 != "" && id2 != ""
    ensures exists steps ::
              && Execute(NewService(0), steps).Some?
              && sid in Execute(NewService(0), steps).value.rooms
              && var clients := Execute(NewService(0), steps).value.rooms[sid].clients;
                 id1 in clients && id2 in clients && clients[id1].info.isOwner && clients[id2].info.isOwner
  {
    var j := Asking(true, "b", sid, false, 2);
    var s1, s2 := Join(None, j, "s", id1), Join(None, j, "s", id2);
    assert Run(OPENED, []) == Some(Pipe(OPENED.room, EMPTY_CHANNEL, OPENED.stream));
    FirstJoin(sid, id1);
    var one := Next(NewService(0), s1);
    SecondJoin(one, sid, id1, id2);
    var two := Next(one, s2);
    TwoSteps(NewService(0), s1, s2);
    assert Execute(NewService(0), [s1, s2]) == Some(two);
  }

  // ---------- addressed messages ----------

  predicate Distinct(s: seq<ClientId>) {
    forall i, j :: 0 <= i < j < |s| ==> s[i] != s[j]
  }

  lemma {:induction false} MissingMeaning(to: seq<ClientId>, present: set<ClientId>)
    ensures forall id :: id in Missing(to, present) <==> id in to && id !in present
    ensures Distinct(Missing(to, present))
  {
    if to != [] {
      var before, last := to[..|to| - 1], to[|to| - 1];
      MissingMeaning(before, present);
      assert forall id :: id in to <==> id in before || id == last by {
        assert to == before + [last];
      }
      if last !in before {
        assert last !in Missing(before, present);
      }
    }
  }

  /** Where an id is first named. */
  function FirstAt(to: seq<ClientId>, id: ClientId): (k: nat)
    requires id in to
    ensures k < |to| && to[k] == id && forall i :: 0 <= i < k ==> to[i] != id
  {
    if to[0] == id then 0 else 1 + FirstAt(to[1..], id)
  }

  lemma FirstAtOfPrefix(before: seq<ClientId>, to: seq<ClientId>, id: ClientId)
    requires before <= to && id in before
    ensures FirstAt(to, id) == FirstAt(before, id)
  {
  }

  /** The missing ids come in the order in which they are first named. */
  lemma {:induction false} MissingInOrder(to: seq<ClientId>, present: set<ClientId>, i: nat, j: nat)
    requires i < j < |Missing(to, present)|
    ensures var m := Missing(to, present); m[i] in to && m[j] in to && FirstAt(to, m[i]) < FirstAt(to, m[j])
  {
    MissingMeaning(to, present);
    var m, n := Missing(to, present), |to| - 1;
    var before := to[..n];
    assert to == before + [to[n]];
    MissingMeaning(before, present);
    var kept := Missing(before, present);
    assert m[i] == kept[i] && kept[i] in kept;
    FirstAtOfPrefix(before, to, m[i]);
    if j < |kept| {
      MissingInOrder(before, present, i, j);
      assert kept[j] in kept;
      FirstAtOfPrefix(before, to, m[j]);
    }
  }

  /** SendEach splits the distinct ids it is given: those in the room are each offered one
      copy naming them alone, the others are returned, and nobody else's queue changes. */
  lemma SendEachSplits(st: Service, sid: SessionId, from: ClientId, kind: string, content: string, to: seq<ClientId>)
    requires sid in st.rooms && to != []
    ensures var (next, outcome) := Relay(st, sid, from, AppMessage(kind, content, to));
            var before, clients := st.rooms[sid].clients, next.rooms[sid].clients;
            && clients.Keys == before.Keys
            && (forall id :: id in before && id in to ==>
                  clients[id].pipe.room.offered == before[id].pipe.room.offered
                    + [Offer(from, Event(st.nextEvent, from, AppMessage(kind, content, [id])))])
            && (forall id :: id in before && id !in to ==> clients[id] == before[id])
            && (if forall id :: id in to ==> id in before then outcome == Silent
                else outcome.Refused? && outcome.code == "PEER_NOT_FOUND" && Distinct(outcome.missing)
                     && forall id :: id in outcome.missing <==> id in to && id !in before)
  {
    MissingMeaning(to, st.rooms[sid].clients.Keys);
    var missing := Missing(to, st.rooms[sid].clients.Keys);
    if missing != [] {
      assert missing[0] in missing;
    }
  }
}
