/** PeerJoined and PeerLeft over whole runs: they are the changes of the room's membership, one
    for one and in order. */
module PeerEvents {
  import opened Options
  import opened Protocol
  import opened Delivery
  import opened Identity
  import opened Rooms
  import opened RoomTable
  import opened Pipes
  import opened RosterLaws
  import opened RoomEvents
  import RoomLaws

  datatype PeerMove = Came(id: ClientId) | Went(id: ClientId)

  function MoveOf(e: Event): seq<PeerMove> {
    match e.body
    case PeerJoined(peer) => [Came(peer.clientId)]
    case PeerLeft(id, _, _) => [Went(id)]
    case _ => []
  }

  /** The comings and goings a client is told of. */
  function PeerMoves(log: seq<Offer>): seq<PeerMove> {
    if |log| == 0 then [] else PeerMoves(log[..|log| - 1]) + MoveOf(log[|log| - 1].event)
  }

  /** The difference between two memberships, seen from outside. */
  ghost predicate Changes(before: set<ClientId>, after: set<ClientId>, moves: seq<PeerMove>) {
    || (moves == [] && after == before)
    || (|moves| == 1 && moves[0].Came? && moves[0].id !in before && after == before + {moves[0].id})
    || (|moves| == 1 && moves[0].Went? && moves[0].id in before && after == before - {moves[0].id})
  }

  /** The comings and goings in a room along a run, step by step, from its memberships alone. */
  ghost predicate Traffic(st: Service, steps: seq<Step>, sid: SessionId, moves: seq<PeerMove>)
    requires Execute(st, steps).Some?
    decreases |steps|
  {
    if steps == [] then moves == []
    else
      var next := Next(st, steps[0]);
      exists n: nat :: n <= |moves| && Changes(Members(st, sid), Members(next, sid), moves[..n]) && Traffic(next, steps[1..], sid, moves[n..])
  }

  lemma MovesSnoc(log: seq<Offer>, o: Offer)
    ensures PeerMoves(log + [o]) == PeerMoves(log) + MoveOf(o.event)
  {
    assert (log + [o])[..|log|] == log;
  }

  /** What the client was told of between two states it is in the room in. */
  predicate HeardMoves(st: Service, final: Service, sid: SessionId, id: ClientId, moves: seq<PeerMove>)
    requires InRoom(st, sid, id) && InRoom(final, sid, id)
  {
    PeerMoves(Offers(final.rooms[sid].clients[id])) == PeerMoves(Offers(st.rooms[sid].clients[id])) + moves
  }

  /** What a client in the room before and after a step was told of in between. */
  ghost predicate Explained(st: Service, next: Service, sid: SessionId, id: ClientId, moves: seq<PeerMove>)
    requires InRoom(st, sid, id) && InRoom(next, sid, id)
  {
    && HeardMoves(st, next, sid, id, moves)
    && Changes(Members(st, sid), Members(next, sid), moves)
  }

  lemma Regroup(a: seq<PeerMove>, b: seq<PeerMove>, c: seq<PeerMove>)
    ensures (a + b) + c == a + (b + c)
  {
  }

  lemma OneMoreOffer(a: seq<Offer>, b: seq<Offer>, o: Offer)
    ensures a + (b + [o]) == (a + b) + [o]
  {
  }

  lemma MovesAppendOne(a: seq<Offer>, b: seq<Offer>, o: Offer)
    requires PeerMoves(a + b) == PeerMoves(a) + PeerMoves(b)
    ensures PeerMoves(a + (b + [o])) == PeerMoves(a) + PeerMoves(b + [o])
  {
    OneMoreOffer(a, b, o);
    var ab := a + b;
    MovesSnoc(ab, o);
    MovesSnoc(b, o);
    Regroup(PeerMoves(a), PeerMoves(b), MoveOf(o.event));
  }

  lemma {:induction false} MovesAppend(a: seq<Offer>, b: seq<Offer>)
    ensures PeerMoves(a + b) == PeerMoves(a) + PeerMoves(b)
    decreases |b|
  {
    if |b| == 0 {
      assert a + b == a;
    } else {
      var front, o := b[..|b| - 1], b[|b| - 1];
      assert b == front + [o];
      MovesAppend(a, front);
      MovesAppendOne(a, front, o);
    }
  }

  lemma ToldMoves(before: Client, after: Client, events: seq<Event>, moves: seq<PeerMove>)
    requires Told(before, after, events) && PeerMoves(OffersOf(events)) == moves
    ensures PeerMoves(Offers(after)) == PeerMoves(Offers(before)) + moves
  {
    MovesAppend(Offers(before), OffersOf(events));
  }

  lemma MovesOfOne(e: Event)
    ensures PeerMoves(OffersOf([e])) == MoveOf(e)
  {
    var o := Offer(e.from, e);
    assert OffersOf([e]) == [] + [o];
    MovesSnoc([], o);
  }

  lemma MovesOfTwo(first: Event, second: Event)
    ensures PeerMoves(OffersOf([first, second])) == MoveOf(first) + MoveOf(second)
  {
    var o := Offer(second.from, second);
    assert OffersOf([first, second]) == OffersOf([first]) + [o];
    MovesSnoc(OffersOf([first]), o);
    MovesOfOne(first);
  }

  lemma SameIsExplained(st: Service, next: Service, sid: SessionId, id: ClientId)
    requires InRoom(st, sid, id) && sid in next.rooms && next.rooms[sid].clients == st.rooms[sid].clients
    ensures Explained(st, next, sid, id, [])
  {
  }

  lemma JoinExplained(st: Service, p: Option<Principal>, j: JoinRequest, newSession: SessionId, newClient: ClientId,
                                         sid: SessionId, id: ClientId) returns (moves: seq<PeerMove>)
    requires TableInv(st) && newClient !in st.issued && InRoom(st, sid, id)
    ensures var next := HandleJoin(st, p, j, newSession, newClient).0;
            InRoom(next, sid, id) && Explained(st, next, sid, id, moves)
  {
    var (next, o) := HandleJoin(st, p, j, newSession, newClient);
    if o.Joined? {
      JoinDoesNow(st, p, j, newSession, newClient);
      moves := LetInExplained(st, next, Resolve(st, j, newSession), newClient, o.welcome, sid, id);
    } else {
      TurnedAwayKeeps(st, p, j, newSession, newClient, sid);
      SameIsExplained(st, next, sid, id);
      moves := [];
    }
  }

  lemma LetInExplained(st: Service, next: Service, into: SessionId, newClient: ClientId, welcome: Event,
                                          sid: SessionId, id: ClientId) returns (moves: seq<PeerMove>)
    requires JoinedWell(st, next, into, newClient, welcome) && IdsOk(st) && newClient !in st.issued && InRoom(st, sid, id)
    ensures InRoom(next, sid, id) && Explained(st, next, sid, id, moves)
  {
    if into == sid {
      FreshIsNotInRoom(st, sid, newClient);
      var note := Event(st.nextEvent + 1, newClient, PeerJoined(next.rooms[sid].clients[newClient].info));
      MovesOfOne(note);
      ToldMoves(st.rooms[sid].clients[id], next.rooms[sid].clients[id], [note], [Came(newClient)]);
      moves := [Came(newClient)];
    } else {
      SameIsExplained(st, next, sid, id);
      moves := [];
    }
  }

  lemma TurnedAwayAtDoor(st: Service, into: SessionId, p: Option<Principal>, j: JoinRequest, newClient: ClientId)
    requires into in st.rooms && !EnterRoom(st, into, p, j, newClient).1.Joined?
    ensures EnterRoom(st, into, p, j, newClient).0 in {st, Declared(st, into, j)}
  {
  }

  /** No client is in the session that was not, or gone that was there. */
  predicate Untouched(st: Service, next: Service, sid: SessionId) {
    && next.departed == st.departed && next.issued == st.issued
    && (sid in st.rooms ==> sid in next.rooms && next.rooms[sid].clients == st.rooms[sid].clients)
    && (sid !in st.rooms && sid in next.rooms ==> next.rooms[sid].clients == map[])
  }

  lemma UntouchedTwice(st: Service, made: Service, next: Service, sid: SessionId)
    requires Untouched(st, made, sid) && Untouched(made, next, sid)
    ensures Untouched(st, next, sid)
  {
  }

  lemma MadeUntouched(st: Service, hint: string, into: SessionId, j: JoinRequest, sid: SessionId)
    ensures var made := GetOrCreateRoom(IndexHint(st, hint, into), into);
            Untouched(st, made, sid) && Untouched(made, made, sid) && Untouched(made, Declared(made, into, j), sid)
  {
  }

  /** A join that is turned away leaves every room's clients as they were. */
  lemma TurnedAwayKeeps(st: Service, p: Option<Principal>, j: JoinRequest, newSession: SessionId, newClient: ClientId, sid: SessionId)
    requires !HandleJoin(st, p, j, newSession, newClient).1.Joined?
    ensures Untouched(st, HandleJoin(st, p, j, newSession, newClient).0, sid)
  {
    var into := Resolve(st, j, newSession);
    if AllowsRoom(p, j.sessionId) && !(j.mustExist && into !in st.rooms) {
      var made := GetOrCreateRoom(IndexHint(st, j.hint, into), into);
      TurnedAwayAtDoor(made, into, p, j, newClient);
      MadeUntouched(st, j.hint, into, j, sid);
      UntouchedTwice(st, made, EnterRoom(made, into, p, j, newClient).0, sid);
    }
  }

  /** The news that one client went, perhaps after the news of a new owner. */
  predicate IsDeparture(news: seq<Event>, id: ClientId) {
    || (|news| == 1 && MoveOf(news[0]) == [Went(id)])
    || (|news| == 2 && MoveOf(news[0]) == [] && MoveOf(news[1]) == [Went(id)])
  }

  lemma DepartureMoves(news: seq<Event>, id: ClientId)
    requires IsDeparture(news, id)
    ensures PeerMoves(OffersOf(news)) == [Went(id)]
  {
    if |news| == 1 {
      assert news == [news[0]];
      MovesOfOne(news[0]);
    } else {
      assert news == [news[0], news[1]];
      MovesOfTwo(news[0], news[1]);
    }
  }

  lemma RoomIsStillThere(st: Service, sid: SessionId, id: ClientId, reason: string, heir: ClientId)
    requires InRoom(st, sid, id) && sid in HandleLeave(st, sid, id, reason, heir).0.rooms
    ensures KindOf(st, sid, id, heir).Departs? || KindOf(st, sid, id, heir).Succeeds?
  {
  }

  lemma NewsIsDeparture(st: Service, sid: SessionId, id: ClientId, reason: string, heir: ClientId)
    requires InRoom(st, sid, id) && (KindOf(st, sid, id, heir).Departs? || KindOf(st, sid, id, heir).Succeeds?)
    ensures IsDeparture(News(st, sid, id, reason, heir), id)
  {
  }

  lemma LeftExplained(st: Service, next: Service, o: Outcome, leaver: ClientId, news: seq<Event>, sid: SessionId, id: ClientId)
    requires InRoom(st, sid, leaver) && LeftWell(st, next, o, sid, leaver, news) && IsDeparture(news, leaver)
    requires InRoom(st, sid, id) && InRoom(next, sid, id)
    ensures Explained(st, next, sid, id, [Went(leaver)])
  {
    var others := st.rooms[sid].clients - {leaver};
    assert id in others && Now(next, sid, id) == Some(next.rooms[sid].clients[id]);
    DepartureMoves(news, leaver);
    ToldMoves(st.rooms[sid].clients[id], next.rooms[sid].clients[id], news, [Went(leaver)]);
  }

  lemma LeaveExplained(st: Service, at: SessionId, leaver: ClientId, reason: string, heir: ClientId,
                                          sid: SessionId, id: ClientId) returns (moves: seq<PeerMove>)
    requires InRoom(st, at, leaver) && InRoom(st, sid, id) && InRoom(HandleLeave(st, at, leaver, reason, heir).0, sid, id)
    ensures Explained(st, HandleLeave(st, at, leaver, reason, heir).0, sid, id, moves)
  {
    var (next, o) := HandleLeave(st, at, leaver, reason, heir);
    LeaveDoes(st, at, leaver, reason, heir);
    if at == sid {
      RoomIsStillThere(st, sid, leaver, reason, heir);
      NewsIsDeparture(st, sid, leaver, reason, heir);
      LeftExplained(st, next, o, leaver, News(st, sid, leaver, reason, heir), sid, id);
      moves := [Went(leaver)];
    } else {
      SameIsExplained(st, next, sid, id);
      moves := [];
    }
  }

  lemma RelayExplained(st: Service, at: SessionId, from: ClientId, b: Body, sid: SessionId, id: ClientId)
    requires at in st.rooms && Relayable(b) && InRoom(st, sid, id)
    ensures var next := Relay(st, at, from, b).0;
            InRoom(next, sid, id) && Explained(st, next, sid, id, [])
  {
    var next := Relay(st, at, from, b).0;
    if at != sid {
      SameIsExplained(st, next, sid, id);
    } else {
      RelayDoes(st, sid, from, b);
      QuietMoves(st.rooms[sid].clients[id], next.rooms[sid].clients[id], CopyFor(Event(st.nextEvent, from, b), id));
    }
  }

  /** A relayed message is no peer event. */
  lemma QuietMoves(before: Client, after: Client, copy: seq<Event>)
    requires Told(before, after, copy) && |copy| <= 1 && (|copy| == 1 ==> Relayable(copy[0].body))
    ensures PeerMoves(Offers(after)) == PeerMoves(Offers(before))
  {
    if |copy| == 1 {
      assert copy == [copy[0]];
      MovesOfOne(copy[0]);
      ToldMoves(before, after, copy, []);
    } else {
      assert Offers(after) == Offers(before);
    }
  }

  lemma StreamExplained(st: Service, s: Step, sid: SessionId, id: ClientId)
    requires Allowed(st, s) && (s.MemberStream? || s.DepartedStream?) && InRoom(st, sid, id)
    ensures InRoom(Next(st, s), sid, id) && Explained(st, Next(st, s), sid, id, [])
  {
    if s.MemberStream? {
      StreamSideFrame(st.rooms[s.sid].clients[s.id].pipe, s.action);
    }
  }

  lemma StepExplained(st: Service, s: Step, sid: SessionId, id: ClientId) returns (moves: seq<PeerMove>)
    requires TableInv(st) && Allowed(st, s) && InRoom(st, sid, id) && InRoom(Next(st, s), sid, id)
    ensures Explained(st, Next(st, s), sid, id, moves)
  {
    moves := [];
    match s {
      case Join(p, j, newSession, newClient) => moves := JoinExplained(st, p, j, newSession, newClient, sid, id);
      case Leave(at, leaver, reason, heir) => moves := LeaveExplained(st, at, leaver, reason, heir, sid, id);
      case Send(at, from, body) => RelayExplained(st, at, from, body, sid, id);
      case ServerMessage(at, from, kind, content, to) => RelayExplained(st, at, from, AppMessage(kind, content, to), sid, id);
      case MemberStream(_, _, _) => StreamExplained(st, s, sid, id);
      case DepartedStream(_, _) => StreamExplained(st, s, sid, id);
    }
  }

  // ---------- once out, out for good ----------

  lemma EnterKeepsDeparted(st: Service, sid: SessionId, p: Option<Principal>, j: JoinRequest, id: ClientId)
    requires sid in st.rooms
    ensures EnterRoom(st, sid, p, j, id).0.departed == st.departed
  {
  }

  lemma JoinKeepsDeparted(st: Service, p: Option<Principal>, j: JoinRequest, newSession: SessionId, id: ClientId)
    ensures HandleJoin(st, p, j, newSession, id).0.departed == st.departed
  {
    var sid := Resolve(st, j, newSession);
    EnterKeepsDeparted(GetOrCreateRoom(IndexHint(st, j.hint, sid), sid), sid, p, j, id);
  }

  /** A leave adds to the departed, and changes none of those already gone. */
  lemma LeaveKeepsDeparted(st: Service, at: SessionId, leaver: ClientId, reason: string, heir: ClientId, k: ClientId)
    requires InRoom(st, at, leaver) && k in st.departed && k !in st.rooms[at].clients
    ensures var next := HandleLeave(st, at, leaver, reason, heir).0; k in next.departed && next.departed[k] == st.departed[k]
  {
    match KindOf(st, at, leaver, heir) {
      case Departs =>
      case Succeeds =>
      case EndsRoom =>
      case ClosesRoom =>
    }
  }

  /** The same client later: its channel has accepted what it had, and perhaps more. */
  predicate Continues(before: Client, after: Client) {
    after.welcome == before.welcome && before.pipe.chan.accepted <= after.pipe.chan.accepted
  }

  /** The same client later, offered nothing more. */
  predicate Frozen(before: Client, after: Client) {
    after.welcome == before.welcome && after.pipe.room == before.pipe.room && after.pipe.chan.accepted == before.pipe.chan.accepted
  }

  lemma DepartedContinues(st: Service, s: Step, id: ClientId)
    requires IdsOk(st) && Allowed(st, s) && id in st.departed
    ensures id in Next(st, s).departed && Frozen(st.departed[id], Next(st, s).departed[id])
  {
    match s {
      case Join(p, j, newSession, newClient) => JoinKeepsDeparted(st, p, j, newSession, newClient);
      case Leave(at, leaver, reason, heir) =>
        assert !InRoom(st, at, id);
        LeaveKeepsDeparted(st, at, leaver, reason, heir, id);
      case Send(_, _, _) =>
      case ServerMessage(_, _, _, _, _) =>
      case MemberStream(_, _, _) =>
      case DepartedStream(k, a) => StreamSideFrame(st.departed[k].pipe, a);
    }
  }

  lemma {:induction false} StaysFrozen(st: Service, steps: seq<Step>, id: ClientId)
    requires TableInv(st) && Execute(st, steps).Some? && id in st.departed
    ensures var final := Execute(st, steps).value; id in final.departed && Frozen(st.departed[id], final.departed[id])
    decreases |steps|
  {
    if steps != [] {
      StepKeepsTable(st, steps[0]);
      DepartedContinues(st, steps[0], id);
      StaysFrozen(Next(st, steps[0]), steps[1..], id);
    }
  }

  lemma {:induction false} GoneStays(st: Service, steps: seq<Step>, sid: SessionId, id: ClientId)
    requires TableInv(st) && Execute(st, steps).Some? && id in st.departed
    ensures !InRoom(Execute(st, steps).value, sid, id)
    decreases |steps|
  {
    if steps != [] {
      StepKeepsTable(st, steps[0]);
      DepartedContinues(st, steps[0], id);
      GoneStays(Next(st, steps[0]), steps[1..], sid, id);
    }
  }

  lemma LeaveOut(st: Service, at: SessionId, leaver: ClientId, reason: string, heir: ClientId, sid: SessionId, id: ClientId)
    requires InRoom(st, at, leaver) && InRoom(st, sid, id)
    ensures var next := HandleLeave(st, at, leaver, reason, heir).0; InRoom(next, sid, id) || id in next.departed
  {
    LeaveDoes(st, at, leaver, reason, heir);
    var next := HandleLeave(st, at, leaver, reason, heir).0;
    if at == sid && id != leaver {
      assert id in st.rooms[sid].clients - {leaver};
      assert Now(next, sid, id).Some?;
    }
  }

  /** A client leaves its room only to be among the departed. */
  lemma StepOut(st: Service, s: Step, sid: SessionId, id: ClientId)
    requires TableInv(st) && Allowed(st, s) && InRoom(st, sid, id)
    ensures InRoom(Next(st, s), sid, id) || id in Next(st, s).departed
  {
    match s {
      case Join(p, j, newSession, newClient) =>
        var moves := JoinExplained(st, p, j, newSession, newClient, sid, id);
      case Leave(at, leaver, reason, heir) => LeaveOut(st, at, leaver, reason, heir, sid, id);
      case _ =>
    }
  }

  lemma TrafficOn(st: Service, steps: seq<Step>, sid: SessionId, first: seq<PeerMove>, rest: seq<PeerMove>)
    requires steps != [] && Execute(st, steps).Some?
    requires var next := Next(st, steps[0]);
             Changes(Members(st, sid), Members(next, sid), first) && Traffic(next, steps[1..], sid, rest)
    ensures Traffic(st, steps, sid, first + rest)
  {
    var moves, n := first + rest, |first|;
    assert n <= |moves| && moves[..n] == first && moves[n..] == rest;
  }

  /** Over any part of any run in which a client stays in its room, the peer events it is offered
      are the changes of the room's membership, each one once and in order. */
  lemma PeerEventsAreChanges(maxPeers: int, before: seq<Step>, steps: seq<Step>, sid: SessionId, id: ClientId)
    returns (moves: seq<PeerMove>)
    requires Execute(NewService(maxPeers), before).Some?
    requires var st := Execute(NewService(maxPeers), before).value;
             InRoom(st, sid, id) && Execute(st, steps).Some? && InRoom(Execute(st, steps).value, sid, id)
    ensures var st := Execute(NewService(maxPeers), before).value;
            Traffic(st, steps, sid, moves) && HeardMoves(st, Execute(st, steps).value, sid, id, moves)
  {
    RoomLaws.TableAfter(maxPeers, before);
    var st := Execute(NewService(maxPeers), before).value;
    moves := StayExplained(st, steps, Execute(st, steps).value, sid, id);
  }

  lemma {:induction false} StayExplained(st: Service, steps: seq<Step>, final: Service, sid: SessionId, id: ClientId)
    returns (moves: seq<PeerMove>)
    requires TableInv(st) && InRoom(st, sid, id) && Execute(st, steps) == Some(final) && InRoom(final, sid, id)
    ensures Traffic(st, steps, sid, moves) && HeardMoves(st, final, sid, id, moves)
    decreases |steps|
  {
    if steps == [] {
      moves := [];
    } else {
      var next := Next(st, steps[0]);
      StaysIn(st, steps, next, final, sid, id);
      var first := StepExplained(st, steps[0], sid, id);
      var rest := StayExplained(next, steps[1..], final, sid, id);
      moves := first + rest;
      TrafficOn(st, steps, sid, first, rest);
      HeardOn(st, next, final, sid, id, first, rest);
    }
  }

  lemma HeardOn(st: Service, next: Service, final: Service, sid: SessionId, id: ClientId, first: seq<PeerMove>, rest: seq<PeerMove>)
    requires InRoom(st, sid, id) && InRoom(next, sid, id) && InRoom(final, sid, id)
    requires HeardMoves(st, next, sid, id, first) && HeardMoves(next, final, sid, id, rest)
    ensures HeardMoves(st, final, sid, id, first + rest)
  {
    Regroup(PeerMoves(Offers(st.rooms[sid].clients[id])), first, rest);
  }

  lemma StaysIn(st: Service, steps: seq<Step>, next: Service, final: Service, sid: SessionId, id: ClientId)
    requires TableInv(st) && steps != [] && InRoom(st, sid, id) && Execute(st, steps) == Some(final) && InRoom(final, sid, id)
    requires Allowed(st, steps[0]) && next == Next(st, steps[0])
    ensures TableInv(next) && InRoom(next, sid, id) && Execute(next, steps[1..]) == Some(final)
  {
    StepKeepsTable(st, steps[0]);
    StepOut(st, steps[0], sid, id);
    if !InRoom(next, sid, id) {
      GoneStays(next, steps[1..], sid, id);
    }
  }

  // ---------- what becomes of a client ----------

  lemma OneClient(st: Service, id: ClientId, c: Client, d: Client)
    requires IdsOk(st) && IsClient(st, id, c) && IsClient(st, id, d)
    ensures c == d
  {
    if id !in st.departed {
      var s :| s in st.rooms && id in st.rooms[s].clients && st.rooms[s].clients[id] == c;
      var t :| t in st.rooms && id in st.rooms[t].clients && st.rooms[t].clients[id] == d;
      assert InRoom(st, s, id) && InRoom(st, t, id);
    } else {
      forall s | s in st.rooms ensures id !in st.rooms[s].clients
      {
        assert !InRoom(st, s, id);
      }
    }
  }

  lemma MemberIsClient(st: Service, sid: SessionId, id: ClientId)
    requires InRoom(st, sid, id)
    ensures IsClient(st, id, st.rooms[sid].clients[id])
  {
  }

  lemma LetInContinues(st: Service, next: Service, into: SessionId, newClient: ClientId, welcome: Event, sid: SessionId, id: ClientId)
    requires JoinedWell(st, next, into, newClient, welcome) && InRoom(st, sid, id) && id != newClient
    ensures InRoom(next, sid, id) && Continues(st.rooms[sid].clients[id], next.rooms[sid].clients[id])
  {
  }

  lemma JoinContinues(st: Service, p: Option<Principal>, j: JoinRequest, newSession: SessionId, newClient: ClientId,
                                         sid: SessionId, id: ClientId)
    requires TableInv(st) && newClient !in st.issued && InRoom(st, sid, id)
    ensures var next := HandleJoin(st, p, j, newSession, newClient).0;
            InRoom(next, sid, id) && Continues(st.rooms[sid].clients[id], next.rooms[sid].clients[id])
  {
    var (next, o) := HandleJoin(st, p, j, newSession, newClient);
    if o.Joined? {
      JoinDoesNow(st, p, j, newSession, newClient);
      FreshIsNotInRoom(st, sid, newClient);
      LetInContinues(st, next, Resolve(st, j, newSession), newClient, o.welcome, sid, id);
    } else {
      TurnedAwayKeeps(st, p, j, newSession, newClient, sid);
    }
  }

  lemma LeftContinues(st: Service, next: Service, o: Outcome, at: SessionId, leaver: ClientId, news: seq<Event>,
                                         sid: SessionId, id: ClientId) returns (after: Client)
    requires InRoom(st, at, leaver) && LeftWell(st, next, o, at, leaver, news) && InRoom(st, sid, id)
    ensures IsClient(next, id, after) && Continues(st.rooms[sid].clients[id], after)
  {
    if sid != at {
      after := next.rooms[sid].clients[id];
      MemberIsClient(next, sid, id);
    } else if id == leaver {
      after := next.departed[id];
    } else {
      assert id in st.rooms[sid].clients - {leaver};
      after := Now(next, sid, id).value;
      if InRoom(next, sid, id) {
        MemberIsClient(next, sid, id);
      }
    }
  }

  lemma LeaveContinues(st: Service, at: SessionId, leaver: ClientId, reason: string, heir: ClientId, sid: SessionId, id: ClientId)
    returns (after: Client)
    requires InRoom(st, at, leaver) && InRoom(st, sid, id)
    ensures var next := HandleLeave(st, at, leaver, reason, heir).0;
            IsClient(next, id, after) && Continues(st.rooms[sid].clients[id], after)
  {
    LeaveDoes(st, at, leaver, reason, heir);
    var (next, o) := HandleLeave(st, at, leaver, reason, heir);
    after := LeftContinues(st, next, o, at, leaver, News(st, at, leaver, reason, heir), sid, id);
  }

  lemma RelayContinues(st: Service, at: SessionId, from: ClientId, b: Body, sid: SessionId, id: ClientId)
    requires at in st.rooms && InRoom(st, sid, id)
    ensures var next := Relay(st, at, from, b).0;
            InRoom(next, sid, id) && Continues(st.rooms[sid].clients[id], next.rooms[sid].clients[id])
  {
    RelayDoes(st, at, from, b);
  }

  lemma MemberContinues(st: Service, s: Step, sid: SessionId, id: ClientId) returns (after: Client)
    requires TableInv(st) && Allowed(st, s) && InRoom(st, sid, id)
    ensures IsClient(Next(st, s), id, after) && Continues(st.rooms[sid].clients[id], after)
  {
    match s {
      case Leave(at, leaver, reason, heir) => after := LeaveContinues(st, at, leaver, reason, heir, sid, id);
      case _ =>
        StillMember(st, s, sid, id);
        MemberIsClient(Next(st, s), sid, id);
        after := Next(st, s).rooms[sid].clients[id];
    }
  }

  lemma StillMember(st: Service, s: Step, sid: SessionId, id: ClientId)
    requires TableInv(st) && Allowed(st, s) && !s.Leave? && InRoom(st, sid, id)
    ensures InRoom(Next(st, s), sid, id) && Continues(st.rooms[sid].clients[id], Next(st, s).rooms[sid].clients[id])
  {
    match s {
      case Join(p, j, newSession, newClient) => JoinContinues(st, p, j, newSession, newClient, sid, id);
      case Send(at, from, body) => RelayContinues(st, at, from, body, sid, id);
      case ServerMessage(at, from, kind, content, to) => RelayContinues(st, at, from, AppMessage(kind, content, to), sid, id);
      case MemberStream(at, k, a) => StreamSideFrame(st.rooms[at].clients[k].pipe, a);
      case DepartedStream(_, _) =>
    }
  }

  lemma StepContinues(st: Service, s: Step, id: ClientId, c: Client) returns (after: Client)
    requires TableInv(st) && Allowed(st, s) && IsClient(st, id, c)
    ensures IsClient(Next(st, s), id, after) && Continues(c, after)
  {
    if id in st.departed && st.departed[id] == c {
      DepartedContinues(st, s, id);
      after := Next(st, s).departed[id];
    } else {
      var sid :| sid in st.rooms && id in st.rooms[sid].clients && st.rooms[sid].clients[id] == c;
      after := MemberContinues(st, s, sid, id);
    }
  }

  /** Whatever happens, a client once let in stays known, with all its channel accepted. */
  lemma {:induction false} RunContinues(st: Service, steps: seq<Step>, final: Service, id: ClientId, c: Client, d: Client)
    requires TableInv(st) && Execute(st, steps) == Some(final) && IsClient(st, id, c) && IsClient(final, id, d)
    ensures Continues(c, d)
    decreases |steps|
  {
    if steps == [] {
      OneClient(st, id, c, d);
    } else {
      var next := Next(st, steps[0]);
      StepKeepsTable(st, steps[0]);
      var after := StepContinues(st, steps[0], id, c);
      RunContinues(next, steps[1..], final, id, after, d);
    }
  }
}
