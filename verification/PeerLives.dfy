/** PeerJoined and PeerLeft over whole runs: in what any client is told, nobody joins or leaves
    twice, and nobody leaves who was not there. */
module PeerLives {
  import opened Options
  import opened Protocol
  import opened Delivery
  import opened Identity
  import opened Rooms
  import opened RoomTable
  import opened Pipes
  import opened Rosters
  import opened RosterLaws
  import opened RoomEvents
  import opened PeerEvents

  // ---------- nobody joins or leaves twice ----------

  predicate Joins(o: Offer, x: ClientId) {
    o.event.body.PeerJoined? && o.event.body.peer.clientId == x
  }

  predicate Leaves(o: Offer, x: ClientId) {
    o.event.body.PeerLeft? && o.event.body.clientId == x
  }

  predicate NeverSeen(welcome: Event, log: seq<Offer>, i: nat, x: ClientId)
    requires i <= |log|
  {
    x != "" && forall k :: 0 <= k <= i ==> x !in Roster(welcome, log[..k])
  }

  /** Who joins was on no roster before, and who leaves is on the roster. */
  predicate EventOk(welcome: Event, log: seq<Offer>, i: nat)
    requires i < |log|
  {
    match log[i].event.body
    case PeerJoined(peer) => NeverSeen(welcome, log, i, peer.clientId)
    case PeerLeft(id, _, _) => id in Roster(welcome, log[..i])
    case RoomJoined(_, _, _, _) => false
    case _ => true
  }

  predicate Rosterly(welcome: Event, log: seq<Offer>, i: nat, issued: set<ClientId>)
    requires i <= |log|
  {
    Roster(welcome, log[..i]) <= issued
  }

  ghost predicate LifeOk(welcome: Event, log: seq<Offer>, issued: set<ClientId>) {
    && (forall i :: 0 <= i < |log| ==> EventOk(welcome, log, i))
    && (forall i :: 0 <= i <= |log| ==> Rosterly(welcome, log, i, issued))
  }

  /** An event that may come next for clients who hold the roster `members`. */
  predicate MayFollow(e: Event, members: set<ClientId>, issued: set<ClientId>) {
    match e.body
    case PeerJoined(peer) => peer.clientId != "" && peer.clientId !in issued
    case PeerLeft(id, _, _) => id in members
    case RoomJoined(_, _, _, _) => false
    case _ => true
  }

  lemma SamePrefixes(log: seq<Offer>, o: Offer)
    ensures forall i :: 0 <= i <= |log| ==> (log + [o])[..i] == log[..i]
  {
  }

  lemma NeverSeenStays(welcome: Event, log: seq<Offer>, o: Offer, i: nat, x: ClientId)
    requires i <= |log|
    ensures NeverSeen(welcome, log + [o], i, x) <==> NeverSeen(welcome, log, i, x)
  {
    SamePrefixes(log, o);
  }

  lemma EventOkStays(welcome: Event, log: seq<Offer>, o: Offer, i: nat)
    requires i < |log| && EventOk(welcome, log, i)
    ensures EventOk(welcome, log + [o], i)
  {
    SamePrefixes(log, o);
    if log[i].event.body.PeerJoined? {
      NeverSeenStays(welcome, log, o, i, log[i].event.body.peer.clientId);
    }
  }

  /** An id not given out yet is on no roster so far. */
  lemma FreshIsNeverSeen(welcome: Event, log: seq<Offer>, issued: set<ClientId>, x: ClientId)
    requires LifeOk(welcome, log, issued) && x !in issued && x != ""
    ensures NeverSeen(welcome, log, |log|, x)
  {
    forall k | 0 <= k <= |log| ensures x !in Roster(welcome, log[..k])
    {
      assert Rosterly(welcome, log, k, issued);
    }
  }

  lemma NextEventOk(welcome: Event, log: seq<Offer>, o: Offer, issued: set<ClientId>)
    requires LifeOk(welcome, log, issued) && MayFollow(o.event, Roster(welcome, log), issued)
    ensures EventOk(welcome, log + [o], |log|)
  {
    assert (log + [o])[..|log|] == log;
    if o.event.body.PeerJoined? {
      FreshIsNeverSeen(welcome, log, issued, o.event.body.peer.clientId);
      NeverSeenStays(welcome, log, o, |log|, o.event.body.peer.clientId);
    }
  }

  lemma LifeSnoc(welcome: Event, log: seq<Offer>, o: Offer, issued: set<ClientId>, more: set<ClientId>)
    requires LifeOk(welcome, log, issued) && issued <= more
    requires MayFollow(o.event, Roster(welcome, log), issued) && Handle(Roster(welcome, log), o.event) <= more
    ensures LifeOk(welcome, log + [o], more)
  {
    NextEventOk(welcome, log, o, issued);
    forall i | 0 <= i < |log + [o]| ensures EventOk(welcome, log + [o], i)
    {
      if i < |log| {
        EventOkStays(welcome, log, o, i);
      }
    }
    RosterSnoc(welcome, log, o);
    SamePrefixes(log, o);
    forall i | 0 <= i <= |log + [o]| ensures Rosterly(welcome, log + [o], i, more)
    {
      if i <= |log| {
        assert Rosterly(welcome, log, i, issued);
      } else {
        assert (log + [o])[..i] == log + [o];
      }
    }
  }

  lemma LifeGrows(welcome: Event, log: seq<Offer>, issued: set<ClientId>, more: set<ClientId>)
    requires LifeOk(welcome, log, issued) && issued <= more
    ensures LifeOk(welcome, log, more)
  {
    forall i | 0 <= i <= |log| ensures Rosterly(welcome, log, i, more)
    {
      assert Rosterly(welcome, log, i, issued);
    }
  }

  ghost predicate ClientLife(c: Client, issued: set<ClientId>) {
    LifeOk(c.welcome, Offers(c), issued)
  }

  ghost predicate Lives(clients: map<ClientId, Client>, issued: set<ClientId>) {
    forall id :: id in clients ==> ClientLife(clients[id], issued)
  }

  ghost predicate LivesInv(st: Service) {
    (forall sid :: sid in st.rooms ==> Lives(st.rooms[sid].clients, st.issued)) && Lives(st.departed, st.issued)
  }

  /** Events that may come next, one after the other. */
  predicate AllMayFollow(events: seq<Event>, members: set<ClientId>, issued: set<ClientId>, more: set<ClientId>) {
    |events| == 0 ||
    (&& MayFollow(events[0], members, issued) && Handle(members, events[0]) <= more
     && AllMayFollow(events[1..], Handle(members, events[0]), more, more))
  }

  lemma {:induction false} LifeOn(welcome: Event, log: seq<Offer>, events: seq<Event>, issued: set<ClientId>, more: set<ClientId>)
    requires LifeOk(welcome, log, issued) && issued <= more && AllMayFollow(events, Roster(welcome, log), issued, more)
    ensures LifeOk(welcome, log + OffersOf(events), more)
    decreases |events|
  {
    if |events| == 0 {
      assert log + OffersOf(events) == log;
      LifeGrows(welcome, log, issued, more);
    } else {
      var o := Offer(events[0].from, events[0]);
      LifeSnoc(welcome, log, o, issued, more);
      RosterSnoc(welcome, log, o);
      LifeOn(welcome, log + [o], events[1..], more, more);
      assert log + OffersOf(events) == (log + [o]) + OffersOf(events[1..]);
    }
  }

  lemma ToldLife(before: Client, after: Client, events: seq<Event>, members: set<ClientId>, issued: set<ClientId>, more: set<ClientId>)
    requires Told(before, after, events) && ClientLife(before, issued) && issued <= more
    requires Roster(before.welcome, Offers(before)) == members && AllMayFollow(events, members, issued, more)
    ensures ClientLife(after, more)
  {
    LifeOn(before.welcome, Offers(before), events, issued, more);
  }

  /** Clients whose logs did not change. */
  lemma SameLife(before: Client, after: Client, issued: set<ClientId>, more: set<ClientId>)
    requires after.welcome == before.welcome && Offers(after) == Offers(before) && ClientLife(before, issued) && issued <= more
    ensures ClientLife(after, more)
  {
    LifeGrows(before.welcome, Offers(before), issued, more);
  }

  lemma MemberRoster(st: Service, sid: SessionId, id: ClientId)
    requires RosterInv(st) && IdsOk(st) && InRoom(st, sid, id)
    ensures var c := st.rooms[sid].clients[id]; Roster(c.welcome, Offers(c)) == Members(st, sid) <= st.issued
  {
    assert Agree(st.rooms[sid].clients, sid, st.rooms[sid].clients.Keys, st.at);
    assert forall k :: k in st.rooms[sid].clients ==> InRoom(st, sid, k);
  }

  lemma StepKeepsIssued(st: Service, s: Step)
    requires Allowed(st, s)
    ensures st.issued <= Next(st, s).issued
  {
    match s {
      case Join(p, j, newSession, newClient) =>
        var sid := Resolve(st, j, newSession);
        EnterKeepsIssued(GetOrCreateRoom(IndexHint(st, j.hint, sid), sid), sid, p, j, newClient);
      case Leave(sid, id, reason, heir) => LeaveKeepsIssued(st, sid, id, reason, heir);
      case _ =>
    }
  }

  lemma EnterKeepsIssued(st: Service, sid: SessionId, p: Option<Principal>, j: JoinRequest, id: ClientId)
    requires sid in st.rooms
    ensures st.issued <= EnterRoom(st, sid, p, j, id).0.issued
    ensures EnterRoom(st, sid, p, j, id).0.rooms.Keys == st.rooms.Keys
  {
  }

  lemma LeaveKeepsIssued(st: Service, sid: SessionId, id: ClientId, reason: string, heir: ClientId)
    requires InRoom(st, sid, id)
    ensures HandleLeave(st, sid, id, reason, heir).0.issued == st.issued
  {
  }

  // ---------- a join ----------

  lemma NewcomerLife(next: Service, sid: SessionId, id: ClientId)
    requires RosterInv(next) && IdsOk(next) && InRoom(next, sid, id) && Offers(next.rooms[sid].clients[id]) == []
    ensures ClientLife(next.rooms[sid].clients[id], next.issued)
  {
    MemberRoster(next, sid, id);
    var c := next.rooms[sid].clients[id];
    assert Offers(c)[..0] == Offers(c);
  }

  lemma GreeterLife(st: Service, next: Service, sid: SessionId, newClient: ClientId, note: Event, id: ClientId)
    requires RosterInv(st) && IdsOk(st) && LivesInv(st) && InRoom(st, sid, id) && InRoom(next, sid, id)
    requires Told(st.rooms[sid].clients[id], next.rooms[sid].clients[id], [note])
    requires note.body.PeerJoined? && note.body.peer.clientId == newClient && newClient != "" && newClient !in st.issued
    requires st.issued <= next.issued && Members(st, sid) + {newClient} <= next.issued
    ensures ClientLife(next.rooms[sid].clients[id], next.issued)
  {
    MemberRoster(st, sid, id);
    assert Handle(Members(st, sid), note) == Members(st, sid) + {newClient};
    assert [note][1..] == [];
    ToldLife(st.rooms[sid].clients[id], next.rooms[sid].clients[id], [note], Members(st, sid), st.issued, next.issued);
  }

  lemma LetInLives(st: Service, next: Service, into: SessionId, newClient: ClientId, welcome: Event, sid: SessionId, id: ClientId)
    requires RosterInv(st) && IdsOk(st) && LivesInv(st) && RosterInv(next) && IdsOk(next) && st.issued <= next.issued
    requires JoinedWell(st, next, into, newClient, welcome) && newClient != "" && newClient !in st.issued
    requires next.rooms.Keys <= st.rooms.Keys + {into} && InRoom(next, sid, id)
    ensures ClientLife(next.rooms[sid].clients[id], next.issued)
  {
    if sid != into {
      SameLife(st.rooms[sid].clients[id], next.rooms[sid].clients[id], st.issued, next.issued);
    } else if id == newClient {
      NewcomerLife(next, sid, id);
    } else {
      assert InRoom(st, sid, id);
      MemberRoster(next, sid, id);
      GreeterLife(st, next, sid, newClient, Event(st.nextEvent + 1, newClient, PeerJoined(next.rooms[sid].clients[newClient].info)), id);
    }
  }

  lemma JoinLives(st: Service, s: Step)
    requires s.Join? && Allowed(st, s) && TableInv(st) && RosterInv(st) && LivesInv(st)
    requires TableInv(Next(st, s)) && RosterInv(Next(st, s))
    ensures LivesInv(Next(st, s))
  {
    var next := Next(st, s);
    StepKeepsIssued(st, s);
    JoinKeepsDeparted(st, s.principal, s.request, s.newSession, s.newClient);
    forall sid, id | InRoom(next, sid, id) ensures ClientLife(next.rooms[sid].clients[id], next.issued)
    {
      JoinedLife(st, next, s, sid, id);
    }
    forall id | id in next.departed ensures ClientLife(next.departed[id], next.issued)
    {
      SameLife(st.departed[id], next.departed[id], st.issued, next.issued);
    }
  }

  lemma JoinedLife(st: Service, next: Service, s: Step, sid: SessionId, id: ClientId)
    requires s.Join? && Allowed(st, s) && TableInv(st) && RosterInv(st) && LivesInv(st) && next == Next(st, s)
    requires IdsOk(next) && RosterInv(next) && st.issued <= next.issued && InRoom(next, sid, id)
    ensures ClientLife(next.rooms[sid].clients[id], next.issued)
  {
    var (after, o) := HandleJoin(st, s.principal, s.request, s.newSession, s.newClient);
    assert next == after;
    if o.Joined? {
      AddsOneRoom(st, s.principal, s.request, s.newSession, s.newClient);
      JoinDoesNow(st, s.principal, s.request, s.newSession, s.newClient);
      LetInLives(st, next, Resolve(st, s.request, s.newSession), s.newClient, o.welcome, sid, id);
    } else {
      TurnedAwayKeeps(st, s.principal, s.request, s.newSession, s.newClient, sid);
      SameLife(st.rooms[sid].clients[id], next.rooms[sid].clients[id], st.issued, next.issued);
    }
  }

  lemma AddsOneRoom(st: Service, p: Option<Principal>, j: JoinRequest, newSession: SessionId, id: ClientId)
    ensures HandleJoin(st, p, j, newSession, id).0.rooms.Keys <= st.rooms.Keys + {Resolve(st, j, newSession)}
  {
    var into := Resolve(st, j, newSession);
    EnterKeepsIssued(GetOrCreateRoom(IndexHint(st, j.hint, into), into), into, p, j, id);
  }

  // ---------- a leave ----------

  lemma NewsMayFollow(st: Service, sid: SessionId, id: ClientId, reason: string, heir: ClientId)
    requires InRoom(st, sid, id) && Members(st, sid) <= st.issued
    ensures AllMayFollow(News(st, sid, id, reason, heir), Members(st, sid), st.issued, st.issued)
  {
    var news := News(st, sid, id, reason, heir);
    if |news| == 2 {
      assert news[1..] == [news[1]] && news[1..][1..] == [];
    } else {
      assert news[1..] == [];
    }
  }

  /** Someone who was in the room and was told the news. */
  lemma StayerLife(st: Service, at: SessionId, id: ClientId, after: Client, news: seq<Event>)
    requires RosterInv(st) && IdsOk(st) && LivesInv(st) && InRoom(st, at, id)
    requires Told(st.rooms[at].clients[id], after, news) && AllMayFollow(news, Members(st, at), st.issued, st.issued)
    ensures ClientLife(after, st.issued)
  {
    MemberRoster(st, at, id);
    ToldLife(st.rooms[at].clients[id], after, news, Members(st, at), st.issued, st.issued);
  }

  lemma LeftLives(st: Service, next: Service, o: Outcome, at: SessionId, leaver: ClientId, news: seq<Event>)
    requires InRoom(st, at, leaver) && LeftWell(st, next, o, at, leaver, news) && next.issued == st.issued
    requires RosterInv(st) && IdsOk(st) && LivesInv(st) && next.rooms.Keys <= st.rooms.Keys && IdsOk(next)
    requires AllMayFollow(news, Members(st, at), st.issued, st.issued)
    requires forall k :: k in next.departed && k !in st.rooms[at].clients ==> k in st.departed && next.departed[k] == st.departed[k]
    ensures LivesInv(next)
  {
    forall sid, id | InRoom(next, sid, id) ensures ClientLife(next.rooms[sid].clients[id], next.issued)
    {
      if sid == at {
        assert id in st.rooms[at].clients - {leaver} && Now(next, at, id) == Some(next.rooms[at].clients[id]);
        StayerLife(st, at, id, next.rooms[at].clients[id], news);
      }
    }
    forall id | id in next.departed ensures ClientLife(next.departed[id], next.issued)
    {
      if id == leaver {
        StayerLife(st, at, id, next.departed[id], []);
      } else if id in st.rooms[at].clients {
        assert !InRoom(next, at, id);
        assert id in st.rooms[at].clients - {leaver} && Now(next, at, id) == Some(next.departed[id]);
        StayerLife(st, at, id, next.departed[id], news);
      }
    }
  }

  lemma OnlyRoomDeparts(st: Service, at: SessionId, leaver: ClientId, reason: string, heir: ClientId)
    requires InRoom(st, at, leaver)
    ensures var next := HandleLeave(st, at, leaver, reason, heir).0;
            next.departed.Keys <= st.departed.Keys + st.rooms[at].clients.Keys && next.rooms.Keys <= st.rooms.Keys
  {
    match KindOf(st, at, leaver, heir) {
      case Departs =>
      case Succeeds =>
      case EndsRoom =>
      case ClosesRoom =>
    }
  }

  lemma LeaveLives(st: Service, next: Service, at: SessionId, leaver: ClientId, reason: string, heir: ClientId)
    requires InRoom(st, at, leaver) && next == HandleLeave(st, at, leaver, reason, heir).0
    requires RosterInv(st) && IdsOk(st) && LivesInv(st) && IdsOk(next)
    ensures LivesInv(next)
  {
    LeaveDoes(st, at, leaver, reason, heir);
    OnlyRoomDeparts(st, at, leaver, reason, heir);
    LeaveKeepsIssued(st, at, leaver, reason, heir);
    forall k | k in next.departed && k !in st.rooms[at].clients ensures k in st.departed && next.departed[k] == st.departed[k]
    {
      LeaveKeepsDeparted(st, at, leaver, reason, heir, k);
    }
    MemberRoster(st, at, leaver);
    NewsMayFollow(st, at, leaver, reason, heir);
    LeftLives(st, next, HandleLeave(st, at, leaver, reason, heir).1, at, leaver, News(st, at, leaver, reason, heir));
  }

  // ---------- relaying and streams ----------

  lemma CopyMayFollow(e: Event, k: ClientId, members: set<ClientId>, issued: set<ClientId>)
    requires Relayable(e.body) && members <= issued
    ensures AllMayFollow(CopyFor(e, k), members, issued, issued)
  {
    var copy := CopyFor(e, k);
    if |copy| == 1 {
      assert copy[1..] == [];
    }
  }

  lemma RelayLives(st: Service, next: Service, at: SessionId, from: ClientId, b: Body)
    requires at in st.rooms && Relayable(b) && next == Relay(st, at, from, b).0
    requires RosterInv(st) && IdsOk(st) && LivesInv(st)
    ensures LivesInv(next)
  {
    RelayDoes(st, at, from, b);
    var e := Event(st.nextEvent, from, b);
    forall id | id in next.rooms[at].clients ensures ClientLife(next.rooms[at].clients[id], st.issued)
    {
      MemberRoster(st, at, id);
      CopyMayFollow(e, id, Members(st, at), st.issued);
      StayerLife(st, at, id, next.rooms[at].clients[id], CopyFor(e, id));
    }
  }

  lemma StreamLives(st: Service, s: Step)
    requires Allowed(st, s) && (s.MemberStream? || s.DepartedStream?) && LivesInv(st)
    ensures LivesInv(Next(st, s))
  {
    if s.MemberStream? {
      StreamSideFrame(st.rooms[s.sid].clients[s.id].pipe, s.action);
    } else {
      StreamSideFrame(st.departed[s.id].pipe, s.action);
    }
  }

  lemma StepLives(st: Service, s: Step)
    requires Allowed(st, s) && TableInv(st) && RosterInv(st) && LivesInv(st)
    ensures LivesInv(Next(st, s))
  {
    var next := Next(st, s);
    StepKeepsTable(st, s);
    match s {
      case Join(_, _, _, _) =>
        StepKeepsRosters(st, s);
        JoinLives(st, s);
      case Leave(at, leaver, reason, heir) => LeaveLives(st, next, at, leaver, reason, heir);
      case Send(at, from, body) => RelayLives(st, next, at, from, body);
      case ServerMessage(at, from, kind, content, to) => RelayLives(st, next, at, from, AppMessage(kind, content, to));
      case MemberStream(_, _, _) => StreamLives(st, s);
      case DepartedStream(_, _) => StreamLives(st, s);
    }
  }

  lemma {:induction false} RunLives(st: Service, steps: seq<Step>)
    requires TableInv(st) && RosterInv(st) && LivesInv(st) && Execute(st, steps).Some?
    ensures LivesInv(Execute(st, steps).value)
    decreases |steps|
  {
    if steps != [] {
      StepKeepsTable(st, steps[0]);
      StepKeepsRosters(st, steps[0]);
      StepLives(st, steps[0]);
      RunLives(Next(st, steps[0]), steps[1..]);
    }
  }

  // ---------- the life of an id ----------

  /** A roster gains an id only by its PeerJoined. */
  lemma {:induction false} GainedByJoin(welcome: Event, log: seq<Offer>, issued: set<ClientId>, i: nat, j: nat, x: ClientId) returns (k: nat)
    requires LifeOk(welcome, log, issued) && i <= j <= |log| && x !in Roster(welcome, log[..i]) && x in Roster(welcome, log[..j])
    ensures i <= k < j && Joins(log[k], x)
    decreases j - i
  {
    var last := j - 1;
    assert log[..j] == log[..last] + [log[last]];
    RosterSnoc(welcome, log[..last], log[last]);
    assert EventOk(welcome, log, last);
    if x in Roster(welcome, log[..last]) {
      k := GainedByJoin(welcome, log, issued, i, last, x);
    } else {
      k := last;
    }
  }

  /** Who its RoomJoined listed, itself included. */
  function Listed(c: Client): set<ClientId> {
    Handle({}, c.welcome)
  }

  /** What one client is told of one id: at most one PeerJoined, for somebody its RoomJoined did not
      list and nothing was said of before; at most one PeerLeft, for somebody listed or joined. */
  predicate OneLife(listed: set<ClientId>, log: seq<Offer>, x: ClientId, j: nat)
    requires j < |log|
  {
    && (Joins(log[j], x) ==> x != "" && x !in listed && forall i :: 0 <= i < j ==> !Joins(log[i], x) && !Leaves(log[i], x))
    && (Leaves(log[j], x) ==>
          && (x in listed || exists i :: 0 <= i < j && Joins(log[i], x))
          && (forall i :: 0 <= i < j ==> !Leaves(log[i], x)))
  }

  lemma JoinsOnce(welcome: Event, log: seq<Offer>, issued: set<ClientId>, x: ClientId, i: nat, j: nat)
    requires LifeOk(welcome, log, issued) && i < j < |log| && Joins(log[j], x)
    ensures !Joins(log[i], x) && !Leaves(log[i], x)
  {
    assert EventOk(welcome, log, j) && EventOk(welcome, log, i);
    assert x !in Roster(welcome, log[..i]) && x !in Roster(welcome, log[..i + 1]);
    assert log[..i + 1] == log[..i] + [log[i]];
    RosterSnoc(welcome, log[..i], log[i]);
  }

  lemma LeavesOnce(welcome: Event, log: seq<Offer>, issued: set<ClientId>, x: ClientId, i: nat, j: nat)
    requires LifeOk(welcome, log, issued) && i < j < |log| && Leaves(log[j], x)
    ensures !Leaves(log[i], x)
  {
    assert EventOk(welcome, log, j) && EventOk(welcome, log, i);
    if Leaves(log[i], x) {
      assert log[..i + 1] == log[..i] + [log[i]];
      RosterSnoc(welcome, log[..i], log[i]);
      var k := GainedByJoin(welcome, log, issued, i + 1, j, x);
      JoinsOnce(welcome, log, issued, x, i, k);
    }
  }

  lemma OneLifeOf(welcome: Event, log: seq<Offer>, issued: set<ClientId>, x: ClientId, j: nat)
    requires LifeOk(welcome, log, issued) && j < |log|
    ensures OneLife(Handle({}, welcome), log, x, j)
  {
    assert log[..0] == [];
    assert Roster(welcome, log[..0]) == Handle({}, welcome);
    assert EventOk(welcome, log, j);
    if Joins(log[j], x) {
      forall i | 0 <= i < j ensures !Joins(log[i], x) && !Leaves(log[i], x)
      {
        JoinsOnce(welcome, log, issued, x, i, j);
      }
    }
    if Leaves(log[j], x) {
      if x !in Handle({}, welcome) {
        var i := GainedByJoin(welcome, log, issued, 0, j, x);
      }
      forall i | 0 <= i < j ensures !Leaves(log[i], x)
      {
        LeavesOnce(welcome, log, issued, x, i, j);
      }
    }
  }

  /** In every run, for every client ever let in and every id: what it is told of that id is one
      life at most, from listed or joined to left. */
  lemma EverybodyLivesOnce(maxPeers: int, steps: seq<Step>, id: ClientId, c: Client, x: ClientId, j: nat)
    requires Execute(NewService(maxPeers), steps).Some?
    requires IsClient(Execute(NewService(maxPeers), steps).value, id, c) && j < |Offers(c)|
    ensures OneLife(Listed(c), Offers(c), x, j)
  {
    NewServiceInv(maxPeers);
    RunLives(NewService(maxPeers), steps);
    OneLifeOf(c.welcome, Offers(c), Execute(NewService(maxPeers), steps).value.issued, x, j);
  }
}
