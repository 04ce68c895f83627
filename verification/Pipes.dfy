/** The service and the delivery path together: in every run of the service, the pipe of each
    client, present or gone, is a run of the delivery protocol with deliveries one at a time. */
module Pipes {
  import opened Options
  import opened Protocol
  import opened Delivery
  import opened NoGap
  import opened Identity
  import opened Rooms

  ghost predicate Reached(p: Pipe) {
    exists acts :: Run(OPENED, acts) == Some(p)
  }

  /** The channel got an unbroken prefix of what was offered: all of it, until a drop. */
  predicate InOrder(p: Pipe) {
    p.chan.accepted <= p.room.offered && (!p.room.slow ==> p.chan.accepted == p.room.offered)
  }

  ghost predicate PipeOk(p: Pipe, member: bool) {
    Reached(p) && Quiet(p) && InOrder(p) && p.room.member == member
  }

  ghost predicate ClientsOk(clients: map<ClientId, Client>, member: bool) {
    forall id :: id in clients ==> PipeOk(clients[id].pipe, member)
  }

  ghost predicate PipesInv(st: Service) {
    && (forall sid :: sid in st.rooms ==> ClientsOk(st.rooms[sid].clients, true))
    && ClientsOk(st.departed, false)
  }

  lemma ReachedInv(p: Pipe)
    requires Reached(p)
    ensures Inv(p)
  {
    var acts :| Run(OPENED, acts) == Some(p);
    OpenedInv();
    RunKeepsInv(OPENED, acts);
  }

  lemma BoardedOk(s: Stream)
    requires MayJoin(s)
    ensures PipeOk(Boarded(s), true)
  {
    var acts :| Run(OPENED, acts) == Some(Pipe(OPENED.room, EMPTY_CHANNEL, s)) && s.bridge.Unjoined?;
    var p := Pipe(OPENED.room, EMPTY_CHANNEL, s);
    Run1(p, JoinDoes(Board));
    RunAppend(OPENED, acts, [JoinDoes(Board)]);
    assert Run(OPENED, acts + [JoinDoes(Board)]) == Some(Boarded(s));
  }

  lemma ReachedOn(p: Pipe, acts: seq<Action>)
    requires Reached(p) && Run(p, acts).Some?
    ensures Reached(Run(p, acts).value)
  {
    var before :| Run(OPENED, before) == Some(p);
    RunAppend(OPENED, before, acts);
  }

  lemma DeliverOk(p: Pipe, s: Sender, e: Event)
    requires PipeOk(p, true)
    ensures PipeOk(Deliver(p, s, e), true)
  {
    ReachedInv(p);
    DeliverIsRun(p, s, e);
    ReachedOn(p, DeliverActs(p, s, e));
  }

  lemma LockedOk(p: Pipe, a: LockedStep)
    requires PipeOk(p, true)
    ensures PipeOk(LockedApply(p, a), false)
  {
    Run1(p, RoomDoes(a));
    ReachedOn(p, [RoomDoes(a)]);
  }

  /** A stream's own steps leave the senders' side, and what the channel accepted, as they are. */
  lemma StreamSideFrame(p: Pipe, a: Action)
    requires StreamSide(a) && Enabled(p, a)
    ensures Apply(p, a).room == p.room && Apply(p, a).chan.accepted == p.chan.accepted
  {
  }

  lemma StreamOk(p: Pipe, a: Action, member: bool)
    requires PipeOk(p, member) && StreamSide(a) && Enabled(p, a)
    ensures PipeOk(Apply(p, a), member)
  {
    Run1(p, a);
    ReachedOn(p, [a]);
    StreamSideFrame(p, a);
  }

  lemma OfferToOk(clients: map<ClientId, Client>, e: Event, to: set<ClientId>)
    requires ClientsOk(clients, true)
    ensures ClientsOk(OfferTo(clients, e, to), true)
  {
    forall id | id in clients && id in to ensures PipeOk(Deliver(clients[id].pipe, e.from, e), true)
    {
      DeliverOk(clients[id].pipe, e.from, e);
    }
  }

  lemma OfferEachOk(clients: map<ClientId, Client>, e: Event, to: set<ClientId>)
    requires ClientsOk(clients, true)
    ensures ClientsOk(OfferEach(clients, e, to), true)
  {
    forall id | id in clients && id in to ensures PipeOk(Deliver(clients[id].pipe, e.from, Addressed(e, id)), true)
    {
      DeliverOk(clients[id].pipe, e.from, Addressed(e, id));
    }
  }

  lemma EjectedOk(clients: map<ClientId, Client>)
    requires ClientsOk(clients, true)
    ensures ClientsOk(Ejected(clients), false)
  {
    forall id | id in clients ensures PipeOk(LockedApply(clients[id].pipe, CloseChannel), false)
    {
      LockedOk(clients[id].pipe, CloseChannel);
    }
  }

  lemma SeatedOk(clients: map<ClientId, Client>, c: Client, note: Event)
    requires ClientsOk(clients, true) && PipeOk(c.pipe, true)
    ensures ClientsOk(Seated(clients, c, note), true)
  {
    OfferToOk(clients, note, clients.Keys - {c.info.clientId});
  }

  lemma WithRoomOk(st: Service, next: Service, sid: SessionId, room: Room)
    requires PipesInv(st) && ClientsOk(room.clients, true) && ClientsOk(next.departed, false)
    requires next.rooms == st.rooms[sid := room]
    ensures PipesInv(next)
  {
  }

  lemma EnteredOk(st: Service, sid: SessionId, p: Option<Principal>, j: JoinRequest, id: ClientId)
    requires sid in st.rooms && ClientsOk(st.rooms[sid].clients, true) && MayJoin(j.connection)
    ensures ClientsOk(Entered(st, sid, p, j, id).clients, true)
  {
    var c := Newcomer(st, sid, p, j, id);
    BoardedOk(j.connection);
    SeatedOk(st.rooms[sid].clients, c, Arrival(st, c));
  }

  lemma AdmitOk(st: Service, sid: SessionId, p: Option<Principal>, j: JoinRequest, id: ClientId)
    requires PipesInv(st) && sid in st.rooms && MayJoin(j.connection)
    ensures PipesInv(Admit(st, sid, p, j, id).0)
  {
    EnteredOk(st, sid, p, j, id);
    WithRoomOk(st, Admit(st, sid, p, j, id).0, sid, Entered(st, sid, p, j, id));
  }

  lemma EnterOk(st: Service, sid: SessionId, p: Option<Principal>, j: JoinRequest, id: ClientId)
    requires PipesInv(st) && sid in st.rooms && MayJoin(j.connection)
    ensures PipesInv(EnterRoom(st, sid, p, j, id).0)
  {
    var declared := Declared(st, sid, j);
    WithRoomOk(st, declared, sid, declared.rooms[sid]);
    AdmitOk(declared, sid, p, j, id);
  }

  lemma JoinOk(st: Service, p: Option<Principal>, j: JoinRequest, newSession: SessionId, id: ClientId)
    requires PipesInv(st) && MayJoin(j.connection)
    ensures PipesInv(HandleJoin(st, p, j, newSession, id).0)
  {
    var sid := Resolve(st, j, newSession);
    var indexed := IndexHint(st, j.hint, sid);
    var entered := GetOrCreateRoom(indexed, sid);
    assert PipesInv(indexed);
    WithRoomOk(indexed, entered, sid, entered.rooms[sid]);
    EnterOk(entered, sid, p, j, id);
  }

  lemma OutOk(st: Service, sid: SessionId, id: ClientId)
    requires PipesInv(st) && InRoom(st, sid, id)
    ensures ClientsOk(Out(st, sid, id), false) && ClientsOk(Rest(st, sid, id), true)
  {
    LockedOk(st.rooms[sid].clients[id].pipe, Remove);
  }

  lemma AllOutOk(st: Service, sid: SessionId, id: ClientId)
    requires PipesInv(st) && InRoom(st, sid, id)
    ensures ClientsOk(AllOut(st, sid, id), false)
  {
    var rest := Rest(st, sid, id);
    var end := Event(st.nextEvent, id, SessionEnded("owner_disconnected"));
    OutOk(st, sid, id);
    OfferToOk(rest, end, rest.Keys);
    EjectedOk(OfferTo(rest, end, rest.Keys));
  }

  lemma DepartOk(st: Service, sid: SessionId, id: ClientId, reason: string)
    requires PipesInv(st) && InRoom(st, sid, id)
    ensures PipesInv(Depart(st, sid, id, reason))
  {
    var rest := Rest(st, sid, id);
    OutOk(st, sid, id);
    OfferToOk(rest, Event(st.nextEvent, id, PeerLeft(id, reason, |rest|)), rest.Keys);
  }

  lemma CrownedOk(rest: map<ClientId, Client>, heir: ClientId)
    requires ClientsOk(rest, true) && heir in rest
    ensures ClientsOk(Crowned(rest, heir), true)
  {
  }

  lemma InformedOk(clients: map<ClientId, Client>, first: Event, second: Event)
    requires ClientsOk(clients, true)
    ensures ClientsOk(Informed(clients, first, second), true)
  {
    OfferToOk(clients, first, clients.Keys);
    OfferToOk(OfferTo(clients, first, clients.Keys), second, clients.Keys);
  }

  lemma TookOverOk(rest: map<ClientId, Client>, n: nat, id: ClientId, reason: string, heir: ClientId)
    requires heir in rest && ClientsOk(rest, true)
    ensures ClientsOk(TookOver(rest, n, id, reason, heir), true)
  {
    CrownedOk(rest, heir);
    InformedOk(Crowned(rest, heir), Event(n, id, OwnerChanged(heir)), Event(n + 1, id, PeerLeft(id, reason, |rest|)));
  }

  lemma SucceedOk(st: Service, sid: SessionId, id: ClientId, reason: string, heir: ClientId)
    requires PipesInv(st) && InRoom(st, sid, id) && heir in Rest(st, sid, id)
    ensures PipesInv(Succeed(st, sid, id, reason, heir))
  {
    OutOk(st, sid, id);
    TookOverOk(Rest(st, sid, id), st.nextEvent, id, reason, heir);
    var next := Succeed(st, sid, id, reason, heir);
    WithRoomOk(st, next, sid, next.rooms[sid]);
  }

  lemma ClosedOk(st: Service, sid: SessionId, id: ClientId)
    requires PipesInv(st) && InRoom(st, sid, id)
    ensures PipesInv(CloseRoom(st, sid, id)) && PipesInv(EndRoom(st, sid, id))
  {
    OutOk(st, sid, id);
    AllOutOk(st, sid, id);
  }

  lemma LeaveOk(st: Service, sid: SessionId, id: ClientId, reason: string, heir: ClientId)
    requires PipesInv(st) && InRoom(st, sid, id)
    ensures PipesInv(HandleLeave(st, sid, id, reason, heir).0)
  {
    match KindOf(st, sid, id, heir) {
      case Departs => DepartOk(st, sid, id, reason);
      case Succeeds => SucceedOk(st, sid, id, reason, heir);
      case EndsRoom => ClosedOk(st, sid, id);
      case ClosesRoom => ClosedOk(st, sid, id);
    }
  }

  lemma HeardOk(clients: map<ClientId, Client>, e: Event)
    requires ClientsOk(clients, true)
    ensures ClientsOk(Heard(clients, e), true)
  {
    OfferToOk(clients, e, clients.Keys - {e.from});
    if IsAddressed(e.body) {
      OfferEachOk(clients, e, Ids(e.body.toClientIds));
    }
  }

  lemma RelayOk(st: Service, sid: SessionId, from: ClientId, b: Body)
    requires PipesInv(st) && sid in st.rooms
    ensures PipesInv(Relay(st, sid, from, b).0)
  {
    var next := Relay(st, sid, from, b).0;
    HeardOk(st.rooms[sid].clients, Event(st.nextEvent, from, b));
    WithRoomOk(st, next, sid, next.rooms[sid]);
  }

  lemma StepOk(st: Service, s: Step)
    requires PipesInv(st) && Allowed(st, s)
    ensures PipesInv(Next(st, s))
  {
    match s {
      case Join(p, j, newSession, newClient) => JoinOk(st, p, j, newSession, newClient);
      case Leave(sid, id, reason, heir) => LeaveOk(st, sid, id, reason, heir);
      case Send(sid, id, body) => RelayOk(st, sid, id, body);
      case ServerMessage(sid, from, kind, content, to) => RelayOk(st, sid, from, AppMessage(kind, content, to));
      case MemberStream(sid, id, a) => StreamOk(st.rooms[sid].clients[id].pipe, a, true);
      case DepartedStream(id, a) => StreamOk(st.departed[id].pipe, a, false);
    }
  }

  lemma {:induction false} RunOk(st: Service, steps: seq<Step>)
    requires PipesInv(st) && Execute(st, steps).Some?
    ensures PipesInv(Execute(st, steps).value)
    decreases |steps|
  {
    if steps != [] {
      StepOk(st, steps[0]);
      RunOk(Next(st, steps[0]), steps[1..]);
    }
  }
}
