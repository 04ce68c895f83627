/** Who a relayed message is from, against the roster of whoever reads it. */
module KnownSenders {
  import opened Options
  import opened Protocol
  import opened Delivery
  import opened Identity
  import opened Rooms
  import opened RoomTable
  import opened Pipes
  import opened Rosters
  import opened RosterLaws
  import RoomEvents
  import RoomLaws

  // ---------- the record along a run ----------

  lemma SoundOn(st: Service, steps: seq<Step>)
    requires Sound(st) && Execute(st, steps).Some?
    ensures Sound(Execute(st, steps).value)
  {
    RunKeepsTable(st, steps);
    RunOk(st, steps);
    RunKeepsRosters(st, steps);
  }

  /** The record of one event stays what it was. */
  predicate Kept(at: map<nat, Crowd>, more: map<nat, Crowd>, n: nat) {
    n in at ==> n in more && more[n] == at[n]
  }

  lemma EnterKeepsRecord(st: Service, sid: SessionId, p: Option<Principal>, j: JoinRequest, id: ClientId, n: nat)
    requires n < st.nextEvent && sid in st.rooms
    ensures Kept(st.at, EnterRoom(st, sid, p, j, id).0.at, n)
  {
  }

  lemma JoinKeepsRecord(st: Service, p: Option<Principal>, j: JoinRequest, newSession: SessionId, id: ClientId, n: nat)
    requires n < st.nextEvent
    ensures Kept(st.at, HandleJoin(st, p, j, newSession, id).0.at, n)
  {
    var sid := Resolve(st, j, newSession);
    EnterKeepsRecord(GetOrCreateRoom(IndexHint(st, j.hint, sid), sid), sid, p, j, id, n);
  }

  lemma SucceedKeepsRecord(st: Service, sid: SessionId, id: ClientId, reason: string, heir: ClientId, n: nat)
    requires n < st.nextEvent && InRoom(st, sid, id) && heir in Rest(st, sid, id)
    ensures Kept(st.at, Succeed(st, sid, id, reason, heir).at, n)
  {
  }

  lemma DepartKeepsRecord(st: Service, sid: SessionId, id: ClientId, reason: string, n: nat)
    requires n < st.nextEvent && InRoom(st, sid, id)
    ensures Kept(st.at, Depart(st, sid, id, reason).at, n)
  {
  }

  lemma RemovalKeepsRecord(st: Service, sid: SessionId, id: ClientId, n: nat)
    requires n < st.nextEvent && InRoom(st, sid, id)
    ensures Kept(st.at, EndRoom(st, sid, id).at, n) && Kept(st.at, CloseRoom(st, sid, id).at, n)
  {
  }

  lemma LeaveKeepsRecord(st: Service, sid: SessionId, id: ClientId, reason: string, heir: ClientId, n: nat)
    requires n < st.nextEvent && InRoom(st, sid, id)
    ensures Kept(st.at, HandleLeave(st, sid, id, reason, heir).0.at, n)
  {
    match KindOf(st, sid, id, heir) {
      case Departs => DepartKeepsRecord(st, sid, id, reason, n);
      case Succeeds => SucceedKeepsRecord(st, sid, id, reason, heir, n);
      case EndsRoom => RemovalKeepsRecord(st, sid, id, n);
      case ClosesRoom => RemovalKeepsRecord(st, sid, id, n);
    }
  }

  lemma StepKeepsRecord(st: Service, s: Step, n: nat)
    requires n < st.nextEvent && Allowed(st, s)
    ensures Kept(st.at, Next(st, s).at, n)
  {
    match s {
      case Join(p, j, newSession, newClient) => JoinKeepsRecord(st, p, j, newSession, newClient, n);
      case Leave(sid, id, reason, heir) => LeaveKeepsRecord(st, sid, id, reason, heir, n);
      case _ =>
    }
  }

  lemma {:induction false} RunKeepsRecord(st: Service, steps: seq<Step>, n: nat)
    requires TableInv(st) && RosterInv(st) && Execute(st, steps).Some? && n in st.at
    ensures Kept(st.at, Execute(st, steps).value.at, n)
    decreases |steps|
  {
    if steps != [] {
      StepKeepsTable(st, steps[0]);
      StepKeepsRosters(st, steps[0]);
      StepKeepsRecord(st, steps[0], n);
      RunKeepsRecord(Next(st, steps[0]), steps[1..], n);
    }
  }

  // ---------- the sender is in the roster ----------

  predicate Relays(s: Step) {
    s.Send? || s.ServerMessage?
  }

  function SenderOf(s: Step): ClientId
    requires Relays(s)
  {
    if s.Send? then s.id else s.from
  }

  /** The message a step relays. */
  function MessageOf(st: Service, s: Step): Event
    requires Relays(s)
  {
    Event(st.nextEvent, SenderOf(s), if s.Send? then s.body else AppMessage(s.kind, s.content, s.to))
  }

  lemma RelayedRecord(st: Service, s: Step)
    requires Relays(s) && Allowed(st, s)
    ensures var next := Next(st, s); st.nextEvent in next.at && next.at[st.nextEvent] == Crowd(s.sid, Members(st, s.sid))
  {
  }

  /** A relayed message leaves the roster of its reader alone, so before it the reader holds the
      membership recorded for it. */
  lemma ReaderHolds(c: Client, at: map<nat, Crowd>, e: Event, id: ClientId, i: nat)
    requires ClientLogOk(c, at) && InOrder(c.pipe) && Relayable(e.body)
    requires i < |c.pipe.chan.accepted| && c.pipe.chan.accepted[i].event in RoomEvents.CopyFor(e, id)
    ensures e.eventId in at && Roster(c.welcome, c.pipe.chan.accepted[..i]) == at[e.eventId].members
  {
    var log, got := c.pipe.room.offered, c.pipe.chan.accepted;
    assert got[..i] == log[..i] && got[i] == log[i];
    assert RecordOk(c.welcome, log, i + 1, SessionOf(c), at);
    assert log[..i + 1] == log[..i] + [log[i]];
    RosterSnoc(c.welcome, log[..i], log[i]);
  }

  /** However the run goes on after the message, whoever is a client then. */
  lemma LaterClient(st: Service, s: Step, more: seq<Step>, id: ClientId, c: Client)
    requires Sound(st) && Relays(s) && Allowed(st, s) && Execute(Next(st, s), more).Some?
    requires IsClient(Execute(Next(st, s), more).value, id, c)
    ensures var at := Execute(Next(st, s), more).value.at;
            && ClientLogOk(c, at) && InOrder(c.pipe) && Reached(c.pipe)
            && st.nextEvent in at && at[st.nextEvent] == Crowd(s.sid, Members(st, s.sid))
  {
    var next := Next(st, s);
    StepKeepsTable(st, s);
    StepOk(st, s);
    StepKeepsRosters(st, s);
    SoundOn(next, more);
    SoundClient(Execute(next, more).value, id, c);
    RelayedRecord(st, s);
    RunKeepsRecord(next, more, st.nextEvent);
  }

  /** In every run, for every message relayed in it and every client that has it in its queue, then
      or ever after: as it reads the message its roster holds the sender exactly when the sender was
      in the room. A client that sends always was; DeliverAppMessage can name anybody. */
  lemma SenderIsKnown(maxPeers: int, steps: seq<Step>, s: Step, more: seq<Step>, id: ClientId, c: Client, i: nat)
    requires Execute(NewService(maxPeers), steps).Some?
    requires var st := Execute(NewService(maxPeers), steps).value;
             && Relays(s) && Allowed(st, s) && Execute(Next(st, s), more).Some?
             && IsClient(Execute(Next(st, s), more).value, id, c)
             && i < |c.pipe.chan.accepted| && c.pipe.chan.accepted[i].event in RoomEvents.CopyFor(MessageOf(st, s), id)
    ensures var st := Execute(NewService(maxPeers), steps).value;
            SenderOf(s) in Roster(c.welcome, c.pipe.chan.accepted[..i]) <==> InRoom(st, s.sid, SenderOf(s))
    ensures s.Send? ==> SenderOf(s) in Roster(c.welcome, c.pipe.chan.accepted[..i])
  {
    var st := Execute(NewService(maxPeers), steps).value;
    SoundRun(maxPeers, steps);
    LaterClient(st, s, more, id, c);
    ReaderHolds(c, Execute(Next(st, s), more).value.at, MessageOf(st, s), id, i);
  }

  // ---------- a stranger's message ----------

  /** The pipe of the only client of a room, just let in. */
  lemma FirstPipe(sid: SessionId, id: ClientId)
    requires sid != "" && id != ""
    ensures var st := HandleJoin(NewService(0), None, RoomLaws.Asking(true, "b", sid, false, 2), "s", id).0;
            InRoom(st, sid, id) && st.rooms[sid].clients.Keys == {id} && st.rooms[sid].clients[id].pipe == Boarded(OPENED.stream)
  {
    RoomLaws.FirstJoin(sid, id);
  }

  /** Such a message from nobody in the room: its only client reads it with a roster that does not
      hold the sender. */
  lemma StrangerIsHeard(sid: SessionId, id: ClientId, from: ClientId, kind: string, content: string)
    requires sid != "" && id != "" && from != id
    ensures var join := Join(None, RoomLaws.Asking(true, "b", sid, false, 2), "s", id);
            var steps := [join, ServerMessage(sid, from, kind, content, [])];
            && Execute(NewService(0), steps).Some?
            && InRoom(Execute(NewService(0), steps).value, sid, id)
            && var c := Execute(NewService(0), steps).value.rooms[sid].clients[id];
            |c.pipe.chan.accepted| == 1 && c.pipe.chan.accepted[0].event.from == from && from !in Roster(c.welcome, [])
  {
    var join, s := Join(None, RoomLaws.Asking(true, "b", sid, false, 2), "s", id), ServerMessage(sid, from, kind, content, []);
    assert Run(OPENED, []) == Some(Pipe(OPENED.room, EMPTY_CHANNEL, OPENED.stream));
    FirstPipe(sid, id);
    var one := Next(NewService(0), join);
    RoomLaws.TwoSteps(NewService(0), join, s);
    var two := Next(one, s);
    assert two.rooms[sid].clients[id] == Offered(one.rooms[sid].clients[id], Event(one.nextEvent, from, AppMessage(kind, content, [])));
    ExecuteOne(NewService(0), join);
    RosterAgreement(0, [join], sid, id);
  }
}
