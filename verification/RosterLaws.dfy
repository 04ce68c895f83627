/** Roster agreement over whole runs of the service. */
module RosterLaws {
  import opened Options
  import opened Protocol
  import opened Delivery
  import opened Identity
  import opened Rooms
  import opened RoomTable
  import opened Pipes
  import opened Rosters

  /** The clients ever let in, by id. */
  predicate IsClient(st: Service, id: ClientId, c: Client) {
    || (id in st.departed && st.departed[id] == c)
    || exists sid :: sid in st.rooms && id in st.rooms[sid].clients && st.rooms[sid].clients[id] == c
  }

  function Members(st: Service, sid: SessionId): set<ClientId> {
    if sid in st.rooms then st.rooms[sid].clients.Keys else {}
  }

  ghost predicate Sound(st: Service) {
    TableInv(st) && PipesInv(st) && RosterInv(st)
  }

  lemma SoundRun(maxPeers: int, steps: seq<Step>)
    requires Execute(NewService(maxPeers), steps).Some?
    ensures Sound(Execute(NewService(maxPeers), steps).value)
  {
    NewServiceInv(maxPeers);
    RunKeepsTable(NewService(maxPeers), steps);
    RunOk(NewService(maxPeers), steps);
    RunKeepsRosters(NewService(maxPeers), steps);
  }

  lemma SoundClient(st: Service, id: ClientId, c: Client)
    requires Sound(st) && IsClient(st, id, c)
    ensures SelfOf(c) == id && ClientLogOk(c, st.at) && InOrder(c.pipe) && Reached(c.pipe)
  {
  }

  // ---------- agreement ----------

  /** A member that is not slow has built, from its join's answer and the events queued for
      it, exactly the ids in its room. */
  lemma RosterAgreement(maxPeers: int, steps: seq<Step>, sid: SessionId, id: ClientId)
    requires Execute(NewService(maxPeers), steps).Some?
    requires InRoom(Execute(NewService(maxPeers), steps).value, sid, id)
    ensures var st := Execute(NewService(maxPeers), steps).value;
            var c := st.rooms[sid].clients[id];
            !c.pipe.room.slow ==> Roster(c.welcome, c.pipe.chan.accepted) == Members(st, sid)
  {
    SoundRun(maxPeers, steps);
    var st := Execute(NewService(maxPeers), steps).value;
    assert Agree(st.rooms[sid].clients, sid, st.rooms[sid].clients.Keys, st.at);
    assert ClientsOk(st.rooms[sid].clients, true);
  }

  // ---------- the record is of memberships the room had ----------

  lemma {:induction false} ExecuteAppend(st: Service, a: seq<Step>, b: seq<Step>)
    requires Execute(st, a + b).Some?
    ensures Execute(st, a).Some? && Execute(st, a + b) == Execute(Execute(st, a).value, b)
    decreases |a|
  {
    if a == [] {
      assert a + b == b;
    } else {
      assert (a + b)[1..] == a[1..] + b;
      ExecuteAppend(Next(st, a[0]), a[1..], b);
    }
  }

  lemma ExecuteOne(st: Service, s: Step)
    ensures Execute(st, [s]) == if Allowed(st, s) then Some(Next(st, s)) else None
  {
    if Allowed(st, s) {
      assert [s][1..] == [];
      assert Execute(Next(st, s), []) == Some(Next(st, s));
    }
  }

  ghost predicate RecordedBetween(st: Service, next: Service) {
    forall n :: n in next.at ==>
      || (n in st.at && next.at[n] == st.at[n])
      || next.at[n].members == Members(next, next.at[n].sid)
      || next.at[n].members == Members(st, next.at[n].sid)
  }

  lemma EnterRecords(st: Service, sid: SessionId, p: Option<Principal>, j: JoinRequest, id: ClientId)
    requires sid in st.rooms
    ensures RecordedBetween(st, EnterRoom(st, sid, p, j, id).0)
  {
    var declared := Declared(st, sid, j);
    var next := Admit(declared, sid, p, j, id).0;
    var crowd := Crowd(sid, next.rooms[sid].clients.Keys);
    assert next.at == RecordedTwice(st.at, st.nextEvent, crowd, crowd);
    assert crowd.members == Members(next, sid);
    assert RecordedBetween(st, next) && RecordedBetween(st, declared);
  }

  lemma OpenedRecords(st: Service, hint: string, sid: SessionId, next: Service)
    requires RecordedBetween(GetOrCreateRoom(IndexHint(st, hint, sid), sid), next)
    ensures RecordedBetween(st, next)
  {
    var entered := GetOrCreateRoom(IndexHint(st, hint, sid), sid);
    assert entered.at == st.at;
    assert forall s :: Members(entered, s) == Members(st, s);
  }

  lemma JoinRecords(st: Service, p: Option<Principal>, j: JoinRequest, newSession: SessionId, id: ClientId)
    ensures RecordedBetween(st, HandleJoin(st, p, j, newSession, id).0)
  {
    var sid := Resolve(st, j, newSession);
    var entered := GetOrCreateRoom(IndexHint(st, j.hint, sid), sid);
    EnterRecords(entered, sid, p, j, id);
    OpenedRecords(st, j.hint, sid, EnterRoom(entered, sid, p, j, id).0);
    assert HandleJoin(st, p, j, newSession, id).0 != EnterRoom(entered, sid, p, j, id).0
      ==> HandleJoin(st, p, j, newSession, id).0.at == st.at;
  }

  lemma DepartRecords(st: Service, sid: SessionId, id: ClientId, reason: string)
    requires InRoom(st, sid, id)
    ensures RecordedBetween(st, Depart(st, sid, id, reason))
  {
    var next := Depart(st, sid, id, reason);
    assert Members(next, sid) == Rest(st, sid, id).Keys;
  }

  lemma ClosedRecords(st: Service, sid: SessionId, id: ClientId)
    requires InRoom(st, sid, id)
    ensures RecordedBetween(st, CloseRoom(st, sid, id)) && RecordedBetween(st, EndRoom(st, sid, id))
  {
    assert Members(CloseRoom(st, sid, id), sid) == Members(EndRoom(st, sid, id), sid) == {};
  }

  lemma SucceedRecords(st: Service, sid: SessionId, id: ClientId, reason: string, heir: ClientId)
    requires InRoom(st, sid, id) && heir in Rest(st, sid, id)
    ensures RecordedBetween(st, Succeed(st, sid, id, reason, heir))
  {
    var next := Succeed(st, sid, id, reason, heir);
    assert Members(next, sid) == Rest(st, sid, id).Keys;
  }

  lemma LeaveRecords(st: Service, sid: SessionId, id: ClientId, reason: string, heir: ClientId)
    requires InRoom(st, sid, id)
    ensures RecordedBetween(st, HandleLeave(st, sid, id, reason, heir).0)
  {
    match KindOf(st, sid, id, heir) {
      case Departs => DepartRecords(st, sid, id, reason);
      case Succeeds => SucceedRecords(st, sid, id, reason, heir);
      case EndsRoom => ClosedRecords(st, sid, id);
      case ClosesRoom => ClosedRecords(st, sid, id);
    }
  }

  lemma StepRecords(st: Service, s: Step)
    requires Allowed(st, s)
    ensures RecordedBetween(st, Next(st, s))
  {
    match s {
      case Join(p, j, newSession, newClient) => JoinRecords(st, p, j, newSession, newClient);
      case Leave(sid, id, reason, heir) => LeaveRecords(st, sid, id, reason, heir);
      case _ =>
    }
  }

  /** After i steps of a run the room had that membership. */
  ghost predicate HadMembers(st: Service, steps: seq<Step>, i: nat, crowd: Crowd) {
    i <= |steps| && Execute(st, steps[..i]).Some? && Members(Execute(st, steps[..i]).value, crowd.sid) == crowd.members
  }

  lemma HadAtStart(st: Service, steps: seq<Step>, crowd: Crowd)
    requires Members(st, crowd.sid) == crowd.members
    ensures HadMembers(st, steps, 0, crowd)
  {
  }

  /** A run whose first step is this one goes on from there. */
  ghost predicate LeadsTo(st: Service, s: Step, next: Service) {
    forall tail :: Execute(st, [s] + tail) == Execute(next, tail)
  }

  lemma StepLeads(st: Service, s: Step)
    requires Allowed(st, s)
    ensures LeadsTo(st, s, Next(st, s))
  {
    forall tail ensures Execute(st, [s] + tail) == Execute(Next(st, s), tail)
    {
      assert ([s] + tail)[1..] == tail;
    }
  }

  lemma HadLater(st: Service, steps: seq<Step>, next: Service, i: nat, crowd: Crowd)
    requires steps != [] && LeadsTo(st, steps[0], next) && HadMembers(next, steps[1..], i, crowd)
    ensures HadMembers(st, steps, i + 1, crowd)
  {
    assert steps[..i + 1] == [steps[0]] + steps[1..][..i];
  }

  /** A recorded membership was recorded at the start, or the room had it at some point of the run. */
  lemma {:induction false} RecordInRun(st: Service, steps: seq<Step>, n: nat) returns (i: nat)
    requires Execute(st, steps).Some? && n in Execute(st, steps).value.at
    ensures var crowd := Execute(st, steps).value.at[n];
            (n in st.at && st.at[n] == crowd) || HadMembers(st, steps, i, crowd)
    decreases |steps|
  {
    i := 0;
    if steps != [] {
      var next := Next(st, steps[0]);
      var later := RecordInRun(next, steps[1..], n);
      StepLeads(st, steps[0]);
      StepRecords(st, steps[0]);
      i := RecordOneEarlier(st, steps, next, n, Execute(st, steps).value.at[n], later);
    }
  }

  lemma RecordOneEarlier(st: Service, steps: seq<Step>, next: Service, n: nat, crowd: Crowd, later: nat) returns (i: nat)
    requires steps != [] && LeadsTo(st, steps[0], next) && RecordedBetween(st, next)
    requires (n in next.at && next.at[n] == crowd) || HadMembers(next, steps[1..], later, crowd)
    ensures (n in st.at && st.at[n] == crowd) || HadMembers(st, steps, i, crowd)
  {
    i := 0;
    if HadMembers(next, steps[1..], later, crowd) {
      HadLater(st, steps, next, later, crowd);
      i := later + 1;
    } else if Members(next, crowd.sid) == crowd.members {
      HadAtStart(next, steps[1..], crowd);
      HadLater(st, steps, next, 0, crowd);
      i := 1;
    } else if Members(st, crowd.sid) == crowd.members {
      HadAtStart(st, steps, crowd);
    }
  }

  /** Every recorded membership is one the room had at some point of the run. */
  lemma RecordWasMembership(st: Service, steps: seq<Step>, n: nat) returns (i: nat)
    requires Execute(st, steps).Some? && st.at == map[] && n in Execute(st, steps).value.at
    ensures HadMembers(st, steps, i, Execute(st, steps).value.at[n])
  {
    i := RecordInRun(st, steps, n);
  }

  /** What a run guarantees about one client. */
  lemma ClientInRun(maxPeers: int, steps: seq<Step>, id: ClientId, c: Client)
    requires Execute(NewService(maxPeers), steps).Some?
    requires IsClient(Execute(NewService(maxPeers), steps).value, id, c)
    ensures SelfOf(c) == id && InOrder(c.pipe) && Reached(c.pipe)
    ensures ClientLogOk(c, Execute(NewService(maxPeers), steps).value.at)
  {
    SoundRun(maxPeers, steps);
    SoundClient(Execute(NewService(maxPeers), steps).value, id, c);
  }

  /** The record of what a client has read so far. */
  lemma ReadRecord(c: Client, at: map<nat, Crowd>, k: nat) returns (n: nat)
    requires ClientLogOk(c, at) && InOrder(c.pipe) && k <= |c.pipe.chan.accepted|
    ensures n in at && at[n] == Crowd(SessionOf(c), Roster(c.welcome, c.pipe.chan.accepted[..k]))
  {
    var log := c.pipe.room.offered;
    assert c.pipe.chan.accepted[..k] == log[..k];
    n := if k == 0 then c.welcome.eventId else log[k - 1].event.eventId;
    assert RecordOk(c.welcome, log, k, SessionOf(c), at);
  }

  /** However far a client has read its queue, slow or not, still in the room or gone, its
      roster is the room's membership at some point of the run. */
  lemma RosterWasMembership(maxPeers: int, steps: seq<Step>, id: ClientId, c: Client, k: nat) returns (i: nat)
    requires Execute(NewService(maxPeers), steps).Some?
    requires IsClient(Execute(NewService(maxPeers), steps).value, id, c) && k <= |c.pipe.chan.accepted|
    ensures i <= |steps| && Execute(NewService(maxPeers), steps[..i]).Some?
    ensures Roster(c.welcome, c.pipe.chan.accepted[..k])
         == Members(Execute(NewService(maxPeers), steps[..i]).value, SessionOf(c))
  {
    ClientInRun(maxPeers, steps, id, c);
    var n := ReadRecord(c, Execute(NewService(maxPeers), steps).value.at, k);
    i := RecordWasMembership(NewService(maxPeers), steps, n);
  }

  /** The same for what Recv has handed over, after the whole delivery path. */
  lemma ReceivedRosterWasMembership(maxPeers: int, steps: seq<Step>, id: ClientId, c: Client) returns (i: nat)
    requires Execute(NewService(maxPeers), steps).Some?
    requires IsClient(Execute(NewService(maxPeers), steps).value, id, c)
    ensures i <= |steps| && Execute(NewService(maxPeers), steps[..i]).Some?
    ensures Roster(c.welcome, RoomPart(c.pipe.stream.received))
         == Members(Execute(NewService(maxPeers), steps[..i]).value, SessionOf(c))
  {
    ClientInRun(maxPeers, steps, id, c);
    ReceivedIsPrefix(c.pipe);
    var k := |RoomPart(c.pipe.stream.received)|;
    i := RosterWasMembership(maxPeers, steps, id, c, k);
    assert RoomPart(c.pipe.stream.received) == c.pipe.chan.accepted[..k];
  }

  lemma ReceivedIsPrefix(p: Pipe)
    requires Reached(p)
    ensures RoomPart(p.stream.received) <= p.chan.accepted
  {
    ReachedInv(p);
    RoomPartAppend(p.stream.received, p.stream.queue);
  }
}
