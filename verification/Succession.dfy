/** What becomes of a room when a client leaves it, from who is in it: who inherits, who is told
    what, and whether the session ends. */
module Succession {
  import opened Options
  import opened Protocol
  import opened Delivery
  import opened Rooms
  import opened RoomTable
  import opened Pipes
  import opened RosterLaws
  import opened RoomEvents
  import PeerEvents
  import NoGap

  function Others(st: Service, sid: SessionId, id: ClientId): map<ClientId, Client>
    requires InRoom(st, sid, id)
  {
    st.rooms[sid].clients - {id}
  }

  /** Another tab of the leaving client's browser is in the room; a client that gave no browser id
      has none. */
  predicate HasOtherTab(st: Service, sid: SessionId, id: ClientId)
    requires InRoom(st, sid, id)
  {
    var b := st.rooms[sid].clients[id].browserId;
    b != "" && exists k :: k in Others(st, sid, id) && Others(st, sid, id)[k].browserId == b
  }

  /** The room stays with everyone else in it, each told just these events. */
  ghost predicate StaysAfter(st: Service, next: Service, sid: SessionId, id: ClientId, news: seq<Event>)
    requires InRoom(st, sid, id)
  {
    && sid in next.rooms && next.rooms[sid].clients.Keys == Others(st, sid, id).Keys
    && forall k :: k in Others(st, sid, id) ==> Told(Others(st, sid, id)[k], next.rooms[sid].clients[k], news)
  }

  /** The session is over: its room out of the table, everyone else out of it with a closed channel,
      told so. */
  ghost predicate OverAfter(st: Service, next: Service, sid: SessionId, id: ClientId)
    requires InRoom(st, sid, id)
  {
    && sid !in next.rooms
    && forall k :: k in Others(st, sid, id) ==>
         && k in next.departed && next.departed[k].pipe.chan.closed && !next.departed[k].pipe.room.member
         && Told(Others(st, sid, id)[k], next.departed[k], [Event(st.nextEvent, id, SessionEnded("owner_disconnected"))])
  }

  function Changing(n: nat, id: ClientId, heir: ClientId, left: Body): seq<Event> {
    [Event(n, id, OwnerChanged(heir)), Event(n + 1, id, left)]
  }

  /** The heir is flagged as owner, and nobody's info is otherwise changed. */
  ghost predicate HeirFlagged(others: map<ClientId, Client>, clients: map<ClientId, Client>, heir: ClientId) {
    clients.Keys == others.Keys
    && forall k :: k in others ==> clients[k].info == others[k].info.(isOwner := others[k].info.isOwner || k == heir)
  }

  /** An owner leaves to another tab: it becomes the owner, flagged, and everyone is told so and then
      of the leave; nobody else's flag changes. */
  ghost predicate Inherited(st: Service, next: Service, sid: SessionId, id: ClientId, reason: string, heir: ClientId)
    requires InRoom(st, sid, id)
  {
    var others := Others(st, sid, id);
    && heir in others && others[heir].browserId == st.rooms[sid].clients[id].browserId
    && StaysAfter(st, next, sid, id, Changing(st.nextEvent, id, heir, PeerLeft(id, reason, |others|)))
    && next.rooms[sid].ownerId == heir && next.rooms[sid].ownerBrowser == st.rooms[sid].ownerBrowser
    && HeirFlagged(others, next.rooms[sid].clients, heir)
  }

  /** A client that is no owner leaves: PeerLeft to the others, and the ownership is as it was. */
  ghost predicate JustLeft(st: Service, next: Service, sid: SessionId, id: ClientId, reason: string)
    requires InRoom(st, sid, id)
  {
    var others := Others(st, sid, id);
    && StaysAfter(st, next, sid, id, [Event(st.nextEvent, id, PeerLeft(id, reason, |others|))])
    && next.rooms[sid].ownerId == st.rooms[sid].ownerId && next.rooms[sid].ownerBrowser == st.rooms[sid].ownerBrowser
    && forall k :: k in others ==> next.rooms[sid].clients[k].info == others[k].info
  }

  lemma TookOverFlags(rest: map<ClientId, Client>, n: nat, id: ClientId, reason: string, heir: ClientId)
    requires heir in rest
    ensures HeirFlagged(rest, TookOver(rest, n, id, reason, heir), heir)
  {
  }

  lemma AllToldStay(st: Service, next: Service, sid: SessionId, id: ClientId, news: seq<Event>)
    requires InRoom(st, sid, id) && sid in next.rooms && AllTold(Rest(st, sid, id), next.rooms[sid].clients, news)
    ensures StaysAfter(st, next, sid, id, news)
  {
  }

  lemma SuccessionInherits(st: Service, next: Service, sid: SessionId, id: ClientId, reason: string, heir: ClientId, rest: map<ClientId, Client>)
    requires InRoom(st, sid, id) && rest == Rest(st, sid, id) && heir in rest
    requires rest[heir].browserId == st.rooms[sid].clients[id].browserId && sid in next.rooms
    requires next.rooms[sid].clients == TookOver(rest, st.nextEvent, id, reason, heir)
    requires next.rooms[sid].ownerId == heir && next.rooms[sid].ownerBrowser == st.rooms[sid].ownerBrowser
    ensures Inherited(st, next, sid, id, reason, heir)
  {
    TookOverTold(rest, st.nextEvent, id, reason, heir);
    var news := Changing(st.nextEvent, id, heir, PeerLeft(id, reason, |rest|));
    assert news == HeirNews(st.nextEvent, id, reason, heir, |rest|);
    AllToldStay(st, next, sid, id, news);
    TookOverFlags(rest, st.nextEvent, id, reason, heir);
  }

  lemma SuccessorInherits(st: Service, sid: SessionId, id: ClientId, reason: string, heir: ClientId)
    requires InRoom(st, sid, id) && heir in Rest(st, sid, id)
    requires Rest(st, sid, id)[heir].browserId == st.rooms[sid].clients[id].browserId
    ensures Inherited(st, Succeed(st, sid, id, reason, heir), sid, id, reason, heir)
  {
    SucceedShape(st, sid, id, reason, heir);
    SuccessionInherits(st, Succeed(st, sid, id, reason, heir), sid, id, reason, heir, Rest(st, sid, id));
  }

  lemma DepartLeaves(st: Service, sid: SessionId, id: ClientId, reason: string)
    requires InRoom(st, sid, id)
    ensures JustLeft(st, Depart(st, sid, id, reason), sid, id, reason)
  {
    var rest := Rest(st, sid, id);
    OfferToTold(rest, Event(st.nextEvent, id, PeerLeft(id, reason, |rest|)));
    DepartUnseats(st, sid, id, reason);
  }

  lemma EndIsOver(st: Service, sid: SessionId, id: ClientId)
    requires InRoom(st, sid, id)
    ensures OverAfter(st, EndRoom(st, sid, id), sid, id)
  {
    var rest, end := Rest(st, sid, id), Event(st.nextEvent, id, SessionEnded("owner_disconnected"));
    EjectedTold(rest, end);
    assert AllOut(st, sid, id) == Out(st, sid, id) + Ejected(OfferTo(rest, end, rest.Keys));
  }

  lemma OtherTabIsHeir(st: Service, sid: SessionId, id: ClientId, heir: ClientId)
    requires InRoom(st, sid, id)
    requires var heirs := Heirs(Rest(st, sid, id), st.rooms[sid].clients[id].browserId); heirs == {} || heir in heirs
    ensures HasOtherTab(st, sid, id) <==> heir in Heirs(Rest(st, sid, id), st.rooms[sid].clients[id].browserId)
  {
    var b := st.rooms[sid].clients[id].browserId;
    if HasOtherTab(st, sid, id) {
      var k :| k in Others(st, sid, id) && Others(st, sid, id)[k].browserId == b;
      assert k in Heirs(Rest(st, sid, id), b);
    }
    if heir in Heirs(Rest(st, sid, id), b) {
      assert heir in Others(st, sid, id);
    }
  }

  /** Every other room is as it was, and there is no new one. */
  predicate OthersKept(st: Service, next: Service, sid: SessionId) {
    next.rooms.Keys <= st.rooms.Keys && forall s :: s in st.rooms && s != sid ==> s in next.rooms && next.rooms[s] == st.rooms[s]
  }

  /** The client is out, and no other room is touched. */
  predicate OutAlone(st: Service, next: Service, sid: SessionId, id: ClientId) {
    !InRoom(next, sid, id) && OthersKept(st, next, sid)
  }

  lemma StayKeepsOthers(st: Service, next: Service, sid: SessionId, id: ClientId, room: Room)
    requires sid in st.rooms && next.rooms == st.rooms[sid := room] && id !in room.clients
    ensures OutAlone(st, next, sid, id)
  {
  }

  lemma GoKeepsOthers(st: Service, next: Service, sid: SessionId, id: ClientId)
    requires sid in st.rooms && next.rooms == st.rooms - {sid}
    ensures OutAlone(st, next, sid, id)
  {
  }

  lemma DepartKeepsOthers(st: Service, sid: SessionId, id: ClientId, reason: string)
    requires InRoom(st, sid, id)
    ensures OutAlone(st, Depart(st, sid, id, reason), sid, id)
  {
    var next := Depart(st, sid, id, reason);
    StayKeepsOthers(st, next, sid, id, next.rooms[sid]);
  }

  lemma SucceedKeepsOthers(st: Service, sid: SessionId, id: ClientId, reason: string, heir: ClientId)
    requires InRoom(st, sid, id) && heir in Rest(st, sid, id)
    ensures OutAlone(st, Succeed(st, sid, id, reason, heir), sid, id)
  {
    SucceedShape(st, sid, id, reason, heir);
    var next := Succeed(st, sid, id, reason, heir);
    StayKeepsOthers(st, next, sid, id, next.rooms[sid]);
  }

  lemma LeaveKeepsOthers(st: Service, sid: SessionId, id: ClientId, reason: string, heir: ClientId)
    requires InRoom(st, sid, id)
    ensures OutAlone(st, HandleLeave(st, sid, id, reason, heir).0, sid, id)
  {
    match KindOf(st, sid, id, heir) {
      case Departs => DepartKeepsOthers(st, sid, id, reason);
      case Succeeds => SucceedKeepsOthers(st, sid, id, reason, heir);
      case EndsRoom => GoKeepsOthers(st, EndRoom(st, sid, id), sid, id);
      case ClosesRoom => GoKeepsOthers(st, CloseRoom(st, sid, id), sid, id);
    }
  }

  /** OnPeerLeft once, OnRoomRemoved if the room went, and no other hook. */
  predicate HooksCalled(st: Service, next: Service, sid: SessionId) {
    && next.left == st.left + 1 && next.joined == st.joined && next.created == st.created
    && next.removed == st.removed + if sid in next.rooms then 0 else 1
  }

  lemma LeaveCallsHooks(st: Service, sid: SessionId, id: ClientId, reason: string, heir: ClientId)
    requires InRoom(st, sid, id)
    ensures HooksCalled(st, HandleLeave(st, sid, id, reason, heir).0, sid)
  {
    match KindOf(st, sid, id, heir) {
      case Departs =>
      case Succeeds => SucceedShape(st, sid, id, reason, heir);
      case EndsRoom =>
      case ClosesRoom =>
    }
  }

  /** What a leave comes to, whoever is in the room. Alone, it closes the room. No owner, it just
      leaves. An owner leaves the room to another tab of its browser exactly when there is one, and
      the session is over for everyone exactly when there is none. No other room is touched. */
  lemma LeaveExactly(st: Service, sid: SessionId, id: ClientId, reason: string, heir: ClientId)
    requires InRoom(st, sid, id) && Allowed(st, Leave(sid, id, reason, heir))
    ensures var next, others := Next(st, Leave(sid, id, reason, heir)), Others(st, sid, id);
            if others == map[] then sid !in next.rooms
            else if !st.rooms[sid].clients[id].info.isOwner then JustLeft(st, next, sid, id, reason)
            else if HasOtherTab(st, sid, id) then Inherited(st, next, sid, id, reason, heir)
            else OverAfter(st, next, sid, id)
    ensures HooksCalled(st, Next(st, Leave(sid, id, reason, heir)), sid)
    ensures OutAlone(st, Next(st, Leave(sid, id, reason, heir)), sid, id)
  {
    LeaveKeepsOthers(st, sid, id, reason, heir);
    LeaveCallsHooks(st, sid, id, reason, heir);
    OtherTabIsHeir(st, sid, id, heir);
    match KindOf(st, sid, id, heir) {
      case Departs => DepartLeaves(st, sid, id, reason);
      case Succeeds => SuccessorInherits(st, sid, id, reason, heir);
      case EndsRoom => EndIsOver(st, sid, id);
      case ClosesRoom =>
    }
  }

  // ---------- the end reaches everyone ----------

  /** The last room event a client was offered says that its session is over. */
  predicate ToldOver(offers: seq<Offer>, from: ClientId) {
    && offers != [] && offers[|offers| - 1].sender == from
    && offers[|offers| - 1].event.body == SessionEnded("owner_disconnected")
  }

  lemma ToldLast(before: Client, after: Client, n: nat, id: ClientId)
    requires Told(before, after, [Event(n, id, SessionEnded("owner_disconnected"))])
    ensures ToldOver(Offers(after), id)
  {
  }

  /** Whoever a session ends for, with its client not slow, has SessionEnded as the last event in its
      channel. A bridge of its own that has stopped, its connection never cancelled, has passed it
      on, behind everything before it; one that has not stopped has it still to pass on, or has. Where
      the client was out of its room before a bridge could start, it hears of nothing. */
  lemma EndArrives(c: Client, id: ClientId)
    requires Reached(c.pipe) && InOrder(c.pipe) && ToldOver(Offers(c), id)
    ensures !c.pipe.room.slow ==> c.pipe.chan.accepted == Offers(c)
    ensures !c.pipe.room.slow && !c.pipe.stream.cancelled && c.pipe.stream.bridge.Stopped? ==>
              RoomPart(c.pipe.stream.Put()) == Offers(c)
    ensures !c.pipe.room.slow && !c.pipe.stream.bridge.Stopped? && !c.pipe.stream.bridge.NoBridge? ==>
              RoomPart(c.pipe.stream.Put()) + c.pipe.stream.Held() + c.pipe.chan.queue == Offers(c)
    ensures c.pipe.stream.bridge.NoBridge? ==> RoomPart(c.pipe.stream.Put()) == []
  {
    var acts :| Run(OPENED, acts) == Some(c.pipe);
    NoGap.StoppedHasAll(acts);
    NoGap.NothingIsLost(acts);
    if c.pipe.stream.bridge.NoBridge? {
      NoGap.NoBridgeNoEvents(acts);
    }
    ReachedInv(c.pipe);
  }

  /** In every run: an owner leaves without another tab in the room. Whatever happens after, everyone
      else who was there has been offered SessionEnded last and is offered nothing more, and what
      becomes of it is as above. */
  lemma EndReachesEveryone(maxPeers: int, steps: seq<Step>, sid: SessionId, id: ClientId, reason: string, heir: ClientId,
                           more: seq<Step>, k: ClientId)
    requires Execute(NewService(maxPeers), steps).Some?
    requires var st := Execute(NewService(maxPeers), steps).value;
             && InRoom(st, sid, id) && Allowed(st, Leave(sid, id, reason, heir)) && k in Others(st, sid, id)
             && st.rooms[sid].clients[id].info.isOwner && !HasOtherTab(st, sid, id)
             && Execute(Next(st, Leave(sid, id, reason, heir)), more).Some?
    ensures var final := Execute(Next(Execute(NewService(maxPeers), steps).value, Leave(sid, id, reason, heir)), more).value;
            && k in final.departed
            && var c := final.departed[k];
            && ToldOver(Offers(c), id)
            && (!c.pipe.room.slow && !c.pipe.stream.cancelled && c.pipe.stream.bridge.Stopped? ==>
                  ToldOver(RoomPart(c.pipe.stream.Put()), id) && RoomPart(c.pipe.stream.Put()) == Offers(c))
            && (!c.pipe.room.slow && !c.pipe.stream.bridge.Stopped? && !c.pipe.stream.bridge.NoBridge? ==>
                  RoomPart(c.pipe.stream.Put()) + c.pipe.stream.Held() + c.pipe.chan.queue == Offers(c))
            && (c.pipe.stream.bridge.NoBridge? ==> RoomPart(c.pipe.stream.Put()) == [])
  {
    var st := Execute(NewService(maxPeers), steps).value;
    var s := Leave(sid, id, reason, heir);
    SoundRun(maxPeers, steps);
    LeaveExactly(st, sid, id, reason, heir);
    SoundLater(st, s, more);
    ToldLast(Others(st, sid, id)[k], Next(st, s).departed[k], st.nextEvent, id);
    PeerEvents.StaysFrozen(Next(st, s), more, k);
    var final := Execute(Next(st, s), more).value;
    assert PipeOk(final.departed[k].pipe, false);
    EndArrives(final.departed[k], id);
  }

  lemma SoundLater(st: Service, s: Step, more: seq<Step>)
    requires Sound(st) && Allowed(st, s) && Execute(Next(st, s), more).Some?
    ensures TableInv(Next(st, s)) && PipesInv(Execute(Next(st, s), more).value)
  {
    StepKeepsTable(st, s);
    StepOk(st, s);
    RunOk(Next(st, s), more);
  }
}
