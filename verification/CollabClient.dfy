/** The browser client as the object the app holds: fields changed by its methods and by the
    callbacks of its timer, room check, token fetch and socket. */
module ClientObjects {
  import opened Options
  import opened Protocol
  import Rosters
  import opened Reconnect

  // ---------- the peer map ----------

  function Own(id: ClientId, username: string): PeerInfo {
    PeerInfo(id, username, false)
  }

  /** addPeer. */
  function WithPeer(peers: map<ClientId, PeerInfo>, peer: PeerInfo): map<ClientId, PeerInfo> {
    if peer.clientId != "" then peers[peer.clientId := peer] else peers
  }

  /** The peer map after a RoomJoined: each listed peer is there under its own id, as it was
      listed; the client itself, unless it was listed, under the name it gave; nobody else. */
  ghost predicate Filled(self: ClientId, username: string, listed: map<ClientId, PeerInfo>, peers: map<ClientId, PeerInfo>) {
    && peers.Keys == (if self != "" then {self} else {}) + Rosters.Known(listed)
    && (forall id :: id in Rosters.Known(listed) ==> peers[id].clientId == id && peers[id] in listed.Values)
    && (self != "" && self !in Rosters.Known(listed) ==> peers[self] == Own(self, username))
  }

  /** What any other event does to the peer map. */
  function PeersAfter(peers: map<ClientId, PeerInfo>, e: Event): map<ClientId, PeerInfo> {
    match e.body
    case PeerJoined(peer) => WithPeer(peers, peer)
    case PeerLeft(id, _, _) => peers - {id}
    case OwnerChanged(owner) => map id | id in peers :: peers[id].(isOwner := id == owner)
    case _ => peers
  }

  /** The peer map a client holds once it has handled an event. */
  ghost predicate HoldsPeers(before: map<ClientId, PeerInfo>, connected: bool, username: string, e: Event, after: map<ClientId, PeerInfo>) {
    match e.body
    case RoomJoined(self, _, listed, _) => Filled(self, username, listed, after)
    case SessionEnded(_) => after == map[]
    case Error(_, _) => after == if connected then before else map[]
    case _ => after == PeersAfter(before, e)
  }

  /** Where every peer is listed under its own id, as the relay lists them, that is the list and
      the client itself. */
  lemma FilledExactly(self: ClientId, username: string, listed: map<ClientId, PeerInfo>, peers: map<ClientId, PeerInfo>)
    requires forall k :: k in listed ==> k != "" && listed[k].clientId == k
    requires self != ""
    ensures Filled(self, username, listed, peers) <==> peers == map[self := Own(self, username)] + listed
  {
    var known := Rosters.Known(listed);
    forall k | k in listed ensures k in known
    {
      assert listed[k].clientId == k;
    }
    assert known == listed.Keys;
    if Filled(self, username, listed, peers) {
      forall id | id in listed ensures peers[id] == listed[id]
      {
        var k :| k in listed && listed[k] == peers[id];
      }
    } else if peers == map[self := Own(self, username)] + listed {
      forall id | id in known ensures peers[id] in listed.Values
      {
        assert listed[id] == peers[id];
      }
    }
  }

  lemma KnownOne(others: map<ClientId, PeerInfo>, todo: set<ClientId>, k: ClientId)
    requires k in todo && todo <= others.Keys
    ensures Rosters.Known(others - (todo - {k})) ==
            Rosters.Known(others - todo) + if others[k].clientId != "" then {others[k].clientId} else {}
  {
    var before, after := others - todo, others - (todo - {k});
    assert forall j :: j in after <==> j in before || j == k;
    forall x | x in Rosters.Known(before) ensures x in Rosters.Known(after)
    {
      var j :| j in before && before[j].clientId == x && x != "";
      assert j in after;
    }
    assert k in after;
  }

  /** One more listed peer. */
  lemma FilledOne(self: ClientId, username: string, listed: map<ClientId, PeerInfo>, todo: set<ClientId>, k: ClientId,
                                     peers: map<ClientId, PeerInfo>)
    requires k in todo && todo <= listed.Keys && Filled(self, username, listed - todo, peers)
    ensures Filled(self, username, listed - (todo - {k}), WithPeer(peers, listed[k]))
  {
    KnownOne(listed, todo, k);
    var before, after, more := listed - todo, listed - (todo - {k}), WithPeer(peers, listed[k]);
    assert after[k] == listed[k];
    forall id | id in Rosters.Known(after) ensures more[id].clientId == id && more[id] in after.Values
    {
      if id != listed[k].clientId {
        var j :| j in before && before[j] == peers[id];
        assert after[j] == peers[id];
      }
    }
  }

  /** What each event does to each peer: one that joined is there as announced, one that left is not,
      a new owner is flagged and nobody else, and everything else stays. */
  lemma PeersAfterMeaning(peers: map<ClientId, PeerInfo>, e: Event, id: ClientId)
    ensures var after := PeersAfter(peers, e);
            match e.body
            case PeerJoined(peer) =>
              if peer.clientId == id && id != "" then id in after && after[id] == peer
              else (id in after <==> id in peers) && (id in peers ==> after[id] == peers[id])
            case PeerLeft(gone, _, _) =>
              (id in after <==> id in peers && id != gone) && (id in after ==> after[id] == peers[id])
            case OwnerChanged(owner) =>
              (id in after <==> id in peers) &&
              (id in peers ==> after[id] == PeerInfo(peers[id].clientId, peers[id].username, id == owner))
            case _ => after == peers
  {
  }

  lemma AfterKeys(peers: map<ClientId, PeerInfo>, e: Event)
    requires !e.body.RoomJoined? && !e.body.SessionEnded?
    ensures PeersAfter(peers, e).Keys == Rosters.Handle(peers.Keys, e)
  {
  }

  // ---------- entering a room ----------

  /** The client in its room, before its peer map is filled. */
  ghost function Entered(s: ClientState, self: ClientId, sid: SessionId): ClientState {
    var room := if sid != "" then sid else s.sessionId;
    Log(s.(clientId := self, sessionId := room, isConnected := true, isConnecting := false, hasJoined := true, retryCount := 0),
        Connected(self, room))
  }

  lemma {:induction false} EnteredIs(s: ClientState, e: Event)
    requires e.body.RoomJoined?
    ensures HandleJoined(s, e) == Entered(s, e.body.self, e.body.sessionId).(roster := Rosters.Handle(s.roster, e))
    ensures Rosters.Handle(s.roster, e) == (if e.body.self != "" then {e.body.self} else {}) + Rosters.Known(e.body.peers)
  {
  }

  // ---------- the client object ----------

  class CollabClient {
    const cfg: Config
    var grpc: Option<Socket>
    var clientId: ClientId
    var sessionId: SessionId
    var username: string
    var isConnected: bool
    var isConnecting: bool
    var explicitDisconnect: bool
    var hasJoined: bool
    var retryCount: nat
    var retryTimer: bool
    var peers: map<ClientId, PeerInfo>
    // what is under way outside the object, and what was seen of it
    ghost var timers: nat
    ghost var checks: nat
    ghost var tokens: nat
    var sockets: nat
    ghost var log: seq<Entry>

    ghost function State(): ClientState
      reads this
    {
      ClientState(grpc, clientId, sessionId, isConnected, isConnecting, explicitDisconnect, hasJoined, retryCount,
                  retryTimer, peers.Keys, timers, checks, tokens, sockets, log)
    }

    constructor (config: Config)
      ensures cfg == config && IsNew(State())
    {
      cfg := config;
      grpc, clientId, sessionId, username := None, "", "", "";
      isConnected, isConnecting, explicitDisconnect, hasJoined := false, false, false, false;
      retryCount, retryTimer, peers := 0, false, map[];
      timers, checks, tokens, sockets, log := 0, 0, 0, 0, [];
    }

    /** connect(); false where the code throws. */
    method Connect(room: SessionId, name: string) returns (ok: bool)
      requires Enabled(State(), AppConnects(room))
      modifies this
      ensures State() == Apply(cfg, old(State()), AppConnects(room)) && ok == !old(isConnected)
      ensures username == if ok then name else old(username)
    {
      if isConnected {
        return false;
      }
      Begin(room, name);
      OpenSocketWithToken();
      ok := true;
    }

    method Begin(room: SessionId, name: string)
      modifies this
      ensures State() == Log(old(State()).(sessionId := room, isConnecting := true, explicitDisconnect := false,
                                           hasJoined := false, retryCount := 0), Called)
      ensures username == name
    {
      sessionId, username, isConnecting, explicitDisconnect := room, name, true, false;
      hasJoined, retryCount := false, 0;
      log := log + [Called];
    }

    method Disconnect()
      modifies this
      ensures State() == Reconnect.Disconnect(old(State()))
      ensures username == old(username)
    {
      explicitDisconnect := true;
      if retryTimer {
        retryTimer := false;
        timers := if timers > 0 then timers - 1 else timers;
      }
      isConnecting := false;
      if grpc.None? {
        return;
      }
      var wasConnected := isConnected;
      if wasConnected {
        log := log + [LeaveSent];
      }
      Reset();
      if wasConnected {
        log := log + [Disconnected];
      }
    }

    method OpenSocketWithToken()
      modifies this
      ensures State() == OpenWithToken(cfg, old(State()))
      ensures username == old(username)
    {
      if cfg.hasGetToken {
        tokens := tokens + 1;
      } else {
        OpenSocket();
      }
    }

    method OpenSocket()
      modifies this
      ensures State() == OpenWebSocket(old(State()))
      ensures username == old(username)
    {
      grpc := Some(Socket(sockets, false, false));
      sockets := sockets + 1;
    }

    method Reset()
      modifies this
      ensures State() == ResetState(old(State())) && peers == map[]
      ensures username == old(username)
    {
      isConnected, isConnecting, clientId, peers, grpc := false, false, "", map[], None;
    }

    method End(reason: string)
      modifies this
      ensures State() == EndSession(old(State()), reason)
      ensures username == old(username)
    {
      explicitDisconnect, isConnecting := true, false;
      log := log + [Over(reason)];
    }

    method Schedule()
      modifies this
      ensures State() == ScheduleReconnect(cfg, old(State()))
      ensures username == old(username)
    {
      if retryCount >= cfg.maxRetries {
        End(RECONNECT_FAILED);
        return;
      }
      retryCount := retryCount + 1;
      isConnecting := true;
      log := log + [Reconnecting(retryCount)];
      retryTimer := true;
      timers := timers + 1;
      log := log + [TimerSet(Delay(cfg, retryCount))];
    }

    method Drop()
      modifies this
      ensures State() == DropAndReconnect(cfg, old(State())) && peers == map[]
      ensures username == old(username)
    {
      var wasConnected := isConnected;
      Reset();
      if wasConnected {
        log := log + [Disconnected];
      }
      Schedule();
    }

    method CloseSocketFromRelay()
      modifies this
      ensures State() == CloseFromRelay(old(State())) && peers == map[]
      ensures username == old(username)
    {
      var wasConnected := isConnected;
      explicitDisconnect := true;
      Reset();
      if wasConnected {
        log := log + [Disconnected];
      }
    }

    /** The setTimeout callback: on to rejoinIfRoomExists. */
    method TimerFired()
      requires Enabled(State(), TimerFires)
      modifies this
      ensures State() == Apply(cfg, old(State()), TimerFires)
      ensures username == old(username)
    {
      retryTimer := false;
      timers, checks := timers - 1, checks + 1;
    }

    /** The rest of rejoinIfRoomExists, once fetch has answered or failed (status 0). */
    method RoomStatus(status: int)
      requires Enabled(State(), CheckDone(status))
      modifies this
      ensures State() == Apply(cfg, old(State()), CheckDone(status))
      ensures username == old(username)
    {
      checks := checks - 1;
      if explicitDisconnect {
        return;
      }
      if status == 404 {
        End(SESSION_GONE);
      } else if status == 200 {
        OpenSocketWithToken();
      } else {
        Schedule();
      }
    }

    method TokenFetched()
      requires Enabled(State(), TokenDone)
      modifies this
      ensures State() == Apply(cfg, old(State()), TokenDone)
      ensures username == old(username)
    {
      tokens := tokens - 1;
      if !explicitDisconnect {
        OpenSocket();
      }
    }

    method TokenRefused()
      requires Enabled(State(), TokenFails)
      modifies this
      ensures State() == Apply(cfg, old(State()), TokenFails)
      ensures username == old(username)
    {
      tokens := tokens - 1;
      log := log + [Failure];
      if explicitDisconnect {
        return;
      }
      if hasJoined {
        Schedule();
      } else {
        isConnecting := false;
      }
    }

    method SocketOpened()
      requires Enabled(State(), SocketOpens)
      modifies this
      ensures State() == Apply(cfg, old(State()), SocketOpens)
      ensures username == old(username)
    {
      grpc := Some(grpc.value.(open := true));
      log := log + [JoinSent(sessionId, hasJoined)];
    }

    /** onClose of the socket with this number; only the current one counts. */
    method SocketClosed(number: nat)
      requires Enabled(State(), SocketCloses(number))
      modifies this
      ensures State() == Apply(cfg, old(State()), SocketCloses(number))
      ensures username == old(username)
    {
      if grpc.None? || grpc.value.number != number {
        return;
      }
      var wasConnected := isConnected;
      Reset();
      if wasConnected {
        log := log + [Disconnected];
      }
      if !explicitDisconnect && hasJoined && cfg.reconnect {
        Schedule();
      }
    }

    method AddPeer(peer: PeerInfo)
      modifies this`peers
      ensures peers == WithPeer(old(peers), peer)
    {
      if peer.clientId != "" {
        peers := peers[peer.clientId := peer];
      }
    }

    /** The peers after a RoomJoined: this client, then everyone it lists. */
    method FillPeers(listed: map<ClientId, PeerInfo>)
      modifies this`peers
      ensures Filled(clientId, username, listed, peers)
    {
      peers := map[];
      AddPeer(Own(clientId, username));
      var todo := listed.Keys;
      assert listed - todo == map[];
      while todo != {}
        invariant todo <= listed.Keys
        invariant Filled(clientId, username, listed - todo, peers)
      {
        var k :| k in todo;
        FilledOne(clientId, username, listed, todo, k, peers);
        todo := todo - {k};
        AddPeer(listed[k]);
      }
      assert listed - {} == listed;
    }

    /** onMessage of the current socket. */
    method HandleMessage(e: Event)
      requires Enabled(State(), Receives(e))
      modifies this
      ensures State() == Apply(cfg, old(State()), Receives(e))
      ensures HoldsPeers(old(peers), old(isConnected), username, e, peers)
      ensures username == old(username)
    {
      grpc := Some(grpc.value.(welcomed := grpc.value.welcomed || e.body.RoomJoined?));
      HandleIncoming(e);
    }

    /** handleEvent. */
    method HandleIncoming(e: Event)
      modifies this
      ensures State() == HandleEvent(cfg, old(State()), e)
      ensures HoldsPeers(old(peers), old(isConnected), username, e, peers)
      ensures username == old(username)
    {
      Note(Seen(e));
      match e.body {
        case RoomJoined(_, _, _, _) => HandleRoomJoined(e);
        case Error(code, _) => HandleRefusal(code);
        case SessionEnded(reason) => HandleSessionEnded(reason);
        case _ => HandlePeer(e);
      }
    }

    method Note(e: Entry)
      modifies this`log
      ensures State() == Log(old(State()), e)
    {
      log := log + [e];
    }

    method HandleRoomJoined(e: Event)
      requires e.body.RoomJoined?
      modifies this
      ensures State() == HandleJoined(old(State()), e) && Filled(e.body.self, username, e.body.peers, peers)
      ensures username == old(username)
    {
      EnteredIs(State(), e);
      Enter(e.body.self, e.body.sessionId);
      FillPeers(e.body.peers);
    }

    /** The fields that RoomJoined sets, then onConnect. */
    method Enter(self: ClientId, room: SessionId)
      modifies this`clientId, this`sessionId, this`isConnected, this`isConnecting, this`hasJoined, this`retryCount, this`log
      ensures State() == Entered(old(State()), self, room) && clientId == self
    {
      clientId := self;
      if room != "" {
        sessionId := room;
      }
      isConnected, isConnecting, hasJoined, retryCount := true, false, true, 0;
      Note(Connected(clientId, sessionId));
    }

    method HandleSessionEnded(reason: string)
      modifies this
      ensures State() == HandleEnded(cfg, old(State()), reason) && peers == map[]
      ensures username == old(username)
    {
      if Reconnectable(cfg, reason) {
        Drop();
      } else {
        CloseSocketFromRelay();
        log := log + [Over(reason)];
      }
    }

    method HandlePeer(e: Event)
      requires !e.body.RoomJoined? && !e.body.SessionEnded?
      modifies this`peers
      ensures State() == old(State()).(roster := Rosters.Handle(old(State()).roster, e))
      ensures peers == PeersAfter(old(peers), e)
    {
      AfterKeys(peers, e);
      ChangePeers(e);
    }

    method ChangePeers(e: Event)
      modifies this`peers
      ensures peers == PeersAfter(old(peers), e)
    {
      match e.body {
        case PeerJoined(peer) => AddPeer(peer);
        case PeerLeft(id, _, _) => peers := peers - {id};
        case OwnerChanged(owner) => peers := map id | id in peers :: peers[id].(isOwner := id == owner);
        case _ =>
      }
    }

    method HandleRefusal(code: string)
      modifies this
      ensures State() == HandleError(old(State()), code)
      ensures peers == if old(isConnected) then old(peers) else map[]
      ensures username == old(username)
    {
      log := log + [Refusal(code)];
      if !isConnected {
        CloseSocketFromRelay();
        if code == ROOM_NOT_FOUND && hasJoined {
          log := log + [Over(SESSION_GONE)];
        }
      }
    }
  }
}
