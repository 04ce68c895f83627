/**
 Clients and the relay together: sockets carry joins to the relay and its answers back, the
 relay handles one call at a time and may restart with empty hands at any moment.
 */
module ClientRelay {
  import opened Options
  import opened Protocol
  import opened Rooms
  import Identity
  import RoomLaws
  import C = Reconnect
  import CL = ReconnectLaws

  datatype Node = Node(cfg: C.Config, state: C.ClientState)

  /** A join on its way to the relay, and a RoomJoined on its way back, by client and socket. */
  datatype Flight = Flight(client: nat, socket: nat, sessionId: SessionId, mustExist: bool)
  datatype Answer = Answer(client: nat, socket: nat, event: Event)

  datatype World = World(service: Service, nodes: map<nat, Node>, asked: set<Flight>, answers: set<Answer>)

  datatype Move =
    | ClientMoves(client: nat, step: C.Step)
    | RelayJoins(flight: Flight, principal: Option<Identity.Principal>, request: JoinRequest,
                 newSession: SessionId, newClient: ClientId)
    | RelayMoves(call: Step)
    | Restart

  /** A client hears a RoomJoined only when the relay answered the join of that socket. */
  predicate CanHear(w: World, k: nat, step: C.Step)
    requires k in w.nodes
  {
    step.Receives? && step.event.body.RoomJoined? ==>
      var socket := w.nodes[k].state.socket;
      socket.Some? && Answer(k, socket.value.number, step.event) in w.answers
  }

  ghost predicate Possible(w: World, m: Move) {
    match m
    case ClientMoves(k, step) => k in w.nodes && C.Enabled(w.nodes[k].state, step) && CanHear(w, k, step)
    case RelayJoins(f, p, j, newSession, newClient) =>
      && f in w.asked && j.sessionId == f.sessionId && j.mustExist == f.mustExist
      && Allowed(w.service, Join(p, j, newSession, newClient))
    case RelayMoves(step) => !step.Join? && Allowed(w.service, step)
    case Restart => true
  }

  /** The join that goes out when a socket opens. */
  function Sent(k: nat, s: C.ClientState, step: C.Step): set<Flight> {
    if step.SocketOpens? && s.socket.Some? then {Flight(k, s.socket.value.number, s.sessionId, s.hasJoined)} else {}
  }

  function Moved(n: Node, step: C.Step): Node
    requires C.Enabled(n.state, step)
  {
    n.(state := C.Apply(n.cfg, n.state, step))
  }

  function Replies(f: Flight, o: Outcome): set<Answer> {
    if o.Joined? then {Answer(f.client, f.socket, o.welcome)} else {}
  }

  function After(w: World, m: Move): World
    requires Possible(w, m)
  {
    match m
    case ClientMoves(k, step) =>
      w.(nodes := w.nodes[k := Moved(w.nodes[k], step)], asked := w.asked + Sent(k, w.nodes[k].state, step))
    case RelayJoins(f, p, j, newSession, newClient) =>
      var (service, outcome) := HandleJoin(w.service, p, j, newSession, newClient);
      w.(service := service, asked := w.asked - {f}, answers := w.answers + Replies(f, outcome))
    case RelayMoves(step) => w.(service := Next(w.service, step))
    case Restart => w.(service := NewService(w.service.maxPeers))
  }

  ghost function Play(w: World, moves: seq<Move>): Option<World>
    decreases |moves|
  {
    if moves == [] then Some(w)
    else if Possible(w, moves[0]) then Play(After(w, moves[0]), moves[1..])
    else None
  }

  predicate IsStart(w: World) {
    (forall k :: k in w.nodes ==> C.IsNew(w.nodes[k].state)) && w.asked == {} && w.answers == {}
  }

  // ---------- a client's session ----------

  /** The socket is in use and its join not yet answered. */
  predicate Pending(s: C.ClientState, socket: nat) {
    s.socket.Some? && s.socket.value.number == socket && !s.socket.value.welcomed
  }

  predicate FlightOk(f: Flight, s: C.ClientState) {
    f.socket < s.sockets && (Pending(s, f.socket) ==> f.sessionId == s.sessionId && f.mustExist == s.hasJoined)
  }

  predicate AnswerOk(a: Answer, s: C.ClientState) {
    && a.socket < s.sockets && a.event.body.RoomJoined? && a.event.body.sessionId != ""
    && (Pending(s, a.socket) && s.hasJoined ==> a.event.body.sessionId == s.sessionId)
  }

  /** Every onConnect since a connect() was in the same session. */
  predicate Steady(log: seq<C.Entry>) {
    |log| > 0 ==>
      var before, last := log[..|log| - 1], log[|log| - 1];
      Steady(before) && (last.Connected? && C.ReadLog(before).joined.Some? ==> C.ReadLog(before).joined.value == last.room)
  }

  predicate NodeOk(n: Node) {
    C.Inv(n.cfg, n.state) && Steady(n.state.log) && (n.state.hasJoined ==> n.state.sessionId != "")
  }

  predicate NodesOk(nodes: map<nat, Node>) {
    forall k :: k in nodes ==> NodeOk(nodes[k])
  }

  predicate FlightsOk(asked: set<Flight>, nodes: map<nat, Node>) {
    forall f :: f in asked ==> f.client in nodes && FlightOk(f, nodes[f.client].state)
  }

  predicate AnswersOk(answers: set<Answer>, nodes: map<nat, Node>) {
    forall a :: a in answers ==> a.client in nodes && AnswerOk(a, nodes[a.client].state)
  }

  predicate WorldInv(w: World) {
    && NodesOk(w.nodes)
    && FlightsOk(w.asked, w.nodes)
    && AnswersOk(w.answers, w.nodes)
  }

  // ---------- one client's step ----------

  /** `more` continues `log` without an onConnect. */
  predicate Grown(log: seq<C.Entry>, more: seq<C.Entry>) {
    log <= more && forall i :: |log| <= i < |more| ==> !more[i].Connected?
  }

  lemma {:induction false} SteadyGrown(log: seq<C.Entry>, more: seq<C.Entry>)
    requires Steady(log) && Grown(log, more)
    ensures Steady(more)
    decreases |more|
  {
    if |log| == |more| {
      assert log == more;
    } else {
      SteadyGrown(log, more[..|more| - 1]);
    }
  }

  lemma GrownOne(log: seq<C.Entry>, more: seq<C.Entry>, e: C.Entry)
    requires Grown(log, more) && !e.Connected?
    ensures Grown(log, more + [e])
  {
  }

  lemma ClosedGrows(log: seq<C.Entry>, s: C.ClientState)
    requires Grown(log, s.log)
    ensures Grown(log, C.Closed(s).log)
  {
    GrownOne(log, s.log, C.Disconnected);
  }

  lemma ScheduleGrows(log: seq<C.Entry>, cfg: C.Config, s: C.ClientState)
    requires Grown(log, s.log)
    ensures Grown(log, C.ScheduleReconnect(cfg, s).log)
  {
    if s.retryCount >= cfg.maxRetries {
      GrownOne(log, s.log, C.Over(C.RECONNECT_FAILED));
    } else {
      var told := C.Reconnecting(s.retryCount + 1);
      GrownOne(log, s.log, told);
      GrownOne(log, s.log + [told], C.TimerSet(C.Delay(cfg, s.retryCount + 1)));
    }
  }

  lemma ErrorGrows(log: seq<C.Entry>, s: C.ClientState, code: string)
    requires Grown(log, s.log)
    ensures Grown(log, C.HandleError(s, code).log)
  {
    var told := C.Log(s, C.Refusal(code));
    GrownOne(log, s.log, C.Refusal(code));
    ClosedGrows(log, told.(explicitDisconnect := true));
    GrownOne(log, C.CloseFromRelay(told).log, C.Over(C.SESSION_GONE));
  }

  lemma EndedGrows(log: seq<C.Entry>, cfg: C.Config, s: C.ClientState, reason: string)
    requires Grown(log, s.log)
    ensures Grown(log, C.HandleEnded(cfg, s, reason).log)
  {
    ClosedGrows(log, s);
    ScheduleGrows(log, cfg, C.Closed(s));
    ClosedGrows(log, s.(explicitDisconnect := true));
    GrownOne(log, C.CloseFromRelay(s).log, C.Over(reason));
  }

  lemma IncomingGrows(cfg: C.Config, s: C.ClientState, e: Event)
    requires !e.body.RoomJoined?
    ensures Grown(s.log, C.HandleEvent(cfg, s, e).log)
  {
    var seen := C.Log(s, C.Seen(e));
    GrownOne(s.log, s.log, C.Seen(e));
    match e.body
    case Error(code, _) => ErrorGrows(s.log, seen, code);
    case SessionEnded(reason) => EndedGrows(s.log, cfg, seen, reason);
    case _ =>
  }

  lemma DisconnectGrows(s: C.ClientState)
    ensures Grown(s.log, C.Disconnect(s).log)
  {
    GrownOne(s.log, s.log, C.LeaveSent);
    GrownOne(s.log, s.log + [C.LeaveSent], C.Disconnected);
    GrownOne(s.log, s.log, C.Disconnected);
  }

  lemma CheckGrows(cfg: C.Config, s: C.ClientState, status: int)
    ensures Grown(s.log, C.RoomChecked(cfg, s, status).log)
  {
    ScheduleGrows(s.log, cfg, s);
    GrownOne(s.log, s.log, C.Over(C.SESSION_GONE));
  }

  lemma TokenGrows(cfg: C.Config, s: C.ClientState)
    ensures Grown(s.log, C.TokenFailed(cfg, s).log)
  {
    GrownOne(s.log, s.log, C.Failure);
    ScheduleGrows(s.log, cfg, C.Log(s, C.Failure));
  }

  lemma SocketGrows(cfg: C.Config, s: C.ClientState)
    ensures Grown(s.log, C.HandleConnectionClosed(cfg, s).log)
  {
    ClosedGrows(s.log, s);
    ScheduleGrows(s.log, cfg, C.Closed(s));
  }

  lemma StepGrows(cfg: C.Config, s: C.ClientState, step: C.Step)
    requires C.Enabled(s, step) && !(step.Receives? && step.event.body.RoomJoined?)
    ensures Grown(s.log, C.Apply(cfg, s, step).log)
  {
    match step
    case AppConnects(_) => GrownOne(s.log, s.log, C.Called);
    case AppDisconnects => DisconnectGrows(s);
    case TimerFires =>
    case CheckDone(status) => CheckGrows(cfg, s.(checks := s.checks - 1), status);
    case TokenDone =>
    case TokenFails => TokenGrows(cfg, s.(tokens := s.tokens - 1));
    case SocketOpens => GrownOne(s.log, s.log, C.JoinSent(s.sessionId, s.hasJoined));
    case Receives(e) =>
      C.SameSocket(cfg, s, e);
      IncomingGrows(cfg, s, e);
    case SocketCloses(_) => SocketGrows(cfg, s);
  }

  lemma JoinedStep(cfg: C.Config, s: C.ClientState, e: Event)
    requires NodeOk(Node(cfg, s)) && C.Enabled(s, C.Receives(e)) && e.body.RoomJoined? && e.body.sessionId != ""
    requires s.hasJoined ==> e.body.sessionId == s.sessionId
    ensures var t := C.Apply(cfg, s, C.Receives(e));
            Steady(t.log) && t.hasJoined && t.sessionId == e.body.sessionId && t.socket.Some? && t.socket.value.welcomed
            && t.sockets == s.sockets && t.socket.value.number == s.socket.value.number
  {
    var seen, last := s.log + [C.Seen(e)], C.Connected(e.body.self, e.body.sessionId);
    SteadyGrown(s.log, seen);
    C.ReadSnoc(s.log, C.Seen(e));
    var t := C.Apply(cfg, s, C.Receives(e));
    assert t.log == seen + [last];
    assert t.log[..|seen|] == seen;
  }

  /** The session is the same, and a join that is pending was pending before. */
  predicate SameSession(s: C.ClientState, t: C.ClientState) {
    && s.sockets <= t.sockets && t.sessionId == s.sessionId && t.hasJoined == s.hasJoined
    && forall n: nat :: n < s.sockets && Pending(t, n) ==> Pending(s, n)
  }

  lemma ScheduleStays(cfg: C.Config, s: C.ClientState, t: C.ClientState)
    requires t.sockets == s.sockets && t.sessionId == s.sessionId && t.hasJoined == s.hasJoined && t.socket.None?
    ensures SameSession(s, C.ScheduleReconnect(cfg, t))
  {
  }

  lemma ErrorStays(s: C.ClientState, code: string)
    ensures SameSession(s, C.HandleError(s, code))
  {
  }

  lemma EndedStays(cfg: C.Config, s: C.ClientState, reason: string)
    ensures SameSession(s, C.HandleEnded(cfg, s, reason))
  {
    ScheduleStays(cfg, s, C.Closed(s));
  }

  lemma IncomingStays(cfg: C.Config, s: C.ClientState, e: Event)
    requires !e.body.RoomJoined?
    ensures SameSession(s, C.HandleEvent(cfg, s, e))
  {
    var seen := C.Log(s, C.Seen(e));
    match e.body
    case Error(code, _) => ErrorStays(seen, code);
    case SessionEnded(reason) => EndedStays(cfg, seen, reason);
    case _ =>
  }

  /** No other step of a client changes its session, but a connect() that does not throw. */
  lemma OtherStep(cfg: C.Config, s: C.ClientState, step: C.Step)
    requires C.Inv(cfg, s) && C.Enabled(s, step) && !(step.Receives? && step.event.body.RoomJoined?) && !step.AppConnects?
    ensures SameSession(s, C.Apply(cfg, s, step))
  {
    match step
    case AppDisconnects =>
    case TimerFires =>
    case CheckDone(_) => ScheduleStays(cfg, s, s.(checks := s.checks - 1));
    case TokenDone =>
    case TokenFails => ScheduleStays(cfg, s, C.Log(s.(tokens := s.tokens - 1), C.Failure));
    case SocketOpens =>
    case Receives(e) =>
      C.SameSocket(cfg, s, e);
      IncomingStays(cfg, s, e);
    case SocketCloses(_) => ScheduleStays(cfg, s, C.Closed(s));
  }

  lemma ConnectStep(cfg: C.Config, s: C.ClientState, sid: SessionId)
    requires C.Inv(cfg, s) && C.Enabled(s, C.AppConnects(sid))
    ensures var t := C.Connect(cfg, s, sid);
            s.sockets <= t.sockets && (s.isConnected ==> t == s) && (!s.isConnected ==> !t.hasJoined)
            && forall n: nat :: n < s.sockets ==> !Pending(t, n)
  {
  }

  lemma NodeStep(w: World, k: nat, step: C.Step)
    requires WorldInv(w) && Possible(w, ClientMoves(k, step))
    ensures var s, n := w.nodes[k].state, Moved(w.nodes[k], step);
            && NodeOk(n)
            && (step.AppConnects? || !s.hasJoined || (n.state.hasJoined && n.state.sessionId == s.sessionId))
            && (forall f :: FlightOk(f, s) ==> FlightOk(f, n.state))
            && (forall a :: AnswerOk(a, s) ==> AnswerOk(a, n.state))
            && (forall f :: f in Sent(k, s, step) ==> f.client == k && FlightOk(f, n.state))
  {
    var cfg, s := w.nodes[k].cfg, w.nodes[k].state;
    assert NodeOk(w.nodes[k]);
    C.StepKeeps(cfg, s, step);
    if step.Receives? && step.event.body.RoomJoined? {
      var a := Answer(k, s.socket.value.number, step.event);
      assert a in w.answers && AnswerOk(a, s);
      JoinedStep(cfg, s, step.event);
    } else {
      StepGrows(cfg, s, step);
      SteadyGrown(s.log, C.Apply(cfg, s, step).log);
      if step.AppConnects? {
        ConnectStep(cfg, s, step.sessionId);
      } else {
        OtherStep(cfg, s, step);
      }
    }
  }

  // ---------- the invariant over runs ----------

  /** Only one client changed, and it still goes with what it sent and what it is sent. */
  lemma MailKeeps(asked: set<Flight>, answers: set<Answer>, nodes: map<nat, Node>, k: nat, n: Node)
    requires FlightsOk(asked, nodes) && AnswersOk(answers, nodes) && k in nodes
    requires forall f :: FlightOk(f, nodes[k].state) ==> FlightOk(f, n.state)
    requires forall a :: AnswerOk(a, nodes[k].state) ==> AnswerOk(a, n.state)
    ensures FlightsOk(asked, nodes[k := n]) && AnswersOk(answers, nodes[k := n])
  {
  }

  lemma NodesKeep(nodes: map<nat, Node>, k: nat, n: Node)
    requires NodesOk(nodes) && NodeOk(n)
    ensures NodesOk(nodes[k := n])
  {
  }

  lemma SentOk(asked: set<Flight>, sent: set<Flight>, nodes: map<nat, Node>, k: nat)
    requires FlightsOk(asked, nodes) && k in nodes
    requires forall f :: f in sent ==> f.client == k && FlightOk(f, nodes[k].state)
    ensures FlightsOk(asked + sent, nodes)
  {
  }

  lemma ClientMoveKeeps(w: World, k: nat, step: C.Step)
    requires WorldInv(w) && Possible(w, ClientMoves(k, step))
    ensures WorldInv(After(w, ClientMoves(k, step)))
  {
    NodeStep(w, k, step);
    var n := Moved(w.nodes[k], step);
    MailKeeps(w.asked, w.answers, w.nodes, k, n);
    SentOk(w.asked, Sent(k, w.nodes[k].state, step), w.nodes[k := n], k);
    NodesKeep(w.nodes, k, n);
  }

  /** What a client is answered names the session it asked for, if it asked for one. */
  lemma AnsweredSession(st: Service, p: Option<Identity.Principal>, j: JoinRequest, newSession: SessionId, id: ClientId)
    requires newSession != "" && HandleJoin(st, p, j, newSession, id).1.Joined?
    ensures var e := HandleJoin(st, p, j, newSession, id).1.welcome;
            e.body.RoomJoined? && e.body.sessionId != "" && (j.sessionId != "" ==> e.body.sessionId == j.sessionId)
  {
  }

  lemma RelayJoinKeeps(w: World, m: Move)
    requires WorldInv(w) && m.RelayJoins? && Possible(w, m)
    ensures WorldInv(After(w, m))
  {
    if HandleJoin(w.service, m.principal, m.request, m.newSession, m.newClient).1.Joined? {
      AnsweredSession(w.service, m.principal, m.request, m.newSession, m.newClient);
    }
  }

  lemma MoveKeeps(w: World, m: Move)
    requires WorldInv(w) && Possible(w, m)
    ensures WorldInv(After(w, m))
  {
    match m
    case ClientMoves(k, step) => ClientMoveKeeps(w, k, step);
    case RelayJoins(_, _, _, _, _) => RelayJoinKeeps(w, m);
    case RelayMoves(_) =>
    case Restart =>
  }

  lemma {:induction false} PlayKeeps(w: World, moves: seq<Move>)
    requires WorldInv(w) && Play(w, moves).Some?
    ensures WorldInv(Play(w, moves).value)
    decreases |moves|
  {
    if moves != [] {
      MoveKeeps(w, moves[0]);
      PlayKeeps(After(w, moves[0]), moves[1..]);
    }
  }

  lemma StartInv(w: World)
    requires IsStart(w)
    ensures WorldInv(w)
  {
  }

  // ---------- rejoins stay in their session ----------

  lemma {:induction false} SteadyPrefix(log: seq<C.Entry>, j: nat)
    requires Steady(log) && j <= |log|
    ensures Steady(log[..j])
    decreases |log|
  {
    if j < |log| {
      SteadyPrefix(log[..|log| - 1], j);
      assert log[..|log| - 1][..j] == log[..j];
    } else {
      assert log[..j] == log;
    }
  }

  lemma {:induction false} SteadyJoined(log: seq<C.Entry>, i: nat)
    requires Steady(log) && i < |log| && log[i].Connected? && !CL.CalledBetween(log, i, |log|)
    ensures C.ReadLog(log).joined == Some(log[i].room)
    decreases |log|
  {
    var n := |log| - 1;
    if i < n {
      assert !CL.CalledBetween(log[..n], i, n) by {
        assert forall k :: 0 <= k < n ==> log[..n][k] == log[k];
      }
      SteadyJoined(log[..n], i);
      assert !log[n].Called?;
    }
  }

  /** Every join a client sends after its first RoomJoined, until the app's next connect(),
      names the session of that RoomJoined and asks that the room exist. */
  lemma RejoinsNameTheirSession(start: World, moves: seq<Move>, k: nat, i: nat, j: nat)
    requires IsStart(start) && Play(start, moves).Some? && k in Play(start, moves).value.nodes
    requires var log := Play(start, moves).value.nodes[k].state.log;
             i < j < |log| && log[i].Connected? && log[j].JoinSent? && !CL.CalledBetween(log, i, j)
    ensures var log := Play(start, moves).value.nodes[k].state.log;
            log[j] == C.JoinSent(log[i].room, true)
  {
    StartInv(start);
    PlayKeeps(start, moves);
    var n := Play(start, moves).value.nodes[k];
    assert NodeOk(n);
    RejoinInLog(n.state.log, i, j);
  }

  lemma RejoinInLog(log: seq<C.Entry>, i: nat, j: nat)
    requires Steady(log) && C.ReadLog(log).ok
    requires i < j < |log| && log[i].Connected? && log[j].JoinSent? && !CL.CalledBetween(log, i, j)
    ensures log[j] == C.JoinSent(log[i].room, true)
  {
    SteadyPrefix(log, j);
    assert !CL.CalledBetween(log[..j], i, j) by {
      assert forall k :: 0 <= k < j ==> log[..j][k] == log[k];
    }
    SteadyJoined(log[..j], i);
    CL.ReadAt(log, j);
  }

  // ---------- a removed session stays removed ----------

  /** The only move that adds a session to the table is a join whose client has not been in a
      room since its connect(). */
  lemma OnlyFirstJoinsOpen(w: World, m: Move, sid: SessionId)
    requires Possible(w, m)
    ensures sid !in w.service.rooms && sid in After(w, m).service.rooms ==> m.RelayJoins? && !m.flight.mustExist
  {
    match m
    case ClientMoves(_, _) =>
    case RelayJoins(f, p, j, newSession, newClient) =>
      if f.mustExist {
        RoomLaws.MustExistOpensNothing(w.service, p, j, newSession, newClient);
      }
    case RelayMoves(step) => OthersOpenNothing(w.service, step);
    case Restart =>
  }

  lemma OthersOpenNothing(st: Service, s: Step)
    requires Allowed(st, s) && !s.Join?
    ensures Next(st, s).rooms.Keys <= st.rooms.Keys
  {
  }

  /** A join that can open this session: a first one, for it or for whatever session comes. */
  predicate MayOpen(sid: SessionId, sessionId: SessionId, mustExist: bool) {
    !mustExist && (sessionId == sid || sessionId == "")
  }

  /** The client will send no such join unless the app calls connect() again. */
  predicate Harmless(s: C.ClientState, sid: SessionId) {
    !MayOpen(sid, s.sessionId, s.hasJoined) || s.Live() == 0
  }

  /** The session is not in the table, and nobody is on a first visit to it. */
  predicate Deserted(w: World, sid: SessionId) {
    && sid !in w.service.rooms
    && (forall k :: k in w.nodes ==> Harmless(w.nodes[k].state, sid))
    && (forall f :: f in w.asked ==> !MayOpen(sid, f.sessionId, f.mustExist))
  }

  predicate VisitsElsewhere(m: Move, sid: SessionId) {
    m.ClientMoves? && m.step.AppConnects? ==> m.step.sessionId != sid && m.step.sessionId != ""
  }

  predicate NoNewVisit(moves: seq<Move>, sid: SessionId) {
    forall i :: 0 <= i < |moves| ==> VisitsElsewhere(moves[i], sid)
  }

  /** A client with nothing under way stays idle until the next connect(). */
  lemma IdleStays(cfg: C.Config, s: C.ClientState, step: C.Step)
    requires C.Inv(cfg, s) && C.Enabled(s, step) && s.Live() == 0 && !step.AppConnects?
    ensures C.Apply(cfg, s, step).Live() == 0
  {
  }

  lemma StaysHarmless(w: World, k: nat, step: C.Step, sid: SessionId)
    requires WorldInv(w) && Possible(w, ClientMoves(k, step)) && Harmless(w.nodes[k].state, sid)
    requires step.AppConnects? ==> step.sessionId != sid && step.sessionId != ""
    ensures Harmless(Moved(w.nodes[k], step).state, sid)
    ensures forall f :: f in Sent(k, w.nodes[k].state, step) ==> !MayOpen(sid, f.sessionId, f.mustExist)
  {
    var cfg, s := w.nodes[k].cfg, w.nodes[k].state;
    NodeStep(w, k, step);
    assert NodeOk(w.nodes[k]);
    if !step.AppConnects? {
      if s.Live() == 0 {
        IdleStays(cfg, s, step);
      } else if !(step.Receives? && step.event.body.RoomJoined?) {
        OtherStep(cfg, s, step);
      }
    }
  }

  /** A join for another session leaves this one out of the table. */
  lemma JoinsElsewhere(st: Service, p: Option<Identity.Principal>, j: JoinRequest, newSession: SessionId, id: ClientId, sid: SessionId)
    requires sid !in st.rooms && !MayOpen(sid, j.sessionId, j.mustExist)
    ensures sid !in HandleJoin(st, p, j, newSession, id).0.rooms
  {
    if j.mustExist {
      RoomLaws.MustExistOpensNothing(st, p, j, newSession, id);
    } else {
      var into := Resolve(st, j, newSession);
      RoomLaws.EnterKeepsKeys(GetOrCreateRoom(IndexHint(st, j.hint, into), into), into, p, j, id);
    }
  }

  lemma StaysDeserted(w: World, m: Move, sid: SessionId)
    requires WorldInv(w) && Deserted(w, sid) && Possible(w, m) && VisitsElsewhere(m, sid)
    ensures Deserted(After(w, m), sid)
  {
    match m
    case ClientMoves(k, step) => StaysHarmless(w, k, step, sid);
    case RelayJoins(f, p, j, newSession, newClient) => JoinsElsewhere(w.service, p, j, newSession, newClient, sid);
    case RelayMoves(step) => OthersOpenNothing(w.service, step);
    case Restart =>
  }

  /** However rejoins, first visits to other sessions, leaves, evictions and relay restarts
      interleave, a session that is gone does not come back into the table until somebody
      connects to it anew, or without naming a session. */
  lemma RemovedSessionsStayRemoved(start: World, before: seq<Move>, moves: seq<Move>, sid: SessionId)
    requires IsStart(start) && Play(start, before).Some?
    requires Deserted(Play(start, before).value, sid) && NoNewVisit(moves, sid) && Play(Play(start, before).value, moves).Some?
    ensures sid !in Play(Play(start, before).value, moves).value.service.rooms
  {
    StartInv(start);
    PlayKeeps(start, before);
    PlayDeserted(Play(start, before).value, moves, sid);
  }

  lemma {:induction false} PlayDeserted(w: World, moves: seq<Move>, sid: SessionId)
    requires WorldInv(w) && Deserted(w, sid) && NoNewVisit(moves, sid) && Play(w, moves).Some?
    ensures Deserted(Play(w, moves).value, sid)
    decreases |moves|
  {
    if moves != [] {
      MoveKeeps(w, moves[0]);
      StaysDeserted(w, moves[0], sid);
      PlayDeserted(After(w, moves[0]), moves[1..], sid);
    }
  }
}
