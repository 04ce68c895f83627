/**
 The browser client's connection: connect, join, drop, retry, give up. Timers, room checks,
 token fetches and sockets finish in steps of their own; what the code does in each is a
 function of the state, and the callbacks it makes are appended to a log.
 */
module Reconnect {
  import opened Options
  import opened Protocol
  import Rosters

  datatype Config = Config(hasGetToken: bool, reconnect: bool, maxRetries: int, retryDelayMs: nat)

  /** What the client does that can be seen from outside, in order. */
  datatype Entry =
    | Called                                          // the app called connect()
    | Seen(event: Event)                              // onEvent
    | Connected(clientId: ClientId, room: SessionId)  // onConnect, and the session it is in
    | Disconnected                                    // onDisconnect
    | Reconnecting(attempt: nat)                      // onReconnecting
    | Over(reason: string)                            // onSessionEnded
    | Refusal(code: string)                           // onErrorEvent
    | Failure                                         // onError
    | TimerSet(ms: nat)                               // setTimeout
    | JoinSent(sessionId: SessionId, mustExist: bool)
    | LeaveSent

  /** `this.grpc`: which socket it is, whether it is open, whether RoomJoined came on it. */
  datatype Socket = Socket(number: nat, open: bool, welcomed: bool)

  datatype ClientState = ClientState(
    socket: Option<Socket>,
    clientId: ClientId,
    sessionId: SessionId,
    isConnected: bool,
    isConnecting: bool,
    explicitDisconnect: bool,
    hasJoined: bool,
    retryCount: nat,
    retryTimer: bool,               // the field holds a timer
    roster: set<ClientId>,          // the keys of `peers`
    timers: nat, checks: nat, tokens: nat,  // timers, room checks and getToken calls outstanding
    sockets: nat,                   // sockets opened so far
    log: seq<Entry>)
  {
    function Socketed(): nat {
      if socket.Some? then 1 else 0
    }

    /** Everything of this client's that is under way. */
    function Live(): nat {
      timers + checks + tokens + Socketed()
    }
  }

  /** A client just constructed. */
  predicate IsNew(s: ClientState) {
    && s.Live() == 0 && s.sockets == 0 && !s.retryTimer
    && !s.isConnected && !s.isConnecting && !s.explicitDisconnect && !s.hasJoined && s.retryCount == 0
    && s.clientId == "" && s.sessionId == "" && s.roster == {} && |s.log| == 0
  }

  const SESSION_GONE := "session_gone"
  const RECONNECT_FAILED := "reconnect_failed"
  const ROOM_NOT_FOUND := "ROOM_NOT_FOUND"
  const MAX_DELAY_MS: nat := 30000

  // ---------- the client's methods ----------

  function Pow2(n: nat): (r: nat)
    ensures r > 0
  {
    if n == 0 then 1 else 2 * Pow2(n - 1)
  }

  function Delay(cfg: Config, attempt: nat): (ms: nat)
    requires attempt > 0
    ensures ms <= MAX_DELAY_MS
  {
    var wait := cfg.retryDelayMs * Pow2(attempt - 1);
    if wait <= MAX_DELAY_MS then wait else MAX_DELAY_MS
  }

  function Log(s: ClientState, e: Entry): ClientState {
    s.(log := s.log + [e])
  }

  function LogIf(s: ClientState, b: bool, e: Entry): ClientState {
    if b then Log(s, e) else s
  }

  function ResetState(s: ClientState): ClientState {
    s.(isConnected := false, isConnecting := false, clientId := "", roster := {}, socket := None)
  }

  function EndSession(s: ClientState, reason: string): ClientState {
    Log(s.(explicitDisconnect := true, isConnecting := false), Over(reason))
  }

  function Retry(s: ClientState, ms: nat): ClientState {
    var attempt := s.retryCount + 1;
    var told := Log(s.(retryCount := attempt, isConnecting := true), Reconnecting(attempt));
    Log(told.(retryTimer := true, timers := s.timers + 1), TimerSet(ms))
  }

  function ScheduleReconnect(cfg: Config, s: ClientState): ClientState {
    if s.retryCount >= cfg.maxRetries then EndSession(s, RECONNECT_FAILED)
    else Retry(s, Delay(cfg, s.retryCount + 1))
  }

  function OpenWebSocket(s: ClientState): ClientState {
    s.(socket := Some(Socket(s.sockets, false, false)), sockets := s.sockets + 1)
  }

  function OpenWithToken(cfg: Config, s: ClientState): ClientState {
    if cfg.hasGetToken then s.(tokens := s.tokens + 1) else OpenWebSocket(s)
  }

  /** connect(); it throws when connected. */
  function Connect(cfg: Config, s: ClientState, sessionId: SessionId): ClientState {
    if s.isConnected then s
    else
      OpenWithToken(cfg, Log(s.(sessionId := sessionId, isConnecting := true, explicitDisconnect := false,
                                hasJoined := false, retryCount := 0), Called))
  }

  function Disconnect(s: ClientState): ClientState {
    var stopped := s.(explicitDisconnect := true, isConnecting := false, retryTimer := false,
                      timers := if s.retryTimer && s.timers > 0 then s.timers - 1 else s.timers);
    if s.socket.None? then stopped
    else LogIf(ResetState(LogIf(stopped, s.isConnected, LeaveSent)), s.isConnected, Disconnected)
  }

  function Closed(s: ClientState): ClientState {
    LogIf(ResetState(s), s.isConnected, Disconnected)
  }

  function HandleConnectionClosed(cfg: Config, s: ClientState): ClientState {
    if !s.explicitDisconnect && s.hasJoined && cfg.reconnect then ScheduleReconnect(cfg, Closed(s)) else Closed(s)
  }

  function DropAndReconnect(cfg: Config, s: ClientState): ClientState {
    ScheduleReconnect(cfg, Closed(s))
  }

  function CloseFromRelay(s: ClientState): ClientState {
    Closed(s.(explicitDisconnect := true))
  }

  predicate Reconnectable(cfg: Config, reason: string) {
    cfg.reconnect && (reason == "slow_consumer" || (reason == "token_expired" && cfg.hasGetToken))
  }

  function HandleError(s: ClientState, code: string): ClientState {
    var told := Log(s, Refusal(code));
    if s.isConnected then told
    else LogIf(CloseFromRelay(told), code == ROOM_NOT_FOUND && s.hasJoined, Over(SESSION_GONE))
  }

  function HandleJoined(s: ClientState, e: Event): ClientState
    requires e.body.RoomJoined?
  {
    var room := if e.body.sessionId != "" then e.body.sessionId else s.sessionId;
    Log(s.(clientId := e.body.self, sessionId := room, isConnected := true, isConnecting := false, hasJoined := true,
           retryCount := 0, roster := Rosters.Handle(s.roster, e)), Connected(e.body.self, room))
  }

  function HandleEnded(cfg: Config, s: ClientState, reason: string): ClientState {
    if Reconnectable(cfg, reason) then DropAndReconnect(cfg, s) else Log(CloseFromRelay(s), Over(reason))
  }

  function HandleEvent(cfg: Config, s: ClientState, e: Event): ClientState {
    var seen := Log(s, Seen(e));
    match e.body
    case Error(code, _) => HandleError(seen, code)
    case RoomJoined(_, _, _, _) => HandleJoined(seen, e)
    case SessionEnded(reason) => HandleEnded(cfg, seen, reason)
    case _ => seen.(roster := Rosters.Handle(s.roster, e))
  }

  // ---------- steps ----------

  datatype Step =
    | AppConnects(sessionId: SessionId)
    | AppDisconnects
    | TimerFires
    | CheckDone(status: int)        // 0 when the relay could not be reached
    | TokenDone
    | TokenFails
    | SocketOpens
    | Receives(event: Event)
    | SocketCloses(number: nat)     // also late, for a socket no longer in use

  /** connect() waits until nothing is outstanding; a socket carries one RoomJoined. */
  predicate Enabled(s: ClientState, a: Step) {
    match a
    case AppConnects(_) => s.isConnected || s.Live() == 0
    case AppDisconnects => true
    case TimerFires => s.timers > 0
    case CheckDone(_) => s.checks > 0
    case TokenDone => s.tokens > 0
    case TokenFails => s.tokens > 0
    case SocketOpens => s.socket.Some? && !s.socket.value.open
    case Receives(e) => s.socket.Some? && s.socket.value.open && (e.body.RoomJoined? ==> !s.socket.value.welcomed)
    case SocketCloses(n) => n < s.sockets
  }

  function RoomChecked(cfg: Config, s: ClientState, status: int): ClientState {
    if s.explicitDisconnect then s
    else if status == 404 then EndSession(s, SESSION_GONE)
    else if status == 200 then OpenWithToken(cfg, s)
    else ScheduleReconnect(cfg, s)
  }

  function TokenFailed(cfg: Config, s: ClientState): ClientState {
    var told := Log(s, Failure);
    if s.explicitDisconnect then told
    else if s.hasJoined then ScheduleReconnect(cfg, told)
    else told.(isConnecting := false)
  }

  function Received(cfg: Config, s: ClientState, e: Event): ClientState
    requires s.socket.Some?
  {
    var welcomed := s.socket.value.welcomed || e.body.RoomJoined?;
    HandleEvent(cfg, s.(socket := Some(s.socket.value.(welcomed := welcomed))), e)
  }

  function Apply(cfg: Config, s: ClientState, a: Step): ClientState
    requires Enabled(s, a)
  {
    match a
    case AppConnects(sid) => Connect(cfg, s, sid)
    case AppDisconnects => Disconnect(s)
    case TimerFires => s.(retryTimer := false, timers := s.timers - 1, checks := s.checks + 1)
    case CheckDone(status) => RoomChecked(cfg, s.(checks := s.checks - 1), status)
    case TokenDone =>
      var got := s.(tokens := s.tokens - 1);
      if s.explicitDisconnect then got else OpenWebSocket(got)
    case TokenFails => TokenFailed(cfg, s.(tokens := s.tokens - 1))
    case SocketOpens =>
      Log(s.(socket := Some(s.socket.value.(open := true))), JoinSent(s.sessionId, s.hasJoined))
    case Receives(e) => Received(cfg, s, e)
    case SocketCloses(n) =>
      if s.socket.Some? && s.socket.value.number == n then HandleConnectionClosed(cfg, s) else s
  }

  function Run(cfg: Config, s: ClientState, steps: seq<Step>): Option<ClientState>
    decreases |steps|
  {
    if steps == [] then Some(s)
    else if Enabled(s, steps[0]) then Run(cfg, Apply(cfg, s, steps[0]), steps[1..])
    else None
  }

  // ---------- reading the log ----------

  /** What a log says so far: whether the callbacks kept the rules, and what has happened
      since the last connect() (`joined`, `ended`) or onConnect (`attempts`, `waited`). */
  datatype Reading = Reading(
    ok: bool, connected: bool, ended: bool, joined: Option<SessionId>, attempts: nat, waited: nat)

  function ReadEntry(r: Reading, e: Entry): Reading {
    match e
    case Called => Reading(r.ok && !r.connected, r.connected, false, None, 0, 0)
    case Connected(_, room) => Reading(r.ok && !r.connected && !r.ended, true, r.ended, Some(room), 0, 0)
    case Disconnected => r.(ok := r.ok && r.connected, connected := false)
    case Reconnecting(n) =>
      r.(ok := r.ok && !r.connected && !r.ended && n == r.attempts + 1, attempts := r.attempts + 1)
    case Over(_) => r.(ok := r.ok && !r.connected && !r.ended, ended := true)
    case TimerSet(ms) => r.(waited := r.waited + ms)
    case JoinSent(sid, mustExist) => r.(ok := r.ok && (mustExist <==> r.joined.Some?) && (r.joined.Some? ==> r.joined.value == sid))
    case _ => r
  }

  function ReadLog(log: seq<Entry>): Reading {
    if |log| == 0 then Reading(true, false, false, None, 0, 0)
    else ReadEntry(ReadLog(log[..|log| - 1]), log[|log| - 1])
  }

  lemma ReadSnoc(log: seq<Entry>, e: Entry)
    ensures ReadLog(log + [e]) == ReadEntry(ReadLog(log), e)
  {
    assert (log + [e])[..|log|] == log;
  }

  // ---------- the invariant ----------

  predicate OneAtATime(s: ClientState) {
    && s.Live() <= 1
    && (s.retryTimer <==> s.timers > 0)
    && (s.socket.Some? ==> s.socket.value.number + 1 == s.sockets && (s.socket.value.welcomed ==> s.socket.value.open))
  }

  predicate Flags(s: ClientState) {
    && (s.isConnected <==> s.socket.Some? && s.socket.value.welcomed)
    && (s.isConnected ==> s.hasJoined)
    && (s.socket.Some? || s.timers > 0 ==> !s.explicitDisconnect)
    && (s.isConnecting <==> !s.explicitDisconnect && s.Live() == 1 && !s.isConnected)
  }

  predicate Limit(cfg: Config, retryCount: nat) {
    retryCount == 0 || retryCount <= cfg.maxRetries
  }

  /** The log agrees with the state. */
  predicate Logged(cfg: Config, s: ClientState) {
    var r := ReadLog(s.log);
    && r.ok
    && r.connected == s.isConnected
    && (r.ended ==> s.Live() == 0)
    && (s.hasJoined <==> r.joined.Some?)
    && (s.hasJoined ==> r.joined.value == s.sessionId)
    && r.attempts == s.retryCount && Limit(cfg, s.retryCount)
    && r.waited <= 30000 * s.retryCount
  }

  /** Only a client that may reconnect is ever on its way back into a room. */
  predicate Returning(cfg: Config, s: ClientState) {
    s.isConnecting && s.hasJoined ==> cfg.reconnect
  }

  predicate Inv(cfg: Config, s: ClientState) {
    OneAtATime(s) && Flags(s) && Logged(cfg, s) && Returning(cfg, s)
  }

  lemma RetryLogged(log: seq<Entry>, n: nat, ms: nat)
    requires var r := ReadLog(log); r.ok && !r.connected && !r.ended && r.attempts == n
    ensures var r := ReadLog(log);
            ReadLog(log + [Reconnecting(n + 1)] + [TimerSet(ms)]) == r.(attempts := n + 1, waited := r.waited + ms)
  {
    ReadSnoc(log, Reconnecting(n + 1));
    ReadSnoc(log + [Reconnecting(n + 1)], TimerSet(ms));
  }

  lemma RetryKeeps(cfg: Config, s: ClientState, ms: nat)
    requires s.Live() == 0 && !s.retryTimer && !s.isConnected && !s.explicitDisconnect
    requires s.hasJoined ==> cfg.reconnect
    requires Logged(cfg, s) && !ReadLog(s.log).ended && s.retryCount < cfg.maxRetries && ms <= MAX_DELAY_MS
    ensures Inv(cfg, Retry(s, ms))
  {
    RetryLogged(s.log, s.retryCount, ms);
  }

  lemma OverKeeps(cfg: Config, s: ClientState, reason: string)
    requires s.Live() == 0 && !s.retryTimer && !s.isConnected && !s.isConnecting && Logged(cfg, s) && !ReadLog(s.log).ended
    ensures Inv(cfg, Log(s, Over(reason)))
  {
    ReadSnoc(s.log, Over(reason));
  }

  lemma ScheduleKeeps(cfg: Config, s: ClientState)
    requires s.Live() == 0 && !s.retryTimer && !s.isConnected && !s.explicitDisconnect
    requires s.hasJoined ==> cfg.reconnect
    requires Logged(cfg, s) && !ReadLog(s.log).ended
    ensures Inv(cfg, ScheduleReconnect(cfg, s))
  {
    if s.retryCount >= cfg.maxRetries {
      OverKeeps(cfg, s.(explicitDisconnect := true, isConnecting := false), RECONNECT_FAILED);
    } else {
      RetryKeeps(cfg, s, Delay(cfg, s.retryCount + 1));
    }
  }

  lemma ClosedKeeps(cfg: Config, s: ClientState)
    requires s.timers + s.checks + s.tokens == 0 && !s.retryTimer && Logged(cfg, s)
    ensures var c := Closed(s);
            && Logged(cfg, c) && c.Live() == 0 && !c.retryTimer && !c.isConnected && !c.isConnecting
            && c.explicitDisconnect == s.explicitDisconnect && ReadLog(c.log).ended == ReadLog(s.log).ended
  {
    ReadSnoc(s.log, Disconnected);
  }

  lemma OpenKeeps(cfg: Config, s: ClientState)
    requires s.Live() == 0 && !s.retryTimer && !s.isConnected && s.isConnecting && !s.explicitDisconnect
    requires s.hasJoined ==> cfg.reconnect
    requires Logged(cfg, s) && !ReadLog(s.log).ended
    ensures Inv(cfg, OpenWithToken(cfg, s)) && Inv(cfg, OpenWebSocket(s))
  {
  }

  lemma ConnectKeeps(cfg: Config, s: ClientState, sid: SessionId)
    requires Inv(cfg, s) && (s.isConnected || s.Live() == 0)
    ensures Inv(cfg, Connect(cfg, s, sid))
  {
    if !s.isConnected {
      ReadSnoc(s.log, Called);
      OpenKeeps(cfg, Log(s.(sessionId := sid, isConnecting := true, explicitDisconnect := false,
                            hasJoined := false, retryCount := 0), Called));
    }
  }

  lemma DisconnectKeeps(cfg: Config, s: ClientState)
    requires Inv(cfg, s)
    ensures Inv(cfg, Disconnect(s))
  {
    if s.isConnected {
      ReadSnoc(s.log, LeaveSent);
      ReadSnoc(s.log + [LeaveSent], Disconnected);
    }
  }

  lemma SocketClosesKeeps(cfg: Config, s: ClientState)
    requires Inv(cfg, s) && s.socket.Some?
    ensures Inv(cfg, HandleConnectionClosed(cfg, s)) && (cfg.reconnect ==> Inv(cfg, DropAndReconnect(cfg, s)))
  {
    ClosedKeeps(cfg, s);
    if cfg.reconnect {
      ScheduleKeeps(cfg, Closed(s));
    }
  }

  lemma ErrorKeeps(cfg: Config, s: ClientState, code: string)
    requires Inv(cfg, s) && s.socket.Some?
    ensures Inv(cfg, HandleError(s, code))
  {
    ReadSnoc(s.log, Refusal(code));
    var told := Log(s, Refusal(code));
    if !s.isConnected {
      ClosedKeeps(cfg, told.(explicitDisconnect := true));
      OverKeeps(cfg, CloseFromRelay(told), SESSION_GONE);
    }
  }

  lemma EndedKeeps(cfg: Config, s: ClientState, reason: string)
    requires Inv(cfg, s) && s.socket.Some?
    ensures Inv(cfg, HandleEnded(cfg, s, reason))
  {
    SocketClosesKeeps(cfg, s);
    ClosedKeeps(cfg, s.(explicitDisconnect := true));
    OverKeeps(cfg, CloseFromRelay(s), reason);
  }

  lemma JoinedKeeps(cfg: Config, s: ClientState, e: Event)
    requires Inv(cfg, s) && s.socket.Some? && s.socket.value.open && !s.socket.value.welcomed && e.body.RoomJoined?
    ensures Inv(cfg, HandleJoined(s.(socket := Some(s.socket.value.(welcomed := true))), e))
  {
    ReadSnoc(s.log, Connected(e.body.self, if e.body.sessionId != "" then e.body.sessionId else s.sessionId));
  }

  lemma SeenKeeps(cfg: Config, s: ClientState, e: Event)
    requires Inv(cfg, s)
    ensures Inv(cfg, Log(s, Seen(e))) && Inv(cfg, Log(s, Seen(e)).(roster := Rosters.Handle(s.roster, e)))
  {
    ReadSnoc(s.log, Seen(e));
  }

  lemma SameSocket(cfg: Config, s: ClientState, e: Event)
    requires s.socket.Some? && !e.body.RoomJoined?
    ensures Received(cfg, s, e) == HandleEvent(cfg, s, e)
  {
    assert s.(socket := Some(s.socket.value.(welcomed := s.socket.value.welcomed))) == s;
  }

  lemma ReceivedJoinKeeps(cfg: Config, s: ClientState, e: Event)
    requires Inv(cfg, s) && Enabled(s, Receives(e)) && e.body.RoomJoined?
    ensures Inv(cfg, Received(cfg, s, e))
  {
    SeenKeeps(cfg, s, e);
    JoinedKeeps(cfg, Log(s, Seen(e)), e);
  }

  lemma HandleKeeps(cfg: Config, s: ClientState, e: Event)
    requires Inv(cfg, s) && s.socket.Some? && !e.body.RoomJoined?
    ensures Inv(cfg, HandleEvent(cfg, s, e))
  {
    SeenKeeps(cfg, s, e);
    if e.body.Error? {
      ErrorKeeps(cfg, Log(s, Seen(e)), e.body.code);
    } else if e.body.SessionEnded? {
      EndedKeeps(cfg, Log(s, Seen(e)), e.body.reason);
    }
  }

  lemma ReceivedKeeps(cfg: Config, s: ClientState, e: Event)
    requires Inv(cfg, s) && Enabled(s, Receives(e))
    ensures Inv(cfg, Received(cfg, s, e))
  {
    if e.body.RoomJoined? {
      ReceivedJoinKeeps(cfg, s, e);
    } else {
      SameSocket(cfg, s, e);
      HandleKeeps(cfg, s, e);
    }
  }

  lemma CheckKeeps(cfg: Config, s: ClientState, status: int)
    requires Inv(cfg, s) && s.checks > 0
    ensures Inv(cfg, RoomChecked(cfg, s.(checks := s.checks - 1), status))
  {
    var done := s.(checks := s.checks - 1);
    if !s.explicitDisconnect {
      ScheduleKeeps(cfg, done);
      OpenKeeps(cfg, done);
      OverKeeps(cfg, done.(explicitDisconnect := true, isConnecting := false), SESSION_GONE);
    }
  }

  lemma TokenKeeps(cfg: Config, s: ClientState)
    requires Inv(cfg, s) && s.tokens > 0
    ensures var got := s.(tokens := s.tokens - 1); Inv(cfg, if s.explicitDisconnect then got else OpenWebSocket(got))
  {
    if !s.explicitDisconnect {
      OpenKeeps(cfg, s.(tokens := s.tokens - 1));
    }
  }

  lemma TokenFailureKeeps(cfg: Config, s: ClientState)
    requires Inv(cfg, s) && s.tokens > 0
    ensures Inv(cfg, TokenFailed(cfg, s.(tokens := s.tokens - 1)))
  {
    ReadSnoc(s.log, Failure);
    if !s.explicitDisconnect && s.hasJoined {
      ScheduleKeeps(cfg, Log(s.(tokens := s.tokens - 1), Failure));
    }
  }

  lemma TimerKeeps(cfg: Config, s: ClientState)
    requires Inv(cfg, s) && s.timers > 0
    ensures Inv(cfg, s.(retryTimer := false, timers := s.timers - 1, checks := s.checks + 1))
  {
  }

  lemma OpensKeeps(cfg: Config, s: ClientState)
    requires Inv(cfg, s) && s.socket.Some?
    ensures Inv(cfg, Log(s.(socket := Some(s.socket.value.(open := true))), JoinSent(s.sessionId, s.hasJoined)))
  {
    ReadSnoc(s.log, JoinSent(s.sessionId, s.hasJoined));
  }

  lemma StepKeeps(cfg: Config, s: ClientState, a: Step)
    requires Inv(cfg, s) && Enabled(s, a)
    ensures Inv(cfg, Apply(cfg, s, a))
  {
    match a
    case AppConnects(sid) => ConnectKeeps(cfg, s, sid);
    case AppDisconnects => DisconnectKeeps(cfg, s);
    case TimerFires => TimerKeeps(cfg, s);
    case CheckDone(status) => CheckKeeps(cfg, s, status);
    case TokenDone => TokenKeeps(cfg, s);
    case TokenFails => TokenFailureKeeps(cfg, s);
    case SocketOpens => OpensKeeps(cfg, s);
    case Receives(e) => ReceivedKeeps(cfg, s, e);
    case SocketCloses(n) =>
      if s.socket.Some? {
        SocketClosesKeeps(cfg, s);
      }
  }

  lemma {:induction false} RunKeeps(cfg: Config, s: ClientState, steps: seq<Step>)
    requires Inv(cfg, s) && Run(cfg, s, steps).Some?
    ensures Inv(cfg, Run(cfg, s, steps).value)
    decreases |steps|
  {
    if steps != [] {
      StepKeeps(cfg, s, steps[0]);
      RunKeeps(cfg, Apply(cfg, s, steps[0]), steps[1..]);
    }
  }
}
