/** What an app sees of each thing that happens to its client, and what is then under way. */
module ReconnectEffects {
  import opened Options
  import opened Protocol
  import opened Reconnect
  import opened ReconnectLaws
  import Rosters
  import Delivery

  // ---------- what the app sees ----------

  /** The wait before an attempt: the configured one at first, then twice the one before, 30 seconds
      at most. */
  lemma DelayDoubles(cfg: Config, n: nat)
    requires n > 0
    ensures Delay(cfg, 1) == if cfg.retryDelayMs <= 30000 then cfg.retryDelayMs else 30000
    ensures Delay(cfg, n + 1) == if 2 * Delay(cfg, n) <= 30000 then 2 * Delay(cfg, n) else 30000
  {
    assert Pow2(0) == 1 && Pow2(n) == 2 * Pow2(n - 1);
    assert cfg.retryDelayMs * (2 * Pow2(n - 1)) == 2 * (cfg.retryDelayMs * Pow2(n - 1));
  }

  /** The next attempt announced and its timer set, or, with none left, the end. */
  function NextAttempt(cfg: Config, retryCount: nat): seq<Entry> {
    if retryCount < cfg.maxRetries then [Reconnecting(retryCount + 1), TimerSet(Delay(cfg, retryCount + 1))]
    else [Over("reconnect_failed")]
  }

  function IfConnected(s: ClientState): seq<Entry> {
    if s.isConnected then [Disconnected] else []
  }

  /** The relay ended the session for a reason a client may come back from. */
  predicate MayComeBack(cfg: Config, reason: string) {
    cfg.reconnect && (reason == "slow_consumer" || (reason == "token_expired" && cfg.hasGetToken))
  }

  function ShownOf(cfg: Config, s: ClientState, e: Event): seq<Entry> {
    match e.body
    case RoomJoined(self, sid, _, _) => [Connected(self, if sid != "" then sid else s.sessionId)]
    case Error(code, _) => [Refusal(code)] + if !s.isConnected && code == "ROOM_NOT_FOUND" && s.hasJoined then [Over("session_gone")] else []
    case SessionEnded(reason) =>
      IfConnected(s) + if MayComeBack(cfg, reason) then NextAttempt(cfg, s.retryCount) else [Over(reason)]
    case _ => []
  }

  predicate IsCurrent(s: ClientState, number: nat) {
    s.socket.Some? && s.socket.value.number == number
  }

  /** The callbacks, and what is sent, in order. */
  function Shown(cfg: Config, s: ClientState, a: Step): seq<Entry> {
    match a
    case AppConnects(_) => if s.isConnected then [] else [Called]
    case AppDisconnects => if s.isConnected then [LeaveSent, Disconnected] else []
    case TimerFires => []
    case CheckDone(status) =>
      if s.explicitDisconnect || status == 200 then []
      else if status == 404 then [Over("session_gone")]
      else NextAttempt(cfg, s.retryCount)
    case TokenDone => []
    case TokenFails => [Failure] + if !s.explicitDisconnect && s.hasJoined then NextAttempt(cfg, s.retryCount) else []
    case SocketOpens => [JoinSent(s.sessionId, s.hasJoined)]
    case Receives(e) => [Seen(e)] + ShownOf(cfg, s, e)
    case SocketCloses(n) =>
      if !IsCurrent(s, n) then []
      else IfConnected(s) + if s.hasJoined && cfg.reconnect then NextAttempt(cfg, s.retryCount) else []
  }

  lemma ScheduleShows(cfg: Config, s: ClientState)
    ensures ScheduleReconnect(cfg, s).log == s.log + NextAttempt(cfg, s.retryCount)
  {
  }

  lemma ClosedShows(s: ClientState)
    ensures Closed(s).log == s.log + IfConnected(s) && Closed(s).retryCount == s.retryCount
  {
  }

  lemma CheckShows(cfg: Config, s: ClientState, status: int)
    requires s.checks > 0
    ensures Apply(cfg, s, CheckDone(status)).log == s.log + Shown(cfg, s, CheckDone(status))
  {
    ScheduleShows(cfg, s.(checks := s.checks - 1));
  }

  lemma TokenShows(cfg: Config, s: ClientState)
    requires s.tokens > 0
    ensures Apply(cfg, s, TokenFails).log == s.log + Shown(cfg, s, TokenFails)
  {
    ScheduleShows(cfg, Log(s.(tokens := s.tokens - 1), Failure));
  }

  lemma EndShows(cfg: Config, s: ClientState, reason: string)
    ensures HandleEnded(cfg, s, reason).log ==
            s.log + (IfConnected(s) + if MayComeBack(cfg, reason) then NextAttempt(cfg, s.retryCount) else [Over(reason)])
  {
    ClosedShows(s);
    ScheduleShows(cfg, Closed(s));
    ClosedShows(s.(explicitDisconnect := true));
  }

  lemma ErrorShows(s: ClientState, code: string)
    requires s.isConnected ==> s.hasJoined
    ensures HandleError(s, code).log ==
            s.log + ([Refusal(code)] + if !s.isConnected && code == "ROOM_NOT_FOUND" && s.hasJoined then [Over("session_gone")] else [])
  {
  }

  lemma SeenShows(cfg: Config, seen: ClientState, e: Event)
    requires seen.isConnected ==> seen.hasJoined
    ensures e.body.RoomJoined? ==> HandleJoined(seen, e).log == seen.log + ShownOf(cfg, seen, e)
    ensures e.body.Error? ==> HandleError(seen, e.body.code).log == seen.log + ShownOf(cfg, seen, e)
    ensures e.body.SessionEnded? ==> HandleEnded(cfg, seen, e.body.reason).log == seen.log + ShownOf(cfg, seen, e)
  {
    match e.body
    case Error(code, _) => ErrorShows(seen, code);
    case SessionEnded(reason) => EndShows(cfg, seen, reason);
    case _ =>
  }

  lemma Regrouped(log: seq<Entry>, e: Entry, rest: seq<Entry>)
    ensures log + [e] + rest == log + ([e] + rest)
  {
  }

  lemma EventShows(cfg: Config, s: ClientState, e: Event)
    requires s.isConnected ==> s.hasJoined
    ensures HandleEvent(cfg, s, e).log == s.log + ([Seen(e)] + ShownOf(cfg, s, e))
  {
    SeenShows(cfg, Log(s, Seen(e)), e);
    assert ShownOf(cfg, Log(s, Seen(e)), e) == ShownOf(cfg, s, e);
    Regrouped(s.log, Seen(e), ShownOf(cfg, s, e));
  }

  lemma CloseShows(cfg: Config, s: ClientState, n: nat)
    requires Inv(cfg, s) && n < s.sockets
    ensures Apply(cfg, s, SocketCloses(n)).log == s.log + Shown(cfg, s, SocketCloses(n))
  {
    ClosedShows(s);
    ScheduleShows(cfg, Closed(s));
  }

  lemma DisconnectShows(cfg: Config, s: ClientState)
    requires Inv(cfg, s)
    ensures Disconnect(s).log == s.log + Shown(cfg, s, AppDisconnects)
  {
  }

  /** In every state of every run, whatever happens, the app sees just this of it. */
  lemma AppSees(cfg: Config, s: ClientState, a: Step)
    requires Reachable(cfg, s) && Enabled(s, a)
    ensures Apply(cfg, s, a).log == s.log + Shown(cfg, s, a)
  {
    Reached(cfg, s);
    match a
    case AppConnects(_) =>
    case AppDisconnects => DisconnectShows(cfg, s);
    case TimerFires =>
    case CheckDone(status) => CheckShows(cfg, s, status);
    case TokenDone =>
    case TokenFails => TokenShows(cfg, s);
    case SocketOpens =>
    case Receives(e) => EventShows(cfg, s.(socket := Some(s.socket.value.(welcomed := s.socket.value.welcomed || e.body.RoomJoined?))), e);
    case SocketCloses(n) => CloseShows(cfg, s, n);
  }

  // ---------- what is then under way ----------

  datatype Work = Nothing | Timer | RoomCheck | TokenFetch | NewSocket | OpenSocket

  /** The one thing under way. */
  function Under(s: ClientState): Work {
    if s.timers > 0 then Timer
    else if s.checks > 0 then RoomCheck
    else if s.tokens > 0 then TokenFetch
    else if s.socket.None? then Nothing
    else if s.socket.value.open then OpenSocket else NewSocket
  }

  function Opening(cfg: Config): Work {
    if cfg.hasGetToken then TokenFetch else NewSocket
  }

  function Waiting(cfg: Config, s: ClientState): Work {
    if s.retryCount < cfg.maxRetries then Timer else Nothing
  }

  function WorkAfterEvent(cfg: Config, s: ClientState, e: Event): Work {
    match e.body
    case Error(_, _) => if s.isConnected then OpenSocket else Nothing
    case SessionEnded(reason) => if MayComeBack(cfg, reason) then Waiting(cfg, s) else Nothing
    case _ => OpenSocket
  }

  function WorkAfter(cfg: Config, s: ClientState, a: Step): Work {
    match a
    case AppConnects(_) => if s.isConnected then OpenSocket else Opening(cfg)
    case AppDisconnects => if s.checks > 0 || s.tokens > 0 then Under(s) else Nothing
    case TimerFires => RoomCheck
    case CheckDone(status) =>
      if s.explicitDisconnect || status == 404 then Nothing
      else if status == 200 then Opening(cfg)
      else Waiting(cfg, s)
    case TokenDone => if s.explicitDisconnect then Nothing else NewSocket
    case TokenFails => if !s.explicitDisconnect && s.hasJoined then Waiting(cfg, s) else Nothing
    case SocketOpens => OpenSocket
    case Receives(e) => WorkAfterEvent(cfg, s, e)
    case SocketCloses(n) =>
      if !IsCurrent(s, n) then Under(s) else if s.hasJoined && cfg.reconnect then Waiting(cfg, s) else Nothing
  }

  lemma ScheduleStarts(cfg: Config, s: ClientState)
    requires s.Live() == 0
    ensures Under(ScheduleReconnect(cfg, s)) == Waiting(cfg, s)
  {
  }

  lemma EndStarts(cfg: Config, s: ClientState, reason: string)
    requires s.timers + s.checks + s.tokens == 0
    ensures Under(HandleEnded(cfg, s, reason)) == if MayComeBack(cfg, reason) then Waiting(cfg, s) else Nothing
  {
    ScheduleStarts(cfg, Closed(s));
  }

  lemma EventStarts(cfg: Config, s: ClientState, e: Event)
    requires Inv(cfg, s) && Enabled(s, Receives(e))
    ensures Under(Received(cfg, s, e)) == WorkAfterEvent(cfg, s, e)
  {
    if !e.body.RoomJoined? {
      SameSocket(cfg, s, e);
    }
    if e.body.SessionEnded? {
      EndStarts(cfg, Log(s, Seen(e)), e.body.reason);
    }
  }

  /** In every state of every run, and whatever happens: this is what is under way then, and nothing
      beside it. */
  lemma GoesOn(cfg: Config, s: ClientState, a: Step)
    requires Reachable(cfg, s) && Enabled(s, a)
    ensures Under(Apply(cfg, s, a)) == WorkAfter(cfg, s, a)
    ensures Apply(cfg, s, a).Live() == if WorkAfter(cfg, s, a).Nothing? then 0 else 1
  {
    Reached(cfg, s);
    StepKeeps(cfg, s, a);
    if a.Receives? {
      EventStarts(cfg, s, a.event);
    }
  }

  lemma LastShown(before: seq<Entry>, shown: seq<Entry>)
    requires shown != []
    ensures (before + shown)[|before + shown| - 1] == shown[|shown| - 1]
  {
  }

  lemma EndOfStreamShown(cfg: Config, s: ClientState, e: Event, ender: Delivery.Ender)
    requires cfg.reconnect && s.retryCount < cfg.maxRetries && e.body == SessionEnded(Delivery.Reason(ender))
    ensures var shown := Shown(cfg, s, Receives(e));
            shown != [] && (shown[|shown| - 1].Over? <==> ender.ByTimer? && !cfg.hasGetToken)
    ensures WorkAfter(cfg, s, Receives(e)) == if ender.ByTimer? && !cfg.hasGetToken then Nothing else Timer
  {
  }

  /** The relay's own ends, as the client hears them. Whoever in the relay ended the stream's session,
      a client that reconnects and has retries left is back to waiting for its next attempt; but
      after an expired token only if it can fetch another. */
  lemma EndOfStreamBringsBack(cfg: Config, s: ClientState, e: Event, ender: Delivery.Ender)
    requires Reachable(cfg, s) && Enabled(s, Receives(e)) && cfg.reconnect && s.retryCount < cfg.maxRetries
    requires e.body == SessionEnded(Delivery.Reason(ender))
    ensures var t := Apply(cfg, s, Receives(e));
            && Under(t) == (if ender.ByTimer? && !cfg.hasGetToken then Nothing else Timer)
            && t.log != [] && (t.log[|t.log| - 1].Over? <==> ender.ByTimer? && !cfg.hasGetToken)
  {
    var shown := Shown(cfg, s, Receives(e));
    EndOfStreamShown(cfg, s, e, ender);
    AppSees(cfg, s, Receives(e));
    GoesOn(cfg, s, Receives(e));
    LastShown(s.log, shown);
  }

  // ---------- what it then holds for true ----------

  /** The relay refused the join. */
  predicate TurnedAway(s: ClientState, a: Step) {
    a.Receives? && a.event.body.Error? && !s.isConnected
  }

  predicate SaysOver(shown: seq<Entry>) {
    exists e :: e in shown && e.Over?
  }

  lemma OverEither(a: seq<Entry>, b: seq<Entry>)
    ensures SaysOver(a + b) <==> SaysOver(a) || SaysOver(b)
  {
    if SaysOver(a + b) {
      var e :| e in a + b && e.Over?;
      assert e in a || e in b;
    }
    if SaysOver(a) || SaysOver(b) {
      var e :| (e in a || e in b) && e.Over?;
      assert e in a + b;
    }
  }

  lemma AttemptOver(cfg: Config, retryCount: nat)
    ensures SaysOver(NextAttempt(cfg, retryCount)) <==> retryCount >= cfg.maxRetries
  {
    if retryCount >= cfg.maxRetries {
      assert Over("reconnect_failed") in NextAttempt(cfg, retryCount);
    }
  }

  lemma ScheduleStops(cfg: Config, s: ClientState)
    ensures ScheduleReconnect(cfg, s).explicitDisconnect <==> s.explicitDisconnect || SaysOver(NextAttempt(cfg, s.retryCount))
  {
    AttemptOver(cfg, s.retryCount);
  }

  lemma EventStops(cfg: Config, s: ClientState, e: Event)
    requires Inv(cfg, s) && Enabled(s, Receives(e))
    ensures Received(cfg, s, e).explicitDisconnect <==> TurnedAway(s, Receives(e)) || SaysOver(Shown(cfg, s, Receives(e)))
  {
    OverEither([Seen(e)], ShownOf(cfg, s, e));
    match e.body
    case SessionEnded(reason) => EndStops(cfg, s, e, reason);
    case _ =>
  }

  lemma EndStops(cfg: Config, s: ClientState, e: Event, reason: string)
    requires Inv(cfg, s) && s.socket.Some? && e.body == SessionEnded(reason)
    ensures Received(cfg, s, e).explicitDisconnect <==> SaysOver(ShownOf(cfg, s, e))
  {
    var end := [Over(reason)];
    assert end[0] in end;
    OverEither(IfConnected(s), end);
    OverEither(IfConnected(s), NextAttempt(cfg, s.retryCount));
    AttemptOver(cfg, s.retryCount);
  }

  lemma CheckStops(cfg: Config, s: ClientState, status: int)
    requires s.checks > 0
    ensures Apply(cfg, s, CheckDone(status)).explicitDisconnect <==>
            s.explicitDisconnect || SaysOver(Shown(cfg, s, CheckDone(status)))
  {
    ScheduleStops(cfg, s.(checks := s.checks - 1));
    var gone := [Over("session_gone")];
    assert gone[0] in gone;
  }

  lemma TokenStops(cfg: Config, s: ClientState)
    requires s.tokens > 0
    ensures Apply(cfg, s, TokenFails).explicitDisconnect <==> s.explicitDisconnect || SaysOver(Shown(cfg, s, TokenFails))
  {
    ScheduleStops(cfg, Log(s.(tokens := s.tokens - 1), Failure));
    OverEither([Failure], NextAttempt(cfg, s.retryCount));
    OverEither([Failure], []);
  }

  lemma CloseStops(cfg: Config, s: ClientState, n: nat)
    requires Inv(cfg, s) && n < s.sockets
    ensures Apply(cfg, s, SocketCloses(n)).explicitDisconnect <==>
            s.explicitDisconnect || SaysOver(Shown(cfg, s, SocketCloses(n)))
  {
    ScheduleStops(cfg, Closed(s));
    OverEither(IfConnected(s), NextAttempt(cfg, s.retryCount));
    OverEither(IfConnected(s), []);
  }

  /** In every state of every run: a client stops trying when told to, when its session is over and
      when its join is refused, and only `connect()` makes it try again. */
  lemma StopsExactly(cfg: Config, s: ClientState, a: Step)
    requires Reachable(cfg, s) && Enabled(s, a)
    ensures Apply(cfg, s, a).explicitDisconnect <==>
            if a.AppConnects? then false
            else s.explicitDisconnect || a.AppDisconnects? || TurnedAway(s, a) || SaysOver(Shown(cfg, s, a))
  {
    Reached(cfg, s);
    match a
    case Receives(e) => EventStops(cfg, s, e);
    case CheckDone(status) => CheckStops(cfg, s, status);
    case TokenFails => TokenStops(cfg, s);
    case SocketCloses(n) => CloseStops(cfg, s, n);
    case _ =>
  }

  function IdAfter(s: ClientState, t: ClientState, a: Step): ClientId {
    if a.Receives? && a.event.body.RoomJoined? then a.event.body.self else if t.isConnected then s.clientId else ""
  }

  predicate Nameless(s: ClientState) {
    !s.isConnected ==> s.clientId == ""
  }

  lemma JoinedId(cfg: Config, s: ClientState, e: Event)
    requires s.socket.Some? && e.body.RoomJoined?
    ensures Received(cfg, s, e).isConnected && Received(cfg, s, e).clientId == e.body.self
  {
  }

  lemma ScheduleId(cfg: Config, s: ClientState)
    ensures ScheduleReconnect(cfg, s).isConnected == s.isConnected && ScheduleReconnect(cfg, s).clientId == s.clientId
  {
  }

  lemma EndedId(cfg: Config, seen: ClientState, reason: string)
    ensures !HandleEnded(cfg, seen, reason).isConnected && HandleEnded(cfg, seen, reason).clientId == ""
  {
    ScheduleId(cfg, Closed(seen));
  }

  lemma EventId(cfg: Config, s: ClientState, e: Event, reason: string)
    requires e.body == SessionEnded(reason)
    ensures !HandleEvent(cfg, s, e).isConnected && HandleEvent(cfg, s, e).clientId == ""
  {
    EndedId(cfg, Log(s, Seen(e)), reason);
  }

  lemma CloseId(cfg: Config, s: ClientState, n: nat)
    requires n < s.sockets
    ensures var t := Apply(cfg, s, SocketCloses(n)); if IsCurrent(s, n) then !t.isConnected && t.clientId == "" else t == s
  {
    ScheduleId(cfg, Closed(s));
  }

  lemma NamelessStep(cfg: Config, s: ClientState, a: Step)
    requires Inv(cfg, s) && Enabled(s, a) && Nameless(s)
    ensures Apply(cfg, s, a).clientId == IdAfter(s, Apply(cfg, s, a), a) && Nameless(Apply(cfg, s, a))
  {
    if a.Receives? && a.event.body.RoomJoined? {
      JoinedId(cfg, s, a.event);
    } else if a.Receives? && a.event.body.SessionEnded? {
      EventId(cfg, s.(socket := Some(s.socket.value.(welcomed := s.socket.value.welcomed || a.event.body.RoomJoined?))), a.event, a.event.body.reason);
    } else if a.SocketCloses? {
      CloseId(cfg, s, a.number);
    }
  }

  lemma {:induction false} NamelessRun(cfg: Config, s: ClientState, steps: seq<Step>)
    requires Inv(cfg, s) && Nameless(s) && Run(cfg, s, steps).Some?
    ensures Nameless(Run(cfg, s, steps).value)
    decreases |steps|
  {
    if steps != [] {
      StepKeeps(cfg, s, steps[0]);
      NamelessStep(cfg, s, steps[0]);
      NamelessRun(cfg, Apply(cfg, s, steps[0]), steps[1..]);
    }
  }

  /** Who it is, in every run: its RoomJoined says so, and it forgets with the connection. */
  lemma KnowsItself(cfg: Config, s: ClientState, a: Step)
    requires Reachable(cfg, s) && Enabled(s, a)
    ensures !s.isConnected ==> s.clientId == ""
    ensures Apply(cfg, s, a).clientId == IdAfter(s, Apply(cfg, s, a), a)
  {
    Reached(cfg, s);
    var start, steps :| IsNew(start) && Run(cfg, start, steps) == Some(s);
    NamelessRun(cfg, start, steps);
    NamelessStep(cfg, s, a);
  }

  predicate Joins(a: Step) {
    a.Receives? && a.event.body.RoomJoined?
  }

  predicate StartsAnew(s: ClientState, a: Step) {
    a.AppConnects? && !s.isConnected
  }

  predicate Announces(shown: seq<Entry>) {
    exists e :: e in shown && e.Reconnecting?
  }

  lemma AnnouncesEither(a: seq<Entry>, b: seq<Entry>)
    ensures Announces(a + b) <==> Announces(a) || Announces(b)
  {
    if Announces(a + b) {
      var e :| e in a + b && e.Reconnecting?;
      assert e in a || e in b;
    }
    if Announces(a) || Announces(b) {
      var e :| (e in a || e in b) && e.Reconnecting?;
      assert e in a + b;
    }
  }

  lemma AttemptAnnounces(cfg: Config, retryCount: nat)
    ensures Announces(NextAttempt(cfg, retryCount)) <==> retryCount < cfg.maxRetries
  {
    if retryCount < cfg.maxRetries {
      assert NextAttempt(cfg, retryCount)[0] == Reconnecting(retryCount + 1);
    }
  }

  /** The retries a client counts after it was shown this. */
  predicate Counts(s: ClientState, t: ClientState, shown: seq<Entry>) {
    t.sessionId == s.sessionId && t.hasJoined == s.hasJoined
    && t.retryCount == s.retryCount + if Announces(shown) then 1 else 0
  }

  lemma ScheduleCounts(cfg: Config, s: ClientState, before: seq<Entry>)
    requires !Announces(before)
    ensures Counts(s, ScheduleReconnect(cfg, s), before + NextAttempt(cfg, s.retryCount))
  {
    AttemptAnnounces(cfg, s.retryCount);
    AnnouncesEither(before, NextAttempt(cfg, s.retryCount));
  }

  lemma EndCounts(cfg: Config, seen: ClientState, reason: string)
    ensures Counts(seen, HandleEnded(cfg, seen, reason),
                   IfConnected(seen) + if MayComeBack(cfg, reason) then NextAttempt(cfg, seen.retryCount) else [Over(reason)])
  {
    if MayComeBack(cfg, reason) {
      ScheduleCounts(cfg, Closed(seen), IfConnected(seen));
    } else {
      AnnouncesEither(IfConnected(seen), [Over(reason)]);
    }
  }

  lemma EndedCounts(cfg: Config, s: ClientState, e: Event, reason: string)
    requires e.body == SessionEnded(reason)
    ensures Counts(s, HandleEvent(cfg, s, e), ShownOf(cfg, s, e))
  {
    EndCounts(cfg, Log(s, Seen(e)), reason);
  }

  lemma SeenCounts(s: ClientState, t: ClientState, e: Event, shown: seq<Entry>)
    requires Counts(s, t, shown)
    ensures Counts(s, t, [Seen(e)] + shown)
  {
    AnnouncesEither([Seen(e)], shown);
  }

  lemma EventCounts(cfg: Config, s: ClientState, e: Event)
    requires s.socket.Some? && !e.body.RoomJoined?
    ensures Counts(s, HandleEvent(cfg, s, e), [Seen(e)] + ShownOf(cfg, s, e))
  {
    if e.body.SessionEnded? {
      EndedCounts(cfg, s, e, e.body.reason);
    }
    SeenCounts(s, HandleEvent(cfg, s, e), e, ShownOf(cfg, s, e));
  }

  lemma CheckCounts(cfg: Config, s: ClientState, status: int)
    requires s.checks > 0
    ensures Counts(s, Apply(cfg, s, CheckDone(status)), Shown(cfg, s, CheckDone(status)))
  {
    var checked := s.(checks := s.checks - 1);
    ScheduleCounts(cfg, checked, []);
    assert [] + NextAttempt(cfg, s.retryCount) == NextAttempt(cfg, s.retryCount);
  }

  lemma TokenCounts(cfg: Config, s: ClientState)
    requires s.tokens > 0
    ensures Counts(s, Apply(cfg, s, TokenFails), Shown(cfg, s, TokenFails))
  {
    ScheduleCounts(cfg, Log(s.(tokens := s.tokens - 1), Failure), [Failure]);
    AnnouncesEither([Failure], []);
  }

  lemma CloseCounts(cfg: Config, s: ClientState, n: nat)
    requires Inv(cfg, s) && n < s.sockets
    ensures Counts(s, Apply(cfg, s, SocketCloses(n)), Shown(cfg, s, SocketCloses(n)))
  {
    ScheduleCounts(cfg, Closed(s), IfConnected(s));
    AnnouncesEither(IfConnected(s), []);
  }

  /** In every state of every run, what it keeps: the session it names is the one connect() gave, then
      the one RoomJoined did; it has been in a room since connect() or not; and it has tried again as
      often as it said since either. */
  lemma Remembers(cfg: Config, s: ClientState, a: Step)
    requires Reachable(cfg, s) && Enabled(s, a)
    ensures var t := Apply(cfg, s, a);
            if StartsAnew(s, a) then t.sessionId == a.sessionId && !t.hasJoined && t.retryCount == 0
            else if Joins(a) then
              t.sessionId == (if a.event.body.sessionId != "" then a.event.body.sessionId else s.sessionId) && t.hasJoined && t.retryCount == 0
            else Counts(s, t, Shown(cfg, s, a))
  {
    Reached(cfg, s);
    match a
    case Receives(e) =>
      if !Joins(a) {
        EventCounts(cfg, s.(socket := Some(s.socket.value.(welcomed := s.socket.value.welcomed))), e);
      }
    case CheckDone(status) => CheckCounts(cfg, s, status);
    case TokenFails => TokenCounts(cfg, s);
    case SocketCloses(n) => CloseCounts(cfg, s, n);
    case _ =>
  }

  predicate LosesSocket(s: ClientState, t: ClientState) {
    s.socket.Some? && t.socket.None?
  }

  /** The roster is emptied with the connection, else it is this. */
  predicate ListedAs(s: ClientState, t: ClientState, roster: set<ClientId>) {
    t.roster == if LosesSocket(s, t) then {} else roster
  }

  lemma ScheduleLists(cfg: Config, s: ClientState)
    ensures ScheduleReconnect(cfg, s).roster == s.roster && ScheduleReconnect(cfg, s).socket == s.socket
  {
  }

  lemma EndLists(cfg: Config, seen: ClientState, reason: string)
    ensures HandleEnded(cfg, seen, reason).roster == {} && HandleEnded(cfg, seen, reason).socket.None?
  {
    ScheduleLists(cfg, Closed(seen));
  }

  lemma ErrorLists(seen: ClientState, code: string)
    ensures var t := HandleError(seen, code);
            if seen.isConnected then t.roster == seen.roster && t.socket == seen.socket else t.roster == {} && t.socket.None?
  {
  }

  lemma JoinedLists(seen: ClientState, e: Event)
    requires e.body.RoomJoined?
    ensures HandleJoined(seen, e).roster == Rosters.Handle(seen.roster, e) && HandleJoined(seen, e).socket == seen.socket
  {
  }

  lemma EventLists(cfg: Config, s: ClientState, e: Event)
    requires s.socket.Some?
    ensures ListedAs(s, HandleEvent(cfg, s, e), Rosters.Handle(s.roster, e))
  {
    var seen := Log(s, Seen(e));
    match e.body {
      case Error(code, _) => ErrorLists(seen, code);
      case SessionEnded(reason) => EndLists(cfg, seen, reason);
      case RoomJoined(_, _, _, _) => JoinedLists(seen, e);
      case _ =>
    }
  }

  lemma CloseLists(cfg: Config, s: ClientState, n: nat)
    requires n < s.sockets
    ensures ListedAs(s, Apply(cfg, s, SocketCloses(n)), s.roster)
  {
    ScheduleLists(cfg, Closed(s));
  }

  lemma ResultLists(cfg: Config, s: ClientState, a: Step)
    requires Enabled(s, a) && (a.CheckDone? || a.TokenDone? || a.TokenFails?)
    ensures ListedAs(s, Apply(cfg, s, a), s.roster)
  {
  }

  /** In every state of every run its roster changes with the events it hears, and is emptied with
      the connection and at no other time. */
  lemma Lists(cfg: Config, s: ClientState, a: Step)
    requires Reachable(cfg, s) && Enabled(s, a)
    ensures ListedAs(s, Apply(cfg, s, a), if a.Receives? then Rosters.Handle(s.roster, a.event) else s.roster)
  {
    match a
    case Receives(e) => EventLists(cfg, s.(socket := Some(s.socket.value.(welcomed := s.socket.value.welcomed || e.body.RoomJoined?))), e);
    case SocketCloses(n) => CloseLists(cfg, s, n);
    case CheckDone(_) => ResultLists(cfg, s, a);
    case TokenDone => ResultLists(cfg, s, a);
    case TokenFails => ResultLists(cfg, s, a);
    case _ =>
  }

  // ---------- the room check ----------

  function Appended(s: ClientState, t: ClientState): seq<Entry>
    requires s.log <= t.log
  {
    t.log[|s.log|..]
  }

  /** What the relay's answer to the room check does to a client not told to stop. Gone: 404 and
      nothing else ends the session so. There: 200 and nothing else starts a token fetch or a
      socket. Any other answer, none included, is one more attempt, or the end when none is left. */
  lemma RoomCheckSays(cfg: Config, s: ClientState, status: int)
    requires Reachable(cfg, s) && s.checks > 0 && !s.explicitDisconnect
    ensures var t := Apply(cfg, s, CheckDone(status));
            && s.log <= t.log
            && (Over("session_gone") in Appended(s, t) <==> status == 404)
            && (t.tokens + t.Socketed() > 0 <==> status == 200)
            && (status == 200 ==> Appended(s, t) == [] && (t.tokens > 0 <==> cfg.hasGetToken))
            && (status != 404 && status != 200 && s.retryCount < cfg.maxRetries ==>
                  Appended(s, t) == [Reconnecting(s.retryCount + 1), TimerSet(Delay(cfg, s.retryCount + 1))] && t.timers == 1)
            && (Over("reconnect_failed") in Appended(s, t) <==> status != 404 && status != 200 && s.retryCount >= cfg.maxRetries)
  {
    AppSees(cfg, s, CheckDone(status));
    GoesOn(cfg, s, CheckDone(status));
    Reached(cfg, s);
    assert Apply(cfg, s, CheckDone(status)).log[|s.log|..] == Shown(cfg, s, CheckDone(status));
  }

  // ---------- the wait before each attempt ----------

  /** Each onReconnecting is followed at once by its timer, and no timer is set otherwise. */
  predicate Timed(cfg: Config, log: seq<Entry>) {
    forall i :: 0 <= i < |log| ==> TimedAt(cfg, log, i)
  }

  predicate TimedAt(cfg: Config, log: seq<Entry>, i: nat)
    requires i < |log|
  {
    && (log[i].Reconnecting? ==> log[i].attempt > 0 && i + 1 < |log| && log[i + 1] == TimerSet(Delay(cfg, log[i].attempt)))
    && (log[i].TimerSet? ==> i > 0 && log[i - 1].Reconnecting?)
  }

  lemma TimedAppend(cfg: Config, a: seq<Entry>, b: seq<Entry>)
    requires Timed(cfg, a) && Timed(cfg, b)
    ensures Timed(cfg, a + b)
  {
    forall i | 0 <= i < |a + b| ensures TimedAt(cfg, a + b, i)
    {
      if i < |a| {
        assert TimedAt(cfg, a, i);
      } else {
        assert TimedAt(cfg, b, i - |a|);
      }
    }
  }

  lemma AttemptTimed(cfg: Config, retryCount: nat)
    ensures Timed(cfg, NextAttempt(cfg, retryCount))
  {
  }

  lemma ShownTimed(cfg: Config, s: ClientState, a: Step)
    ensures Timed(cfg, Shown(cfg, s, a))
  {
    var next := NextAttempt(cfg, s.retryCount);
    AttemptTimed(cfg, s.retryCount);
    match a
    case TokenFails => TimedAppend(cfg, [Failure], next);
    case SocketCloses(_) => TimedAppend(cfg, IfConnected(s), next);
    case Receives(e) =>
      TimedAppend(cfg, IfConnected(s), next);
      TimedAppend(cfg, [Seen(e)], ShownOf(cfg, s, e));
    case _ =>
  }

  lemma {:induction false} RunTimed(cfg: Config, s: ClientState, steps: seq<Step>)
    requires Reachable(cfg, s) && Timed(cfg, s.log) && Run(cfg, s, steps).Some?
    ensures Timed(cfg, Run(cfg, s, steps).value.log)
    decreases |steps|
  {
    if steps != [] {
      var t := Apply(cfg, s, steps[0]);
      AppSees(cfg, s, steps[0]);
      ShownTimed(cfg, s, steps[0]);
      TimedAppend(cfg, s.log, Shown(cfg, s, steps[0]));
      RunStep(cfg, s, steps[0]);
      RunTimed(cfg, t, steps[1..]);
    }
  }

  predicate StartsOver(e: Entry) {
    e.Called? || e.Connected?
  }

  lemma {:induction false} CountedSince(log: seq<Entry>, k: nat)
    requires k < |log| && StartsOver(log[k]) && Since(log, k, |log|)
    ensures ReadLog(log).attempts == Attempts(log[k + 1..])
    decreases |log|
  {
    var n := |log| - 1;
    if k < n {
      assert Since(log[..n], k, n);
      CountedSince(log[..n], k);
      assert log[k + 1..][..n - k - 1] == log[..n][k + 1..];
    }
  }

  /** In every run: the n-th onReconnecting since the last connect() or onConnect says n, and is
      followed by a timer of the configured wait doubled n - 1 times, 30 seconds at most. */
  lemma BackoffExactly(cfg: Config, s: ClientState, k: nat, i: nat)
    requires Reachable(cfg, s) && k < i < |s.log| && s.log[i].Reconnecting?
    requires StartsOver(s.log[k]) && Since(s.log, k, i)
    ensures s.log[i].attempt == 1 + Attempts(s.log[k + 1..i])
    ensures i + 1 < |s.log| && s.log[i].attempt > 0 && s.log[i + 1] == TimerSet(Delay(cfg, s.log[i].attempt))
  {
    var start, steps :| IsNew(start) && Run(cfg, start, steps) == Some(s);
    assert Run(cfg, start, []) == Some(start);
    RunTimed(cfg, start, steps);
    assert TimedAt(cfg, s.log, i);
    Reached(cfg, s);
    ReadAt(s.log, i);
    assert forall j :: 0 <= j < i ==> s.log[..i][j] == s.log[j];
    assert Since(s.log[..i], k, i);
    CountedSince(s.log[..i], k);
    assert s.log[..i][k + 1..] == s.log[k + 1..i];
  }
}
