/** What an app can count on: the callbacks' order, one activity at a time, an end to retrying. */
module ReconnectLaws {
  import opened Options
  import opened Protocol
  import opened Reconnect

  /** The states a client passes through, from its creation, whatever happens to it. */
  ghost predicate Reachable(cfg: Config, s: ClientState) {
    exists start, steps :: IsNew(start) && Run(cfg, start, steps) == Some(s)
  }

  lemma Reached(cfg: Config, s: ClientState)
    requires Reachable(cfg, s)
    ensures Inv(cfg, s)
  {
    var start, steps :| IsNew(start) && Run(cfg, start, steps) == Some(s);
    RunKeeps(cfg, start, steps);
  }

  /** At most one timer, room check, token fetch or socket is ever live, and isConnecting tells
      whether it is one that still leads somewhere. */
  lemma OneActivity(cfg: Config, s: ClientState)
    requires Reachable(cfg, s)
    ensures && s.timers + s.checks + s.tokens + s.Socketed() <= 1
            && (s.isConnecting <==> s.Live() == 1 && !s.isConnected && !s.explicitDisconnect)
  {
    Reached(cfg, s);
  }

  // ---------- the callbacks ----------

  function Balance(log: seq<Entry>): int {
    if |log| == 0 then 0
    else
      var last := log[|log| - 1];
      Balance(log[..|log| - 1]) + if last.Connected? then 1 else if last.Disconnected? then -1 else 0
  }

  lemma {:induction false} PrefixOk(log: seq<Entry>, k: nat)
    requires ReadLog(log).ok && k <= |log|
    ensures ReadLog(log[..k]).ok
    decreases |log|
  {
    if k < |log| {
      PrefixOk(log[..|log| - 1], k);
      assert log[..|log| - 1][..k] == log[..k];
    } else {
      assert log[..k] == log;
    }
  }

  lemma {:induction false} BalanceRead(log: seq<Entry>)
    requires ReadLog(log).ok
    ensures Balance(log) == if ReadLog(log).connected then 1 else 0
    decreases |log|
  {
    if log != [] {
      BalanceRead(log[..|log| - 1]);
    }
  }

  /** onConnect calls less onDisconnect calls: 1 while connected, 0 otherwise, and never
      anything else in between. */
  lemma CallbackBalance(cfg: Config, s: ClientState, k: nat)
    requires Reachable(cfg, s) && k <= |s.log|
    ensures && Balance(s.log) == (if s.isConnected then 1 else 0)
            && 0 <= Balance(s.log[..k]) <= 1
  {
    Reached(cfg, s);
    var log := s.log;
    BalanceRead(log);
    PrefixOk(log, k);
    BalanceRead(log[..k]);
  }

  predicate CalledBetween(log: seq<Entry>, i: nat, j: nat) {
    exists k :: i < k < j && k < |log| && log[k].Called?
  }

  lemma {:induction false} EndedStays(log: seq<Entry>, i: nat, j: nat)
    requires i < j <= |log| && log[i].Over? && !CalledBetween(log, i, j)
    ensures ReadLog(log[..j]).ended
    decreases j
  {
    assert log[..j][..j - 1] == log[..j - 1];
    if i < j - 1 {
      assert !CalledBetween(log, i, j - 1);
      EndedStays(log, i, j - 1);
    }
  }

  lemma ReadAt(log: seq<Entry>, j: nat)
    requires ReadLog(log).ok && j < |log|
    ensures ReadLog(log[..j + 1]) == ReadEntry(ReadLog(log[..j]), log[j])
    ensures ReadLog(log[..j]).ok && ReadLog(log[..j + 1]).ok
  {
    PrefixOk(log, j);
    PrefixOk(log, j + 1);
    assert log[..j + 1][..j] == log[..j];
  }

  lemma EndedUntilCalled(log: seq<Entry>, i: nat, j: nat)
    requires ReadLog(log).ok && i < j < |log| && log[i].Over?
    requires log[j].Over? || log[j].Connected? || log[j].Reconnecting?
    ensures CalledBetween(log, i, j)
  {
    ReadAt(log, j);
    if !CalledBetween(log, i, j) {
      EndedStays(log, i, j);
    }
  }

  /** onSessionEnded fires while disconnected, and until the next connect() nothing follows it:
      no onSessionEnded, onConnect or onReconnecting. */
  lemma NothingAfterTheEnd(cfg: Config, s: ClientState, i: nat)
    requires Reachable(cfg, s)
    requires i < |s.log| && s.log[i].Over?
    ensures var log := s.log;
            && Balance(log[..i]) == 0
            && forall j :: i < j < |log| && (log[j].Over? || log[j].Connected? || log[j].Reconnecting?) ==> CalledBetween(log, i, j)
  {
    Reached(cfg, s);
    var log := s.log;
    ReadAt(log, i);
    BalanceRead(log[..i]);
    forall j | i < j < |log| && (log[j].Over? || log[j].Connected? || log[j].Reconnecting?) ensures CalledBetween(log, i, j)
    {
      EndedUntilCalled(log, i, j);
    }
  }

  // ---------- rejoining ----------

  predicate Since(log: seq<Entry>, i: nat, j: nat) {
    forall k :: i < k < j && k < |log| ==> !log[k].Called? && !log[k].Connected?
  }

  lemma {:induction false} JoinedStays(log: seq<Entry>, i: nat, j: nat)
    requires i < j <= |log| && log[i].Connected? && Since(log, i, j)
    ensures ReadLog(log[..j]).joined == Some(log[i].room)
    decreases j
  {
    assert log[..j][..j - 1] == log[..j - 1];
    if i < j - 1 {
      assert Since(log, i, j - 1);
      JoinedStays(log, i, j - 1);
    }
  }

  lemma {:induction false} JoinedFrom(log: seq<Entry>) returns (i: nat)
    requires ReadLog(log).joined.Some?
    ensures i < |log| && log[i].Connected? && Since(log, i, |log|) && log[i].room == ReadLog(log).joined.value
    decreases |log|
  {
    var n := |log| - 1;
    if log[n].Connected? {
      i := n;
    } else {
      i := JoinedFrom(log[..n]);
      assert Since(log[..n], i, n);
      assert forall k :: i < k < n ==> log[..n][k] == log[k];
    }
  }

  /** There was an onConnect since connect(). */
  predicate HasBeenIn(log: seq<Entry>, j: nat) {
    exists i :: 0 <= i < j && i < |log| && log[i].Connected? && Since(log, i, j)
  }

  lemma BeenInIffJoined(log: seq<Entry>, j: nat)
    requires j <= |log|
    ensures HasBeenIn(log, j) <==> ReadLog(log[..j]).joined.Some?
  {
    if ReadLog(log[..j]).joined.Some? {
      var i := JoinedFrom(log[..j]);
      assert forall k :: i <= k < j ==> log[..j][k] == log[k];
      assert log[i].Connected? && Since(log, i, j);
    }
    if HasBeenIn(log, j) {
      var i :| 0 <= i < j && i < |log| && log[i].Connected? && Since(log, i, j);
      JoinedStays(log, i, j);
    }
  }

  /** A join asks for a room that must exist exactly when its client has been in a room since
      connect(), and then it names the session it was last in. */
  lemma JoinsAskRight(cfg: Config, s: ClientState, j: nat)
    requires Reachable(cfg, s)
    requires j < |s.log| && s.log[j].JoinSent?
    ensures var log := s.log;
            && (log[j].mustExist <==> HasBeenIn(log, j))
            && (forall i :: 0 <= i < j && log[i].Connected? && Since(log, i, j) ==> log[j].sessionId == log[i].room)
  {
    Reached(cfg, s);
    var log := s.log;
    ReadAt(log, j);
    BeenInIffJoined(log, j);
    forall i | 0 <= i < j && log[i].Connected? && Since(log, i, j) ensures log[j].sessionId == log[i].room
    {
      JoinedStays(log, i, j);
    }
  }

  // ---------- backoff ----------

  function Attempts(log: seq<Entry>): nat {
    if |log| == 0 then 0
    else Attempts(log[..|log| - 1]) + if log[|log| - 1].Reconnecting? then 1 else 0
  }

  function Waited(log: seq<Entry>): nat {
    if |log| == 0 then 0
    else Waited(log[..|log| - 1]) + if log[|log| - 1].TimerSet? then log[|log| - 1].ms else 0
  }

  /** What was read of a log bounds what its tail shows. */
  lemma {:induction false} TailRead(log: seq<Entry>, k: nat)
    requires k <= |log| && forall i :: k <= i < |log| ==> !log[i].Called? && !log[i].Connected?
    ensures Attempts(log[k..]) <= ReadLog(log).attempts && Waited(log[k..]) <= ReadLog(log).waited
    decreases |log|
  {
    if k < |log| {
      var n := |log| - 1;
      TailRead(log[..n], k);
      assert log[k..][..n - k] == log[..n][k..];
    }
  }

  /** Between two successful joins there are at most maxRetries attempts, and all the waiting
      together takes at most 30 seconds each. */
  lemma BoundedBackoff(cfg: Config, s: ClientState, k: nat)
    requires Reachable(cfg, s) && k <= |s.log|
    requires var log := s.log;
             forall i :: k <= i < |log| ==> !log[i].Called? && !log[i].Connected?
    ensures var tail := s.log[k..];
            var most := if cfg.maxRetries > 0 then cfg.maxRetries else 0;
            Attempts(tail) <= most && Waited(tail) <= 30000 * most
  {
    Reached(cfg, s);
    TailRead(s.log, k);
  }

  // ---------- an end to retrying ----------

  /** Steps in which a timer, a room check, a token fetch, a socket or a join gets its result. */
  predicate Finishing(s: ClientState, a: Step) {
    match a
    case Receives(e) => e.body.RoomJoined? || e.body.Error? || e.body.SessionEnded?
    case SocketCloses(n) => s.socket.Some? && s.socket.value.number == n
    case AppConnects(_) => false
    case AppDisconnects => false
    case _ => true
  }

  predicate ByApp(a: Step) {
    a.AppConnects? || a.AppDisconnects?
  }

  function Stage(s: ClientState): nat {
    if s.timers > 0 then 5
    else if s.checks > 0 then 4
    else if s.tokens > 0 then 3
    else if s.socket.Some? && !s.socket.value.open then 2
    else 1
  }

  /** Retries left, then how far this attempt has come. */
  function Rank(cfg: Config, s: ClientState): nat {
    if !s.isConnecting then 0
    else (if s.retryCount < cfg.maxRetries then 6 * (cfg.maxRetries - s.retryCount) else 0) + Stage(s)
  }

  lemma RetryRanks(cfg: Config, s: ClientState)
    requires s.retryTimer == false && s.timers == 0
    ensures var t := ScheduleReconnect(cfg, s);
            t.isConnecting ==> s.retryCount < cfg.maxRetries && Rank(cfg, t) == 6 * (cfg.maxRetries - s.retryCount) - 1
  {
  }

  /** Something is always under way that can finish. */
  lemma SomethingCanFinish(cfg: Config, s: ClientState) returns (a: Step)
    requires Reachable(cfg, s) && s.isConnecting
    ensures Enabled(s, a) && Finishing(s, a) && !ByApp(a)
  {
    Reached(cfg, s);
    a := if s.timers > 0 then TimerFires else if s.checks > 0 then CheckDone(0) else if s.tokens > 0 then TokenDone
         else SocketCloses(s.socket.value.number);
  }

  lemma ReceivesRanks(cfg: Config, s: ClientState, e: Event)
    requires Inv(cfg, s) && s.isConnecting && Enabled(s, Receives(e))
    ensures var t := Received(cfg, s, e);
            if Finishing(s, Receives(e)) then Rank(cfg, t) < Rank(cfg, s) else Rank(cfg, t) == Rank(cfg, s) && t.isConnecting
  {
    if !e.body.RoomJoined? {
      SameSocket(cfg, s, e);
    }
    if e.body.SessionEnded? {
      RetryRanks(cfg, Closed(Log(s, Seen(e))));
    }
  }

  /** Whatever finishes, and however, brings the client nearer to an end. */
  lemma FinishingRanks(cfg: Config, s: ClientState, a: Step)
    requires Inv(cfg, s) && s.isConnecting && Enabled(s, a) && !ByApp(a)
    ensures if Finishing(s, a) then Rank(cfg, Apply(cfg, s, a)) < Rank(cfg, s) else Rank(cfg, Apply(cfg, s, a)) == Rank(cfg, s)
  {
    match a
    case TimerFires =>
    case CheckDone(status) => RetryRanks(cfg, s.(checks := s.checks - 1));
    case TokenDone =>
    case TokenFails => RetryRanks(cfg, Log(s.(tokens := s.tokens - 1), Failure));
    case SocketOpens =>
    case Receives(e) => ReceivesRanks(cfg, s, e);
    case SocketCloses(n) =>
      if s.socket.Some? {
        RetryRanks(cfg, Closed(s));
      }
  }

  /** A run the app leaves alone and in which the client is trying all along. */
  predicate KeepsTrying(cfg: Config, s: ClientState, steps: seq<Step>)
    decreases |steps|
  {
    s.isConnecting && (steps != [] ==>
      !ByApp(steps[0]) && Enabled(s, steps[0]) && KeepsTrying(cfg, Apply(cfg, s, steps[0]), steps[1..]))
  }

  function Finished(cfg: Config, s: ClientState, steps: seq<Step>): nat
    requires KeepsTrying(cfg, s, steps)
    decreases |steps|
  {
    if steps == [] then 0
    else (if Finishing(s, steps[0]) then 1 else 0) + Finished(cfg, Apply(cfg, s, steps[0]), steps[1..])
  }

  lemma {:induction false} TryingRanks(cfg: Config, s: ClientState, steps: seq<Step>)
    requires Inv(cfg, s) && KeepsTrying(cfg, s, steps)
    ensures Finished(cfg, s, steps) < Rank(cfg, s)
    decreases |steps|
  {
    if steps != [] {
      FinishingRanks(cfg, s, steps[0]);
      StepKeeps(cfg, s, steps[0]);
      TryingRanks(cfg, Apply(cfg, s, steps[0]), steps[1..]);
    }
  }

  /** Retrying ends: in any run, from any point, a client goes on trying through fewer than
      6 * maxRetries + 6 results, while something is always under way that can bring one. */
  lemma ReconnectingTerminates(cfg: Config, s: ClientState, steps: seq<Step>)
    requires Reachable(cfg, s) && KeepsTrying(cfg, s, steps)
    ensures Finished(cfg, s, steps)
            < 6 * (if cfg.maxRetries > 0 then cfg.maxRetries else 0) + 6
  {
    Reached(cfg, s);
    TryingRanks(cfg, s, steps);
  }

  function Last(log: seq<Entry>): Entry {
    if |log| == 0 then Called else log[|log| - 1]
  }

  /** How trying to get back into a room can end, unless the app stops it: in the room, the room
      gone, retries used up, the join refused, the relay ending the session; or, for a client
      that never was in a room, a failed token fetch or a closed socket. */
  lemma HowRetryingEnds(cfg: Config, s: ClientState, a: Step)
    requires Reachable(cfg, s) && s.isConnecting && (s.hasJoined || s.retryCount > 0) && Enabled(s, a) && !ByApp(a)
    requires !Apply(cfg, s, a).isConnecting
    ensures var t := Apply(cfg, s, a);
            || t.isConnected
            || Last(t.log) == Over(SESSION_GONE)
            || Last(t.log) == Over(RECONNECT_FAILED)
            || (a.Receives? && a.event.body.Error? && Last(t.log) == Refusal(a.event.body.code))
            || (a.Receives? && a.event.body.SessionEnded? && Last(t.log) == Over(a.event.body.reason))
            || (!s.hasJoined && (a.TokenFails? || a.SocketCloses?))
  {
    Reached(cfg, s);
    if a.Receives? && !a.event.body.RoomJoined? {
      SameSocket(cfg, s, a.event);
    }
  }

  // ---------- stopping without a word ----------

  /** The client has given up, and neither onSessionEnded nor onErrorEvent says so. */
  predicate StopsSilently(s: ClientState, t: ClientState) {
    && !t.isConnecting && !t.isConnected && |s.log| <= |t.log|
    && forall i :: |s.log| <= i < |t.log| ==> !t.log[i].Over? && !t.log[i].Refusal?
  }

  /** What makes it do so: it has not been in a room since connect(), and its token fetch fails
      or its socket closes. */
  predicate SilentGuard(s: ClientState, a: Step) {
    !s.hasJoined && (a.TokenFails? || (a.SocketCloses? && s.socket.Some? && s.socket.value.number == a.number))
  }

  lemma ScheduleIsHeard(cfg: Config, s: ClientState)
    ensures var t := ScheduleReconnect(cfg, s);
            t.isConnecting || (|t.log| == |s.log| + 1 && t.log[|s.log|] == Over(RECONNECT_FAILED))
  {
  }

  lemma ReceivedIsHeard(cfg: Config, s: ClientState, e: Event)
    requires Inv(cfg, s) && s.isConnecting && Enabled(s, Receives(e))
    ensures !StopsSilently(s, Received(cfg, s, e))
  {
    var seen := Log(s, Seen(e));
    if !e.body.RoomJoined? {
      SameSocket(cfg, s, e);
    }
    match e.body
    case RoomJoined(_, _, _, _) =>
    case Error(code, _) =>
      assert HandleError(seen, code).log[|seen.log|] == Refusal(code);
    case SessionEnded(reason) =>
      if Reconnectable(cfg, reason) {
        ScheduleIsHeard(cfg, Closed(seen));
      } else {
        var closed := CloseFromRelay(seen);
        assert Log(closed, Over(reason)).log[|closed.log|] == Over(reason);
      }
    case _ =>
  }

  /** A client that is trying stops without a word exactly under the guard: before its first
      room, not even a client with retries left is told that it was given up. */
  lemma SilentStopExactly(cfg: Config, s: ClientState, a: Step)
    requires Reachable(cfg, s) && s.isConnecting && Enabled(s, a) && !ByApp(a)
    ensures StopsSilently(s, Apply(cfg, s, a)) <==> SilentGuard(s, a)
  {
    Reached(cfg, s);
    match a
    case TimerFires =>
    case CheckDone(status) =>
      ScheduleIsHeard(cfg, s.(checks := s.checks - 1));
      if status == 404 {
        assert Apply(cfg, s, a).log[|s.log|] == Over(SESSION_GONE);
      }
    case TokenDone =>
    case TokenFails => ScheduleIsHeard(cfg, Log(s.(tokens := s.tokens - 1), Failure));
    case SocketOpens =>
    case Receives(e) => ReceivedIsHeard(cfg, s, e);
    case SocketCloses(_) => ScheduleIsHeard(cfg, Closed(s));
  }

  // ---------- reconnecting without having joined ----------

  /** Since the last connect() the relay ended a session of this client for a reason it may
      retry on. */
  predicate Evicted(cfg: Config, log: seq<Entry>) {
    exists i :: 0 <= i < |log| && Evicts(cfg, log[i]) && !CalledBetween(log, i, |log|)
  }

  predicate Evicts(cfg: Config, e: Entry) {
    e.Seen? && e.event.body.SessionEnded? && Reconnectable(cfg, e.event.body.reason)
  }

  /** The same, read entry by entry. */
  predicate EvictedSoFar(cfg: Config, log: seq<Entry>) {
    |log| > 0 &&
    var before, last := log[..|log| - 1], log[|log| - 1];
    Evicts(cfg, last) || (!last.Called? && EvictedSoFar(cfg, before))
  }

  lemma {:induction false} EvictedIsSoFar(cfg: Config, log: seq<Entry>)
    ensures Evicted(cfg, log) <==> EvictedSoFar(cfg, log)
    decreases |log|
  {
    if |log| > 0 {
      var n := |log| - 1;
      var before := log[..n];
      EvictedIsSoFar(cfg, before);
      assert forall k :: 0 <= k < n ==> before[k] == log[k];
      if Evicts(cfg, log[n]) {
        assert !CalledBetween(log, n, |log|);
      } else if !log[n].Called? {
        forall i | 0 <= i < n ensures CalledBetween(log, i, |log|) <==> CalledBetween(before, i, n)
        {
          if k :| i < k < |log| && log[k].Called? {
            assert before[k].Called?;
          }
          if k :| i < k < n && before[k].Called? {
            assert log[k].Called?;
          }
        }
      } else {
        assert forall i :: 0 <= i < n ==> CalledBetween(log, i, |log|);
      }
    }
  }

  lemma EvictedSnoc(cfg: Config, log: seq<Entry>, e: Entry)
    ensures EvictedSoFar(cfg, log + [e]) <==> Evicts(cfg, e) || (!e.Called? && EvictedSoFar(cfg, log))
  {
    assert (log + [e])[..|log|] == log;
  }

  /** Before its first room a client has retries behind it exactly when it was evicted. */
  predicate Unjoined(cfg: Config, s: ClientState) {
    !s.hasJoined ==>
      && (s.retryCount > 0 <==> cfg.maxRetries > 0 && EvictedSoFar(cfg, s.log))
      && (s.timers + s.checks > 0 ==> s.retryCount > 0)
  }

  /** `more` is `log` and entries that neither start a connection nor evict. */
  predicate Quietly(cfg: Config, log: seq<Entry>, more: seq<Entry>) {
    EvictedSoFar(cfg, more) == EvictedSoFar(cfg, log)
  }

  lemma ClosedQuietly(cfg: Config, s: ClientState)
    ensures Quietly(cfg, s.log, Closed(s).log)
  {
    EvictedSnoc(cfg, s.log, Disconnected);
  }

  lemma ScheduleQuietly(cfg: Config, s: ClientState)
    ensures Quietly(cfg, s.log, ScheduleReconnect(cfg, s).log)
    ensures ScheduleReconnect(cfg, s).retryCount > 0 <==> s.retryCount > 0 || cfg.maxRetries > 0
    ensures ScheduleReconnect(cfg, s).retryCount == 0 ==> ScheduleReconnect(cfg, s).timers == s.timers
  {
    EvictedSnoc(cfg, s.log, Over(RECONNECT_FAILED));
    EvictedSnoc(cfg, s.log, Reconnecting(s.retryCount + 1));
    EvictedSnoc(cfg, s.log + [Reconnecting(s.retryCount + 1)], TimerSet(Delay(cfg, s.retryCount + 1)));
  }

  lemma ConnectUnjoined(cfg: Config, s: ClientState, sid: SessionId)
    requires Unjoined(cfg, s) && OneAtATime(s) && Enabled(s, AppConnects(sid))
    ensures Unjoined(cfg, Connect(cfg, s, sid))
  {
    EvictedSnoc(cfg, s.log, Called);
  }

  lemma DisconnectUnjoined(cfg: Config, s: ClientState)
    requires Unjoined(cfg, s)
    ensures Unjoined(cfg, Disconnect(s))
  {
    EvictedSnoc(cfg, s.log, LeaveSent);
    EvictedSnoc(cfg, s.log + [LeaveSent], Disconnected);
  }

  lemma CheckUnjoined(cfg: Config, s: ClientState, status: int)
    requires Unjoined(cfg, s) && s.checks > 0
    ensures Unjoined(cfg, RoomChecked(cfg, s.(checks := s.checks - 1), status))
  {
    ScheduleQuietly(cfg, s.(checks := s.checks - 1));
    EvictedSnoc(cfg, s.log, Over(SESSION_GONE));
  }

  lemma TokenUnjoined(cfg: Config, s: ClientState)
    requires Unjoined(cfg, s) && s.tokens > 0
    ensures Unjoined(cfg, TokenFailed(cfg, s.(tokens := s.tokens - 1)))
  {
    EvictedSnoc(cfg, s.log, Failure);
  }

  lemma ErrorUnjoined(cfg: Config, s: ClientState, code: string)
    requires Unjoined(cfg, s)
    ensures Unjoined(cfg, HandleError(s, code))
  {
    var told := Log(s, Refusal(code));
    EvictedSnoc(cfg, s.log, Refusal(code));
    ClosedQuietly(cfg, told.(explicitDisconnect := true));
    EvictedSnoc(cfg, CloseFromRelay(told).log, Over(SESSION_GONE));
  }

  lemma EndedUnjoined(cfg: Config, s: ClientState, e: Event)
    requires Unjoined(cfg, s) && e.body.SessionEnded? && s.timers + s.checks == 0
    ensures Unjoined(cfg, HandleEnded(cfg, Log(s, Seen(e)), e.body.reason))
  {
    var seen := Log(s, Seen(e));
    EvictedSnoc(cfg, s.log, Seen(e));
    if Reconnectable(cfg, e.body.reason) {
      ClosedQuietly(cfg, seen);
      ScheduleQuietly(cfg, Closed(seen));
    } else {
      ClosedQuietly(cfg, seen.(explicitDisconnect := true));
      EvictedSnoc(cfg, CloseFromRelay(seen).log, Over(e.body.reason));
    }
  }

  lemma ReceivedUnjoined(cfg: Config, s: ClientState, e: Event)
    requires Unjoined(cfg, s) && Inv(cfg, s) && Enabled(s, Receives(e))
    ensures Unjoined(cfg, Received(cfg, s, e))
  {
    EvictedSnoc(cfg, s.log, Seen(e));
    if !e.body.RoomJoined? {
      SameSocket(cfg, s, e);
      if e.body.Error? {
        ErrorUnjoined(cfg, Log(s, Seen(e)), e.body.code);
      } else if e.body.SessionEnded? {
        EndedUnjoined(cfg, s, e);
      }
    }
  }

  lemma StepUnjoined(cfg: Config, s: ClientState, a: Step)
    requires Unjoined(cfg, s) && Inv(cfg, s) && Enabled(s, a)
    ensures Unjoined(cfg, Apply(cfg, s, a))
  {
    match a
    case AppConnects(sid) => ConnectUnjoined(cfg, s, sid);
    case AppDisconnects => DisconnectUnjoined(cfg, s);
    case TimerFires =>
    case CheckDone(status) => CheckUnjoined(cfg, s, status);
    case TokenDone =>
    case TokenFails => TokenUnjoined(cfg, s);
    case SocketOpens => EvictedSnoc(cfg, s.log, JoinSent(s.sessionId, s.hasJoined));
    case Receives(e) => ReceivedUnjoined(cfg, s, e);
    case SocketCloses(_) =>
      if s.socket.Some? {
        ClosedQuietly(cfg, s);
      }
  }

  lemma {:induction false} RunUnjoined(cfg: Config, s: ClientState, steps: seq<Step>)
    requires Unjoined(cfg, s) && Inv(cfg, s) && Run(cfg, s, steps).Some?
    ensures Unjoined(cfg, Run(cfg, s, steps).value)
    decreases |steps|
  {
    if steps != [] {
      StepKeeps(cfg, s, steps[0]);
      StepUnjoined(cfg, s, steps[0]);
      RunUnjoined(cfg, Apply(cfg, s, steps[0]), steps[1..]);
    }
  }

  /** The documentation says that only a client that has joined reconnects. A client that has
      not been in a room since connect() is reconnecting, or was, exactly when it has retries at
      all and the relay ended its session for a reason it may retry on. */
  lemma UnjoinedRetriesExactly(cfg: Config, s: ClientState)
    requires Reachable(cfg, s) && !s.hasJoined
    ensures s.retryCount > 0 <==> cfg.maxRetries > 0 && Evicted(cfg, s.log)
  {
    var start, steps :| IsNew(start) && Run(cfg, start, steps) == Some(s);
    RunUnjoined(cfg, start, steps);
    EvictedIsSoFar(cfg, s.log);
  }

  lemma RunStep(cfg: Config, s: ClientState, a: Step)
    requires Reachable(cfg, s) && Enabled(s, a)
    ensures Reachable(cfg, Apply(cfg, s, a))
  {
    var start, steps :| IsNew(start) && Run(cfg, start, steps) == Some(s);
    RunSnoc(cfg, start, steps, a);
    assert Run(cfg, start, steps + [a]) == Some(Apply(cfg, s, a));
  }

  lemma {:induction false} RunSnoc(cfg: Config, s: ClientState, steps: seq<Step>, a: Step)
    requires Run(cfg, s, steps).Some? && Enabled(Run(cfg, s, steps).value, a)
    ensures Run(cfg, s, steps + [a]) == Some(Apply(cfg, Run(cfg, s, steps).value, a))
    decreases |steps|
  {
    if steps == [] {
      assert Run(cfg, Apply(cfg, s, a), [a][1..]) == Some(Apply(cfg, s, a));
      assert steps + [a] == [a];
    } else {
      RunSnoc(cfg, Apply(cfg, s, steps[0]), steps[1..], a);
      assert (steps + [a])[1..] == steps[1..] + [a];
    }
  }

  /** One that does: its token expires before the relay answers its first join. */
  lemma UnjoinedRetries(cfg: Config, start: ClientState, sid: SessionId, n: nat) returns (s: ClientState)
    requires IsNew(start) && cfg.hasGetToken && cfg.reconnect && cfg.maxRetries > 0
    ensures Reachable(cfg, s) && !s.hasJoined && s.retryCount == 1 && s.timers == 1
    ensures s.isConnecting && !s.explicitDisconnect && s.socket.None? && !ReadLog(s.log).ended && Reconnecting(1) in s.log
  {
    var expired := Event(n, "", SessionEnded("token_expired"));
    s := start;
    assert Run(cfg, start, []) == Some(s);
    RunStep(cfg, s, AppConnects(sid));
    s := Apply(cfg, s, AppConnects(sid));
    RunStep(cfg, s, TokenDone);
    s := Apply(cfg, s, TokenDone);
    RunStep(cfg, s, SocketOpens);
    s := Apply(cfg, s, SocketOpens);
    SameSocket(cfg, s, expired);
    RunStep(cfg, s, Receives(expired));
    s := Apply(cfg, s, Receives(expired));
    assert s.log[|s.log| - 2] == Reconnecting(1);
    Reached(cfg, s);
  }

  /** And then stops without a word, with retries left: the room is there, the next token fetch
      fails. It announced its attempt with onReconnecting, and no onSessionEnded follows. */
  lemma SilentStopHappens(cfg: Config, start: ClientState, sid: SessionId, n: nat) returns (s: ClientState)
    requires IsNew(start) && cfg.hasGetToken && cfg.reconnect && cfg.maxRetries > 1
    ensures Reachable(cfg, s) && Reconnecting(1) in s.log && s.retryCount < cfg.maxRetries
    ensures !s.explicitDisconnect && s.Live() == 0 && !s.isConnected && !ReadLog(s.log).ended
  {
    s := UnjoinedRetries(cfg, start, sid, n);
    Reached(cfg, s);
    RunStep(cfg, s, TimerFires);
    s := Apply(cfg, s, TimerFires);
    RunStep(cfg, s, CheckDone(200));
    s := Apply(cfg, s, CheckDone(200));
    RunStep(cfg, s, TokenFails);
    ReadSnoc(s.log, Failure);
    s := Apply(cfg, s, TokenFails);
    Reached(cfg, s);
  }
}
