/** Where a client hint leads: the same hint, the same session, for as long as its room lasts. */
module Hints {
  import opened Options
  import opened Protocol
  import opened Identity
  import opened Rooms

  /** The session a join asks for: the one it names, else the one its hint stands for, else a new one. */
  function Asked(st: Service, s: Step): SessionId
    requires s.Join?
  {
    var j := s.request;
    if j.sessionId != "" then j.sessionId
    else if j.hint != "" && j.hint in st.hints && st.hints[j.hint] != "" then st.hints[j.hint]
    else s.newSession
  }

  function AnswerTo(st: Service, s: Step): Outcome
    requires s.Join?
  {
    HandleJoin(st, s.principal, s.request, s.newSession, s.newClient).1
  }

  lemma DoorAnswers(st: Service, sid: SessionId, p: Option<Principal>, j: JoinRequest, id: ClientId)
    requires sid in st.rooms && EnterRoom(st, sid, p, j, id).1.Joined?
    ensures var e := EnterRoom(st, sid, p, j, id).1.welcome; e.body.RoomJoined? && e.body.sessionId == sid
    ensures var next := EnterRoom(st, sid, p, j, id).0; sid in next.rooms && id in next.rooms[sid].clients
  {
  }

  /** Who is let in is answered with the session it asked for, and is in that room. */
  lemma AnsweredAsAsked(st: Service, s: Step)
    requires s.Join? && Allowed(st, s) && AnswerTo(st, s).Joined?
    ensures var e := AnswerTo(st, s).welcome; e.body.RoomJoined? && e.body.sessionId == Asked(st, s) != ""
    ensures InRoom(Next(st, s), Asked(st, s), s.newClient)
  {
    var sid := Asked(st, s);
    assert sid == Resolve(st, s.request, s.newSession);
    DoorAnswers(GetOrCreateRoom(IndexHint(st, s.request.hint, sid), sid), sid, s.principal, s.request, s.newClient);
  }

  // ---------- the index, step by step ----------

  /** A join with that hint whose token lets it ask. */
  predicate Uses(s: Step, h: string) {
    h != "" && s.Join? && s.request.hint == h && AllowsRoom(s.principal, s.request.sessionId)
  }

  predicate Goes(st: Service, next: Service, sid: SessionId) {
    sid in st.rooms && sid !in next.rooms
  }

  /** What becomes of a hint: a join that uses it leaves it at the session it asked for, let in or
      not; otherwise it goes exactly with the room it leads to. */
  predicate HintMoves(st: Service, next: Service, s: Step, h: string) {
    if Uses(s, h) then h in next.hints && next.hints[h] == Asked(st, s)
    else
      && (h in next.hints <==> h in st.hints && !Goes(st, next, st.hints[h]))
      && (h in next.hints ==> next.hints[h] == st.hints[h])
  }

  lemma DoorKeepsHints(st: Service, sid: SessionId, p: Option<Principal>, j: JoinRequest, id: ClientId)
    requires sid in st.rooms
    ensures var next := EnterRoom(st, sid, p, j, id).0; next.hints == st.hints && next.rooms.Keys == st.rooms.Keys
  {
  }

  /** What a join does to the index, and that it removes no room. */
  lemma JoinHints(st: Service, p: Option<Principal>, j: JoinRequest, newSession: SessionId, id: ClientId)
    ensures var next := HandleJoin(st, p, j, newSession, id).0;
            && st.rooms.Keys <= next.rooms.Keys
            && next.hints == if AllowsRoom(p, j.sessionId) then IndexHint(st, j.hint, Resolve(st, j, newSession)).hints else st.hints
  {
    var sid := Resolve(st, j, newSession);
    DoorKeepsHints(GetOrCreateRoom(IndexHint(st, j.hint, sid), sid), sid, p, j, id);
  }

  lemma IndexMovesHints(st: Service, next: Service, s: Step, h: string)
    requires s.Join? && st.rooms.Keys <= next.rooms.Keys
    requires next.hints == if AllowsRoom(s.principal, s.request.sessionId) then IndexHint(st, s.request.hint, Asked(st, s)).hints else st.hints
    ensures HintMoves(st, next, s, h)
  {
  }

  lemma JoinMovesHints(st: Service, s: Step, next: Service, h: string)
    requires s.Join? && next == HandleJoin(st, s.principal, s.request, s.newSession, s.newClient).0
    ensures HintMoves(st, next, s, h)
  {
    JoinHints(st, s.principal, s.request, s.newSession, s.newClient);
    assert Asked(st, s) == Resolve(st, s.request, s.newSession);
    IndexMovesHints(st, next, s, h);
  }

  lemma StayMovesHints(st: Service, next: Service, s: Step, h: string)
    requires s.Leave? && next.hints == st.hints && next.rooms.Keys == st.rooms.Keys
    ensures HintMoves(st, next, s, h)
  {
  }

  lemma GoMovesHints(st: Service, next: Service, s: Step, h: string)
    requires s.Leave? && s.sid in st.rooms && next.hints == HintsWithout(st.hints, s.sid) && next.rooms == st.rooms - {s.sid}
    ensures HintMoves(st, next, s, h)
  {
  }

  /** The room stays, and the index with it. */
  predicate Kept(st: Service, next: Service) {
    next.hints == st.hints && next.rooms.Keys == st.rooms.Keys
  }

  /** The room goes, and all that led to it. */
  predicate RoomGone(st: Service, next: Service, sid: SessionId) {
    next.hints == HintsWithout(st.hints, sid) && next.rooms == st.rooms - {sid}
  }

  lemma DepartKept(st: Service, sid: SessionId, id: ClientId, reason: string)
    requires InRoom(st, sid, id)
    ensures Kept(st, Depart(st, sid, id, reason))
  {
  }

  lemma SucceedKept(st: Service, sid: SessionId, id: ClientId, reason: string, heir: ClientId)
    requires InRoom(st, sid, id) && heir in Rest(st, sid, id)
    ensures Kept(st, Succeed(st, sid, id, reason, heir))
  {
  }

  lemma RemovalGone(st: Service, sid: SessionId, id: ClientId)
    requires InRoom(st, sid, id)
    ensures RoomGone(st, EndRoom(st, sid, id), sid) && RoomGone(st, CloseRoom(st, sid, id), sid)
  {
  }

  lemma LeaveKeptOrGone(st: Service, sid: SessionId, id: ClientId, reason: string, heir: ClientId)
    requires InRoom(st, sid, id)
    ensures var next := HandleLeave(st, sid, id, reason, heir).0; Kept(st, next) || RoomGone(st, next, sid)
  {
    match KindOf(st, sid, id, heir) {
      case Departs => DepartKept(st, sid, id, reason);
      case Succeeds => SucceedKept(st, sid, id, reason, heir);
      case EndsRoom => RemovalGone(st, sid, id);
      case ClosesRoom => RemovalGone(st, sid, id);
    }
  }

  lemma LeaveMovesHints(st: Service, s: Step, next: Service, h: string)
    requires s.Leave? && s.sid in st.rooms && (Kept(st, next) || RoomGone(st, next, s.sid))
    ensures HintMoves(st, next, s, h)
  {
    if Kept(st, next) {
      StayMovesHints(st, next, s, h);
    } else {
      GoMovesHints(st, next, s, h);
    }
  }

  lemma StepMovesHints(st: Service, s: Step, h: string)
    requires Allowed(st, s)
    ensures HintMoves(st, Next(st, s), s, h)
  {
    match s {
      case Join(_, _, _, _) => JoinMovesHints(st, s, Next(st, s), h);
      case Leave(sid, id, reason, heir) =>
        LeaveKeptOrGone(st, sid, id, reason, heir);
        LeaveMovesHints(st, s, Next(st, s), h);
      case _ =>
    }
  }

  // ---------- the same hint, the same session ----------

  /** Along the run the session keeps its room, and no join takes the hint elsewhere. */
  ghost predicate Undisturbed(st: Service, steps: seq<Step>, h: string, sid: SessionId)
    requires Execute(st, steps).Some?
    decreases |steps|
  {
    sid in st.rooms && (steps != [] ==>
      && (Uses(steps[0], h) ==> steps[0].request.sessionId == "" || steps[0].request.sessionId == sid)
      && Undisturbed(Next(st, steps[0]), steps[1..], h, sid))
  }

  lemma {:induction false} HintHolds(st: Service, steps: seq<Step>, h: string, sid: SessionId)
    requires Execute(st, steps).Some? && Undisturbed(st, steps, h, sid)
    requires h in st.hints && st.hints[h] == sid && sid != ""
    ensures var final := Execute(st, steps).value; h in final.hints && final.hints[h] == sid
    decreases |steps|
  {
    if steps != [] {
      StepMovesHints(st, steps[0], h);
      HintHolds(Next(st, steps[0]), steps[1..], h, sid);
    }
  }

  /** In every run: once a join with a hint was let in, and while its room lasts and no join takes
      the hint to another session, every later join with that hint that names no session and is let
      in is answered with the same session, and joins that room. */
  lemma SameHintSameSession(maxPeers: int, before: seq<Step>, first: Step, more: seq<Step>, later: Step)
    requires Execute(NewService(maxPeers), before).Some?
    requires var st := Execute(NewService(maxPeers), before).value;
             && first.Join? && Allowed(st, first) && AnswerTo(st, first).Joined? && first.request.hint != ""
             && AnswerTo(st, first).welcome.body.RoomJoined? && Execute(Next(st, first), more).Some?
             && Undisturbed(Next(st, first), more, first.request.hint, AnswerTo(st, first).welcome.body.sessionId)
             && var final := Execute(Next(st, first), more).value;
             && later.Join? && Allowed(final, later) && AnswerTo(final, later).Joined?
             && later.request.hint == first.request.hint && later.request.sessionId == ""
    ensures var st := Execute(NewService(maxPeers), before).value;
            var final := Execute(Next(st, first), more).value;
            var sid := AnswerTo(st, first).welcome.body.sessionId;
            && AnswerTo(final, later).welcome.body.RoomJoined? && AnswerTo(final, later).welcome.body.sessionId == sid
            && InRoom(Next(final, later), sid, later.newClient)
  {
    var st := Execute(NewService(maxPeers), before).value;
    var next := Next(st, first);
    AnsweredAsAsked(st, first);
    StepMovesHints(st, first, first.request.hint);
    FirstUses(st, first);
    HintHolds(next, more, first.request.hint, Asked(st, first));
    AnsweredAsAsked(Execute(next, more).value, later);
  }

  lemma FirstUses(st: Service, s: Step)
    requires s.Join? && AnswerTo(st, s).Joined? && s.request.hint != ""
    ensures Uses(s, s.request.hint)
  {
  }

  /** In every run, what each step does to a hint; in particular an entry goes exactly as the room it
      leads to goes, which no join makes it do. */
  lemma HintGoesWithItsRoom(maxPeers: int, steps: seq<Step>, s: Step, h: string)
    requires Execute(NewService(maxPeers), steps).Some? && Allowed(Execute(NewService(maxPeers), steps).value, s)
    ensures var st := Execute(NewService(maxPeers), steps).value;
            && HintMoves(st, Next(st, s), s, h)
            && (h in st.hints ==> (h !in Next(st, s).hints <==> Goes(st, Next(st, s), st.hints[h])))
  {
    var st := Execute(NewService(maxPeers), steps).value;
    StepMovesHints(st, s, h);
    if s.Join? {
      JoinHints(st, s.principal, s.request, s.newSession, s.newClient);
    }
  }
}
