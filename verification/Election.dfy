/** Who answers a SceneInitRequest: the editor's view of the room and the lowest-id rule. */
module Election {
  import opened Protocol
  import opened Delivery
  import opened Rooms
  import opened RoomTable
  import opened Pipes
  import opened Rosters
  import opened RosterLaws
  import PeerEvents
  import RoomLaws

  // ---------- the order of client ids ----------

  /** Strings compared code unit by code unit, as Array.prototype.sort does. */
  predicate Leq(a: string, b: string) {
    a == [] || (b != [] && (a[0] < b[0] || (a[0] == b[0] && Leq(a[1..], b[1..]))))
  }

  lemma SameHead(a: string, b: string, i: nat)
    requires 0 < i <= |a| && i <= |b| && a[..i] == b[..i]
    ensures a[0] == b[0]
  {
    assert a[..i][0] == b[..i][0];
  }

  /** The lexicographic order: one is the beginning of the other, or the first place where they
      differ decides. */
  lemma {:induction false} LeqMeaning(a: string, b: string)
    ensures Leq(a, b) <==> a <= b || exists i :: 0 <= i < |a| && i < |b| && a[..i] == b[..i] && a[i] < b[i]
  {
    if a != [] && b != [] && a[0] == b[0] {
      LeqMeaning(a[1..], b[1..]);
      assert a == [a[0]] + a[1..] && b == [b[0]] + b[1..];
      if i :| 0 <= i < |a[1..]| && i < |b[1..]| && a[1..][..i] == b[1..][..i] && a[1..][i] < b[1..][i] {
        assert a[..i + 1] == [a[0]] + a[1..][..i] && b[..i + 1] == [b[0]] + b[1..][..i];
        assert a[i + 1] < b[i + 1];
      }
      if i :| 0 <= i < |a| && i < |b| && a[..i] == b[..i] && a[i] < b[i] {
        assert a[1..][..i - 1] == a[..i][1..] && b[1..][..i - 1] == b[..i][1..];
        assert a[1..][i - 1] < b[1..][i - 1];
      }
    } else if a != [] && b != [] {
      assert a[..0] == b[..0];
      if i :| 0 <= i < |a| && i < |b| && a[..i] == b[..i] && a[i] < b[i] {
        if i > 0 {
          SameHead(a, b, i);
        }
      }
    }
  }

  lemma {:induction false} LeqTotal(a: string, b: string)
    ensures Leq(a, b) || Leq(b, a)
    ensures Leq(a, b) && Leq(b, a) ==> a == b
  {
    if a != [] && b != [] && a[0] == b[0] {
      LeqTotal(a[1..], b[1..]);
      assert a == [a[0]] + a[1..] && b == [b[0]] + b[1..];
    }
  }

  lemma {:induction false} LeqTransitive(a: string, b: string, c: string)
    requires Leq(a, b) && Leq(b, c)
    ensures Leq(a, c)
  {
    if a != [] && a[0] == b[0] && b[0] == c[0] {
      LeqTransitive(a[1..], b[1..], c[1..]);
    }
  }

  function Insert(x: string, sorted: seq<string>): seq<string> {
    if sorted == [] || Leq(x, sorted[0]) then [x] + sorted else [sorted[0]] + Insert(x, sorted[1..])
  }

  function Sort(ids: seq<string>): seq<string> {
    if ids == [] then [] else Insert(ids[0], Sort(ids[1..]))
  }

  predicate Sorted(s: seq<string>) {
    forall i, j :: 0 <= i < j < |s| ==> Leq(s[i], s[j])
  }

  lemma {:induction false} InsertSorts(x: string, s: seq<string>)
    requires Sorted(s)
    ensures Sorted(Insert(x, s)) && multiset(Insert(x, s)) == multiset(s) + multiset{x}
  {
    if s != [] {
      assert s == [s[0]] + s[1..];
      if Leq(x, s[0]) {
        forall i | 0 <= i < |s| ensures Leq(x, s[i])
        {
          if i > 0 {
            LeqTransitive(x, s[0], s[i]);
          }
        }
      } else {
        LeqTotal(x, s[0]);
        InsertSorts(x, s[1..]);
        var t := Insert(x, s[1..]);
        forall i | 0 <= i < |t| ensures Leq(s[0], t[i])
        {
          assert t[i] in multiset(t);
          assert t[i] in s[1..] || t[i] == x;
        }
      }
    }
  }

  lemma {:induction false} SortSorts(ids: seq<string>)
    ensures Sorted(Sort(ids)) && multiset(Sort(ids)) == multiset(ids)
  {
    if ids != [] {
      SortSorts(ids[1..]);
      InsertSorts(ids[0], Sort(ids[1..]));
      assert ids == [ids[0]] + ids[1..];
    }
  }

  function Without(ids: seq<ClientId>, x: ClientId): seq<ClientId> {
    if ids == [] then []
    else if ids[0] == x then Without(ids[1..], x)
    else [ids[0]] + Without(ids[1..], x)
  }

  lemma {:induction false} WithoutMeaning(ids: seq<ClientId>, x: ClientId)
    ensures forall y :: y in Without(ids, x) <==> y in ids && y != x
  {
    if ids != [] {
      WithoutMeaning(ids[1..], x);
      assert forall y :: y in ids <==> y == ids[0] || y in ids[1..];
    }
  }

  /** The lowest-id branch of the responder rule, over the peer map's keys in any order. */
  predicate ShouldRespond(me: ClientId, peerIds: seq<ClientId>, from: ClientId) {
    var candidates := Without(peerIds, from);
    me != "" && candidates != [] && Sort(candidates)[0] == me
  }

  predicate Lowest(id: ClientId, ids: set<ClientId>) {
    id in ids && forall x :: x in ids ==> Leq(id, x)
  }

  lemma SortedHead(candidates: seq<ClientId>)
    requires candidates != []
    ensures Sort(candidates) != [] && Sort(candidates)[0] in candidates
    ensures forall x :: x in candidates ==> Leq(Sort(candidates)[0], x)
  {
    var s := Sort(candidates);
    SortSorts(candidates);
    assert candidates[0] in multiset(candidates);
    assert candidates[0] in multiset(s);
    assert s[0] in multiset(s);
    LeqTotal(s[0], s[0]);
    forall x | x in candidates ensures Leq(s[0], x)
    {
      assert x in multiset(candidates);
      assert x in multiset(s);
      assert x in s;
      var i :| 0 <= i < |s| && s[i] == x;
    }
  }

  /** Whatever order the map lists its keys in, the branch picks the lowest id that is not
      the requester's. */
  lemma ShouldRespondMeaning(me: ClientId, peerIds: seq<ClientId>, from: ClientId)
    ensures ShouldRespond(me, peerIds, from) <==> me != "" && Lowest(me, Ids(peerIds) - {from})
  {
    var candidates := Without(peerIds, from);
    WithoutMeaning(peerIds, from);
    if candidates != [] {
      SortedHead(candidates);
      var head := Sort(candidates)[0];
      assert head in Ids(peerIds) - {from};
      if Lowest(me, Ids(peerIds) - {from}) {
        LeqTotal(me, head);
      }
    } else {
      forall x | x in Ids(peerIds) - {from} ensures x in candidates
      {
      }
    }
  }

  // ---------- the editor's view ----------

  /** The editor's own id and peer map; both are emptied by a reset. */
  datatype View = View(me: ClientId, peers: set<ClientId>)

  const BLANK := View("", {})

  function Watch(v: View, e: Event): View {
    match e.body
    case RoomJoined(self, _, peers, _) => View(self, v.peers + (if self != "" then {self} else {}) + Known(peers))
    case PeerJoined(peer) => if peer.clientId != "" then v.(peers := v.peers + {peer.clientId}) else v
    case PeerLeft(id, _, _) => v.(peers := v.peers - {id})
    case SessionEnded(_) => BLANK
    case CredentialsChanged(_) => BLANK
    case _ => v
  }

  function ViewAfter(welcome: Event, log: seq<Offer>): View {
    if log == [] then Watch(BLANK, welcome)
    else Watch(ViewAfter(welcome, log[..|log| - 1]), log[|log| - 1].event)
  }

  predicate Resets(o: Offer) {
    o.event.body.SessionEnded? || o.event.body.CredentialsChanged?
  }

  predicate RoomEventsOnly(log: seq<Offer>) {
    forall i :: 0 <= i < |log| ==> !log[i].event.body.RoomJoined?
  }

  /** Until a reset the editor sees the client's own roster; after one it has no id. */
  lemma {:induction false} ViewIsRoster(welcome: Event, log: seq<Offer>)
    requires welcome.body.RoomJoined? && RoomEventsOnly(log)
    ensures if exists i :: 0 <= i < |log| && Resets(log[i]) then ViewAfter(welcome, log).me == ""
            else ViewAfter(welcome, log) == View(welcome.body.self, Roster(welcome, log))
  {
    if log != [] {
      ViewIsRoster(welcome, log[..|log| - 1]);
      if i :| 0 <= i < |log| && Resets(log[i]) {
        if i < |log| - 1 {
          assert Resets(log[..|log| - 1][i]);
        }
      }
    }
  }

  // ---------- the election, over every run ----------

  /** Client c reads the request e at position i of its queue. */
  predicate Reads(c: Client, e: Event, i: nat) {
    i < |c.pipe.chan.accepted| && c.pipe.chan.accepted[i].event == e && e.body.SceneInitRequest?
  }

  /** It then takes the lowest-id branch. */
  predicate Elected(c: Client, e: Event, i: nat)
    requires Reads(c, e, i)
  {
    var v := ViewAfter(c.welcome, c.pipe.chan.accepted[..i]);
    v.me != "" && Lowest(v.me, v.peers - {e.from})
  }

  /** What a client's record says about a request it reads. */
  lemma ReaderSees(at: map<nat, Crowd>, c: Client, e: Event, i: nat)
    requires ClientLogOk(c, at) && InOrder(c.pipe) && Reads(c, e, i)
    ensures e.eventId in at && Roster(c.welcome, c.pipe.chan.accepted[..i]) == at[e.eventId].members
    ensures RoomEventsOnly(c.pipe.chan.accepted[..i])
  {
    var log, got := c.pipe.room.offered, c.pipe.chan.accepted;
    assert got[..i] == log[..i] && got[i] == log[i];
    assert RecordOk(c.welcome, log, i + 1, SessionOf(c), at);
    assert log[..i + 1] == log[..i] + [log[i]];
    RosterSnoc(c.welcome, log[..i], log[i]);
    forall k | 0 <= k < i ensures !log[..i][k].event.body.RoomJoined?
    {
      assert RecordOk(c.welcome, log, k + 1, SessionOf(c), at);
      assert log[..i][k] == log[k];
    }
  }

  /** However late they read their queues, all who read a request hold the same roster: the
      room's membership when it was broadcast. */
  lemma SameRoster(maxPeers: int, steps: seq<Step>, e: Event,
                                      id1: ClientId, c1: Client, i: nat, id2: ClientId, c2: Client, j: nat)
    requires Execute(NewService(maxPeers), steps).Some?
    requires var st := Execute(NewService(maxPeers), steps).value; IsClient(st, id1, c1) && IsClient(st, id2, c2)
    requires Reads(c1, e, i) && Reads(c2, e, j)
    ensures Roster(c1.welcome, c1.pipe.chan.accepted[..i]) == Roster(c2.welcome, c2.pipe.chan.accepted[..j])
  {
    var st := Execute(NewService(maxPeers), steps).value;
    SoundRun(maxPeers, steps);
    SoundClient(st, id1, c1);
    SoundClient(st, id2, c2);
    ReaderSees(st.at, c1, e, i);
    ReaderSees(st.at, c2, e, j);
  }

  predicate NoReset(log: seq<Offer>) {
    forall k :: 0 <= k < |log| ==> !Resets(log[k])
  }

  /** A reader is elected exactly when it has the lowest id, the requester apart, of those in
      the room when the request was broadcast, and no reset came before. */
  lemma ElectedIsLowest(at: map<nat, Crowd>, c: Client, e: Event, i: nat)
    requires ClientLogOk(c, at) && InOrder(c.pipe) && Reads(c, e, i) && SelfOf(c) != ""
    ensures e.eventId in at
    ensures Elected(c, e, i) <==>
            Lowest(SelfOf(c), at[e.eventId].members - {e.from}) && NoReset(c.pipe.chan.accepted[..i])
  {
    ReaderSees(at, c, e, i);
    ViewIsRoster(c.welcome, c.pipe.chan.accepted[..i]);
  }

  lemma ElectedHasId(at: map<nat, Crowd>, c: Client, e: Event, i: nat)
    requires ClientLogOk(c, at) && InOrder(c.pipe) && Reads(c, e, i) && Elected(c, e, i)
    ensures SelfOf(c) != ""
  {
    ReaderSees(at, c, e, i);
    if c.welcome.body.RoomJoined? {
      ViewIsRoster(c.welcome, c.pipe.chan.accepted[..i]);
    } else {
      NoWelcomeNoId(c.welcome, c.pipe.chan.accepted[..i]);
    }
  }

  lemma {:induction false} NoWelcomeNoId(welcome: Event, log: seq<Offer>)
    requires !welcome.body.RoomJoined? && RoomEventsOnly(log)
    ensures ViewAfter(welcome, log).me == ""
  {
    if log != [] {
      NoWelcomeNoId(welcome, log[..|log| - 1]);
    }
  }

  /** At most one client takes the lowest-id branch for a request, in any run. */
  lemma AtMostOneElected(maxPeers: int, steps: seq<Step>, e: Event,
                                            id1: ClientId, c1: Client, i: nat, id2: ClientId, c2: Client, j: nat)
    requires Execute(NewService(maxPeers), steps).Some?
    requires var st := Execute(NewService(maxPeers), steps).value; IsClient(st, id1, c1) && IsClient(st, id2, c2)
    requires Reads(c1, e, i) && Elected(c1, e, i) && Reads(c2, e, j) && Elected(c2, e, j)
    ensures id1 == id2
  {
    var st := Execute(NewService(maxPeers), steps).value;
    SoundRun(maxPeers, steps);
    SoundClient(st, id1, c1);
    SoundClient(st, id2, c2);
    ElectedHasId(st.at, c1, e, i);
    ElectedHasId(st.at, c2, e, j);
    ElectedIsLowest(st.at, c1, e, i);
    ElectedIsLowest(st.at, c2, e, j);
    LeqTotal(id1, id2);
  }

  lemma RequestReaches(st: Service, sid: SessionId, from: ClientId, id: ClientId)
    requires InRoom(st, sid, id) && id != from && InOrder(st.rooms[sid].clients[id].pipe)
    requires !Relay(st, sid, from, SceneInitRequest).0.rooms[sid].clients[id].pipe.room.slow
    ensures var c := Relay(st, sid, from, SceneInitRequest).0.rooms[sid].clients[id];
            c.pipe.chan.accepted != []
            && Reads(c, Event(st.nextEvent, from, SceneInitRequest), |c.pipe.chan.accepted| - 1)
  {
    var c := Relay(st, sid, from, SceneInitRequest).0.rooms[sid].clients[id];
    assert c == Offered(st.rooms[sid].clients[id], Event(st.nextEvent, from, SceneInitRequest));
  }

  lemma SoundAfter(st: Service, s: Step) returns (next: Service)
    requires Sound(st) && Allowed(st, s)
    ensures next == Next(st, s) && Sound(next)
  {
    next := Next(st, s);
    StepKeepsTable(st, s);
    StepOk(st, s);
    StepKeepsRosters(st, s);
  }

  lemma NonEmptyId(st: Service, sid: SessionId, id: ClientId)
    requires TableInv(st) && InRoom(st, sid, id)
    ensures id != ""
  {
    assert RoomOk(st.maxPeers, sid, st.rooms[sid]);
  }

  /** A request sent now is queued, as the last thing so far, for every other member the
      broadcast did not find or leave slow; whether it is elected is settled. */
  lemma LowestNow(maxPeers: int, steps: seq<Step>, sid: SessionId, from: ClientId, id: ClientId)
    requires Execute(NewService(maxPeers), steps).Some?
    requires var st := Execute(NewService(maxPeers), steps).value;
             && InRoom(st, sid, from) && InRoom(st, sid, id) && id != from
             && !Relay(st, sid, from, SceneInitRequest).0.rooms[sid].clients[id].pipe.room.slow
    ensures var st := Execute(NewService(maxPeers), steps).value;
            var c := Relay(st, sid, from, SceneInitRequest).0.rooms[sid].clients[id];
            var e, got := Event(st.nextEvent, from, SceneInitRequest), c.pipe.chan.accepted;
            && got != [] && Reads(c, e, |got| - 1)
            && (Elected(c, e, |got| - 1) <==> Lowest(id, Members(st, sid) - {from}) && NoReset(got[..|got| - 1]))
  {
    var st := Execute(NewService(maxPeers), steps).value;
    var s := Send(sid, from, SceneInitRequest);
    SoundRun(maxPeers, steps);
    SoundClient(st, id, st.rooms[sid].clients[id]);
    RequestReaches(st, sid, from, id);
    var next := SoundAfter(st, s);
    var c := next.rooms[sid].clients[id];
    SoundClient(next, id, c);
    NonEmptyId(st, sid, id);
    ElectedIsLowest(next.at, c, Event(st.nextEvent, from, SceneInitRequest), |c.pipe.chan.accepted| - 1);
  }

  lemma LaterReader(c: Client, later: Client, e: Event, i: nat)
    requires PeerEvents.Continues(c, later) && Reads(c, e, i)
    ensures Reads(later, e, i) && later.pipe.chan.accepted[..i] == c.pipe.chan.accepted[..i]
    ensures Elected(later, e, i) <==> Elected(c, e, i)
  {
    assert later.pipe.chan.accepted[..i] == c.pipe.chan.accepted[..i];
  }

  /** The same however the run goes on and however late the request is read, by clients still in
      the room or gone: of those it was queued for, exactly the lowest id of the whole room, the
      requester apart, is elected, unless a reset came before. */
  lemma LowestIsElected(maxPeers: int, steps: seq<Step>, sid: SessionId, from: ClientId, more: seq<Step>,
                                           id: ClientId, c: Client) returns (i: nat)
    requires Execute(NewService(maxPeers), steps).Some?
    requires var st := Execute(NewService(maxPeers), steps).value;
             && InRoom(st, sid, from) && InRoom(st, sid, id) && id != from
             && var sent := Relay(st, sid, from, SceneInitRequest).0;
             && !sent.rooms[sid].clients[id].pipe.room.slow
             && Execute(sent, more).Some? && IsClient(Execute(sent, more).value, id, c)
    ensures var st := Execute(NewService(maxPeers), steps).value;
            var e := Event(st.nextEvent, from, SceneInitRequest);
            && Reads(c, e, i)
            && (Elected(c, e, i) <==> Lowest(id, Members(st, sid) - {from}) && NoReset(c.pipe.chan.accepted[..i]))
  {
    var st := Execute(NewService(maxPeers), steps).value;
    var sent := Relay(st, sid, from, SceneInitRequest).0;
    var now := sent.rooms[sid].clients[id];
    LowestNow(maxPeers, steps, sid, from, id);
    RoomLaws.TableAfter(maxPeers, steps);
    RelayKeepsTable(st, sid, from, SceneInitRequest);
    PeerEvents.MemberIsClient(sent, sid, id);
    PeerEvents.RunContinues(sent, more, Execute(sent, more).value, id, now, c);
    i := |now.pipe.chan.accepted| - 1;
    LaterReader(now, c, Event(st.nextEvent, from, SceneInitRequest), i);
  }
}
