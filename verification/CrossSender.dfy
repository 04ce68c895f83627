/** Order across senders: broadcasts share a read lock, so the no-gap promise is per sender. */
module CrossSender {
  import opened Options
  import opened Protocol
  import opened Delivery
  import opened NoGap

  // ---------- one delivery in flight at a time ----------

  /** Along the run, never more than n senders between the two halves of deliver. */
  predicate InFlight(p: Pipe, acts: seq<Action>, n: nat)
    requires Run(p, acts).Some?
    decreases |acts|
  {
    |p.room.committed| <= n && (acts != [] ==> InFlight(Apply(p, acts[0]), acts[1..], n))
  }

  /** The channel's history follows the order of the slow checks, across all senders. */
  predicate SerialOrder(r: RoomSide, accepted: seq<Offer>) {
    && (r.committed == map[] ==> accepted <= r.offered && (!r.slow ==> accepted == r.offered))
    && forall s :: s in r.committed ==>
                     && r.committed == map[s := r.committed[s]]
                     && accepted + [Offer(s, r.committed[s])] <= r.offered
                     && (!r.slow ==> accepted + [Offer(s, r.committed[s])] == r.offered)
  }

  lemma AtMostOneKey(m: map<Sender, Event>, s: Sender)
    requires |m| <= 1 && s in m
    ensures m == map[s := m[s]]
  {
    assert |m.Keys - {s}| == 0;
    forall t | t in m ensures t == s
    {
      assert t in m.Keys - {s} || t == s;
    }
  }

  lemma SerialCheck(p: Pipe, s: Sender, e: Event)
    requires SerialOrder(p.room, p.chan.accepted) && SenderEnabled(p, Check(s, e))
    requires |SenderApply(p, Check(s, e)).room.committed| <= 1
    ensures SerialOrder(SenderApply(p, Check(s, e)).room, p.chan.accepted)
  {
    if !p.room.slow {
      var committed := SenderApply(p, Check(s, e)).room.committed;
      AtMostOneKey(committed, s);
      assert committed.Keys == p.room.committed.Keys + {s};
      assert |p.room.committed.Keys| == 0;
    }
  }

  lemma SerialSelect(p: Pipe, s: Sender)
    requires SerialOrder(p.room, p.chan.accepted) && SenderEnabled(p, Select(s))
    ensures var q := SenderApply(p, Select(s)); SerialOrder(q.room, q.chan.accepted)
  {
    assert SenderApply(p, Select(s)).room.committed == map[];
  }

  lemma SerialStep(p: Pipe, a: Action)
    requires SerialOrder(p.room, p.chan.accepted) && Enabled(p, a) && |Apply(p, a).room.committed| <= 1
    ensures SerialOrder(Apply(p, a).room, Apply(p, a).chan.accepted)
  {
    match a {
      case SenderDoes(Check(s, e)) => SerialCheck(p, s, e);
      case SenderDoes(Select(s)) => SerialSelect(p, s);
      case _ =>
    }
  }

  lemma {:induction false} SerialRun(p: Pipe, acts: seq<Action>)
    requires SerialOrder(p.room, p.chan.accepted) && Run(p, acts).Some? && InFlight(p, acts, 1)
    ensures var q := Run(p, acts).value; SerialOrder(q.room, q.chan.accepted)
    decreases |acts|
  {
    if acts != [] {
      SerialStep(p, acts[0]);
      SerialRun(Apply(p, acts[0]), acts[1..]);
    }
  }

  /** With deliveries one at a time, what the client received is an unbroken prefix of
      everything offered to it, whoever sent it. */
  lemma NoGapWhenOneInFlight(acts: seq<Action>)
    requires Run(OPENED, acts).Some? && InFlight(OPENED, acts, 1)
    ensures var q := Run(OPENED, acts).value; RoomPart(q.stream.received) <= q.room.offered
  {
    var q := Run(OPENED, acts).value;
    OpenedInv();
    RunKeepsInv(OPENED, acts);
    SerialRun(OPENED, acts);
    RoomPartAppend(q.stream.received, q.stream.queue);
    assert q.chan.accepted <= q.room.offered by {
      if s :| s in q.room.committed {
        assert q.chan.accepted <= q.chan.accepted + [Offer(s, q.room.committed[s])];
      }
    }
  }

  // ---------- two in flight ----------

  /** Only these senders broadcast. */
  predicate SendersIn(acts: seq<Action>, senders: set<Sender>) {
    forall i :: 0 <= i < |acts| && acts[i].SenderDoes? ==> acts[i].sender.sender in senders
  }

  function Copies(o: Offer, n: nat): (r: seq<Offer>)
    ensures |r| == n
  {
    seq(n, _ => o)
  }

  /** The pipe of a client to which n events were delivered while its bridge never ran. */
  function Filled(o: Offer, n: nat): Pipe {
    Pipe(RoomSide({}, map[], true, false, Copies(o, n)), Channel(Copies(o, n), false, Copies(o, n)), FRESH.stream)
  }

  lemma {:induction false} FilledIsReached(o: Offer, n: nat) returns (acts: seq<Action>)
    requires n <= CAPACITY
    ensures Run(OPENED, acts) == Some(Filled(o, n)) && SendersIn(acts, {o.sender})
  {
    if n == 0 {
      JoinIsRun(OPENED);
      acts := JOINING;
    } else {
      var before := FilledIsReached(o, n - 1);
      var last := Filled(o, n - 1);
      DeliverIsRun(last, o.sender, o.event);
      acts := before + DeliverActs(last, o.sender, o.event);
      RunAppend(OPENED, before, DeliverActs(last, o.sender, o.event));
      assert Copies(o, n - 1) + [o] == Copies(o, n);
    }
  }

  /** The pipe after the bridge took the first event, passed it on, and the reader got it. */
  function HandedOver(p: Pipe): Pipe
    requires p.chan.queue != []
  {
    Pipe(p.room, Pop(p.chan), p.stream.(bridge := Waiting, queue := [], received := p.stream.received + [FromRoom(p.chan.queue[0])]))
  }

  lemma OneArrives(p: Pipe) returns (acts: seq<Action>)
    requires p.stream.bridge.Waiting? && p.stream.queue == [] && !p.stream.eof && p.chan.queue != []
    ensures Run(p, acts) == Some(HandedOver(p)) && SendersIn(acts, {})
  {
    var taken := BridgeApply(p, Take);
    var put := BridgeApply(taken, Forward);
    assert LineApply(put, RecvItem) == HandedOver(p);
    Run2(p, BridgeDoes(Take), BridgeDoes(Forward), taken);
    Run1(put, LineDoes(RecvItem));
    RunAppend(p, [BridgeDoes(Take), BridgeDoes(Forward)], [LineDoes(RecvItem)]);
    acts := [BridgeDoes(Take), BridgeDoes(Forward)] + [LineDoes(RecvItem)];
  }

  /** A bridge and a reader that keep going hand over everything the channel holds. */
  lemma {:induction false} AcceptedCanArrive(p: Pipe) returns (acts: seq<Action>)
    requires p.stream.bridge.Waiting? && p.stream.queue == [] && !p.stream.eof
    ensures Run(p, acts).Some? && SendersIn(acts, {})
    ensures var q := Run(p, acts).value;
            && q.room == p.room && q.chan.accepted == p.chan.accepted
            && RoomPart(q.stream.received) == RoomPart(p.stream.received) + p.chan.queue
    decreases |p.chan.queue|
  {
    if p.chan.queue == [] {
      acts := [];
    } else {
      var first := OneArrives(p);
      var rest := AcceptedCanArrive(HandedOver(p));
      acts := first + rest;
      RunAppend(p, first, rest);
      RoomPartSnoc(p.stream.received, FromRoom(p.chan.queue[0]));
      assert p.chan.queue == [p.chan.queue[0]] + p.chan.queue[1..];
    }
  }

  /** Two senders in flight at a full channel: the first is dropped, the bridge frees a slot,
      the second still gets in. */
  function BothChecked(a: Offer, b: Offer): seq<Action> {
    [SenderDoes(RLock(a.sender)), SenderDoes(RLock(b.sender)),
     SenderDoes(Check(a.sender, a.event)), SenderDoes(Check(b.sender, b.event))]
  }

  function BothSent(a: Offer, b: Offer): seq<Action> {
    [SenderDoes(Select(a.sender)), BridgeDoes(Take), SenderDoes(Select(b.sender)), BridgeDoes(Forward)]
  }

  function Overtaking(a: Offer, b: Offer): seq<Action> {
    BothChecked(a, b) + BothSent(a, b) + [LineDoes(RecvItem)]
  }

  lemma OvertakingRun(fill: Offer, a: Offer, b: Offer) returns (q: Pipe)
    requires a.sender != b.sender
    ensures Run(Filled(fill, CAPACITY), Overtaking(a, b)) == Some(q)
    ensures q.room.offered == Copies(fill, CAPACITY) + [a] + [b]
    ensures q.chan.queue == Copies(fill, CAPACITY)[1..] + [b] && q.chan.accepted == Copies(fill, CAPACITY) + [b]
    ensures q.room.committed == map[]
    ensures q.stream.received == [FromRoom(fill)] && q.stream.bridge.Waiting? && q.stream.queue == [] && !q.stream.eof
  {
    var c, d := BothChecked(a, b), BothSent(a, b);
    var p0 := Filled(fill, CAPACITY);
    var p1 := SenderApply(p0, RLock(a.sender));
    var p2 := SenderApply(p1, RLock(b.sender));
    var p3 := SenderApply(p2, Check(a.sender, a.event));
    var p4 := SenderApply(p3, Check(b.sender, b.event));
    Run4(p0, c[0], c[1], c[2], c[3], p1, p2, p3);
    var p5 := SenderApply(p4, Select(a.sender));
    var p6 := BridgeApply(p5, Take);
    var p7 := SenderApply(p6, Select(b.sender));
    var p8 := BridgeApply(p7, Forward);
    Run4(p4, d[0], d[1], d[2], d[3], p5, p6, p7);
    q := LineApply(p8, RecvItem);
    Run1(p8, LineDoes(RecvItem));
    RunAppend(p0, c, d);
    RunAppend(p0, c + d, [LineDoes(RecvItem)]);
  }

  /** Without that restriction the promise is false across senders: a client can receive
      the event of one sender although the event another sender offered before it was
      dropped, and is lost for good. */
  lemma GapAcrossSenders(fill: Offer, a: Offer, b: Offer) returns (acts: seq<Action>)
    requires a.sender != b.sender
    ensures Run(OPENED, acts).Some? && SendersIn(acts, {fill.sender, a.sender, b.sender})
    ensures var q := Run(OPENED, acts).value;
            && q.room.offered == Copies(fill, CAPACITY) + [a] + [b]
            && RoomPart(q.stream.received) == Copies(fill, CAPACITY) + [b]
            && Missed(q, a.sender)
  {
    var filling := FilledIsReached(fill, CAPACITY);
    var q := OvertakingRun(fill, a, b);
    var draining := AcceptedCanArrive(q);
    RunAppend(OPENED, filling, Overtaking(a, b));
    RunAppend(OPENED, filling + Overtaking(a, b), draining);
    acts := filling + Overtaking(a, b) + draining;
    RoomPartSnoc([], FromRoom(fill));
    assert [] + [FromRoom(fill)] == [FromRoom(fill)];
    assert Copies(fill, CAPACITY) == [fill] + Copies(fill, CAPACITY)[1..];
    BySnoc(a.sender, Copies(fill, CAPACITY), b);
    BySnoc(a.sender, Copies(fill, CAPACITY), a);
    BySnoc(a.sender, Copies(fill, CAPACITY) + [a], b);
  }

  // ---------- exactly when ----------

  /** A sender in flight holds the read lock, so there are never more in flight than senders. */
  lemma {:induction false} FewSenders(p: Pipe, acts: seq<Action>, senders: set<Sender>)
    requires Inv(p) && p.room.readers <= senders && SendersIn(acts, senders) && Run(p, acts).Some?
    ensures InFlight(p, acts, |senders|)
    decreases |acts|
  {
    assert p.room.committed.Keys <= senders;
    SizeOfSubset(p.room.committed.Keys, senders);
    assert |p.room.committed| == |p.room.committed.Keys|;
    if acts != [] {
      var q := Apply(p, acts[0]);
      assert Run(p, [acts[0]]) == Some(q);
      RunKeepsInv(p, [acts[0]]);
      ReadersStep(p, acts[0], senders);
      FewSenders(q, acts[1..], senders);
    }
  }

  lemma SizeOfSubset(a: set<Sender>, b: set<Sender>)
    requires a <= b
    ensures |a| <= |b|
  {
    assert b == a + (b - a);
  }

  lemma ReadersStep(p: Pipe, a: Action, senders: set<Sender>)
    requires p.room.readers <= senders && Enabled(p, a) && (a.SenderDoes? ==> a.sender.sender in senders)
    ensures Apply(p, a).room.readers <= senders
  {
  }

  /** The promise across senders, for runs of these senders. */
  ghost predicate PrefixFor(senders: set<Sender>) {
    forall acts :: Run(OPENED, acts).Some? && SendersIn(acts, senders) ==> PrefixAcross(Run(OPENED, acts).value)
  }

  /** The promise across senders, for runs with at most n deliveries in flight. */
  ghost predicate PrefixUpTo(n: nat) {
    forall acts :: Run(OPENED, acts).Some? && InFlight(OPENED, acts, n) ==> PrefixAcross(Run(OPENED, acts).value)
  }

  predicate PrefixAcross(q: Pipe) {
    RoomPart(q.stream.received) <= q.room.offered
  }

  lemma Overtaken(a: Sender, b: Sender) returns (acts: seq<Action>)
    requires a != b
    ensures Run(OPENED, acts).Some? && SendersIn(acts, {a, b}) && !PrefixAcross(Run(OPENED, acts).value)
  {
    var first, second := Offer(a, Event(0, a, SceneInitRequest)), Offer(b, Event(1, b, SceneInitRequest));
    acts := GapAcrossSenders(first, first, second);
    var q := Run(OPENED, acts).value;
    assert RoomPart(q.stream.received)[CAPACITY] == second && q.room.offered[CAPACITY] == first;
  }

  /** What a client received is an unbroken prefix of everything offered to it, in every run of
      a set of senders, exactly when there is at most one sender. */
  lemma PrefixIffOneSender(senders: set<Sender>)
    ensures PrefixFor(senders) <==> |senders| <= 1
  {
    if |senders| <= 1 {
      forall acts | Run(OPENED, acts).Some? && SendersIn(acts, senders) ensures PrefixAcross(Run(OPENED, acts).value)
      {
        OpenedInv();
        FewSenders(OPENED, acts, senders);
        FewerInFlight(OPENED, acts, |senders|, 1);
        NoGapWhenOneInFlight(acts);
      }
    } else {
      var a :| a in senders;
      assert |senders - {a}| > 0;
      var b :| b in senders - {a};
      var acts := Overtaken(a, b);
      assert SendersIn(acts, senders);
    }
  }

  lemma {:induction false} FewerInFlight(p: Pipe, acts: seq<Action>, m: nat, n: nat)
    requires Run(p, acts).Some? && InFlight(p, acts, m) && m <= n
    ensures InFlight(p, acts, n)
    decreases |acts|
  {
    if acts != [] {
      FewerInFlight(Apply(p, acts[0]), acts[1..], m, n);
    }
  }

  /** The same by deliveries: exactly when at most one is ever between its check and its send. */
  lemma PrefixIffOneInFlight(n: nat)
    ensures PrefixUpTo(n) <==> n <= 1
  {
    if n <= 1 {
      forall acts | Run(OPENED, acts).Some? && InFlight(OPENED, acts, n) ensures PrefixAcross(Run(OPENED, acts).value)
      {
        FewerInFlight(OPENED, acts, n, 1);
        NoGapWhenOneInFlight(acts);
      }
    } else {
      var acts := Overtaken("a", "b");
      OpenedInv();
      FewSenders(OPENED, acts, {"a", "b"});
      FewerInFlight(OPENED, acts, 2, n);
    }
  }
}
