/** What the delivery path promises, over every interleaving of its goroutines. */
module NoGap {
  import opened Options
  import opened Protocol
  import opened Delivery

  // ---------- runs ----------

  lemma {:induction false} RunKeepsInv(p: Pipe, acts: seq<Action>)
    requires Inv(p) && Run(p, acts).Some?
    ensures Inv(Run(p, acts).value)
    decreases |acts|
  {
    if acts != [] {
      var q := Apply(p, acts[0]);
      ShapeStep(p, acts[0]);
      SenderOrderStep(p, acts[0]);
      FlowStep(p, acts[0]);
      EndsStep(p, acts[0]);
      RunKeepsInv(q, acts[1..]);
    }
  }

  lemma {:induction false} RunAppend(p: Pipe, a: seq<Action>, b: seq<Action>)
    requires Run(p, a).Some?
    ensures Run(p, a + b) == Run(Run(p, a).value, b)
    decreases |a|
  {
    if a == [] {
      assert a + b == b;
    } else {
      assert (a + b)[1..] == a[1..] + b;
      RunAppend(Apply(p, a[0]), a[1..], b);
    }
  }

  lemma Run1(p: Pipe, a: Action)
    requires Enabled(p, a)
    ensures Run(p, [a]) == Some(Apply(p, a))
  {
    assert Run(Apply(p, a), [a][1..]) == Some(Apply(p, a));
  }

  lemma Run2(p: Pipe, a: Action, b: Action, q: Pipe)
    requires Enabled(p, a) && q == Apply(p, a) && Enabled(q, b)
    ensures Run(p, [a, b]) == Some(Apply(q, b))
  {
    Run1(p, a);
    Run1(q, b);
    RunAppend(p, [a], [b]);
    assert [a] + [b] == [a, b];
  }

  lemma Run4(p: Pipe, a: Action, b: Action, c: Action, d: Action, q: Pipe, r: Pipe, t: Pipe)
    requires Enabled(p, a) && q == Apply(p, a)
    requires Enabled(q, b) && r == Apply(q, b)
    requires Enabled(r, c) && t == Apply(r, c)
    requires Enabled(t, d)
    ensures Run(p, [a, b, c, d]) == Some(Apply(t, d))
  {
    Run2(p, a, b, q);
    Run2(r, c, d, t);
    RunAppend(p, [a, b], [c, d]);
    assert [a, b] + [c, d] == [a, b, c, d];
  }

  // ---------- deliver as one call ----------

  /** `deliver` with nobody in between its slow check and its channel send. */
  function Deliver(p: Pipe, s: Sender, e: Event): Pipe {
    var o := Offer(s, e);
    var asked := p.room.(offered := p.room.offered + [o]);
    if p.room.slow then p.(room := asked)
    else if |p.chan.queue| < CAPACITY then Pipe(asked, Push(p.chan, o), p.stream)
    else p.(room := asked.(slow := true))
  }

  function DeliverActs(p: Pipe, s: Sender, e: Event): seq<Action> {
    if p.room.slow then [SenderDoes(RLock(s)), SenderDoes(Check(s, e))] + [SenderDoes(RUnlock(s))]
    else [SenderDoes(RLock(s)), SenderDoes(Check(s, e)), SenderDoes(Select(s)), SenderDoes(RUnlock(s))]
  }

  predicate Quiet(p: Pipe) {
    p.room.readers == {} && p.room.committed == map[]
  }

  /** An undisturbed deliver is a run of its separate steps. */
  lemma DeliverIsRun(p: Pipe, s: Sender, e: Event)
    requires Quiet(p) && p.room.member && !p.stream.bridge.Unjoined?
    ensures Run(p, DeliverActs(p, s, e)) == Some(Deliver(p, s, e))
  {
    var acts := DeliverActs(p, s, e);
    var locked := SenderApply(p, RLock(s));
    var asked := SenderApply(locked, Check(s, e));
    if p.room.slow {
      Run2(p, acts[0], acts[1], locked);
      Run1(asked, acts[2]);
      RunAppend(p, [SenderDoes(RLock(s)), SenderDoes(Check(s, e))], [SenderDoes(RUnlock(s))]);
      assert SenderApply(asked, RUnlock(s)) == Deliver(p, s, e);
    } else {
      var sent := SenderApply(asked, Select(s));
      Run4(p, acts[0], acts[1], acts[2], acts[3], locked, asked, sent);
      assert sent.room.committed == map[];
      assert SenderApply(sent, RUnlock(s)) == Deliver(p, s, e);
    }
  }

  const JOINING := [JoinDoes(Board), JoinDoes(Store), JoinDoes(Launch)]

  /** An undisturbed join puts the client into its room and starts its bridge. */
  lemma JoinIsRun(p: Pipe)
    requires p.stream.bridge.Unjoined?
    ensures Run(p, JOINING) == Some(Pipe(p.room.(member := true), p.chan, p.stream.(bridge := Waiting)))
  {
    var boarded := JoinApply(p, Board);
    Run2(p, JOINING[0], JOINING[1], boarded);
    Run1(JoinApply(boarded, Store), JOINING[2]);
    RunAppend(p, [JOINING[0], JOINING[1]], [JOINING[2]]);
    assert [JOINING[0], JOINING[1]] + [JOINING[2]] == JOINING;
  }

  // ---------- no gap ----------

  /** The events of one sender that reached the client are, in order, an unbroken
      prefix of the events that sender's deliveries offered to it. */
  lemma NoGapPerSender(acts: seq<Action>, s: Sender)
    requires Run(OPENED, acts).Some?
    ensures var q := Run(OPENED, acts).value;
            By(s, RoomPart(q.stream.received)) <= By(s, q.room.offered)
  {
    var q := Run(OPENED, acts).value;
    OpenedInv();
    RunKeepsInv(OPENED, acts);
    RoomPartAppend(q.stream.received, q.stream.queue);
    ByPrefix(s, RoomPart(q.stream.received), q.chan.accepted);
    assert By(s, q.chan.accepted) <= By(s, q.chan.accepted) + Pending(q.room, s);
  }

  ghost predicate Missed(p: Pipe, s: Sender) {
    s !in p.room.committed && By(s, p.chan.accepted) != By(s, p.room.offered)
  }

  /** A drop is never silent: it leaves the client slow, for good, and nothing the same
      sender delivers later reaches the channel. */
  lemma {:induction false} MissedIsForever(p: Pipe, acts: seq<Action>, s: Sender)
    requires Inv(p) && Missed(p, s) && Run(p, acts).Some?
    ensures var q := Run(p, acts).value;
            q.room.slow && Missed(q, s) && By(s, q.chan.accepted) == By(s, p.chan.accepted)
    decreases |acts|
  {
    if acts != [] {
      var a, q := acts[0], Apply(p, acts[0]);
      RunKeepsInv(p, [a]);
      assert Run(p, [a]) == Some(q);
      MissedMeansSlow(p, s);
      MissedStep(p, a, s);
      MissedIsForever(q, acts[1..], s);
    } else {
      MissedMeansSlow(p, s);
    }
  }

  lemma MissedMeansSlow(p: Pipe, s: Sender)
    requires Inv(p) && Missed(p, s)
    ensures p.room.slow && |By(s, p.chan.accepted)| < |By(s, p.room.offered)|
  {
    assert By(s, p.chan.accepted) + Pending(p.room, s) == By(s, p.chan.accepted);
  }

  lemma MissedStep(p: Pipe, a: Action, s: Sender)
    requires p.room.slow && s !in p.room.committed && Enabled(p, a)
    requires |By(s, p.chan.accepted)| < |By(s, p.room.offered)|
    ensures var q := Apply(p, a);
            && s !in q.room.committed
            && By(s, q.chan.accepted) == By(s, p.chan.accepted)
            && |By(s, q.chan.accepted)| < |By(s, q.room.offered)|
  {
    if a.SenderDoes? {
      if a.sender.Check? {
        BySnoc(s, p.room.offered, Offer(a.sender.sender, a.sender.event));
      } else if a.sender.Select? {
        BySnoc(s, p.chan.accepted, Offer(a.sender.sender, p.room.committed[a.sender.sender]));
      }
    }
  }

  /** Counting form: an event that is neither queued nor between the two halves of deliver
      has left the client slow. */
  lemma DropLeavesSlow(acts: seq<Action>)
    requires Run(OPENED, acts).Some?
    ensures var q := Run(OPENED, acts).value;
            |q.chan.accepted| + |q.room.committed| < |q.room.offered| ==> q.room.slow
  {
    OpenedInv();
    RunKeepsInv(OPENED, acts);
  }

  // ---------- capacity ----------

  /** Room events on their way never exceed SendCh, the bridge's hand and the stream's queue. */
  lemma BacklogBound(acts: seq<Action>)
    requires Run(OPENED, acts).Some?
    ensures Run(OPENED, acts).value.Backlog() <= 129
  {
    OpenedInv();
    RunKeepsInv(OPENED, acts);
    RoomPartBound(Run(OPENED, acts).value.stream.queue);
  }

  /** Along the run, every state where a sender is about to act has a backlog below n. */
  predicate BacklogBelow(p: Pipe, acts: seq<Action>, n: nat)
    requires Run(p, acts).Some?
    decreases |acts|
  {
    p.Backlog() < n && (acts != [] ==> BacklogBelow(Apply(p, acts[0]), acts[1..], n))
  }

  /** A client that keeps its backlog under one channel's worth is never marked slow, so
      it is never evicted. */
  lemma {:induction false} SmallBacklogIsNeverEvicted(p: Pipe, acts: seq<Action>)
    requires Inv(p) && !p.room.slow && Run(p, acts).Some? && BacklogBelow(p, acts, 64)
    ensures var q := Run(p, acts).value;
            !q.room.slow && !q.stream.bridge.Evicting? && !q.stream.bridge.Ending?
    decreases |acts|
  {
    if acts != [] {
      var q := Apply(p, acts[0]);
      assert Run(p, [acts[0]]) == Some(q);
      RunKeepsInv(p, [acts[0]]);
      if q.room.slow {
        SlowMeansFull(p, acts[0]);
      }
      SmallBacklogIsNeverEvicted(q, acts[1..]);
    }
  }

  lemma SlowMeansFull(p: Pipe, a: Action)
    requires Shape(p) && Enabled(p, a) && !p.room.slow && Apply(p, a).room.slow
    ensures |p.chan.queue| == 64
  {
  }

  // ---------- eviction and the end of the stream ----------

  /** When the bridge's own eviction ended the session, the stream's queue got one
      SessionEnded; the room events before it are an unbroken prefix of what the channel
      accepted, and none follows. */
  lemma EvictionEndsCleanly(acts: seq<Action>) returns (k: nat)
    requires Run(OPENED, acts).Some?
    requires var s := Run(OPENED, acts).value.stream;
             CalledBy(s, ByBridge) && (s.endStage.Closing? || s.endStage.Finished?) && !s.cancelled
    ensures var q := Run(OPENED, acts).value;
            var put := q.stream.Put();
            && k < |put| && put[k] == Ended("slow_consumer")
            && RoomPart(put[..k]) == RoomPart(put) <= q.chan.accepted
            && forall i :: 0 <= i < |put| && put[i].Ended? ==> i == k
  {
    OpenedInv();
    RunKeepsInv(OPENED, acts);
    EndedReasons(OPENED, acts);
    var q := Run(OPENED, acts).value;
    var put := q.stream.Put();
    k := OneEnded(put);
    assert put[k] in put;
    TailWithoutRoom(put, k + 1);
    RoomPartSnoc(put[..k], put[k]);
    assert put[..k] + [put[k]] == put[..k + 1];
  }

  /** Every SessionEnded in the queue carries the reason of the one caller. */
  predicate EndedByCaller(s: Stream) {
    forall x :: x in s.Put() && x.Ended? ==> !s.endStage.NotCalled? && x.reason == Reason(s.ender)
  }

  lemma {:induction false} EndedReasons(p: Pipe, acts: seq<Action>)
    requires EndedByCaller(p.stream) && Run(p, acts).Some?
    ensures EndedByCaller(Run(p, acts).value.stream)
    decreases |acts|
  {
    if acts != [] {
      var q := Apply(p, acts[0]);
      PutStep(p, acts[0]);
      assert forall x :: x in q.stream.Put() ==> x in p.stream.Put() || x in Added(p, acts[0]);
      assert EndedByCaller(q.stream) by {
        if p.stream.endStage.NotCalled? {
          assert forall x :: x in p.stream.Put() ==> !x.Ended?;
        }
      }
      EndedReasons(q, acts[1..]);
    }
  }

  lemma {:induction false} OneEnded(put: seq<Item>) returns (k: nat)
    requires EndedCount(put) == 1
    ensures k < |put| && put[k].Ended?
    ensures forall i :: 0 <= i < |put| && put[i].Ended? ==> i == k
  {
    var n := |put| - 1;
    if put[n].Ended? {
      k := n;
      NothingEnded(put[..n]);
    } else {
      k := OneEnded(put[..n]);
    }
    assert forall i :: 0 <= i < n ==> put[i] == put[..n][i];
  }

  lemma {:induction false} TailWithoutRoom(put: seq<Item>, k: nat)
    requires k <= |put| && forall j :: k <= j < |put| ==> !put[j].FromRoom?
    ensures RoomPart(put) == RoomPart(put[..k])
  {
    if k == |put| {
      assert put[..k] == put;
    } else {
      var n := |put| - 1;
      TailWithoutRoom(put[..n], k);
      assert put[..n][..k] == put[..k];
    }
  }

  /** One SessionEnded at most comes from endSession, whoever calls it; exactly one once
      its body is past the reply of a stream whose context was not cancelled. It says who
      called. */
  lemma OneSessionEnded(acts: seq<Action>)
    requires Run(OPENED, acts).Some?
    ensures var s := Run(OPENED, acts).value.stream;
            && EndedCount(s.Put()) <= 1
            && (s.endStage.Finished? && !s.cancelled ==> EndedCount(s.Put()) == 1)
            && (forall x :: x in s.Put() && x.Ended? ==> x.reason == if s.ender.ByTimer? then "token_expired" else "slow_consumer")
  {
    OpenedInv();
    RunKeepsInv(OPENED, acts);
    EndedReasons(OPENED, acts);
  }

  const EXPIRING := [EndDoes(Call(ByTimer)), RoomDoes(Remove), EndDoes(Left), EndDoes(SendEnded)]

  const FORWARDING := [BridgeDoes(Take), BridgeDoes(Forward)]

  /** Token expiry runs endSession beside the bridge, so its SessionEnded, unlike the one
      of an eviction, can be followed by a room event. */
  lemma ExpiryIsNotLast(s: Sender, e: Event)
    ensures var acts := JOINING + DeliverActs(FRESH, s, e) + EXPIRING + FORWARDING;
            Run(OPENED, acts).Some? && Run(OPENED, acts).value.stream.Put() == [Ended("token_expired"), FromRoom(Offer(s, e))]
  {
    var ending, sent := EXPIRING, Deliver(FRESH, s, e);
    JoinIsRun(OPENED);
    DeliverIsRun(FRESH, s, e);
    RunAppend(OPENED, JOINING, DeliverActs(FRESH, s, e));
    var called := EndApply(sent, Call(ByTimer));
    var gone := LockedApply(called, Remove);
    Run4(sent, ending[0], ending[1], ending[2], ending[3], called, gone, EndApply(gone, Left));
    RunAppend(OPENED, JOINING + DeliverActs(FRESH, s, e), ending);
    var over := EndApply(EndApply(gone, Left), SendEnded);
    Run2(over, FORWARDING[0], FORWARDING[1], BridgeApply(over, Take));
    RunAppend(OPENED, JOINING + DeliverActs(FRESH, s, e) + ending, FORWARDING);
  }

  /** The pipe of a connection whose token expired before any join. */
  const EXPIRED := OPENED.(stream := OPENED.stream.(endStage := Finished, ender := ByTimer, queue := [Ended(TOKEN_EXPIRED)]))

  const EXPIRING_ALONE := [EndDoes(Call(ByTimer)), EndDoes(Left), EndDoes(SendEnded), EndDoes(Close)]

  lemma ExpiredIsReached()
    ensures Run(OPENED, EXPIRING_ALONE) == Some(EXPIRED)
  {
    var ending, called := EXPIRING_ALONE, EndApply(OPENED, Call(ByTimer));
    var out := EndApply(called, Left);
    var said := EndApply(out, SendEnded);
    Run4(OPENED, ending[0], ending[1], ending[2], ending[3], called, out, said);
    assert said.stream.queue == [Ended(TOKEN_EXPIRED)];
  }

  /** A token that expires before the join takes nobody out of a room and does not stop the join:
      a client is let in, stays, and its room events follow SessionEnded. */
  lemma ExpiryBeforeJoin(s: Sender, e: Event)
    ensures var acts := EXPIRING_ALONE + JOINING + DeliverActs(FRESH, s, e) + FORWARDING;
            && Run(OPENED, acts).Some?
            && var q := Run(OPENED, acts).value;
            q.stream.Put() == [Ended("token_expired"), FromRoom(Offer(s, e))] && q.stream.endStage.Finished? && q.room.member
  {
    ExpiredIsReached();
    JoinIsRun(EXPIRED);
    var joined := FRESH.(stream := EXPIRED.stream.(bridge := Waiting));
    RunAppend(OPENED, EXPIRING_ALONE, JOINING);
    DeliverIsRun(joined, s, e);
    RunAppend(OPENED, EXPIRING_ALONE + JOINING, DeliverActs(FRESH, s, e));
    var sent := Deliver(joined, s, e);
    Run2(sent, FORWARDING[0], FORWARDING[1], BridgeApply(sent, Take));
    RunAppend(OPENED, EXPIRING_ALONE + JOINING + DeliverActs(FRESH, s, e), FORWARDING);
  }

  // ---------- what a bridge has passed on when it stops ----------

  /** The action puts no room event into the stream's queue. */
  predicate Quietly(p: Pipe, a: Action)
    requires Enabled(p, a)
  {
    forall x :: x in Added(p, a) ==> !x.FromRoom?
  }

  lemma QuietStep(p: Pipe, a: Action)
    requires Enabled(p, a) && Quietly(p, a)
    ensures RoomPart(Apply(p, a).stream.Put()) == RoomPart(p.stream.Put())
  {
    PutStep(p, a);
    var put, added := p.stream.Put(), Added(p, a);
    if added == [] {
      assert put + added == put;
    } else {
      assert added == [added[0]] && added[0] in added;
      RoomPartSnoc(put, added[0]);
    }
  }

  /** On a live connection a bridge stops with everything passed on and its channel closed, or, its
      client slow, once it has ended the session. */
  predicate StopsWell(p: Pipe) {
    p.stream.bridge.Stopped? && !p.stream.cancelled ==>
      || (p.chan.closed && RoomPart(p.stream.Put()) == p.chan.accepted)
      || (p.room.slow && p.stream.endStage.Finished?)
  }

  lemma BridgeStopsWell(p: Pipe, x: BridgeStep)
    requires Shape(p) && Flow(p.chan, p.stream) && BridgeEnabled(p, x) && !p.stream.bridge.Stopped?
    ensures StopsWell(BridgeApply(p, x))
  {
    assert BridgeApply(p, x).stream.bridge.Stopped? ==> BridgeApply(p, x).stream.Put() == p.stream.Put();
  }

  lemma StopsWellStep(p: Pipe, a: Action)
    requires Shape(p) && Flow(p.chan, p.stream) && StopsWell(p) && Enabled(p, a)
    ensures StopsWell(Apply(p, a))
  {
    if a.BridgeDoes? {
      BridgeStopsWell(p, a.bridge);
    } else if a.EndDoes? || a.LineDoes? {
      OwnItemsAreNotRoomEvents(p, a);
    }
  }

  lemma {:induction false} RunStopsWell(p: Pipe, acts: seq<Action>)
    requires Inv(p) && StopsWell(p) && Run(p, acts).Some?
    ensures StopsWell(Run(p, acts).value)
    decreases |acts|
  {
    if acts != [] {
      StopsWellStep(p, acts[0]);
      ShapeStep(p, acts[0]);
      SenderOrderStep(p, acts[0]);
      FlowStep(p, acts[0]);
      EndsStep(p, acts[0]);
      RunStopsWell(Apply(p, acts[0]), acts[1..]);
    }
  }

  /** In every run, a bridge that has stopped on a connection never cancelled, its client not slow:
      its channel is closed and all that was ever accepted into it has been put into the stream's
      queue. With its client slow, endSession is through. */
  lemma StoppedHasAll(acts: seq<Action>)
    requires Run(OPENED, acts).Some?
    ensures var p := Run(OPENED, acts).value;
            p.stream.bridge.Stopped? && !p.stream.cancelled ==>
              if p.room.slow then p.stream.endStage.Finished? || RoomPart(p.stream.Put()) == p.chan.accepted
              else p.chan.closed && RoomPart(p.stream.Put()) == p.chan.accepted
  {
    OpenedInv();
    RunStopsWell(OPENED, acts);
  }

  /** Until then nothing is lost either: what was accepted is what was put into the stream's queue,
      what the bridge holds and what is still in the channel. */
  lemma NothingIsLost(acts: seq<Action>)
    requires Run(OPENED, acts).Some?
    ensures var p := Run(OPENED, acts).value;
            !p.stream.bridge.Stopped? && !p.stream.bridge.Ending? && !p.stream.bridge.NoBridge? ==>
              p.chan.accepted == RoomPart(p.stream.Put()) + p.stream.Held() + p.chan.queue
  {
    OpenedInv();
    RunKeepsInv(OPENED, acts);
  }

  /** No bridge of the client has run yet, or ever will. */
  predicate BeforeBridge(b: Bridge) {
    b.Unjoined? || b.Admitted? || b.Starting? || b.NoBridge?
  }

  lemma {:induction false} NothingBefore(p: Pipe, acts: seq<Action>)
    requires (BeforeBridge(p.stream.bridge) ==> RoomPart(p.stream.Put()) == []) && Run(p, acts).Some?
    ensures BeforeBridge(Run(p, acts).value.stream.bridge) ==> RoomPart(Run(p, acts).value.stream.Put()) == []
    decreases |acts|
  {
    if acts != [] {
      var q := Apply(p, acts[0]);
      if BeforeBridge(q.stream.bridge) {
        assert BeforeBridge(p.stream.bridge) && Quietly(p, acts[0]);
        QuietStep(p, acts[0]);
      }
      NothingBefore(q, acts[1..]);
    }
  }

  /** A client taken out of its room before its bridge could start hears nothing of what it was
      offered. */
  lemma NoBridgeNoEvents(acts: seq<Action>)
    requires Run(OPENED, acts).Some? && Run(OPENED, acts).value.stream.bridge.NoBridge?
    ensures RoomPart(Run(OPENED, acts).value.stream.Put()) == []
  {
    NothingBefore(OPENED, acts);
  }

  /** Such a client: its session ends between its admission and the start of its bridge. */
  lemma EndBeforeBridge(s: Sender, e: Event)
    ensures var acts := [JoinDoes(Board)] + DeliverActs(FRESH, s, e) + [RoomDoes(CloseChannel), JoinDoes(Store), JoinDoes(Launch)];
            && Run(OPENED, acts).Some?
            && var q := Run(OPENED, acts).value;
            q.stream.bridge.NoBridge? && q.chan.accepted == [Offer(s, e)] && !q.room.slow && !q.stream.cancelled
  {
    var boarded := JoinApply(OPENED, Board);
    Run1(OPENED, JoinDoes(Board));
    DeliverIsRun(boarded, s, e);
    RunAppend(OPENED, [JoinDoes(Board)], DeliverActs(FRESH, s, e));
    var sent := Deliver(boarded, s, e);
    var closed := LockedApply(sent, CloseChannel);
    var stored := JoinApply(closed, Store);
    Run2(sent, RoomDoes(CloseChannel), JoinDoes(Store), closed);
    Run1(stored, JoinDoes(Launch));
    RunAppend(sent, [RoomDoes(CloseChannel), JoinDoes(Store)], [JoinDoes(Launch)]);
    assert [RoomDoes(CloseChannel), JoinDoes(Store)] + [JoinDoes(Launch)] == [RoomDoes(CloseChannel), JoinDoes(Store), JoinDoes(Launch)];
    RunAppend(OPENED, [JoinDoes(Board)] + DeliverActs(FRESH, s, e), [RoomDoes(CloseChannel), JoinDoes(Store), JoinDoes(Launch)]);
  }

  // ---------- exactly when the end is the end ----------

  /** Whatever happens next, can another room event of this client get into the stream's queue? */
  ghost predicate MoreCanFollow(p: Pipe) {
    exists acts :: Run(p, acts).Some? && RoomPart(Run(p, acts).value.stream.Put()) != RoomPart(p.stream.Put())
  }

  /** There is an event for the client's bridge: in its hand, in SendCh, in flight from a sender,
      or one the room may still offer. */
  predicate HasMore(p: Pipe) {
    p.stream.Held() + p.chan.queue != [] || p.room.committed != map[] || (p.room.member && !p.room.slow)
  }

  /** The client may still join, or has a bridge, running or about to, and more for it. */
  predicate CanYetForward(p: Pipe) {
    match p.stream.bridge
    case Unjoined => true
    case Admitted => p.room.member && HasMore(p)
    case Starting => p.room.member && HasMore(p)
    case Ending => false
    case Stopped => false
    case NoBridge => false
    case _ => HasMore(p)
  }

  lemma NothingStays(p: Pipe, a: Action)
    requires Shape(p) && !CanYetForward(p) && Enabled(p, a)
    ensures !CanYetForward(Apply(p, a))
  {
  }

  lemma NothingIsAdded(p: Pipe, a: Action)
    requires !CanYetForward(p) && Enabled(p, a)
    ensures Quietly(p, a)
  {
  }

  lemma {:induction false} NothingForGood(p: Pipe, acts: seq<Action>)
    requires Shape(p) && !CanYetForward(p) && Run(p, acts).Some?
    ensures RoomPart(Run(p, acts).value.stream.Put()) == RoomPart(p.stream.Put())
    decreases |acts|
  {
    if acts != [] {
      NothingStays(p, acts[0]);
      NothingIsAdded(p, acts[0]);
      QuietStep(p, acts[0]);
      ShapeStep(p, acts[0]);
      NothingForGood(Apply(p, acts[0]), acts[1..]);
    }
  }

  /** What can follow later can follow now. */
  lemma FollowsLater(p: Pipe, a: Action)
    requires Enabled(p, a) && Quietly(p, a) && MoreCanFollow(Apply(p, a))
    ensures MoreCanFollow(p)
  {
    var q := Apply(p, a);
    var acts :| Run(q, acts).Some? && RoomPart(Run(q, acts).value.stream.Put()) != RoomPart(q.stream.Put());
    QuietStep(p, a);
    Run1(p, a);
    RunAppend(p, [a], acts);
    assert Run(p, [a] + acts) == Run(q, acts);
  }

  lemma OneGrows(p: Pipe, a: Action, x: Offer)
    requires Enabled(p, a) && Added(p, a) == [FromRoom(x)]
    ensures MoreCanFollow(p)
  {
    PutStep(p, a);
    RoomPartSnoc(p.stream.Put(), FromRoom(x));
    Run1(p, a);
    assert Run(p, [a]).value.stream.Put() == p.stream.Put() + [FromRoom(x)];
  }

  /** With room in the stream's queue, a bridge with an event left can pass it on. */
  lemma PassesOn(p: Pipe)
    requires p.stream.BridgeRuns() && p.stream.Held() + p.chan.queue != [] && |p.stream.queue| < CAPACITY
    ensures MoreCanFollow(p)
  {
    match p.stream.bridge
    case Waiting =>
      OneGrows(BridgeApply(p, Take), BridgeDoes(Forward), p.chan.queue[0]);
      FollowsLater(p, BridgeDoes(Take));
    case Holding(o) => OneGrows(p, BridgeDoes(Forward), o);
    case Evicting(Some(o)) => OneGrows(p, BridgeDoes(EvictForward), o);
    case Evicting(None) =>
      OneGrows(BridgeApply(p, EvictTake), BridgeDoes(EvictForward), p.chan.queue[0]);
      FollowsLater(p, BridgeDoes(EvictTake));
  }

  lemma OneLeftFollows(p: Pipe)
    requires Shape(p) && p.stream.BridgeRuns() && p.stream.Held() + p.chan.queue != [] && !p.stream.eof
    ensures MoreCanFollow(p)
  {
    if |p.stream.queue| < CAPACITY {
      PassesOn(p);
    } else {
      PassesOn(Apply(p, LineDoes(RecvItem)));
      FollowsLater(p, LineDoes(RecvItem));
    }
  }

  lemma InFlightFollows(p: Pipe, s: Sender)
    requires Shape(p) && p.stream.BridgeRuns() && p.stream.Held() + p.chan.queue == [] && s in p.room.committed && !p.stream.eof
    ensures MoreCanFollow(p)
  {
    var a := SenderDoes(Select(s));
    ShapeStep(p, a);
    OneLeftFollows(Apply(p, a));
    FollowsLater(p, a);
  }

  lemma OfferFollows(p: Pipe, s: Sender)
    requires Shape(p) && p.stream.BridgeRuns() && p.stream.Held() + p.chan.queue == [] && !p.stream.eof
    requires p.room.member && !p.room.slow && s in p.room.readers && s !in p.room.committed
    ensures MoreCanFollow(p)
  {
    var a := SenderDoes(Check(s, Event(0, s, SceneInitRequest)));
    ShapeStep(p, a);
    InFlightFollows(Apply(p, a), s);
    FollowsLater(p, a);
  }

  lemma RunningFollows(p: Pipe)
    requires Shape(p) && p.stream.BridgeRuns() && HasMore(p) && !p.stream.eof
    ensures MoreCanFollow(p)
  {
    if p.stream.Held() + p.chan.queue != [] {
      OneLeftFollows(p);
    } else if s :| s in p.room.committed {
      InFlightFollows(p, s);
    } else if s :| s in p.room.readers {
      OfferFollows(p, s);
    } else {
      var a := SenderDoes(RLock(""));
      ShapeStep(p, a);
      OfferFollows(Apply(p, a), "");
      FollowsLater(p, a);
    }
  }

  lemma StartingFollows(p: Pipe)
    requires Shape(p) && p.stream.bridge.Starting? && p.room.member && HasMore(p) && !p.stream.eof
    ensures MoreCanFollow(p)
  {
    ShapeStep(p, JoinDoes(Launch));
    RunningFollows(Apply(p, JoinDoes(Launch)));
    FollowsLater(p, JoinDoes(Launch));
  }

  lemma AdmittedFollows(p: Pipe)
    requires Shape(p) && p.stream.bridge.Admitted? && p.room.member && HasMore(p) && !p.stream.eof
    ensures MoreCanFollow(p)
  {
    ShapeStep(p, JoinDoes(Store));
    StartingFollows(Apply(p, JoinDoes(Store)));
    FollowsLater(p, JoinDoes(Store));
  }

  lemma UnjoinedFollows(p: Pipe)
    requires Shape(p) && p.stream.bridge.Unjoined? && !p.stream.eof
    ensures MoreCanFollow(p)
  {
    ShapeStep(p, JoinDoes(Board));
    AdmittedFollows(Apply(p, JoinDoes(Board)));
    FollowsLater(p, JoinDoes(Board));
  }

  /** Before the reader saw the end of the stream: another room event can come exactly when the
      client may still join, or its bridge is running or about to and has more. */
  lemma MoreFollowsExactly(p: Pipe)
    requires Shape(p) && !p.stream.eof
    ensures MoreCanFollow(p) <==> CanYetForward(p)
  {
    if CanYetForward(p) {
      match p.stream.bridge
      case Unjoined => UnjoinedFollows(p);
      case Admitted => AdmittedFollows(p);
      case Starting => StartingFollows(p);
      case _ => RunningFollows(p);
    } else if acts :| Run(p, acts).Some? && RoomPart(Run(p, acts).value.stream.Put()) != RoomPart(p.stream.Put()) {
      NothingForGood(p, acts);
    }
  }

  /** As endSession queues its SessionEnded, whoever called it and whenever, the connection live or
      cancelled: exactly then can a room event of this client still follow. */
  lemma SessionEndedIsLastUnless(acts: seq<Action>)
    requires Run(OPENED, acts).Some? && EndEnabled(Run(OPENED, acts).value, SendEnded)
    ensures var p := Run(OPENED, acts).value; MoreCanFollow(EndApply(p, SendEnded)) <==> CanYetForward(p)
  {
    var p := Run(OPENED, acts).value;
    OpenedInv();
    RunKeepsInv(OPENED, acts);
    ShapeStep(p, EndDoes(SendEnded));
    MoreFollowsExactly(EndApply(p, SendEnded));
  }

  /** endSession leaves the room before it says so, once the stream knows its client. */
  predicate LeftFirst(p: Pipe) {
    && p.stream.Knows()
    && ((p.stream.endStage.Replying? || p.stream.endStage.Closing? || p.stream.endStage.Finished?) && !p.stream.cancelled
        ==> !p.room.member)
  }

  lemma {:induction false} LeftFirstAlong(p: Pipe, acts: seq<Action>)
    requires LeftFirst(p) && Run(p, acts).Some?
    ensures LeftFirst(Run(p, acts).value)
    decreases |acts|
  {
    if acts != [] {
      LeftFirstAlong(Apply(p, acts[0]), acts[1..]);
    }
  }

  /** On a live connection whose join was handled before its session began to end, the client is
      out of its room by then, and what may follow is what the running bridge has left. */
  lemma JoinedSessionEndedIsLastUnless(before: seq<Action>, acts: seq<Action>)
    requires Run(OPENED, before).Some?
    requires var p := Run(OPENED, before).value;
             p.stream.Knows() && (p.stream.endStage.NotCalled? || p.stream.endStage.Leaving?) && Run(p, acts).Some?
    requires var q := Run(Run(OPENED, before).value, acts).value; EndEnabled(q, SendEnded) && !q.stream.cancelled
    ensures var q := Run(Run(OPENED, before).value, acts).value;
            && !q.room.member
            && (MoreCanFollow(EndApply(q, SendEnded)) <==> q.stream.BridgeRuns() && q.stream.Held() + q.chan.queue != [])
  {
    var p := Run(OPENED, before).value;
    RunAppend(OPENED, before, acts);
    SessionEndedIsLastUnless(before + acts);
    LeftFirstAlong(p, acts);
    OpenedInv();
    RunKeepsInv(OPENED, before + acts);
  }

  // ---------- the channel's life ----------

  /** Under the room's read/write lock a client in its room has an open SendCh, deliver
      never sends on a closed one, and no SendCh is closed twice. */
  lemma ChannelIsOpenWhileUsed(acts: seq<Action>)
    requires Run(OPENED, acts).Some?
    ensures var q := Run(OPENED, acts).value;
            && (q.room.member ==> !q.chan.closed)
            && (forall s :: Enabled(q, SenderDoes(Select(s))) ==> !q.chan.closed)
            && (Enabled(q, RoomDoes(CloseChannel)) ==> !q.chan.closed)
  {
    OpenedInv();
    RunKeepsInv(OPENED, acts);
  }

  // ---------- Recv ----------

  datatype Receipt = Got(item: Item) | EndOfStream | ContextDone

  datatype Branch = QueueBranch | EndedBranch | CancelBranch

  function Read(s: Stream): Stream
    requires s.queue != []
  {
    s.(received := s.received + [s.queue[0]], queue := s.queue[1..])
  }

  /** One call of Recv through one branch of its select, None while that branch is not
      ready. When several are ready the runtime picks one. */
  function Recv(s: Stream, b: Branch): Option<(Receipt, Stream)> {
    match b
    case QueueBranch =>
      if s.queue == [] then None else Some((Got(s.queue[0]), Read(s)))
    case EndedBranch =>
      if !s.endStage.Finished? then None
      else if s.queue != [] then Some((Got(s.queue[0]), Read(s)))
      else Some((EndOfStream, s.(eof := true)))
    case CancelBranch =>
      if s.cancelled then Some((ContextDone, s)) else None
  }

  predicate Gets(s: Stream, b: Branch, r: Receipt) {
    Recv(s, b).Some? && Recv(s, b).value.0 == r
  }

  /** The reader's steps in a run are calls of Recv and no others: an item is read just when some
      ready branch returns it, the end of the stream just when some ready branch returns io.EOF, and
      the call leaves what the step leaves. Giving up on the context changes nothing. */
  lemma ReaderStepsAreRecv(p: Pipe)
    requires !p.stream.eof
    ensures Enabled(p, LineDoes(RecvItem)) <==> exists b, x :: Gets(p.stream, b, Got(x))
    ensures Enabled(p, LineDoes(RecvEof)) <==> exists b :: Gets(p.stream, b, EndOfStream)
    ensures forall b, x :: Gets(p.stream, b, Got(x)) ==>
              p.stream.queue != [] && x == p.stream.queue[0]
              && p.(stream := Recv(p.stream, b).value.1) == Apply(p, LineDoes(RecvItem))
    ensures forall b :: Gets(p.stream, b, EndOfStream) ==>
              p.stream.received == p.stream.Put() && p.(stream := Recv(p.stream, b).value.1) == Apply(p, LineDoes(RecvEof))
    ensures forall b :: Gets(p.stream, b, ContextDone) ==> p.stream.cancelled && Recv(p.stream, b).value.1 == p.stream
  {
    if p.stream.queue != [] {
      assert Gets(p.stream, QueueBranch, Got(p.stream.queue[0]));
    }
    if Enabled(p, LineDoes(RecvEof)) {
      assert Gets(p.stream, EndedBranch, EndOfStream);
    }
  }

  /** A call of Recv, and what everybody else did since the call before. */
  datatype Turn = Turn(meanwhile: seq<Action>, pick: Branch)

  predicate Unread(acts: seq<Action>) {
    LineDoes(RecvItem) !in acts && LineDoes(RecvEof) !in acts
  }

  /** One call of Recv after another, each through a ready branch, while the senders, the room,
      the bridge, the ending and the connection go on in between. */
  function RecvAmid(p: Pipe, turns: seq<Turn>): Option<(seq<Receipt>, Pipe)> {
    if |turns| == 0 then Some(([], p))
    else
      var n := |turns| - 1;
      match RecvAmid(p, turns[..n])
      case None => None
      case Some((got, q)) =>
        if !Unread(turns[n].meanwhile) || Run(q, turns[n].meanwhile).None? then None
        else
          var r := Run(q, turns[n].meanwhile).value;
          match Recv(r.stream, turns[n].pick)
          case None => None
          case Some((receipt, t)) => Some((got + [receipt], r.(stream := t)))
  }

  function Items(got: seq<Receipt>): seq<Item> {
    if |got| == 0 then []
    else Items(got[..|got| - 1]) + if got[|got| - 1].Got? then [got[|got| - 1].item] else []
  }

  lemma ItemsSnoc(got: seq<Receipt>, r: Receipt)
    ensures Items(got + [r]) == Items(got) + if r.Got? then [r.item] else []
  {
    assert (got + [r])[..|got|] == got;
  }

  lemma {:induction false} UnreadKeepsReceived(p: Pipe, acts: seq<Action>)
    requires Run(p, acts).Some? && Unread(acts)
    ensures Run(p, acts).value.stream.received == p.stream.received
    decreases |acts|
  {
    if acts != [] {
      assert acts[0] in acts;
      UnreadKeepsReceived(Apply(p, acts[0]), acts[1..]);
    }
  }

  /** What one call of Recv comes to. */
  predicate Receives(s: Stream, r: Receipt, t: Stream) {
    && t.Put() == s.Put() && t.cancelled == s.cancelled
    && t.received == s.received + (if r.Got? then [r.item] else [])
    && (r.EndOfStream? ==> t.queue == [] && t.endStage.Finished?)
  }

  lemma ReadKeeps(p: Pipe)
    requires Inv(p) && p.stream.queue != []
    ensures Read(p.stream).Put() == p.stream.Put() && Inv(p.(stream := Read(p.stream)))
  {
    var s, t := p.stream, Read(p.stream);
    assert s.queue == [s.queue[0]] + s.queue[1..];
    assert t.Put() == s.Put();
    ReceiveEnds(s);
    StillKeepsFlow(p.chan, s, t);
  }

  lemma EofKeeps(p: Pipe)
    requires Inv(p) && p.stream.endStage.Finished?
    ensures p.stream.(eof := true).Put() == p.stream.Put() && Inv(p.(stream := p.stream.(eof := true)))
  {
  }

  lemma RecvReceives(p: Pipe, b: Branch)
    requires Inv(p) && Recv(p.stream, b).Some?
    ensures var (r, t) := Recv(p.stream, b).value; Receives(p.stream, r, t) && Inv(p.(stream := t))
  {
    if !b.CancelBranch? {
      if p.stream.queue != [] {
        ReadKeeps(p);
      } else {
        EofKeeps(p);
      }
    }
  }

  lemma TurnKeeps(p: Pipe, turn: Turn)
    requires Inv(p) && Unread(turn.meanwhile) && Run(p, turn.meanwhile).Some?
    requires Recv(Run(p, turn.meanwhile).value.stream, turn.pick).Some?
    ensures var q := Run(p, turn.meanwhile).value;
            var (receipt, t) := Recv(q.stream, turn.pick).value;
            && Inv(q.(stream := t)) && (receipt.EndOfStream? ==> t.queue == [] && t.endStage.Finished?)
            && t.received == p.stream.received + (if receipt.Got? then [receipt.item] else [])
  {
    RunKeepsInv(p, turn.meanwhile);
    UnreadKeepsReceived(p, turn.meanwhile);
    RecvReceives(Run(p, turn.meanwhile).value, turn.pick);
  }

  /** What some calls of Recv have come to: they returned what was received meanwhile, and after an
      io.EOF nothing was left. */
  ghost predicate Drains(p: Pipe, got: seq<Receipt>, q: Pipe) {
    && Inv(q) && q.stream.received == p.stream.received + Items(got)
    && (|got| > 0 && got[|got| - 1].EndOfStream? ==> q.stream.queue == [] && q.stream.endStage.Finished?)
  }

  lemma DrainsOn(p: Pipe, got: seq<Receipt>, q: Pipe, receipt: Receipt, r: Pipe)
    requires Drains(p, got, q) && Inv(r) && (receipt.EndOfStream? ==> r.stream.queue == [] && r.stream.endStage.Finished?)
    requires r.stream.received == q.stream.received + (if receipt.Got? then [receipt.item] else [])
    ensures Drains(p, got + [receipt], r)
  {
    ItemsSnoc(got, receipt);
  }

  lemma {:induction false} AmidKeeps(p: Pipe, turns: seq<Turn>)
    requires Inv(p) && RecvAmid(p, turns).Some?
    ensures var (got, q) := RecvAmid(p, turns).value; |got| == |turns| && Drains(p, got, q)
    decreases |turns|
  {
    if |turns| > 0 {
      var n := |turns| - 1;
      AmidKeeps(p, turns[..n]);
      var (got, q) := RecvAmid(p, turns[..n]).value;
      var r := Run(q, turns[n].meanwhile).value;
      TurnKeeps(q, turns[n]);
      var (receipt, t) := Recv(r.stream, turns[n].pick).value;
      DrainsOn(p, got, q, receipt, r.(stream := t));
    }
  }

  predicate NeverGivesUp(turns: seq<Turn>) {
    forall i :: 0 <= i < |turns| ==> !turns[i].pick.CancelBranch?
  }

  lemma {:induction false} ReceiptsAreItems(p: Pipe, turns: seq<Turn>)
    requires RecvAmid(p, turns).Some? && NeverGivesUp(turns)
    requires EndOfStream !in RecvAmid(p, turns).value.0
    ensures |Items(RecvAmid(p, turns).value.0)| == |turns|
    decreases |turns|
  {
    if |turns| > 0 {
      var n := |turns| - 1;
      var (before, q) := RecvAmid(p, turns[..n]).value;
      var (receipt, t) := Recv(Run(q, turns[n].meanwhile).value.stream, turns[n].pick).value;
      var got := RecvAmid(p, turns).value.0;
      assert got == before + [receipt] && receipt == got[|before|];
      assert receipt in got && forall r :: r in before ==> r in got;
      ReceiptsAreItems(p, turns[..n]);
      ItemsSnoc(before, receipt);
    }
  }

  lemma DrainedSoFar(p: Pipe, got: seq<Receipt>, q: Pipe)
    requires Drains(p, got, q)
    ensures RoomPart(q.stream.received) <= q.chan.accepted
    ensures |got| > 0 && got[|got| - 1].EndOfStream? ==>
              q.stream.received == q.stream.Put() && (!q.stream.cancelled ==> EndedCount(q.stream.received) == 1)
  {
    RoomPartAppend(q.stream.received, q.stream.queue);
  }

  /** Without giving up, every call returns an item until one returns io.EOF. */
  lemma EndComes(p: Pipe, turns: seq<Turn>)
    requires Inv(p) && RecvAmid(p, turns).Some? && NeverGivesUp(turns)
    ensures var (got, q) := RecvAmid(p, turns).value;
            |p.stream.received| + |turns| > |q.stream.Put()| ==> EndOfStream in got
  {
    AmidKeeps(p, turns);
    if EndOfStream !in RecvAmid(p, turns).value.0 {
      ReceiptsAreItems(p, turns);
    }
  }

  /** However Recv's calls interleave with everything else, bridges still forwarding after an
      expiry included: what they return is what was put into the queue, in order. Whenever one
      returns io.EOF, all that was put so far has been returned, on a live connection the one
      SessionEnded with it. And it comes: without giving up on a cancelled context, no more calls
      than there are items can go without it. */
  lemma RecvDrains(acts: seq<Action>, turns: seq<Turn>)
    requires Run(OPENED, acts).Some? && RecvAmid(Run(OPENED, acts).value, turns).Some?
    ensures var p := Run(OPENED, acts).value;
            var (got, q) := RecvAmid(p, turns).value;
            && |got| == |turns|
            && q.stream.received == p.stream.received + Items(got)
            && RoomPart(q.stream.received) <= q.chan.accepted
            && (|got| > 0 && got[|got| - 1].EndOfStream? ==>
                  q.stream.received == q.stream.Put() && (!q.stream.cancelled ==> EndedCount(q.stream.received) == 1))
            && (NeverGivesUp(turns) && |p.stream.received| + |turns| > |q.stream.Put()| ==> EndOfStream in got)
  {
    var p := Run(OPENED, acts).value;
    OpenedInv();
    RunKeepsInv(OPENED, acts);
    AmidKeeps(p, turns);
    DrainedSoFar(p, RecvAmid(p, turns).value.0, RecvAmid(p, turns).value.1);
    if NeverGivesUp(turns) {
      EndComes(p, turns);
    }
  }
}
