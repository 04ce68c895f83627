/** The sequential pieces of a relay stream, in the form the code has: a connection whose
    methods change its queues in place, each proved to be a run of the delivery steps. */
module Streams {
  import opened Options
  import opened Protocol
  import opened Delivery
  import opened NoGap

  function AsItems(offers: seq<Offer>): (r: seq<Item>)
    ensures |r| == |offers|
  {
    seq(|offers|, i requires 0 <= i < |offers| => FromRoom(offers[i]))
  }

  lemma {:induction false} RoomPartOfItems(items: seq<Item>, offers: seq<Offer>)
    ensures RoomPart(items + AsItems(offers)) == RoomPart(items) + offers
    decreases |offers|
  {
    if offers == [] {
      assert items + AsItems(offers) == items;
    } else {
      var n := |offers| - 1;
      RoomPartOfItems(items, offers[..n]);
      RoomPartSnoc(items + AsItems(offers[..n]), FromRoom(offers[n]));
      assert items + AsItems(offers) == (items + AsItems(offers[..n])) + [FromRoom(offers[n])];
    }
  }

  // ---------- what evictSlow forwards ----------

  /** How many of the events left fit into the stream's queue. */
  function Fitting(queue: seq<Item>, left: seq<Offer>): (n: nat)
    requires |queue| <= CAPACITY
    ensures n <= |left| && |queue| + n <= CAPACITY && (n == |left| || |queue| + n == CAPACITY)
  {
    if |left| <= CAPACITY - |queue| then |left| else CAPACITY - |queue|
  }

  function Sent(queue: seq<Item>, left: seq<Offer>): seq<Item>
    requires |queue| <= CAPACITY
  {
    queue + AsItems(left[..Fitting(queue, left)])
  }

  /** The first event that does not fit is lost; those behind it stay in SendCh. */
  function Unsent(queue: seq<Item>, left: seq<Offer>): seq<Offer>
    requires |queue| <= CAPACITY
  {
    var n := Fitting(queue, left);
    if n == |left| then [] else left[n + 1..]
  }

  lemma SendOneMore(queue: seq<Item>, left: seq<Offer>)
    requires |queue| < CAPACITY && left != []
    ensures Sent(queue + [FromRoom(left[0])], left[1..]) == Sent(queue, left)
    ensures Unsent(queue + [FromRoom(left[0])], left[1..]) == Unsent(queue, left)
  {
    var n := Fitting(queue, left);
    assert left[..n][1..] == left[1..][..n - 1];
    assert AsItems(left[..n]) == [FromRoom(left[0])] + AsItems(left[1..][..n - 1]);
    if n < |left| {
      assert left[1..][n..] == left[n + 1..];
    }
  }

  function Remaining(p: Pipe): seq<Offer> {
    p.stream.Held() + p.chan.queue
  }

  /** The pipe after evictSlow has passed on what fits. */
  function Flushed(p: Pipe): Pipe
    requires |p.stream.queue| <= CAPACITY
  {
    Pipe(p.room, p.chan.(queue := Unsent(p.stream.queue, Remaining(p))),
         p.stream.(bridge := Bridge.Ending, queue := Sent(p.stream.queue, Remaining(p))))
  }

  /** One turn of the loop. */
  function FlushTurn(p: Pipe): Pipe
    requires Remaining(p) != []
  {
    Pipe(p.room, p.chan.(queue := Remaining(p)[1..]),
         p.stream.(bridge := Evicting(None), queue := p.stream.queue + [FromRoom(Remaining(p)[0])]))
  }

  /** Flushing is a run of the bridge's steps. */
  lemma FlushedInv(p: Pipe)
    requires Inv(p) && p.stream.bridge.Evicting?
    ensures Inv(Flushed(p))
  {
    var acts := FlushRun(p);
    RunKeepsInv(p, acts);
  }

  /** What it forwards extends the unbroken prefix: to everything accepted, unless the
      stream's queue is full. */
  lemma FlushedExtendsPrefix(p: Pipe)
    requires Flow(p.chan, p.stream) && |p.stream.queue| <= CAPACITY && p.stream.bridge.Evicting?
    ensures var q := Flushed(p);
            && RoomPart(p.stream.Put()) <= RoomPart(q.stream.Put()) <= p.chan.accepted
            && (RoomPart(q.stream.Put()) == p.chan.accepted || |q.stream.queue| == CAPACITY)
  {
    var left := Remaining(p);
    var n := Fitting(p.stream.queue, left);
    RoomPartOfItems(p.stream.Put(), left[..n]);
    assert p.stream.received + Sent(p.stream.queue, left) == p.stream.Put() + AsItems(left[..n]);
    assert p.chan.accepted == RoomPart(p.stream.Put()) + left;
    assert left == left[..n] + left[n..];
  }

  /** Neither taking an event nor passing it on changes what the flush will come to. */
  lemma TakeFlushes(p: Pipe)
    requires p.stream.bridge == Evicting(None) && p.chan.queue != [] && |p.stream.queue| <= CAPACITY
    ensures Flushed(BridgeApply(p, EvictTake)) == Flushed(p)
  {
    assert Remaining(BridgeApply(p, EvictTake)) == Remaining(p);
  }

  lemma ForwardFlushes(p: Pipe)
    requires BridgeEnabled(p, EvictForward)
    ensures Flushed(BridgeApply(p, EvictForward)) == Flushed(p)
  {
    SendOneMore(p.stream.queue, Remaining(p));
    assert Remaining(BridgeApply(p, EvictForward)) == Remaining(p)[1..];
  }

  predicate OnlyBridge(acts: seq<Action>) {
    forall i :: 0 <= i < |acts| ==> acts[i].BridgeDoes?
  }

  lemma FlushRun(p: Pipe) returns (acts: seq<Action>)
    requires p.stream.bridge.Evicting? && |p.stream.queue| <= CAPACITY
    ensures OnlyBridge(acts) && Run(p, acts) == Some(Flushed(p))
    decreases |Remaining(p)|, 1
  {
    if p.stream.bridge == Evicting(None) && p.chan.queue != [] {
      var holding := BridgeApply(p, EvictTake);
      assert Remaining(holding) == Remaining(p) == p.chan.queue;
      var rest := FlushHolding(holding);
      Run1(p, BridgeDoes(EvictTake));
      acts := [BridgeDoes(EvictTake)] + rest;
      RunAppend(p, [BridgeDoes(EvictTake)], rest);
    } else if p.stream.bridge == Evicting(None) {
      assert Sent(p.stream.queue, Remaining(p)) == p.stream.queue;
      assert BridgeApply(p, EvictBreak) == Flushed(p);
      Run1(p, BridgeDoes(EvictBreak));
      acts := [BridgeDoes(EvictBreak)];
    } else {
      acts := FlushHolding(p);
    }
  }

  lemma FlushHolding(p: Pipe) returns (acts: seq<Action>)
    requires p.stream.bridge.Evicting? && p.stream.bridge.next.Some? && |p.stream.queue| <= CAPACITY
    ensures OnlyBridge(acts) && Run(p, acts) == Some(Flushed(p))
    decreases |Remaining(p)|, 0
  {
    var left := Remaining(p);
    assert left[0] == p.stream.bridge.next.value && left[1..] == p.chan.queue;
    if |p.stream.queue| < CAPACITY {
      var turned := FlushTurn(p);
      assert BridgeApply(p, EvictForward) == turned;
      Run1(p, BridgeDoes(EvictForward));
      assert Remaining(turned) == left[1..];
      var rest := FlushRun(turned);
      SendOneMore(p.stream.queue, left);
      assert Flushed(turned) == Flushed(p);
      acts := [BridgeDoes(EvictForward)] + rest;
      RunAppend(p, [BridgeDoes(EvictForward)], rest);
    } else {
      assert Sent(p.stream.queue, Remaining(p)) == p.stream.queue;
      assert BridgeApply(p, EvictBreak) == Flushed(p);
      Run1(p, BridgeDoes(EvictBreak));
      acts := [BridgeDoes(EvictBreak)];
    }
  }

  /** However the loop goes, it comes to the flush. */
  lemma {:induction false} EvictionIsFlush(p: Pipe, acts: seq<Action>)
    requires p.stream.bridge.Evicting? && |p.stream.queue| <= CAPACITY && OnlyBridge(acts) && Run(p, acts).Some?
    requires Run(p, acts).value.stream.bridge.Ending?
    ensures Run(p, acts).value == Flushed(p)
    decreases |acts|
  {
    var x, q := acts[0].bridge, Apply(p, acts[0]);
    match x
    case EvictTake =>
      TakeFlushes(p);
      EvictionIsFlush(q, acts[1..]);
    case EvictForward =>
      ForwardFlushes(p);
      EvictionIsFlush(q, acts[1..]);
    case EvictBreak =>
      BreakFlushes(p);
      if acts[1..] != [] {
        assert BridgeEnabled(q, acts[1].bridge) && acts[1].bridge.Return?;
        StoppedStays(Apply(q, acts[1]), acts[1..][1..]);
      }
  }

  lemma BreakFlushes(p: Pipe)
    requires BridgeEnabled(p, EvictBreak) && |p.stream.queue| <= CAPACITY
    ensures BridgeApply(p, EvictBreak) == Flushed(p)
  {
    assert Sent(p.stream.queue, Remaining(p)) == p.stream.queue;
  }

  lemma StoppedStays(p: Pipe, acts: seq<Action>)
    requires p.stream.bridge.Stopped? && OnlyBridge(acts) && Run(p, acts).Some?
    ensures Run(p, acts).value.stream.bridge.Stopped?
  {
    if acts != [] {
      assert false;
    }
  }

  // ---------- what bridge does ----------

  lemma OneMore(start: Pipe, acts: seq<Action>, p: Pipe, x: BridgeStep) returns (more: seq<Action>)
    requires OnlyBridge(acts) && Run(start, acts) == Some(p) && BridgeEnabled(p, x)
    ensures OnlyBridge(more) && Run(start, more) == Some(BridgeApply(p, x))
  {
    Run1(p, BridgeDoes(x));
    RunAppend(start, acts, [BridgeDoes(x)]);
    more := acts + [BridgeDoes(x)];
  }

  lemma ThenFlush(start: Pipe, acts: seq<Action>, p: Pipe) returns (more: seq<Action>)
    requires OnlyBridge(acts) && Run(start, acts) == Some(p) && p.stream.bridge.Evicting? && |p.stream.queue| <= CAPACITY
    ensures OnlyBridge(more) && Run(start, more) == Some(Flushed(p))
  {
    var rest := FlushRun(p);
    RunAppend(start, acts, rest);
    more := acts + rest;
  }

  /** However the inner select ended without passing its event on, it was a run. */
  lemma AfterHeld(start: Pipe, acts: seq<Action>, held: Pipe, q: Pipe) returns (more: seq<Action>)
    requires OnlyBridge(acts) && Run(start, acts) == Some(held) && |held.stream.queue| <= CAPACITY
    requires || (BridgeEnabled(held, SeeSlow) && q == Flushed(BridgeApply(held, SeeSlow)))
             || (BridgeEnabled(held, SeeCancel) && q == BridgeApply(held, SeeCancel))
             || q == held
    ensures OnlyBridge(more) && Run(start, more) == Some(q)
  {
    if q == held {
      more := acts;
    } else if BridgeEnabled(held, SeeCancel) && q == BridgeApply(held, SeeCancel) {
      more := OneMore(start, acts, held, SeeCancel);
    } else {
      more := OneMore(start, acts, held, SeeSlow);
      more := ThenFlush(start, more, BridgeApply(held, SeeSlow));
    }
  }

  /** The room events of the client that are in the stream's queue or on their way to it. */
  function Total(p: Pipe): seq<Offer> {
    RoomPart(p.stream.Put()) + p.stream.Held() + p.chan.queue
  }

  /** Where a bridge left alone comes to rest. It waits with nothing in SendCh, or before a full
      queue, nothing lost; it has stopped, SendCh closed and drained, or the connection cancelled;
      or, its client slow, it has passed on what fits and is to end the session. */
  predicate AtRest(start: Pipe, p: Pipe) {
    var all := Total(start);
    match p.stream.bridge
    case Waiting => p.chan.queue == [] && !p.chan.closed && !p.room.slow && !p.stream.cancelled && Total(p) == all
    case Holding(_) => |p.stream.queue| == CAPACITY && !p.room.slow && !p.stream.cancelled && Total(p) == all
    case Stopped => p.stream.cancelled || (p.chan.closed && p.chan.queue == [] && RoomPart(p.stream.Put()) == all)
    case Ending =>
      && p.room.slow && RoomPart(start.stream.Put()) <= RoomPart(p.stream.Put()) <= all
      && (RoomPart(p.stream.Put()) == all || |p.stream.queue| == CAPACITY)
    case _ => false
  }

  /** A bridge that goes on loses nothing. */
  lemma StepKeepsTotal(p: Pipe, x: BridgeStep)
    requires BridgeEnabled(p, x) && !p.stream.BridgeOver() && !BridgeApply(p, x).stream.BridgeOver()
    ensures Total(BridgeApply(p, x)) == Total(p)
  {
    var q := p.(chan := p.chan.(accepted := Total(p)));
    assert q.stream.Put() == p.stream.Put();
    BridgeFlowStep(q, x);
  }

  lemma FlushAtRest(start: Pipe, p: Pipe)
    requires p.stream.bridge.Evicting? && p.room.slow && |p.stream.queue| <= CAPACITY
    requires Total(p) == Total(start) && RoomPart(start.stream.Put()) <= RoomPart(p.stream.Put())
    ensures AtRest(start, Flushed(p))
  {
    FlushedExtendsPrefix(p.(chan := p.chan.(accepted := Total(p))));
  }

  /** The bridge still on its way, nothing lost. */
  predicate OnItsWay(start: Pipe, p: Pipe) {
    Total(p) == Total(start) && RoomPart(start.stream.Put()) <= RoomPart(p.stream.Put())
  }

  lemma TakenOnItsWay(start: Pipe, p: Pipe)
    requires OnItsWay(start, p) && BridgeEnabled(p, Take)
    ensures OnItsWay(start, BridgeApply(p, Take))
  {
    StepKeepsTotal(p, Take);
    assert BridgeApply(p, Take).stream.Put() == p.stream.Put();
  }

  lemma ForwardedOnItsWay(start: Pipe, p: Pipe)
    requires OnItsWay(start, p) && BridgeEnabled(p, BridgeStep.Forward)
    ensures OnItsWay(start, BridgeApply(p, BridgeStep.Forward))
  {
    StepKeepsTotal(p, BridgeStep.Forward);
    PutStep(p, BridgeDoes(BridgeStep.Forward));
    RoomPartAppend(p.stream.Put(), Added(p, BridgeDoes(BridgeStep.Forward)));
  }

  lemma SlowAtRest(start: Pipe, p: Pipe)
    requires OnItsWay(start, p) && BridgeEnabled(p, SeeSlow) && |p.stream.queue| <= CAPACITY
    ensures AtRest(start, Flushed(BridgeApply(p, SeeSlow)))
  {
    StepKeepsTotal(p, SeeSlow);
    assert BridgeApply(p, SeeSlow).stream.Put() == p.stream.Put();
    FlushAtRest(start, BridgeApply(p, SeeSlow));
  }

  lemma HeldAtRest(start: Pipe, held: Pipe, q: Pipe)
    requires OnItsWay(start, held) && held.stream.bridge.Holding? && |held.stream.queue| <= CAPACITY
    requires || (BridgeEnabled(held, SeeSlow) && q == Flushed(BridgeApply(held, SeeSlow)))
             || (BridgeEnabled(held, SeeCancel) && q == BridgeApply(held, SeeCancel))
             || (q == held && |held.stream.queue| == CAPACITY && !held.room.slow && !held.stream.cancelled)
    ensures AtRest(start, q)
  {
    if BridgeEnabled(held, SeeSlow) && q == Flushed(BridgeApply(held, SeeSlow)) {
      SlowAtRest(start, held);
    }
  }

  // ---------- what endSession does ----------

  /** After an endSession that had nothing to wait for: the client the stream knows, if it does, is
      out of its room and SessionEnded is the last thing queued (a cancelled stream with a full
      queue gets none). */
  function SessionOver(p: Pipe, caller: Ender): Pipe {
    var s := p.stream;
    var note := if |s.queue| < CAPACITY then [Ended(Reason(caller))] else [];
    Pipe(p.room.(member := p.room.member && !s.Knows()), p.chan, s.(endStage := Finished, ender := caller, queue := s.queue + note))
  }

  lemma SessionOverRun(p: Pipe, caller: Ender) returns (acts: seq<Action>)
    requires Quiet(p) && p.stream.endStage.NotCalled? && MayCall(p.stream, caller)
    requires p.stream.cancelled || |p.stream.queue| < CAPACITY
    ensures Run(p, acts) == Some(SessionOver(p, caller))
  {
    var called := EndApply(p, Call(caller));
    var known := p.room.member && p.stream.Knows();
    var leave := if known then [RoomDoes(Remove)] else [];
    var gone := if known then LockedApply(called, Remove) else called;
    if known {
      Run1(called, RoomDoes(Remove));
    }
    var out := EndApply(gone, Left);
    var last := if |p.stream.queue| < CAPACITY then SendEnded else GiveUp;
    Run1(p, EndDoes(Call(caller)));
    Run2(gone, EndDoes(Left), EndDoes(last), out);
    Run1(EndApply(out, last), EndDoes(Close));
    RunAppend(p, [EndDoes(Call(caller))], leave);
    RunAppend(p, [EndDoes(Call(caller))] + leave, [EndDoes(Left), EndDoes(last)]);
    acts := [EndDoes(Call(caller))] + leave + [EndDoes(Left), EndDoes(last)];
    RunAppend(p, acts, [EndDoes(Close)]);
    acts := acts + [EndDoes(Close)];
    assert p.stream.queue + [] == p.stream.queue;
  }

  predicate OnlyEnding(acts: seq<Action>) {
    forall i :: 0 <= i < |acts| ==> acts[i].EndDoes? || acts[i] == RoomDoes(Remove)
  }

  /** endSession waits for the room's lock, or for the reader to make room in a full queue. */
  predicate EndWaits(p: Pipe) {
    var s := p.stream;
    && !s.cancelled
    && ((s.endStage.Leaving? && s.Knows() && p.room.member && p.room.readers != {}) || (s.endStage.Replying? && |s.queue| == CAPACITY))
  }

  /** It waits exactly when it can do nothing: neither a step of its own nor, while it leaves, taking
      its client out of the room. */
  lemma WaitsExactly(p: Pipe)
    requires (p.stream.endStage.Leaving? || p.stream.endStage.Replying?) && |p.stream.queue| <= CAPACITY
    ensures EndWaits(p) <==>
            (forall a: EndStep :: !EndEnabled(p, a)) && !(p.stream.endStage.Leaving? && LockedEnabled(p, Remove))
  {
    if !EndWaits(p) {
      if p.stream.endStage.Leaving? {
        assert EndEnabled(p, EndStep.Left) || LockedEnabled(p, Remove);
      } else {
        assert EndEnabled(p, SendEnded) || EndEnabled(p, GiveUp);
      }
    }
  }

  lemma {:induction false} EndMore(start: Pipe, acts: seq<Action>, p: Pipe, a: Action) returns (more: seq<Action>)
    requires OnlyEnding(acts) && Run(start, acts) == Some(p) && Enabled(p, a) && (a.EndDoes? || a == RoomDoes(Remove))
    ensures OnlyEnding(more) && Run(start, more) == Some(Apply(p, a))
  {
    Run1(p, a);
    RunAppend(start, acts, [a]);
    more := acts + [a];
  }

  // ---------- the connection object ----------

  /** A client's SendCh and the stream that drains it. The methods change it in place as the code
      does. `EndSession` stops where the code would wait and `ResumeEnding` goes on from there;
      `Reply` and `Receive` ask that they need not wait. */
  class Connection {
    var room: RoomSide
    var sendCh: seq<Offer>          // the client's channel
    var closed: bool
    var streamCh: seq<Item>         // the stream's channel
    var bridge: Bridge
    var endStage: EndStage
    var ender: Ender
    var cancelled: bool
    var eof: bool
    ghost var accepted: seq<Offer>
    ghost var received: seq<Item>

    ghost function State(): Pipe
      reads this
    {
      Pipe(room, Channel(sendCh, closed, accepted), Stream(bridge, streamCh, endStage, ender, cancelled, eof, received))
    }

    constructor ()
      ensures State() == OPENED && Inv(State())
    {
      room := OPENED.room;
      sendCh, closed, accepted := [], false, [];
      bridge, streamCh, received := Unjoined, [], [];
      endStage, ender, cancelled, eof := NotCalled, ByBridge, false, false;
      new;
      OpenedInv();
    }

    /** The join in `Send`, undisturbed: whether or not the session has ended, the client is in its
        room and the bridge starts. */
    method Join()
      requires bridge.Unjoined?
      modifies this`room, this`bridge
      ensures Run(old(State()), JOINING) == Some(State())
      ensures State() == Pipe(old(room).(member := true), old(State()).chan, old(State()).stream.(bridge := Waiting))
    {
      JoinIsRun(State());
      room := room.(member := true);
      bridge := Starting;
      StartBridge();
    }

    /** GetClient, then `go bridge`; a client that is out of its room again gets none. */
    method StartBridge()
      requires bridge.Starting?
      modifies this`bridge
      ensures State() == JoinApply(old(State()), Launch)
    {
      bridge := if room.member then Waiting else NoBridge;
    }

    /** `deliver`: an undisturbed call, under the caller's read lock. */
    method Deliver(sender: Sender, event: Event)
      modifies this
      ensures State() == NoGap.Deliver(old(State()), sender, event)
    {
      var o := Offer(sender, event);
      room := room.(offered := room.offered + [o]);
      if room.slow {
        return;
      }
      if |sendCh| < CAPACITY {
        sendCh := sendCh + [o];
        accepted := accepted + [o];
      } else {
        room := room.(slow := true);
      }
    }

    /** The forwarding loop of evictSlow. */
    method EvictSlow(held: Option<Offer>)
      requires bridge == Evicting(held) && |streamCh| <= CAPACITY
      modifies this
      ensures State() == Flushed(old(State()))
    {
      var event := held;
      ghost var start, acts := State(), [];
      while true
        invariant bridge == Evicting(event) && |streamCh| <= CAPACITY
        invariant OnlyBridge(acts) && Run(start, acts) == Some(State())
        decreases |sendCh| + if event.Some? then 1 else 0
      {
        if event.None? {
          if sendCh == [] {
            break;
          }
          acts := OneMore(start, acts, State(), EvictTake);
          event := Some(sendCh[0]);
          sendCh := sendCh[1..];
          bridge := Evicting(event);
        }
        if |streamCh| >= CAPACITY {
          break;
        }
        acts := OneMore(start, acts, State(), EvictForward);
        streamCh := streamCh + [FromRoom(event.value)];
        event := None;
        bridge := Evicting(event);
      }
      acts := OneMore(start, acts, State(), EvictBreak);
      bridge := Bridge.Ending;
      EvictionIsFlush(start, acts);
    }

    /** The inner select of `bridge`, one event in hand: pass it on, be evicted, stop, or wait. */
    method ForwardHeld(held: Offer) returns (forwarded: bool)
      requires bridge == Holding(held) && |streamCh| <= CAPACITY
      modifies this
      ensures forwarded ==> BridgeEnabled(old(State()), Forward) && State() == BridgeApply(old(State()), Forward)
      ensures !forwarded ==>
                || (BridgeEnabled(old(State()), SeeSlow) && State() == Flushed(BridgeApply(old(State()), SeeSlow)))
                || (BridgeEnabled(old(State()), SeeCancel) && State() == BridgeApply(old(State()), SeeCancel))
                || (State() == old(State()) && |streamCh| == CAPACITY && !room.slow && !cancelled)
    {
      forwarded := false;
      if {
        case |streamCh| < CAPACITY =>
          streamCh := streamCh + [FromRoom(held)];
          bridge := Waiting;
          forwarded := true;
        case room.slow =>
          bridge := Evicting(Some(held));
          EvictSlow(Some(held));
        case cancelled =>
          bridge := Stopped;
        case |streamCh| == CAPACITY && !room.slow && !cancelled =>
      }
    }

    /** `bridge`, until it returns or can do nothing: whichever ready branch each select takes,
        what it did is a run of the bridge's steps. */
    method RunBridge()
      requires bridge == Waiting && |streamCh| <= CAPACITY
      modifies this
      ensures exists acts :: OnlyBridge(acts) && Run(old(State()), acts) == Some(State())
      ensures AtRest(old(State()), State())
    {
      ghost var start, acts := State(), [];
      while true
        invariant bridge == Waiting && |streamCh| <= CAPACITY && OnItsWay(start, State())
        invariant OnlyBridge(acts) && Run(start, acts) == Some(State())
        decreases |sendCh|
      {
        ghost var before := State();
        if {
          case sendCh != [] =>
            var event := sendCh[0];
            bridge, sendCh := Holding(event), sendCh[1..];
            ghost var held := State();
            acts := OneMore(start, acts, before, Take);
            TakenOnItsWay(start, before);
            var forwarded := ForwardHeld(event);
            if !forwarded {
              acts := AfterHeld(start, acts, held, State());
              HeldAtRest(start, held, State());
              return;
            }
            acts := OneMore(start, acts, held, BridgeStep.Forward);
            ForwardedOnItsWay(start, held);
          case sendCh == [] && closed =>
            bridge := Stopped;
            acts := OneMore(start, acts, before, SeeClose);
            return;
          case room.slow =>
            bridge := Evicting(None);
            acts := OneMore(start, acts, before, SeeSlow);
            acts := ThenFlush(start, acts, State());
            SlowAtRest(start, before);
            EvictSlow(None);
            return;
          case cancelled =>
            bridge := Stopped;
            acts := OneMore(start, acts, before, SeeCancel);
            return;
          case sendCh == [] && !closed && !room.slow && !cancelled =>
            return;
        }
      }
    }

    /** `reply` while the stream's queue has room. */
    method Reply(event: Event)
      requires |streamCh| < CAPACITY
      modifies this
      ensures State() == LineApply(old(State()), LineStep.Reply(event))
    {
      streamCh := streamCh + [Answer(event)];
    }

    /** leaveAndCleanup, as far as the room's lock lets it: false while it waits. */
    method Leave(ghost start: Pipe, ghost acts: seq<Action>) returns (gone: bool, ghost more: seq<Action>)
      requires endStage.Leaving? && OnlyEnding(acts) && Run(start, acts) == Some(State())
      modifies this`room, this`endStage
      ensures OnlyEnding(more) && Run(start, more) == Some(State())
      ensures gone ==> endStage.Replying? && streamCh == old(streamCh) && cancelled == old(cancelled)
      ensures !gone ==> EndWaits(State())
      ensures Quiet(old(State())) && !old(cancelled) ==>
                gone && State() == EndApply(old(State()).(room := old(room).(member := room.member)), Left)
                && room.member == (old(room.member) && !State().stream.Knows())
    {
      more := acts;
      var knows := !bridge.Unjoined? && !bridge.Admitted?;
      if knows && room.member && room.readers == {} {
        more := EndMore(start, more, State(), RoomDoes(Remove));
        room := room.(member := false);
      }
      gone := !knows || !room.member || cancelled;
      if gone {
        more := EndMore(start, more, State(), EndDoes(Left));
        endStage := Replying;
      }
    }

    /** The reply of SessionEnded, and the end of the stream: false while the queue is full. */
    method SayEnded(ghost start: Pipe, ghost acts: seq<Action>) returns (said: bool, ghost more: seq<Action>)
      requires endStage.Replying? && |streamCh| <= CAPACITY && OnlyEnding(acts) && Run(start, acts) == Some(State())
      modifies this`streamCh, this`endStage
      ensures OnlyEnding(more) && Run(start, more) == Some(State())
      ensures said ==> endStage.Finished?
      ensures !said ==> EndWaits(State())
      ensures !old(cancelled) && |old(streamCh)| < CAPACITY ==>
                said && State() == EndApply(EndApply(old(State()), SendEnded), Close)
    {
      more := acts;
      if {
        case |streamCh| < CAPACITY =>
          more := EndMore(start, more, State(), EndDoes(SendEnded));
          streamCh := streamCh + [Ended(Reason(ender))];
        case cancelled =>
          more := EndMore(start, more, State(), EndDoes(GiveUp));
        case |streamCh| == CAPACITY && !cancelled =>
          said := false;
          return;
      }
      endStage := Closing;
      more := EndMore(start, more, State(), EndDoes(Close));
      endStage := Finished;
      said := true;
    }

    /** `endSession` from where it stands: a run of its steps, to its end or to where it must
        wait for the room's lock or for the reader. */
    method GoOnEnding(ghost start: Pipe, ghost acts: seq<Action>) returns (ghost more: seq<Action>)
      requires (endStage.Leaving? || endStage.Replying?) && |streamCh| <= CAPACITY
      requires OnlyEnding(acts) && Run(start, acts) == Some(State())
      modifies this`room, this`streamCh, this`endStage
      ensures OnlyEnding(more) && Run(start, more) == Some(State())
      ensures endStage.Finished? || EndWaits(State())
      ensures Quiet(old(State())) && !old(cancelled) && |old(streamCh)| < CAPACITY && old(endStage).Leaving? ==>
                State() == SessionOver(old(State()), old(ender))
    {
      more := acts;
      if endStage.Leaving? {
        var gone;
        gone, more := Leave(start, more);
        if !gone {
          return;
        }
      }
      var said;
      said, more := SayEnded(start, more);
    }

    /** `endSession`. Only the first call does anything: a run of its steps, as far as it gets. With
        nothing to wait for, the client the stream knows is out and SessionEnded is queued last. */
    method EndSession(caller: Ender)
      requires |streamCh| <= CAPACITY && (endStage.NotCalled? ==> MayCall(State().stream, caller))
      modifies this
      ensures !old(endStage).NotCalled? ==> State() == old(State())
      ensures exists acts :: OnlyEnding(acts) && Run(old(State()), acts) == Some(State())
      ensures old(endStage).NotCalled? ==> ender == caller && (endStage.Finished? || EndWaits(State()))
      ensures old(endStage).NotCalled? && Quiet(old(State())) && !cancelled && |old(streamCh)| < CAPACITY ==>
                State() == SessionOver(old(State()), caller)
    {
      ghost var start, acts := State(), [];
      assert Run(start, acts) == Some(State());
      if endStage.NotCalled? {
        acts := EndMore(start, acts, State(), EndDoes(Call(caller)));
        ender, endStage := caller, Leaving;
        acts := GoOnEnding(start, acts);
      }
    }

    /** The call that is waiting goes on, once others have moved. */
    method ResumeEnding()
      requires (endStage.Leaving? || endStage.Replying?) && |streamCh| <= CAPACITY
      modifies this
      ensures exists acts :: OnlyEnding(acts) && Run(old(State()), acts) == Some(State())
      ensures endStage.Finished? || EndWaits(State())
    {
      ghost var start := State();
      assert Run(start, []) == Some(State());
      ghost var acts := GoOnEnding(start, []);
    }

    /** `Recv`, at least one branch of its select being ready. */
    method Receive() returns (r: Receipt)
      requires streamCh != [] || endStage.Finished? || cancelled
      modifies this
      ensures exists b :: NoGap.Recv(old(State()).stream, b) == Some((r, State().stream))
      ensures State().room == old(State()).room && State().chan == old(State()).chan
      ensures r.EndOfStream? ==> old(streamCh) == [] && endStage.Finished?
      ensures r.ContextDone? ==> cancelled && State() == old(State())
    {
      ghost var s := State().stream;
      if {
        case streamCh != [] =>
          r := Got(streamCh[0]);
          received, streamCh := received + [streamCh[0]], streamCh[1..];
          assert NoGap.Recv(s, QueueBranch) == Some((r, State().stream));
        case endStage.Finished? =>
          if streamCh != [] {
            r := Got(streamCh[0]);
            received, streamCh := received + [streamCh[0]], streamCh[1..];
          } else {
            r := EndOfStream;
            eof := true;
          }
          assert NoGap.Recv(s, EndedBranch) == Some((r, State().stream));
        case cancelled =>
          r := ContextDone;
          assert NoGap.Recv(s, CancelBranch) == Some((r, State().stream));
      }
    }
  }
}
