/**
 The path of room events to one client: the room's senders, the client's SendCh, the
 bridge goroutine, the stream's own queue and Recv.

 Every goroutine is cut at the points where another one can run in between, so the
 slow check of `deliver` and its channel send are two separate actions. What the code
 does is `Enabled` and `Apply`; everything else is about all sequences of actions.
 */
module Delivery {
  import opened Options
  import opened Protocol

  /** Slots in a client's SendCh and in a stream's sendCh. */
  const CAPACITY: nat := 64

  /** A goroutine that broadcasts into the room. */
  type Sender = string

  datatype Offer = Offer(sender: Sender, event: Event)

  /** An entry of the stream's queue: a bridged room event, an answer to one of the
      client's own actions, or the SessionEnded of endSession. */
  datatype Item = FromRoom(offer: Offer) | Answer(event: Event) | Ended(reason: string)

  datatype Bridge =
    | Unjoined                           // the connection has no client yet
    | Admitted                           // the client is in its room, the stream not told
    | Starting                           // the stream knows its client, `go bridge` still to come
    | Waiting                            // outer select
    | Holding(held: Offer)               // inner select, one event taken
    | Evicting(next: Option<Offer>)      // the loop of evictSlow
    | Ending                             // at the endSession call of evictSlow
    | Stopped
    | NoBridge                           // the client was out again before it got one

  /** Who calls endSession: the client's own bridge, the token's timer, or the bridge of an
      earlier client of the same connection. */
  datatype Ender = ByBridge | ByTimer | ByFormer
  datatype EndStage = NotCalled | Leaving | Replying | Closing | Finished

  /** The senders' side: the room's read lock, the client's slow flag, its place in the room. */
  datatype RoomSide = RoomSide(
    readers: set<Sender>,            // senders inside the room's read lock
    committed: map<Sender, Event>,   // passed the slow check, channel send still to come
    member: bool,                    // in the room's Clients map
    slow: bool,
    offered: seq<Offer>)             // history: deliver calls, in the order of their slow checks

  /** SendCh. */
  datatype Channel = Channel(
    queue: seq<Offer>,
    closed: bool,
    accepted: seq<Offer>)            // history: every event queued here, in order

  /** The stream: its bridge, its queue, the once-only endSession body, its reader. */
  datatype Stream = Stream(
    bridge: Bridge,
    queue: seq<Item>,
    endStage: EndStage,
    ender: Ender,                    // who runs the endSession body
    cancelled: bool,
    eof: bool,
    received: seq<Item>)             // history: what Recv returned
  {
    /** Everything that ever entered the stream's queue, in order. */
    function Put(): seq<Item> {
      received + queue
    }

    function Held(): seq<Offer> {
      match bridge
      case Holding(o) => [o]
      case Evicting(Some(o)) => [o]
      case _ => []
    }

    /** The stream has stored its client's id. */
    predicate Knows() {
      !bridge.Unjoined? && !bridge.Admitted?
    }

    predicate BridgeRuns() {
      bridge.Waiting? || bridge.Holding? || bridge.Evicting?
    }

    predicate BridgeOver() {
      bridge.Ending? || bridge.Stopped? || bridge.NoBridge?
    }
  }

  datatype Pipe = Pipe(room: RoomSide, chan: Channel, stream: Stream) {
    /** Room events accepted and still on their way to Recv. */
    function Backlog(): nat {
      |chan.queue| + |stream.Held()| + |RoomPart(stream.queue)|
    }
  }

  datatype SenderStep =
    | RLock(sender: Sender)
    | Check(sender: Sender, event: Event)
    | Select(sender: Sender)
    | RUnlock(sender: Sender)

  /** RemoveClient and CloseAllClients, under the room's write lock. */
  datatype LockedStep = Remove | CloseChannel

  /** What Send does of a join, other goroutines in between: handleJoin puts the client into its
      room, the stream stores its id, and looks it up to start its bridge. */
  datatype JoinStep = Board | Store | Launch

  datatype BridgeStep =
    | Take | Forward | SeeSlow | SeeClose | SeeCancel
    | EvictTake | EvictForward | EvictBreak | Return

  datatype EndStep = Call(ender: Ender) | Left | SendEnded | GiveUp | Close

  datatype LineStep = Reply(event: Event) | RecvItem | RecvEof | Cancel

  datatype Action =
    | SenderDoes(sender: SenderStep)
    | RoomDoes(locked: LockedStep)
    | JoinDoes(join: JoinStep)
    | BridgeDoes(bridge: BridgeStep)
    | EndDoes(end: EndStep)
    | LineDoes(line: LineStep)

  const SLOW_CONSUMER := "slow_consumer"
  const TOKEN_EXPIRED := "token_expired"

  function Reason(e: Ender): string {
    if e.ByTimer? then TOKEN_EXPIRED else SLOW_CONSUMER
  }

  const EMPTY_CHANNEL := Channel([], false, [])

  /** A connection just opened, for a client still to come. Earlier clients it may have had stand
      in its history as answers. */
  const OPENED := Pipe(RoomSide({}, map[], false, false, []), EMPTY_CHANNEL,
                       Stream(Unjoined, [], NotCalled, ByBridge, false, false, []))

  /** A client just added to its room, its bridge started. */
  const FRESH := Pipe(RoomSide({}, map[], true, false, []), EMPTY_CHANNEL,
                      Stream(Waiting, [], NotCalled, ByBridge, false, false, []))

  // ---------- deliver, under the read lock ----------

  predicate SenderEnabled(p: Pipe, a: SenderStep) {
    match a
    case RLock(s) => s !in p.room.readers && !p.stream.bridge.Unjoined?
    case Check(s, _) => s in p.room.readers && s !in p.room.committed && p.room.member
    case Select(s) => s in p.room.committed
    case RUnlock(s) => s in p.room.readers && s !in p.room.committed
  }

  function SenderApply(p: Pipe, a: SenderStep): Pipe
    requires SenderEnabled(p, a)
  {
    var r := p.room;
    match a
    case RLock(s) => p.(room := r.(readers := r.readers + {s}))
    case Check(s, e) =>
      var asked := r.(offered := r.offered + [Offer(s, e)]);
      p.(room := if r.slow then asked else asked.(committed := r.committed[s := e]))
    case Select(s) =>
      var done := r.(committed := r.committed - {s});
      if |p.chan.queue| < CAPACITY then Pipe(done, Push(p.chan, Offer(s, r.committed[s])), p.stream)
      else p.(room := done.(slow := true))
    case RUnlock(s) => p.(room := r.(readers := r.readers - {s}))
  }

  function Push(c: Channel, o: Offer): Channel {
    c.(queue := c.queue + [o], accepted := c.accepted + [o])
  }

  // ---------- the room's write lock ----------

  predicate LockedEnabled(p: Pipe, a: LockedStep) {
    p.room.readers == {} && p.room.member
  }

  function LockedApply(p: Pipe, a: LockedStep): Pipe {
    var q := p.(room := p.room.(member := false));
    if a.Remove? then q else q.(chan := p.chan.(closed := true))
  }

  // ---------- the join ----------

  /** Send looks neither at `ended` nor at the context. */
  predicate JoinEnabled(p: Pipe, a: JoinStep) {
    match a
    case Board => p.stream.bridge.Unjoined?
    case Store => p.stream.bridge.Admitted?
    case Launch => p.stream.bridge.Starting?
  }

  function JoinApply(p: Pipe, a: JoinStep): Pipe {
    var s := p.stream;
    match a
    case Board => Pipe(p.room.(member := true), p.chan, s.(bridge := Admitted))
    case Store => p.(stream := s.(bridge := Starting))
    case Launch => p.(stream := s.(bridge := if p.room.member then Waiting else NoBridge))
  }

  // ---------- bridge and evictSlow ----------

  predicate BridgeEnabled(p: Pipe, a: BridgeStep) {
    var s := p.stream;
    var selecting := s.bridge.Waiting? || s.bridge.Holding?;
    match a
    case Take => s.bridge.Waiting? && p.chan.queue != []
    case Forward => s.bridge.Holding? && |s.queue| < CAPACITY
    case SeeSlow => selecting && p.room.slow
    case SeeClose => s.bridge.Waiting? && p.chan.queue == [] && p.chan.closed
    case SeeCancel => selecting && s.cancelled
    case EvictTake => s.bridge == Evicting(None) && p.chan.queue != []
    case EvictForward => s.bridge.Evicting? && s.bridge.next.Some? && |s.queue| < CAPACITY
    case EvictBreak =>
      s.bridge.Evicting? && (if s.bridge.next.Some? then |s.queue| >= CAPACITY else p.chan.queue == [])
    case Return => s.bridge.Ending? && s.endStage.Finished?
  }

  function BridgeApply(p: Pipe, a: BridgeStep): Pipe
    requires BridgeEnabled(p, a)
  {
    var s := p.stream;
    match a
    case Take => Pipe(p.room, Pop(p.chan), s.(bridge := Holding(p.chan.queue[0])))
    case Forward => p.(stream := s.(bridge := Waiting, queue := s.queue + [FromRoom(s.bridge.held)]))
    case SeeSlow => p.(stream := s.(bridge := Evicting(if s.bridge.Holding? then Some(s.bridge.held) else None)))
    case SeeClose => p.(stream := s.(bridge := Stopped))
    case SeeCancel => p.(stream := s.(bridge := Stopped))
    case EvictTake => Pipe(p.room, Pop(p.chan), s.(bridge := Evicting(Some(p.chan.queue[0]))))
    case EvictForward => p.(stream := s.(bridge := Evicting(None), queue := s.queue + [FromRoom(s.bridge.next.value)]))
    case EvictBreak => p.(stream := s.(bridge := Bridge.Ending))
    case Return => p.(stream := s.(bridge := Stopped))
  }

  function Pop(c: Channel): Channel
    requires c.queue != []
  {
    c.(queue := c.queue[1..])
  }

  // ---------- endSession ----------

  /** An earlier client of the connection is out before a new one joins, unless the connection
      is closing. */
  predicate MayCall(s: Stream, e: Ender) {
    match e
    case ByBridge => s.bridge.Ending?
    case ByTimer => true
    case ByFormer => s.bridge.Unjoined? || s.cancelled
  }

  /** endSession takes the client it knows of out of its room; with none it has nothing to do. */
  predicate EndEnabled(p: Pipe, a: EndStep) {
    var s := p.stream;
    match a
    case Call(e) => s.endStage.NotCalled? && MayCall(s, e)
    case Left => s.endStage.Leaving? && (!s.Knows() || !p.room.member || s.cancelled)
    case SendEnded => s.endStage.Replying? && |s.queue| < CAPACITY
    case GiveUp => s.endStage.Replying? && s.cancelled
    case Close => s.endStage.Closing?
  }

  function EndApply(p: Pipe, a: EndStep): Pipe {
    var s := p.stream;
    match a
    case Call(e) => p.(stream := s.(endStage := Leaving, ender := e))
    case Left => p.(stream := s.(endStage := Replying))
    case SendEnded => p.(stream := s.(endStage := Closing, queue := s.queue + [Ended(Reason(s.ender))]))
    case GiveUp => p.(stream := s.(endStage := Closing))
    case Close => p.(stream := s.(endStage := Finished))
  }

  // ---------- reply, Recv, the connection ----------

  predicate LineEnabled(p: Pipe, a: LineStep) {
    var s := p.stream;
    match a
    case Reply(_) => |s.queue| < CAPACITY
    case RecvItem => !s.eof && s.queue != []
    case RecvEof => !s.eof && s.endStage.Finished? && s.queue == []
    case Cancel => true
  }

  function LineApply(p: Pipe, a: LineStep): Pipe
    requires LineEnabled(p, a)
  {
    var s := p.stream;
    match a
    case Reply(e) => p.(stream := s.(queue := s.queue + [Answer(e)]))
    case RecvItem => p.(stream := s.(received := s.received + [s.queue[0]], queue := s.queue[1..]))
    case RecvEof => p.(stream := s.(eof := true))
    case Cancel => p.(stream := s.(cancelled := true))
  }

  // ---------- runs ----------

  predicate Enabled(p: Pipe, a: Action) {
    match a
    case SenderDoes(x) => SenderEnabled(p, x)
    case RoomDoes(x) => LockedEnabled(p, x)
    case JoinDoes(x) => JoinEnabled(p, x)
    case BridgeDoes(x) => BridgeEnabled(p, x)
    case EndDoes(x) => EndEnabled(p, x)
    case LineDoes(x) => LineEnabled(p, x)
  }

  function Apply(p: Pipe, a: Action): Pipe
    requires Enabled(p, a)
  {
    match a
    case SenderDoes(x) => SenderApply(p, x)
    case RoomDoes(x) => LockedApply(p, x)
    case JoinDoes(x) => JoinApply(p, x)
    case BridgeDoes(x) => BridgeApply(p, x)
    case EndDoes(x) => EndApply(p, x)
    case LineDoes(x) => LineApply(p, x)
  }

  /** The state after a sequence of actions, None when one of them was not enabled. */
  function Run(p: Pipe, acts: seq<Action>): Option<Pipe>
    decreases |acts|
  {
    if acts == [] then Some(p)
    else if Enabled(p, acts[0]) then Run(Apply(p, acts[0]), acts[1..])
    else None
  }

  // ---------- projections ----------

  function RoomPart(items: seq<Item>): seq<Offer> {
    if items == [] then []
    else
      var rest := RoomPart(items[..|items| - 1]);
      var last := items[|items| - 1];
      if last.FromRoom? then rest + [last.offer] else rest
  }

  function By(s: Sender, offers: seq<Offer>): seq<Offer> {
    if offers == [] then []
    else
      var rest := By(s, offers[..|offers| - 1]);
      var last := offers[|offers| - 1];
      if last.sender == s then rest + [last] else rest
  }

  function EndedCount(items: seq<Item>): nat {
    if items == [] then 0
    else EndedCount(items[..|items| - 1]) + if items[|items| - 1].Ended? then 1 else 0
  }

  lemma RoomPartSnoc(items: seq<Item>, x: Item)
    ensures RoomPart(items + [x]) == RoomPart(items) + if x.FromRoom? then [x.offer] else []
  {
    assert (items + [x])[..|items|] == items;
  }

  lemma {:induction false} RoomPartAppend(a: seq<Item>, b: seq<Item>)
    ensures RoomPart(a + b) == RoomPart(a) + RoomPart(b)
    decreases |b|
  {
    if b == [] {
      assert a + b == a;
    } else {
      var k := |b| - 1;
      assert a + b == (a + b[..k]) + [b[k]];
      RoomPartSnoc(a + b[..k], b[k]);
      RoomPartAppend(a, b[..k]);
    }
  }

  lemma {:induction false} RoomPartBound(items: seq<Item>)
    ensures |RoomPart(items)| <= |items|
  {
    if items != [] {
      RoomPartBound(items[..|items| - 1]);
    }
  }

  lemma BySnoc(s: Sender, offers: seq<Offer>, o: Offer)
    ensures By(s, offers + [o]) == By(s, offers) + if o.sender == s then [o] else []
  {
    assert (offers + [o])[..|offers|] == offers;
  }

  lemma {:induction false} ByPrefix(s: Sender, a: seq<Offer>, b: seq<Offer>)
    requires a <= b
    ensures By(s, a) <= By(s, b)
    decreases |b|
  {
    if a != b {
      ByPrefix(s, a, b[..|b| - 1]);
    }
  }

  lemma EndedSnoc(items: seq<Item>, x: Item)
    ensures EndedCount(items + [x]) == EndedCount(items) + if x.Ended? then 1 else 0
  {
    assert (items + [x])[..|items|] == items;
  }

  // ---------- invariants ----------

  /** Locks, capacities and the life of the channel. */
  predicate Shape(p: Pipe) {
    && (p.stream.bridge.Unjoined? ==> p.room == OPENED.room && p.chan == EMPTY_CHANNEL)
    && |p.chan.queue| <= CAPACITY
    && |p.stream.queue| <= CAPACITY
    && p.room.committed.Keys <= p.room.readers
    && (p.chan.closed ==> !p.room.member)
    && (p.room.committed != map[] ==> p.room.member)
    && (p.stream.bridge.Evicting? || p.stream.bridge.Ending? ==> p.room.slow)
    && (p.stream.eof ==> p.stream.endStage.Finished?)
  }

  function Pending(r: RoomSide, s: Sender): seq<Offer> {
    if s in r.committed then [Offer(s, r.committed[s])] else []
  }

  /** What each sender got into the channel, against what it offered. */
  ghost predicate SenderOrder(r: RoomSide, accepted: seq<Offer>) {
    && (forall s :: By(s, accepted) + Pending(r, s) <= By(s, r.offered))
    && (!r.slow ==> forall s :: By(s, accepted) + Pending(r, s) == By(s, r.offered))
    && (!r.slow ==> |r.offered| == |accepted| + |r.committed|)
  }

  /** No event is lost or reordered between SendCh and Recv; a bridge that has
      stopped may have left a suffix behind. */
  predicate Flow(c: Channel, s: Stream) {
    && RoomPart(s.Put()) <= c.accepted
    && (!s.BridgeOver() ==> c.accepted == RoomPart(s.Put()) + s.Held() + c.queue)
  }

  predicate CalledBy(s: Stream, e: Ender) {
    !s.endStage.NotCalled? && s.ender == e
  }

  /** No room event follows the SessionEnded of an eviction. */
  predicate EvictionIsLast(put: seq<Item>) {
    forall i, j :: 0 <= i < j < |put| && put[i] == Ended(SLOW_CONSUMER) ==> !put[j].FromRoom?
  }

  /** SessionEnded is queued at most once, and by the client's bridge only after its last event. */
  predicate Ends(s: Stream) {
    && EndedCount(s.Put()) <= 1
    && (s.endStage.NotCalled? || s.endStage.Leaving? || s.endStage.Replying? ==> EndedCount(s.Put()) == 0)
    && ((s.endStage.Closing? || s.endStage.Finished?) && !s.cancelled ==> EndedCount(s.Put()) == 1)
    && (CalledBy(s, ByBridge) ==> s.BridgeOver() && EvictionIsLast(s.Put()))
  }

  ghost predicate Inv(p: Pipe) {
    Shape(p) && SenderOrder(p.room, p.chan.accepted) && Flow(p.chan, p.stream) && Ends(p.stream)
  }

  lemma OpenedInv()
    ensures Inv(OPENED)
  {
  }

  lemma ShapeStep(p: Pipe, a: Action)
    requires Shape(p) && Enabled(p, a)
    ensures Shape(Apply(p, a))
  {
  }

  lemma CheckKeepsOrder(r: RoomSide, accepted: seq<Offer>, s0: Sender, e: Event)
    requires SenderOrder(r, accepted) && s0 !in r.committed
    ensures r.slow ==> SenderOrder(r.(offered := r.offered + [Offer(s0, e)]), accepted)
    ensures !r.slow ==> SenderOrder(r.(offered := r.offered + [Offer(s0, e)], committed := r.committed[s0 := e]), accepted)
  {
    forall s ensures By(s, r.offered + [Offer(s0, e)]) == By(s, r.offered) + if s == s0 then [Offer(s0, e)] else []
    {
      BySnoc(s, r.offered, Offer(s0, e));
    }
  }

  lemma SelectKeepsOrder(r: RoomSide, accepted: seq<Offer>, s0: Sender)
    requires SenderOrder(r, accepted) && s0 in r.committed
    ensures var q := r.(committed := r.committed - {s0});
            SenderOrder(q, accepted + [Offer(s0, r.committed[s0])]) && SenderOrder(q.(slow := true), accepted)
  {
    var o := Offer(s0, r.committed[s0]);
    var q := r.(committed := r.committed - {s0});
    forall s
      ensures By(s, accepted + [o]) + Pending(q, s) == By(s, accepted) + Pending(r, s)
      ensures By(s, accepted) + Pending(q, s) <= By(s, r.offered)
    {
      BySnoc(s, accepted, o);
    }
    assert r.committed.Keys == q.committed.Keys + {s0};
  }

  /** Nobody's events move, nor what is in flight. */
  lemma OtherwiseKeepsOrder(r: RoomSide, t: RoomSide, accepted: seq<Offer>)
    requires SenderOrder(r, accepted) && t.committed == r.committed && t.offered == r.offered && t.slow == r.slow
    ensures SenderOrder(t, accepted)
  {
    assert forall s :: Pending(t, s) == Pending(r, s);
  }

  lemma SenderOrderStep(p: Pipe, a: Action)
    requires SenderOrder(p.room, p.chan.accepted) && Enabled(p, a)
    ensures SenderOrder(Apply(p, a).room, Apply(p, a).chan.accepted)
  {
    if a.SenderDoes? && a.sender.Check? {
      CheckKeepsOrder(p.room, p.chan.accepted, a.sender.sender, a.sender.event);
    } else if a.SenderDoes? && a.sender.Select? {
      SelectKeepsOrder(p.room, p.chan.accepted, a.sender.sender);
    } else {
      OtherwiseKeepsOrder(p.room, Apply(p, a).room, p.chan.accepted);
    }
  }

  /** The item an action puts into the stream's queue. */
  function Added(p: Pipe, a: Action): seq<Item>
    requires Enabled(p, a)
  {
    match a
    case BridgeDoes(Forward) => [FromRoom(p.stream.bridge.held)]
    case BridgeDoes(EvictForward) => [FromRoom(p.stream.bridge.next.value)]
    case EndDoes(SendEnded) => [Ended(Reason(p.stream.ender))]
    case LineDoes(Reply(e)) => [Answer(e)]
    case _ => []
  }

  lemma PutStep(p: Pipe, a: Action)
    requires Enabled(p, a)
    ensures Apply(p, a).stream.Put() == p.stream.Put() + Added(p, a)
  {
    if a == LineDoes(RecvItem) {
      var q := p.stream.queue;
      assert q == [q[0]] + q[1..];
    }
  }

  /** The bridge takes the head of SendCh into its hand. */
  lemma TakeKeepsFlow(c: Channel, s: Stream, b: Bridge)
    requires Flow(c, s) && !s.BridgeOver() && s.Held() == [] && c.queue != []
    requires s.(bridge := b).Held() == [c.queue[0]]
    ensures Flow(Pop(c), s.(bridge := b))
  {
    var t := s.(bridge := b);
    assert t.Put() == s.Put();
    assert c.queue == t.Held() + Pop(c).queue;
  }

  /** The bridge puts what it holds into the stream's queue. */
  lemma ForwardKeepsFlow(c: Channel, s: Stream, b: Bridge)
    requires Flow(c, s) && !s.BridgeOver() && |s.Held()| == 1 && s.(bridge := b).Held() == []
    ensures Flow(c, s.(bridge := b, queue := s.queue + [FromRoom(s.Held()[0])]))
  {
    var x := FromRoom(s.Held()[0]);
    var t := s.(bridge := b, queue := s.queue + [x]);
    assert t.Put() == s.Put() + [x];
    RoomPartSnoc(s.Put(), x);
    assert RoomPart(t.Put()) == RoomPart(s.Put()) + s.Held();
    assert c.accepted == (RoomPart(s.Put()) + s.Held()) + c.queue;
  }

  /** Nothing from the room moves. */
  lemma StillKeepsFlow(c: Channel, s: Stream, t: Stream)
    requires Flow(c, s) && RoomPart(t.Put()) == RoomPart(s.Put())
    requires !t.BridgeOver() ==> !s.BridgeOver() && t.Held() == s.Held()
    ensures Flow(c, t)
  {
  }

  lemma PushKeepsFlow(c: Channel, s: Stream, o: Offer)
    requires Flow(c, s)
    ensures Flow(Push(c, o), s)
  {
    if !s.BridgeOver() {
      assert c.accepted + [o] == RoomPart(s.Put()) + s.Held() + (c.queue + [o]);
    }
  }

  lemma BridgeFlowStep(p: Pipe, a: BridgeStep)
    requires Flow(p.chan, p.stream) && BridgeEnabled(p, a)
    ensures Flow(BridgeApply(p, a).chan, BridgeApply(p, a).stream)
  {
    var t := BridgeApply(p, a).stream;
    if a.Take? || a.EvictTake? {
      TakeKeepsFlow(p.chan, p.stream, t.bridge);
    } else if a.Forward? || a.EvictForward? {
      ForwardKeepsFlow(p.chan, p.stream, t.bridge);
    } else {
      assert t.Put() == p.stream.Put();
      StillKeepsFlow(p.chan, p.stream, t);
    }
  }

  lemma OwnItemsAreNotRoomEvents(p: Pipe, a: Action)
    requires Enabled(p, a) && (a.EndDoes? || a.LineDoes?)
    ensures RoomPart(Apply(p, a).stream.Put()) == RoomPart(p.stream.Put())
  {
    PutStep(p, a);
    var put, added := p.stream.Put(), Added(p, a);
    if added == [] {
      assert put + added == put;
    } else {
      RoomPartSnoc(put, added[0]);
      assert added == [added[0]];
    }
  }

  lemma SenderFlowStep(p: Pipe, x: SenderStep)
    requires Flow(p.chan, p.stream) && SenderEnabled(p, x)
    ensures Flow(SenderApply(p, x).chan, SenderApply(p, x).stream)
  {
    if x.Select? {
      PushKeepsFlow(p.chan, p.stream, Offer(x.sender, p.room.committed[x.sender]));
    }
  }

  /** A lock or a close leaves the events where they are, and so does a join. */
  lemma LockedFlowStep(p: Pipe, x: LockedStep)
    requires Flow(p.chan, p.stream)
    ensures Flow(LockedApply(p, x).chan, LockedApply(p, x).stream)
  {
  }

  lemma JoinFlowStep(p: Pipe, x: JoinStep)
    requires Flow(p.chan, p.stream) && JoinEnabled(p, x)
    ensures Flow(JoinApply(p, x).chan, JoinApply(p, x).stream)
  {
    assert JoinApply(p, x).stream.Put() == p.stream.Put();
    StillKeepsFlow(p.chan, p.stream, JoinApply(p, x).stream);
  }

  lemma EndFlowStep(p: Pipe, x: EndStep)
    requires Flow(p.chan, p.stream) && EndEnabled(p, x)
    ensures Flow(EndApply(p, x).chan, EndApply(p, x).stream)
  {
    OwnItemsAreNotRoomEvents(p, EndDoes(x));
    StillKeepsFlow(p.chan, p.stream, EndApply(p, x).stream);
  }

  lemma LineFlowStep(p: Pipe, x: LineStep)
    requires Flow(p.chan, p.stream) && LineEnabled(p, x)
    ensures Flow(LineApply(p, x).chan, LineApply(p, x).stream)
  {
    OwnItemsAreNotRoomEvents(p, LineDoes(x));
    StillKeepsFlow(p.chan, p.stream, LineApply(p, x).stream);
  }

  lemma FlowStep(p: Pipe, a: Action)
    requires Flow(p.chan, p.stream) && Enabled(p, a)
    ensures Flow(Apply(p, a).chan, Apply(p, a).stream)
  {
    match a
    case SenderDoes(x) => SenderFlowStep(p, x);
    case RoomDoes(x) => LockedFlowStep(p, x);
    case JoinDoes(x) => JoinFlowStep(p, x);
    case BridgeDoes(x) => BridgeFlowStep(p, x);
    case EndDoes(x) => EndFlowStep(p, x);
    case LineDoes(x) => LineFlowStep(p, x);
  }

  lemma OneMoreEnds(s: Stream, t: Stream, o: Offer)
    requires Ends(s) && s.BridgeRuns() && t.Put() == s.Put() + [FromRoom(o)]
    requires t.endStage == s.endStage && t.ender == s.ender && t.cancelled == s.cancelled
    ensures Ends(t)
  {
    EndedSnoc(s.Put(), FromRoom(o));
    assert !CalledBy(s, ByBridge);
  }

  lemma ForwardEnds(s: Stream, b: Bridge, o: Offer)
    requires Ends(s) && s.BridgeRuns()
    ensures Ends(s.(bridge := b, queue := s.queue + [FromRoom(o)]))
  {
    var t := s.(bridge := b, queue := s.queue + [FromRoom(o)]);
    assert t.Put() == s.Put() + [FromRoom(o)];
    OneMoreEnds(s, t, o);
  }

  lemma TurnEnds(s: Stream, b: Bridge)
    requires Ends(s) && (CalledBy(s, ByBridge) ==> b.Ending? || b.Stopped? || b.NoBridge?)
    ensures Ends(s.(bridge := b))
  {
    assert s.(bridge := b).Put() == s.Put();
  }

  lemma BridgeEnds(p: Pipe, x: BridgeStep)
    requires Ends(p.stream) && BridgeEnabled(p, x)
    ensures Ends(BridgeApply(p, x).stream)
  {
    match x
    case Forward => ForwardEnds(p.stream, Waiting, p.stream.bridge.held);
    case EvictForward => ForwardEnds(p.stream, Evicting(None), p.stream.bridge.next.value);
    case _ => TurnEnds(p.stream, BridgeApply(p, x).stream.bridge);
  }

  /** While nothing has ended, nothing can follow the end. */
  lemma {:induction false} NothingEnded(put: seq<Item>)
    requires EndedCount(put) == 0
    ensures forall i :: 0 <= i < |put| ==> !put[i].Ended?
  {
    if put != [] {
      var n := |put| - 1;
      NothingEnded(put[..n]);
      assert forall i :: 0 <= i < n ==> put[i] == put[..n][i];
    }
  }

  lemma SayEndedEnds(s: Stream)
    requires Ends(s) && s.endStage.Replying?
    ensures Ends(s.(endStage := Closing, queue := s.queue + [Ended(Reason(s.ender))]))
  {
    var x := Ended(Reason(s.ender));
    assert s.(endStage := Closing, queue := s.queue + [x]).Put() == s.Put() + [x];
    EndedSnoc(s.Put(), x);
  }

  lemma EndSessionEnds(p: Pipe, x: EndStep)
    requires Ends(p.stream) && EndEnabled(p, x)
    ensures Ends(EndApply(p, x).stream)
  {
    if x.SendEnded? {
      SayEndedEnds(p.stream);
    } else {
      assert EndApply(p, x).stream.Put() == p.stream.Put();
      if x.Call? {
        NothingEnded(p.stream.Put());
      }
    }
  }

  lemma ReceiveEnds(s: Stream)
    requires Ends(s) && s.queue != []
    ensures Ends(s.(queue := s.queue[1..], received := s.received + [s.queue[0]]))
  {
    var t := s.(queue := s.queue[1..], received := s.received + [s.queue[0]]);
    assert s.queue == [s.queue[0]] + s.queue[1..];
    assert t.Put() == s.Put();
  }

  lemma ReplyEnds(s: Stream, e: Event)
    requires Ends(s)
    ensures Ends(s.(queue := s.queue + [Answer(e)]))
  {
    assert s.(queue := s.queue + [Answer(e)]).Put() == s.Put() + [Answer(e)];
    EndedSnoc(s.Put(), Answer(e));
  }

  lemma LineEnds(p: Pipe, x: LineStep)
    requires Ends(p.stream) && LineEnabled(p, x)
    ensures Ends(LineApply(p, x).stream)
  {
    match x
    case Reply(e) => ReplyEnds(p.stream, e);
    case RecvItem => ReceiveEnds(p.stream);
    case RecvEof =>
    case Cancel =>
  }

  lemma EndsStep(p: Pipe, a: Action)
    requires Ends(p.stream) && Enabled(p, a)
    ensures Ends(Apply(p, a).stream)
  {
    match a
    case BridgeDoes(x) => BridgeEnds(p, x);
    case EndDoes(x) => EndSessionEnds(p, x);
    case LineDoes(x) => LineEnds(p, x);
    case SenderDoes(_) =>
    case RoomDoes(_) =>
    case JoinDoes(x) => TurnEnds(p.stream, JoinApply(p, x).stream.bridge);
  }
}
