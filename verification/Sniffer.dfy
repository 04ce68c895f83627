/**
 The stall proxy's close-frame sniffer: an incremental reader of the WebSocket frames a
 server sends (section 5.2 of RFC 6455), fed whatever chunks the socket delivers.
 */
module Sniffing {
  import opened Options

  type Byte = b: int | 0 <= b < 256

  datatype CloseFrame = CloseFrame(code: nat, reason: seq<Byte>)

  datatype Sniffer = Sniffer(upgraded: bool, pending: seq<Byte>, skip: nat, out: seq<CloseFrame>)

  const FRESH := Sniffer(false, [], 0, [])
  const BLANK_LINE: seq<Byte> := [13, 10, 13, 10]
  const CLOSE := 8
  const NO_CODE := 1005

  // ---------- reading one frame ----------

  function BigEndian(s: seq<Byte>): nat {
    if s == [] then 0 else BigEndian(s[..|s| - 1]) * 256 + s[|s| - 1]
  }

  /** What the first bytes of a frame say: its opcode, where its payload starts and ends. */
  datatype Head = Head(opcode: nat, off: nat, end: nat)

  function ReadHead(p: seq<Byte>): (h: Option<Head>)
    ensures h.Some? ==> 2 <= h.value.off <= |p| && h.value.off <= h.value.end
  {
    if |p| < 2 then None
    else
      var opcode, len := p[0] % 16, p[1] % 128;
      if len == 126 then
        if |p| < 4 then None else Some(Head(opcode, 4, 4 + BigEndian(p[2..4])))
      else if len == 127 then
        if |p| < 10 then None else Some(Head(opcode, 10, 10 + BigEndian(p[2..10])))
      else Some(Head(opcode, 2, 2 + len))
  }

  function Closing(body: seq<Byte>): CloseFrame {
    if |body| >= 2 then CloseFrame(BigEndian(body[..2]), body[2..]) else CloseFrame(NO_CODE, [])
  }

  function Noted(out: seq<CloseFrame>, opcode: nat, body: seq<Byte>): seq<CloseFrame> {
    if opcode == CLOSE then out + [Closing(body)] else out
  }

  // ---------- the sniffer as a function ----------

  /** Everything readable in a buffer of frames. */
  function Parse(p: seq<Byte>, out: seq<CloseFrame>): Sniffer
    decreases |p|
  {
    match ReadHead(p)
    case None => Sniffer(true, p, 0, out)
    case Some(h) =>
      if h.end <= |p| then Parse(p[h.end..], Noted(out, h.opcode, p[h.off..h.end]))
      else if h.opcode == CLOSE then Sniffer(true, p, 0, out)
      else Sniffer(true, [], h.end - |p|, out)
  }

  /** Where the blank line that ends the HTTP header starts. */
  function FindBlankLine(p: seq<Byte>): (k: Option<nat>)
    ensures k.Some? ==> k.value + 4 <= |p| && p[k.value..k.value + 4] == BLANK_LINE
  {
    if |p| < 4 then None
    else if p[..4] == BLANK_LINE then Some(0)
    else match FindBlankLine(p[1..])
      case None => None
      case Some(k) => Shifted(p, k); Some(k + 1)
  }

  lemma Shifted(p: seq<Byte>, k: nat)
    requires k + 5 <= |p|
    ensures p[1..][k..k + 4] == p[k + 1..k + 5]
  {
    assert p[1..] == p[1..|p|];
  }

  function Scan(upgraded: bool, p: seq<Byte>, out: seq<CloseFrame>): Sniffer {
    if upgraded then Parse(p, out)
    else
      match FindBlankLine(p)
      case None => Sniffer(false, p, 0, out)
      case Some(k) => Parse(p[k + 4..], out)
  }

  function Feed(s: Sniffer, chunk: seq<Byte>): Sniffer {
    if s.skip >= |chunk| then s.(skip := s.skip - |chunk|)
    else Scan(s.upgraded, s.pending + chunk[s.skip..], s.out)
  }

  function FeedAll(s: Sniffer, chunks: seq<seq<Byte>>): Sniffer
    decreases |chunks|
  {
    if chunks == [] then s else FeedAll(Feed(s, chunks[0]), chunks[1..])
  }

  function Joined(chunks: seq<seq<Byte>>): seq<Byte> {
    if chunks == [] then [] else chunks[0] + Joined(chunks[1..])
  }

  // ---------- cutting the stream differently changes nothing ----------

  lemma HeadOfMore(p: seq<Byte>, b: seq<Byte>)
    requires ReadHead(p).Some?
    ensures ReadHead(p + b) == ReadHead(p)
  {
    if |p| >= 4 {
      assert (p + b)[2..4] == p[2..4];
    }
    if |p| >= 10 {
      assert (p + b)[2..10] == p[2..10];
    }
  }

  /** A payload that is skipped is skipped to the same place. */
  lemma SkipThenFeed(p: seq<Byte>, out: seq<CloseFrame>, b: seq<Byte>)
    requires ReadHead(p).Some? && ReadHead(p).value.opcode != CLOSE && ReadHead(p).value.end > |p|
    ensures Feed(Parse(p, out), b) == Parse(p + b, out)
  {
    HeadOfMore(p, b);
    var skip := ReadHead(p).value.end - |p|;
    assert Parse(p, out) == Sniffer(true, [], skip, out);
    if skip <= |b| {
      assert (p + b)[|p| + skip..] == [] + b[skip..];
    }
  }

  /** A whole frame is read the same with more bytes behind it. */
  lemma ParseWhole(p: seq<Byte>, out: seq<CloseFrame>, b: seq<Byte>)
    requires ReadHead(p).Some? && ReadHead(p).value.end <= |p|
    ensures var h := ReadHead(p).value;
            Parse(p + b, out) == Parse(p[h.end..] + b, Noted(out, h.opcode, p[h.off..h.end]))
  {
    HeadOfMore(p, b);
    var h := ReadHead(p).value;
    assert (p + b)[h.end..] == p[h.end..] + b;
    assert (p + b)[h.off..h.end] == p[h.off..h.end];
  }

  lemma {:induction false} ParseThenFeed(p: seq<Byte>, out: seq<CloseFrame>, b: seq<Byte>)
    ensures Feed(Parse(p, out), b) == Parse(p + b, out)
    decreases |p|
  {
    if ReadHead(p).Some? && ReadHead(p).value.end <= |p| {
      var h := ReadHead(p).value;
      ParseThenFeed(p[h.end..], Noted(out, h.opcode, p[h.off..h.end]), b);
      ParseWhole(p, out, b);
    } else if ReadHead(p).Some? && ReadHead(p).value.opcode != CLOSE {
      SkipThenFeed(p, out, b);
    } else {
      assert Parse(p, out) == Sniffer(true, p, 0, out);
      if b == [] {
        assert p + b == p;
      }
    }
  }

  lemma {:induction false} BlankLineOfMore(p: seq<Byte>, b: seq<Byte>)
    requires FindBlankLine(p).Some?
    ensures FindBlankLine(p + b) == FindBlankLine(p)
  {
    assert (p + b)[..4] == p[..4];
    if p[..4] != BLANK_LINE {
      BlankLineOfMore(p[1..], b);
      assert (p + b)[1..] == p[1..] + b;
    }
  }

  lemma UpgradeThenFeed(p: seq<Byte>, out: seq<CloseFrame>, b: seq<Byte>)
    requires FindBlankLine(p).Some?
    ensures Feed(Scan(false, p, out), b) == Scan(false, p + b, out)
  {
    BlankLineOfMore(p, b);
    var start := FindBlankLine(p).value + 4;
    DropThenAppend(p, start, b);
    assert Scan(false, p + b, out) == Parse((p + b)[start..], out);
    ParseThenFeed(p[start..], out, b);
  }

  lemma DropThenAppend(p: seq<Byte>, k: nat, b: seq<Byte>)
    requires k <= |p|
    ensures (p + b)[k..] == p[k..] + b
  {
  }

  lemma ScanThenFeed(upgraded: bool, p: seq<Byte>, out: seq<CloseFrame>, b: seq<Byte>)
    ensures Feed(Scan(upgraded, p, out), b) == Scan(upgraded, p + b, out)
  {
    if upgraded {
      ParseThenFeed(p, out, b);
    } else if FindBlankLine(p).Some? {
      UpgradeThenFeed(p, out, b);
    } else {
      assert Scan(false, p, out) == Sniffer(false, p, 0, out);
      if b == [] {
        assert p + b == p;
      }
    }
  }

  lemma ScanTwice(s: Sniffer, a: seq<Byte>, b: seq<Byte>)
    requires s.skip < |a|
    ensures Feed(Feed(s, a), b) == Feed(s, a + b)
  {
    var p := s.pending + a[s.skip..];
    DropThenAppend(a, s.skip, b);
    assert s.pending + (a[s.skip..] + b) == p + b;
    ScanThenFeed(s.upgraded, p, s.out, b);
  }

  lemma SkipTwice(s: Sniffer, a: seq<Byte>, b: seq<Byte>)
    requires s.skip >= |a|
    ensures Feed(Feed(s, a), b) == Feed(s, a + b)
  {
    if s.skip < |a| + |b| {
      assert (a + b)[s.skip..] == b[s.skip - |a|..];
    }
  }

  /** Two chunks one after the other do what the two glued together do, in every state. */
  lemma FeedTwice(s: Sniffer, a: seq<Byte>, b: seq<Byte>)
    ensures Feed(Feed(s, a), b) == Feed(s, a + b)
  {
    if s.skip >= |a| {
      SkipTwice(s, a, b);
    } else {
      ScanTwice(s, a, b);
    }
  }

  lemma {:induction false} FeedJoined(s: Sniffer, chunks: seq<seq<Byte>>)
    ensures FeedAll(s, chunks) == Feed(s, Joined(chunks))
    decreases |chunks|
  {
    if chunks != [] {
      FeedJoined(Feed(s, chunks[0]), chunks[1..]);
      FeedTwice(s, chunks[0], Joined(chunks[1..]));
    }
  }

  /** However a byte stream is cut, empty chunks and cuts inside the header, a length or a
      close body included, the sniffer ends in the same state with the same close frames. */
  lemma ChunkingIndependence(s: Sniffer, chunks: seq<seq<Byte>>, others: seq<seq<Byte>>)
    requires Joined(chunks) == Joined(others)
    ensures FeedAll(s, chunks) == FeedAll(s, others)
  {
    FeedJoined(s, chunks);
    FeedJoined(s, others);
  }

  // ---------- decoding what a server encodes ----------

  datatype LengthForm = Bits7 | Bits16 | Bits64

  /** A frame: FIN and the reserved bits, its opcode, the bit beside the length, how the length is
      written, and what stands behind it. A server sets no mask bit; set, it makes no difference. */
  datatype Frame = Frame(flags: nat, opcode: nat, mask: bool, form: LengthForm, payload: seq<Byte>)

  function ToBytes(n: nat, width: nat): (r: seq<Byte>)
    ensures |r| == width
  {
    if width == 0 then [] else ToBytes(n / 256, width - 1) + [n % 256]
  }

  predicate Fits(n: nat, width: nat) {
    if width == 0 then n == 0 else Fits(n / 256, width - 1)
  }

  predicate WellFormed(f: Frame) {
    f.flags < 16 && f.opcode < 16 &&
    match f.form
    case Bits7 => |f.payload| < 126
    case Bits16 => Fits(|f.payload|, 2)
    case Bits64 => Fits(|f.payload|, 8)
  }

  predicate AllWellFormed(frames: seq<Frame>) {
    forall i :: 0 <= i < |frames| ==> WellFormed(frames[i])
  }

  function Prefix(f: Frame): (r: seq<Byte>)
    requires WellFormed(f)
    ensures |r| == match f.form case Bits7 => 2 case Bits16 => 4 case Bits64 => 10
  {
    var high := if f.mask then 128 else 0;
    [f.flags * 16 + f.opcode] +
    match f.form
    case Bits7 => [high + |f.payload|]
    case Bits16 => [high + 126] + ToBytes(|f.payload|, 2)
    case Bits64 => [high + 127] + ToBytes(|f.payload|, 8)
  }

  function Encode(f: Frame): seq<Byte>
    requires WellFormed(f)
  {
    Prefix(f) + f.payload
  }

  function EncodeAll(frames: seq<Frame>): seq<Byte>
    requires AllWellFormed(frames)
  {
    if frames == [] then [] else Encode(frames[0]) + EncodeAll(frames[1..])
  }

  /** The code and reason of every close frame, in order; 1005 stands for a missing code
      (section 7.1.5 of RFC 6455). */
  function Closes(frames: seq<Frame>): seq<CloseFrame> {
    if frames == [] then []
    else
      var f, rest := frames[0], Closes(frames[1..]);
      if f.opcode != 8 then rest
      else if |f.payload| < 2 then [CloseFrame(1005, [])] + rest
      else [CloseFrame(f.payload[0] as nat * 256 + f.payload[1] as nat, f.payload[2..])] + rest
  }

  lemma {:induction false} BigEndianOfBytes(n: nat, width: nat)
    requires Fits(n, width)
    ensures BigEndian(ToBytes(n, width)) == n
  {
    if width > 0 {
      BigEndianOfBytes(n / 256, width - 1);
      assert ToBytes(n, width)[..width - 1] == ToBytes(n / 256, width - 1);
    }
  }

  lemma Bytes2(a: Byte, b: Byte)
    ensures BigEndian([a, b]) == a * 256 + b
  {
    assert [a, b][..1] == [a] && [a][..0] == [];
    assert BigEndian([a]) == a;
  }

  lemma ReadPrefix16(first: Byte, second: Byte, n: nat)
    requires Fits(n, 2) && second % 128 == 126
    ensures ReadHead([first] + ([second] + ToBytes(n, 2))) == Some(Head(first % 16, 4, 4 + n))
  {
    var p := [first] + ([second] + ToBytes(n, 2));
    assert p[2..4] == ToBytes(n, 2);
    BigEndianOfBytes(n, 2);
  }

  lemma ReadPrefix64(first: Byte, second: Byte, n: nat)
    requires Fits(n, 8) && second % 128 == 127
    ensures ReadHead([first] + ([second] + ToBytes(n, 8))) == Some(Head(first % 16, 10, 10 + n))
  {
    var p := [first] + ([second] + ToBytes(n, 8));
    assert p[2..10] == ToBytes(n, 8);
    BigEndianOfBytes(n, 8);
  }

  /** A frame's first bytes are read back as what was written. */
  lemma ReadPrefix(f: Frame)
    requires WellFormed(f)
    ensures ReadHead(Prefix(f)) == Some(Head(f.opcode, |Prefix(f)|, |Encode(f)|))
  {
    var first, high := f.flags * 16 + f.opcode, if f.mask then 128 else 0;
    assert first % 16 == f.opcode;
    match f.form
    case Bits7 => assert Prefix(f) == [first, high + |f.payload|];
    case Bits16 => ReadPrefix16(first, high + 126, |f.payload|);
    case Bits64 => ReadPrefix64(first, high + 127, |f.payload|);
  }

  lemma ClosingOf(f: Frame, out: seq<CloseFrame>)
    ensures Noted(out, f.opcode, f.payload) == out + Closes([f])
  {
    if f.opcode == CLOSE && |f.payload| >= 2 {
      Bytes2(f.payload[0], f.payload[1]);
      assert f.payload[..2] == [f.payload[0], f.payload[1]];
    }
    assert Closes([f]) == if f.opcode == CLOSE then [Closing(f.payload)] else [];
  }

  lemma ParseFrame(f: Frame, rest: seq<Byte>, out: seq<CloseFrame>)
    requires WellFormed(f)
    ensures Parse(Encode(f) + rest, out) == Parse(rest, out + Closes([f]))
  {
    var p := Encode(f);
    ReadPrefix(f);
    HeadOfMore(Prefix(f), f.payload);
    var h := Head(f.opcode, |Prefix(f)|, |p|);
    assert ReadHead(p) == Some(h);
    assert p[h.off..h.end] == f.payload && p[h.end..] + rest == rest;
    ParseWhole(p, out, rest);
    ClosingOf(f, out);
  }

  lemma ClosesCons(f: Frame, frames: seq<Frame>)
    ensures Closes([f] + frames) == Closes([f]) + Closes(frames)
  {
    assert ([f] + frames)[1..] == frames;
  }

  lemma EncodeCons(frames: seq<Frame>, tail: seq<Byte>)
    requires frames != [] && AllWellFormed(frames)
    ensures EncodeAll(frames) + tail == Encode(frames[0]) + (EncodeAll(frames[1..]) + tail)
  {
  }

  lemma ClosesSplit(frames: seq<Frame>)
    requires frames != []
    ensures Closes(frames) == Closes([frames[0]]) + Closes(frames[1..])
  {
    assert frames == [frames[0]] + frames[1..];
    ClosesCons(frames[0], frames[1..]);
  }

  lemma OutRegrouped(out: seq<CloseFrame>, a: seq<CloseFrame>, b: seq<CloseFrame>)
    ensures out + (a + b) == out + a + b
  {
  }

  lemma ClosesAfter(frames: seq<Frame>, out: seq<CloseFrame>)
    requires frames != []
    ensures out + Closes(frames) == out + Closes([frames[0]]) + Closes(frames[1..])
  {
    ClosesSplit(frames);
    OutRegrouped(out, Closes([frames[0]]), Closes(frames[1..]));
  }

  lemma {:induction false} ParseFrames(frames: seq<Frame>, tail: seq<Byte>, out: seq<CloseFrame>)
    requires AllWellFormed(frames)
    ensures Parse(EncodeAll(frames) + tail, out) == Parse(tail, out + Closes(frames))
    decreases |frames|
  {
    if frames == [] {
      assert EncodeAll(frames) + tail == tail;
      assert out + Closes(frames) == out;
    } else {
      EncodeCons(frames, tail);
      ParseFrame(frames[0], EncodeAll(frames[1..]) + tail, out);
      ParseFrames(frames[1..], tail, out + Closes([frames[0]]));
      ClosesAfter(frames, out);
    }
  }

  /** A blank line, two line ends of carriage return and line feed, starts here. */
  predicate BlankAt(p: seq<Byte>, k: nat) {
    k + 4 <= |p| && p[k] == 13 && p[k + 1] == 10 && p[k + 2] == 13 && p[k + 3] == 10
  }

  /** An HTTP header: its first blank line is its end. */
  predicate IsHeader(header: seq<Byte>) {
    |header| >= 4 && BlankAt(header, |header| - 4) && forall k :: 0 <= k < |header| - 4 ==> !BlankAt(header, k)
  }

  /** The first blank line is what is found. */
  lemma {:induction false} FoundFirst(p: seq<Byte>, k: nat)
    requires BlankAt(p, k) && forall j :: 0 <= j < k ==> !BlankAt(p, j)
    ensures FindBlankLine(p) == Some(k)
  {
    if k == 0 {
      assert p[..4] == [p[0], p[1], p[2], p[3]];
    } else {
      assert !BlankAt(p, 0);
      assert p[..4] == [p[0], p[1], p[2], p[3]];
      forall j | 0 <= j < k - 1 ensures !BlankAt(p[1..], j)
      {
        assert !BlankAt(p, j + 1);
      }
      FoundFirst(p[1..], k - 1);
    }
  }

  /** Faithful decoding, however the stream is cut: after the header and any frames the
      sniffer has exactly their closes, in order, and is at a frame boundary. */
  lemma FaithfulDecoding(header: seq<Byte>, frames: seq<Frame>, chunks: seq<seq<Byte>>)
    requires IsHeader(header) && AllWellFormed(frames)
    requires Joined(chunks) == header + EncodeAll(frames)
    ensures FeedAll(FRESH, chunks) == Sniffer(true, [], 0, Closes(frames))
  {
    AfterFrames(header, frames, []);
    assert header + EncodeAll(frames) + [] == header + EncodeAll(frames);
    FeedJoined(FRESH, chunks);
  }

  lemma AfterFrames(header: seq<Byte>, frames: seq<Frame>, tail: seq<Byte>)
    requires IsHeader(header) && AllWellFormed(frames)
    ensures Feed(FRESH, header + EncodeAll(frames) + tail) == Parse(tail, Closes(frames))
  {
    var stream := header + EncodeAll(frames) + tail;
    var body := EncodeAll(frames) + tail;
    assert stream == header + body;
    FoundFirst(header, |header| - 4);
    BlankLineOfMore(header, body);
    assert [] + stream[0..] == stream && stream[|header|..] == body;
    ParseFrames(frames, tail, []);
    assert [] + Closes(frames) == Closes(frames);
  }

  /** A close frame is reported with its last byte and not before: while a frame is incomplete
      the sniffer has the closes of the frames before it and no more. */
  lemma NothingBeforeTheLastByte(
    header: seq<Byte>, frames: seq<Frame>, f: Frame, part: seq<Byte>, chunks: seq<seq<Byte>>)
    requires IsHeader(header) && AllWellFormed(frames) && WellFormed(f) && part < Encode(f)
    requires Joined(chunks) == header + EncodeAll(frames) + part
    ensures FeedAll(FRESH, chunks).out == Closes(frames)
  {
    FeedJoined(FRESH, chunks);
    AfterFrames(header, frames, part);
    if ReadHead(part).Some? {
      var more := Encode(f)[|part|..];
      assert part + more == Encode(f) == Prefix(f) + f.payload;
      HeadOfMore(part, more);
      ReadPrefix(f);
      HeadOfMore(Prefix(f), f.payload);
    }
  }

  lemma FoundIsBlank(p: seq<Byte>, k: nat)
    requires k + 4 <= |p| && p[k..k + 4] == BLANK_LINE
    ensures BlankAt(p, k)
  {
    var line := p[k..k + 4];
    assert p[k] == line[0] && p[k + 1] == line[1] && p[k + 2] == line[2] && p[k + 3] == line[3];
  }

  /** Before the header is complete nothing is reported, whatever it looks like. */
  lemma NothingInTheHeader(chunks: seq<seq<Byte>>)
    requires forall k: nat :: !BlankAt(Joined(chunks), k)
    ensures FeedAll(FRESH, chunks).out == []
  {
    FeedJoined(FRESH, chunks);
    InHeader(Joined(chunks));
  }

  lemma InHeader(p: seq<Byte>)
    requires forall k: nat :: !BlankAt(p, k)
    ensures Feed(FRESH, p).out == []
  {
    assert [] + p[0..] == p;
    var found := FindBlankLine(p);
    if found.Some? {
      FoundIsBlank(p, found.value);
    }
  }

  // ---------- the closure ----------

  /** The closure returned by closeFrameSniffer with the variables it captures. */
  class CloseFrameSniffer {
    var upgraded: bool
    var pending: seq<Byte>
    var skip: nat
    var out: seq<CloseFrame>

    ghost function State(): Sniffer
      reads this
    {
      Sniffer(upgraded, pending, skip, out)
    }

    constructor ()
      ensures State() == FRESH
    {
      upgraded, pending, skip, out := false, [], 0, [];
    }

    method Sniff(chunk: seq<Byte>)
      modifies this
      ensures State() == Feed(old(State()), chunk)
    {
      if skip >= |chunk| {
        skip := skip - |chunk|;
        return;
      }
      pending := pending + chunk[skip..];
      skip := 0;
      if !upgraded {
        var end := FindBlankLine(pending);
        if end.None? {
          return;
        }
        pending := pending[end.value + 4..];
        upgraded := true;
      }
      while true
        invariant upgraded && skip == 0
        invariant Parse(pending, out) == Feed(old(State()), chunk)
        decreases |pending|
      {
        var head := ReadHead(pending);
        if head.None? {
          return;
        }
        var h := head.value;
        if h.opcode == CLOSE {
          if |pending| < h.end {
            return;
          }
          out := out + [Closing(pending[h.off..h.end])];
        }
        if |pending| >= h.end {
          pending := pending[h.end..];
          continue;
        }
        skip := h.end - |pending|;
        pending := [];
        return;
      }
    }
  }
}
