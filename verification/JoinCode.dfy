/**
 Join codes: a relay URL in unpadded base64url, a colon, a session id. The printer and the
 parser are the browser's btoa and atob with `+` and `/` swapped for `-` and `_`
 (sections 4 and 5 of RFC 4648).
 */
module JoinCodes {
  import opened Options

  type Byte = b: int | 0 <= b < 256
  type Sextet = v: int | 0 <= v < 64

  // ---------- the alphabet ----------

  function Digit(v: Sextet): char {
    if v < 26 then ('A' as int + v) as char
    else if v < 52 then ('a' as int + v - 26) as char
    else if v < 62 then ('0' as int + v - 52) as char
    else if v == 62 then '+' else '/'
  }

  function Value(c: char): (v: Option<Sextet>)
    ensures v.Some? ==> Digit(v.value) == c && c !in "=:-_" && !IsSpace(c)
  {
    if 'A' <= c <= 'Z' then Some(c as int - 'A' as int)
    else if 'a' <= c <= 'z' then Some(c as int - 'a' as int + 26)
    else if '0' <= c <= '9' then Some(c as int - '0' as int + 52)
    else if c == '+' then Some(62)
    else if c == '/' then Some(63)
    else None
  }

  function ToUrl(c: char): char {
    if c == '+' then '-' else if c == '/' then '_' else c
  }

  function FromUrl(c: char): char {
    if c == '-' then '+' else if c == '_' then '/' else c
  }

  predicate IsSpace(c: char) {
    c == ' ' || c == '\t' || c == '\n' || c == '\r' || c == (12 as char)
  }

  function UrlText(s: string): (r: string)
    ensures |r| == |s|
  {
    seq(|s|, i requires 0 <= i < |s| => ToUrl(s[i]))
  }

  function PlainText(s: string): (r: string)
    ensures |r| == |s|
  {
    seq(|s|, i requires 0 <= i < |s| => FromUrl(s[i]))
  }

  function Text(v: seq<Sextet>): (r: string)
    ensures |r| == |v|
  {
    seq(|v|, i requires 0 <= i < |v| => Digit(v[i]))
  }

  predicate AllDigits(s: string) {
    forall i :: 0 <= i < |s| ==> Value(s[i]).Some?
  }

  function Values(s: string): (r: seq<Sextet>)
    requires AllDigits(s)
    ensures |r| == |s|
  {
    seq(|s|, i requires 0 <= i < |s| => Value(s[i]).value)
  }

  predicate Latin1(s: string) {
    forall i :: 0 <= i < |s| ==> s[i] as int < 256
  }

  function Bytes(s: string): (r: seq<Byte>)
    requires Latin1(s)
    ensures |r| == |s|
  {
    seq<Byte>(|s|, i requires 0 <= i < |s| => s[i] as int)
  }

  function Chars(b: seq<Byte>): (r: string)
    ensures |r| == |b|
  {
    seq(|b|, i requires 0 <= i < |b| => b[i] as char)
  }

  // ---------- bits ----------

  function First(a: Byte): Sextet { a / 4 }
  function Second(a: Byte, b: Byte): Sextet { a % 4 * 16 + b / 16 }
  function Third(b: Byte, c: Byte): Sextet { b % 16 * 4 + c / 64 }
  function Fourth(c: Byte): Sextet { c % 64 }

  function High(v: Sextet, w: Sextet): Byte { v * 4 + w / 16 }
  function Middle(w: Sextet, x: Sextet): Byte { w % 16 * 16 + x / 4 }
  function Low(x: Sextet, y: Sextet): Byte { x % 4 * 64 + y }

  lemma Cut2(q: int, r: int)
    requires 0 <= r < 4
    ensures (q * 4 + r) / 4 == q && (q * 4 + r) % 4 == r
  {
  }

  lemma Cut4(q: int, r: int)
    requires 0 <= r < 16
    ensures (q * 16 + r) / 16 == q && (q * 16 + r) % 16 == r
  {
  }

  lemma Cut6(q: int, r: int)
    requires 0 <= r < 64
    ensures (q * 64 + r) / 64 == q && (q * 64 + r) % 64 == r
  {
  }

  lemma FirstByte(a: Byte, b: Byte)
    ensures High(First(a), Second(a, b)) == a
  {
    Cut4(a % 4, b / 16);
  }

  lemma SecondByte(a: Byte, b: Byte, c: Byte)
    ensures Middle(Second(a, b), Third(b, c)) == b
  {
    Cut4(a % 4, b / 16);
    Cut2(b % 16, c / 64);
  }

  lemma ThirdByte(b: Byte, c: Byte)
    ensures Low(Third(b, c), Fourth(c)) == c
  {
    Cut2(b % 16, c / 64);
  }

  lemma FirstBack(v: Sextet, w: Sextet)
    ensures First(High(v, w)) == v && (w % 16 == 0 ==> Second(High(v, w), 0) == w)
  {
    Cut2(v, w / 16);
  }

  lemma SecondBack(v: Sextet, w: Sextet, x: Sextet)
    ensures Second(High(v, w), Middle(w, x)) == w && (x % 4 == 0 ==> Third(Middle(w, x), 0) == x)
  {
    Cut2(v, w / 16);
    Cut4(w % 16, x / 4);
  }

  lemma ThirdBack(w: Sextet, x: Sextet, y: Sextet)
    ensures Third(Middle(w, x), Low(x, y)) == x && Fourth(Low(x, y)) == y
  {
    Cut4(w % 16, x / 4);
    Cut6(x % 4, y);
  }

  /** Three bytes to four sextets; a short last group is filled with zero bits. */
  function Sextets(b: seq<Byte>): seq<Sextet> {
    if |b| == 0 then []
    else if |b| == 1 then [First(b[0]), Second(b[0], 0)]
    else if |b| == 2 then [First(b[0]), Second(b[0], b[1]), Third(b[1], 0)]
    else [First(b[0]), Second(b[0], b[1]), Third(b[1], b[2]), Fourth(b[2])] + Sextets(b[3..])
  }

  /** Four sextets to three bytes; the bits a short last group has too many are dropped. */
  function Octets(v: seq<Sextet>): seq<Byte> {
    if |v| < 2 then []
    else if |v| == 2 then [High(v[0], v[1])]
    else if |v| == 3 then [High(v[0], v[1]), Middle(v[1], v[2])]
    else [High(v[0], v[1]), Middle(v[1], v[2]), Low(v[2], v[3])] + Octets(v[4..])
  }

  /** The bits that no byte uses are zero. */
  predicate ZeroTail(v: seq<Sextet>) {
    (|v| % 4 == 2 ==> v[|v| - 1] % 16 == 0) && (|v| % 4 == 3 ==> v[|v| - 1] % 4 == 0)
  }

  lemma OneOctet(a: Byte)
    ensures Octets(Sextets([a])) == [a]
  {
    var v := [First(a), Second(a, 0)];
    assert Sextets([a]) == v;
    FirstByte(a, 0);
    assert Octets(v) == [High(v[0], v[1])];
  }

  lemma TwoOctets(a: Byte, b: Byte)
    ensures Octets(Sextets([a, b])) == [a, b]
  {
    FirstByte(a, b);
    SecondByte(a, b, 0);
  }

  lemma TwoSextets(v: Sextet, w: Sextet)
    requires w % 16 == 0
    ensures Sextets(Octets([v, w])) == [v, w]
  {
    var b := [High(v, w)];
    assert Octets([v, w]) == b;
    FirstBack(v, w);
    assert Sextets(b) == [First(b[0]), Second(b[0], 0)];
  }

  lemma ThreeSextets(v: Sextet, w: Sextet, x: Sextet)
    requires x % 4 == 0
    ensures Sextets(Octets([v, w, x])) == [v, w, x]
  {
    var b := [High(v, w), Middle(w, x)];
    assert Octets([v, w, x]) == b;
    FirstBack(v, w);
    SecondBack(v, w, x);
    assert Sextets(b) == [First(b[0]), Second(b[0], b[1]), Third(b[1], 0)];
  }

  lemma {:induction false} OctetsOfSextets(b: seq<Byte>)
    ensures Octets(Sextets(b)) == b
  {
    if |b| == 1 {
      OneOctet(b[0]);
      assert b == [b[0]];
    } else if |b| == 2 {
      TwoOctets(b[0], b[1]);
      assert b == [b[0], b[1]];
    } else if |b| >= 3 {
      FirstByte(b[0], b[1]);
      SecondByte(b[0], b[1], b[2]);
      ThirdByte(b[1], b[2]);
      OctetsOfSextets(b[3..]);
      OctetsAppend(Sextets(b)[..4], Sextets(b[3..]));
      assert Sextets(b) == Sextets(b)[..4] + Sextets(b[3..]);
      assert b == b[..3] + b[3..];
    }
  }

  lemma {:induction false} SextetsAreWhole(b: seq<Byte>)
    ensures |Sextets(b)| % 4 != 1 && ZeroTail(Sextets(b))
  {
    if |b| >= 3 {
      SextetsAreWhole(b[3..]);
      assert Sextets(b)[4..] == Sextets(b[3..]);
      TailOfRest(Sextets(b));
    }
  }

  lemma OctetsAppend(group: seq<Sextet>, rest: seq<Sextet>)
    requires |group| == 4
    ensures Octets(group + rest) == [High(group[0], group[1]), Middle(group[1], group[2]), Low(group[2], group[3])] + Octets(rest)
  {
    assert (group + rest)[4..] == rest;
  }

  lemma TailOfRest(v: seq<Sextet>)
    requires |v| >= 4
    ensures |v| % 4 == |v[4..]| % 4 && (ZeroTail(v) <==> ZeroTail(v[4..]))
  {
  }

  lemma SextetsAppend(group: seq<Byte>, rest: seq<Byte>)
    requires |group| == 3
    ensures Sextets(group + rest) ==
            [First(group[0]), Second(group[0], group[1]), Third(group[1], group[2]), Fourth(group[2])] + Sextets(rest)
  {
    assert (group + rest)[3..] == rest;
  }

  lemma {:induction false} SextetsOfOctets(v: seq<Sextet>)
    requires |v| % 4 != 1 && ZeroTail(v)
    ensures Sextets(Octets(v)) == v
  {
    if |v| == 2 {
      TwoSextets(v[0], v[1]);
      assert v == [v[0], v[1]];
    } else if |v| == 3 {
      ThreeSextets(v[0], v[1], v[2]);
      assert v == [v[0], v[1], v[2]];
    } else if |v| >= 4 {
      assert v == v[..4] + v[4..];
      TailOfRest(v);
      OctetsAppend(v[..4], v[4..]);
      SextetsOfOctets(v[4..]);
      FirstBack(v[0], v[1]);
      SecondBack(v[0], v[1], v[2]);
      ThirdBack(v[1], v[2], v[3]);
      SextetsAppend([High(v[0], v[1]), Middle(v[1], v[2]), Low(v[2], v[3])], Octets(v[4..]));
    }
  }

  // ---------- btoa and atob ----------

  function Padding(n: nat): string {
    match n % 3 case 0 => "" case 1 => "==" case _ => "="
  }

  /** btoa; it throws on a character above 255. */
  function Btoa(s: string): Option<string> {
    if Latin1(s) then Some(Text(Sextets(Bytes(s))) + Padding(|s|)) else None
  }

  function Unspaced(s: string): string {
    if s == "" then "" else (if IsSpace(s[0]) then "" else [s[0]]) + Unspaced(s[1..])
  }

  function Unpadded(s: string): string {
    var n := |s|;
    if n >= 2 && s[n - 2] == '=' && s[n - 1] == '=' then s[..n - 2]
    else if n >= 1 && s[n - 1] == '=' then s[..n - 1]
    else s
  }

  /** atob, the forgiving-base64 decode of the Infra standard. */
  function Atob(s: string): Option<string> {
    var t := Unspaced(s);
    var digits := if |t| % 4 == 0 then Unpadded(t) else t;
    if |digits| % 4 == 1 || !AllDigits(digits) then None else Some(Chars(Octets(Values(digits))))
  }

  lemma {:induction false} UnspacedDigits(s: string)
    requires AllDigits(s)
    ensures Unspaced(s) == s
  {
    if s != "" {
      assert Value(s[0]).Some?;
      assert forall i :: 0 <= i < |s[1..]| ==> s[1..][i] == s[i + 1];
      UnspacedDigits(s[1..]);
    }
  }

  lemma AtobOfDigits(s: string)
    requires AllDigits(s)
    ensures Atob(s) == if |s| % 4 == 1 then None else Some(Chars(Octets(Values(s))))
  {
    UnspacedDigits(s);
    assert s != "" ==> Value(s[|s| - 1]).Some?;
  }

  lemma TextIsDigits(v: seq<Sextet>)
    ensures AllDigits(Text(v)) && Values(Text(v)) == v
  {
  }

  // ---------- the code ----------

  datatype Target = Target(relayUrl: string, sessionId: string)

  /** replace(/=+$/, ''). */
  function StripEquals(s: string): string {
    if s != "" && s[|s| - 1] == '=' then StripEquals(s[..|s| - 1]) else s
  }

  function EncodeJoinCode(relayUrl: string, sessionId: string): Option<string> {
    match Btoa(relayUrl)
    case None => None
    case Some(b64) => Some(StripEquals(UrlText(b64)) + ":" + sessionId)
  }

  function IndexOf(s: string, c: char): (k: Option<nat>)
    ensures k.Some? ==> k.value < |s| && s[k.value] == c && c !in s[..k.value]
    ensures k.None? ==> c !in s
  {
    if s == "" then None
    else if s[0] == c then Some(0)
    else match IndexOf(s[1..], c)
      case None => None
      case Some(k) => assert s[..k + 1] == [s[0]] + s[1..][..k]; Some(k + 1)
  }

  function DecodeJoinCode(code: string): Option<Target> {
    match IndexOf(code, ':')
    case None => None
    case Some(k) =>
      if code[k + 1..] == "" then None
      else
        match Atob(PlainText(code[..k]))
        case None => None
        case Some(relayUrl) => Some(Target(relayUrl, code[k + 1..]))
  }

  lemma UrlDigits(v: seq<Sextet>)
    ensures PlainText(UrlText(Text(v))) == Text(v)
    ensures ':' !in UrlText(Text(v)) && '=' !in UrlText(Text(v))
  {
  }

  lemma StripPadding(t: string, n: nat)
    requires '=' !in t
    ensures StripEquals(t + Padding(n)) == t
  {
    assert t != "" ==> t[|t| - 1] in t;
    assert (t + "=")[..|t|] == t;
    assert (t + "==")[..|t| + 1] == t + "=";
    assert StripEquals(t + "==") == StripEquals(t + "=") == StripEquals(t) == t;
    assert t + "" == t;
  }

  /** A printed URL is its digits, all base64url and no padding. */
  lemma PrintedUrl(url: string)
    requires Btoa(url).Some?
    ensures var text := Text(Sextets(Bytes(url)));
            StripEquals(UrlText(Btoa(url).value)) == UrlText(text) && PlainText(UrlText(text)) == text
    ensures ':' !in UrlText(Text(Sextets(Bytes(url))))
  {
    var text := Text(Sextets(Bytes(url)));
    UrlDigits(Sextets(Bytes(url)));
    StripPadding(UrlText(text), |url|);
    assert UrlText(text + Padding(|url|)) == UrlText(text) + Padding(|url|);
  }

  lemma AtobOfPrintedUrl(url: string)
    requires Btoa(url).Some?
    ensures Atob(PlainText(StripEquals(UrlText(Btoa(url).value)))) == Some(url)
  {
    PrintedUrl(url);
    var v := Sextets(Bytes(url));
    TextIsDigits(v);
    OctetsOfSextets(Bytes(url));
    SextetsAreWhole(Bytes(url));
    AtobOfDigits(Text(v));
    assert Chars(Bytes(url)) == url;
  }

  lemma {:induction false} IndexIs(s: string, c: char, k: nat)
    requires k < |s| && s[k] == c && c !in s[..k]
    ensures IndexOf(s, c) == Some(k)
  {
    if k > 0 {
      assert s[0] == s[..k][0];
      assert s[1..][..k - 1] == s[..k][1..];
      IndexIs(s[1..], c, k - 1);
    }
  }

  /** The first colon of a code ends the printed URL, whatever colons the session id has. */
  lemma SplitAtColon(prefix: string, sessionId: string)
    requires ':' !in prefix
    ensures var code := prefix + ":" + sessionId;
            IndexOf(code, ':') == Some(|prefix|) && code[..|prefix|] == prefix && code[|prefix| + 1..] == sessionId
  {
    IndexIs(prefix + ":" + sessionId, ':', |prefix|);
  }

  /** Round trip: the printer refuses just the URLs with a character above 255, and what it
      prints reads back as that URL and session, exactly when the session id is not empty. */
  lemma RoundTrip(relayUrl: string, sessionId: string)
    ensures EncodeJoinCode(relayUrl, sessionId).Some? <==> Latin1(relayUrl)
    ensures Latin1(relayUrl) ==>
              DecodeJoinCode(EncodeJoinCode(relayUrl, sessionId).value) ==
              if sessionId != "" then Some(Target(relayUrl, sessionId)) else None
  {
    if Latin1(relayUrl) {
      PrintedUrl(relayUrl);
      AtobOfPrintedUrl(relayUrl);
      SplitAtColon(StripEquals(UrlText(Btoa(relayUrl).value)), sessionId);
    }
  }

  /** No two targets share a code. */
  lemma Injective(a: Target, b: Target)
    requires EncodeJoinCode(a.relayUrl, a.sessionId).Some?
    requires EncodeJoinCode(a.relayUrl, a.sessionId) == EncodeJoinCode(b.relayUrl, b.sessionId)
    ensures a == b
  {
    PrintedUrl(a.relayUrl);
    PrintedUrl(b.relayUrl);
    SplitAtColon(StripEquals(UrlText(Btoa(a.relayUrl).value)), a.sessionId);
    SplitAtColon(StripEquals(UrlText(Btoa(b.relayUrl).value)), b.sessionId);
    AtobOfPrintedUrl(a.relayUrl);
    AtobOfPrintedUrl(b.relayUrl);
  }

  // ---------- which codes are canonical ----------

  predicate IsUrlDigit(c: char) {
    c != '+' && c != '/' && Value(FromUrl(c)).Some?
  }

  /** Only base64url digits, and no bit set that atob drops. */
  predicate Canonical(b64: string) {
    (forall i :: 0 <= i < |b64| ==> IsUrlDigit(b64[i])) &&
    (AllDigits(PlainText(b64)) ==> ZeroTail(Values(PlainText(b64))))
  }

  lemma PrintedIsCanonical(url: string)
    requires Btoa(url).Some?
    ensures Canonical(StripEquals(UrlText(Btoa(url).value)))
  {
    PrintedUrl(url);
    var v := Sextets(Bytes(url));
    var t := UrlText(Text(v));
    TextIsDigits(v);
    OctetsOfSextets(Bytes(url));
    SextetsAreWhole(Bytes(url));
    forall i | 0 <= i < |t| ensures IsUrlDigit(t[i])
    {
      assert PlainText(t)[i] == Text(v)[i];
      assert Value(Text(v)[i]).Some?;
    }
  }

  lemma CanonicalIsDigits(b64: string)
    requires Canonical(b64)
    ensures AllDigits(PlainText(b64)) && ZeroTail(Values(PlainText(b64)))
    ensures Text(Values(PlainText(b64))) == PlainText(b64) && UrlText(PlainText(b64)) == b64
  {
    var t := PlainText(b64);
    forall i | 0 <= i < |t| ensures Value(t[i]).Some?
    {
      assert IsUrlDigit(b64[i]);
    }
    forall i | 0 <= i < |t| ensures ToUrl(t[i]) == b64[i]
    {
      assert IsUrlDigit(b64[i]);
    }
    assert UrlText(t) == b64;
    assert Text(Values(t)) == t;
  }

  lemma BytesOfChars(b: seq<Byte>)
    ensures Latin1(Chars(b)) && Bytes(Chars(b)) == b
  {
  }

  lemma CanonicalReprints(b64: string)
    requires Canonical(b64) && Atob(PlainText(b64)).Some?
    ensures var url := Atob(PlainText(b64)).value;
            Btoa(url).Some? && StripEquals(UrlText(Btoa(url).value)) == b64
  {
    CanonicalIsDigits(b64);
    AtobOfDigits(PlainText(b64));
    var v := Values(PlainText(b64));
    SextetsOfOctets(v);
    BytesOfChars(Octets(v));
    PrintedUrl(Chars(Octets(v)));
  }

  lemma CutAt(code: string, k: nat)
    requires k < |code| && code[k] == ':'
    ensures code == code[..k] + ":" + code[k + 1..]
  {
  }

  lemma Parsed(code: string)
    requires DecodeJoinCode(code).Some?
    ensures var k, target := IndexOf(code, ':').value, DecodeJoinCode(code).value;
            target.sessionId == code[k + 1..] && Atob(PlainText(code[..k])) == Some(target.relayUrl)
  {
  }

  /** A code that parses prints back as itself exactly when its URL part is canonical. */
  lemma ReprintsIffCanonical(code: string)
    ensures match DecodeJoinCode(code)
            case None => true
            case Some(target) =>
              EncodeJoinCode(target.relayUrl, target.sessionId) == Some(code) <==> Canonical(code[..IndexOf(code, ':').value])
  {
    if DecodeJoinCode(code).Some? {
      Reprints(code);
    }
  }

  lemma Reprints(code: string)
    requires DecodeJoinCode(code).Some?
    ensures var target := DecodeJoinCode(code).value;
            EncodeJoinCode(target.relayUrl, target.sessionId) == Some(code)
            <==> Canonical(code[..IndexOf(code, ':').value])
  {
    Parsed(code);
    CutAt(code, IndexOf(code, ':').value);
    var b64, target := code[..IndexOf(code, ':').value], DecodeJoinCode(code).value;
    if Canonical(b64) {
      CanonicalReprints(b64);
    }
    if EncodeJoinCode(target.relayUrl, target.sessionId) == Some(code) {
      PrintedUrl(target.relayUrl);
      PrintedIsCanonical(target.relayUrl);
      SplitAtColon(StripEquals(UrlText(Btoa(target.relayUrl).value)), target.sessionId);
    }
  }
}
