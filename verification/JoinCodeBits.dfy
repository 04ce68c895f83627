/** Join codes bit by bit: which digit stands where, and what each digit gives back (sections 4 and
    5 of RFC 4648). */
module JoinCodeBits {
  import opened Options
  import opened JoinCodes

  const CAPITALS := "ABCDEFGHIJKLMNOPQRSTUVWXYZ"
  const SMALL_LETTERS := "abcdefghijklmnopqrstuvwxyz"
  const NUMERALS := "0123456789-_"
  const ALPHABET := CAPITALS + SMALL_LETTERS + NUMERALS

  // ---------- bits of bytes, in sixes ----------

  /** Bit j of the bytes as one string of bits, the highest of each byte first, zeros behind it. */
  function Bit(b: seq<Byte>, j: nat): (r: int)
    ensures 0 <= r <= 1
  {
    if j >= 8 * |b| then 0
    else
      var x := b[j / 8];
      match j % 8
      case 0 => x / 128
      case 1 => x / 64 % 2
      case 2 => x / 32 % 2
      case 3 => x / 16 % 2
      case 4 => x / 8 % 2
      case 5 => x / 4 % 2
      case 6 => x / 2 % 2
      case _ => x % 2
  }

  /** Bits 6i to 6i + 5 as a number. */
  function SixBits(b: seq<Byte>, i: nat): (r: int)
    ensures 0 <= r < 64
  {
    32 * Bit(b, 6 * i) + 16 * Bit(b, 6 * i + 1) + 8 * Bit(b, 6 * i + 2)
    + 4 * Bit(b, 6 * i + 3) + 2 * Bit(b, 6 * i + 4) + Bit(b, 6 * i + 5)
  }

  /** A number is its half and its last bit, and so on. */
  lemma LowHalves(x: Byte)
    ensures x == 2 * (x / 2) + x % 2 && x / 2 == 2 * (x / 4) + x / 2 % 2 && x / 4 == 2 * (x / 8) + x / 4 % 2
  {
  }

  lemma MiddleHalves(x: Byte)
    ensures x / 8 == 2 * (x / 16) + x / 8 % 2 && x / 16 == 2 * (x / 32) + x / 16 % 2
  {
  }

  lemma HighHalves(x: Byte)
    ensures x / 32 == 2 * (x / 64) + x / 32 % 2 && x / 64 == 2 * (x / 128) + x / 64 % 2
  {
  }

  /** What remains of a number is its last bits. */
  lemma Remainders(x: Byte)
    ensures x % 4 == x - 4 * (x / 4) && x % 16 == x - 16 * (x / 16) && x % 64 == x - 64 * (x / 64)
  {
  }

  lemma BitsOfByte(b: seq<Byte>, n: nat)
    requires n < |b|
    ensures Bit(b, 8 * n) == b[n] / 128 && Bit(b, 8 * n + 1) == b[n] / 64 % 2
    ensures Bit(b, 8 * n + 2) == b[n] / 32 % 2 && Bit(b, 8 * n + 3) == b[n] / 16 % 2
    ensures Bit(b, 8 * n + 4) == b[n] / 8 % 2 && Bit(b, 8 * n + 5) == b[n] / 4 % 2
    ensures Bit(b, 8 * n + 6) == b[n] / 2 % 2 && Bit(b, 8 * n + 7) == b[n] % 2
  {
  }

  lemma FirstDigit(b: seq<Byte>)
    requires |b| >= 1
    ensures SixBits(b, 0) == b[0] / 4
  {
    BitsOfByte(b, 0);
    LowHalves(b[0]);
    MiddleHalves(b[0]);
    HighHalves(b[0]);
  }

  lemma SecondDigit(b: seq<Byte>)
    requires |b| >= 1
    ensures SixBits(b, 1) == b[0] % 4 * 16 + if |b| > 1 then b[1] / 16 else 0
  {
    BitsOfByte(b, 0);
    LowHalves(b[0]);
    Remainders(b[0]);
    if |b| > 1 {
      BitsOfByte(b, 1);
      MiddleHalves(b[1]);
      HighHalves(b[1]);
    }
  }

  lemma ThirdDigit(b: seq<Byte>)
    requires |b| >= 2
    ensures SixBits(b, 2) == b[1] % 16 * 4 + if |b| > 2 then b[2] / 64 else 0
  {
    BitsOfByte(b, 1);
    LowHalves(b[1]);
    MiddleHalves(b[1]);
    Remainders(b[1]);
    if |b| > 2 {
      BitsOfByte(b, 2);
      HighHalves(b[2]);
    }
  }

  lemma FourthDigit(b: seq<Byte>)
    requires |b| >= 3
    ensures SixBits(b, 3) == b[2] % 64
  {
    BitsOfByte(b, 2);
    LowHalves(b[2]);
    MiddleHalves(b[2]);
    HighHalves(b[2]);
    Remainders(b[2]);
  }

  lemma BitShift(b: seq<Byte>, j: nat)
    requires |b| >= 3
    ensures Bit(b, j + 24) == Bit(b[3..], j)
  {
  }

  lemma SixShift(b: seq<Byte>, i: nat)
    requires |b| >= 3
    ensures SixBits(b, i + 4) == SixBits(b[3..], i)
  {
    BitShift(b, 6 * i);
    BitShift(b, 6 * i + 1);
    BitShift(b, 6 * i + 2);
    BitShift(b, 6 * i + 3);
    BitShift(b, 6 * i + 4);
    BitShift(b, 6 * i + 5);
  }

  lemma {:induction false} SextetCount(b: seq<Byte>)
    ensures |Sextets(b)| == (8 * |b| + 5) / 6
  {
    if |b| >= 3 {
      SextetCount(b[3..]);
    }
  }

  lemma {:induction false} SextetBits(b: seq<Byte>, i: nat)
    requires i < |Sextets(b)|
    ensures Sextets(b)[i] == SixBits(b, i)
  {
    if i >= 4 {
      SextetBits(b[3..], i - 4);
      SixShift(b, i - 4);
    } else if i == 0 {
      FirstDigit(b);
    } else if i == 1 {
      SecondDigit(b);
    } else if i == 2 {
      ThirdDigit(b);
    } else {
      FourthDigit(b);
    }
  }

  // ---------- bits of digits, in eights ----------

  /** Bit j of the digits as one string of bits. */
  function DigitBit(v: seq<Sextet>, j: nat): (r: int)
    ensures 0 <= r <= 1
  {
    if j >= 6 * |v| then 0
    else
      var x := v[j / 6];
      match j % 6
      case 0 => x / 32
      case 1 => x / 16 % 2
      case 2 => x / 8 % 2
      case 3 => x / 4 % 2
      case 4 => x / 2 % 2
      case _ => x % 2
  }

  /** Bits j to j + 3 as a number. */
  function FourBits(v: seq<Sextet>, j: nat): int {
    8 * DigitBit(v, j) + 4 * DigitBit(v, j + 1) + 2 * DigitBit(v, j + 2) + DigitBit(v, j + 3)
  }

  /** Bits 8m to 8m + 7 as a number. */
  function EightBits(v: seq<Sextet>, m: nat): int {
    16 * FourBits(v, 8 * m) + FourBits(v, 8 * m + 4)
  }

  lemma LowDigitHalves(x: Sextet)
    ensures x as int == 2 * (x / 2) + x % 2 && x / 2 == 2 * (x / 4) + x / 2 % 2 && x / 4 == 2 * (x / 8) + x / 4 % 2
    ensures x % 4 == x - 4 * (x / 4) && x % 16 == x - 16 * (x / 16)
  {
  }

  lemma HighDigitHalves(x: Sextet)
    ensures x / 8 == 2 * (x / 16) + x / 8 % 2 && x / 16 == 2 * (x / 32) + x / 16 % 2
  {
  }

  lemma BitsOfDigit(v: seq<Sextet>, n: nat)
    requires n < |v|
    ensures DigitBit(v, 6 * n) == v[n] / 32 && DigitBit(v, 6 * n + 1) == v[n] / 16 % 2 && DigitBit(v, 6 * n + 2) == v[n] / 8 % 2
    ensures DigitBit(v, 6 * n + 3) == v[n] / 4 % 2 && DigitBit(v, 6 * n + 4) == v[n] / 2 % 2 && DigitBit(v, 6 * n + 5) == v[n] % 2
  {
  }

  lemma FirstOctet(v: seq<Sextet>)
    requires |v| >= 2
    ensures EightBits(v, 0) == High(v[0], v[1])
  {
    BitsOfDigit(v, 0);
    BitsOfDigit(v, 1);
    LowDigitHalves(v[0]);
    HighDigitHalves(v[0]);
    HighDigitHalves(v[1]);
  }

  lemma SecondOctet(v: seq<Sextet>)
    requires |v| >= 3
    ensures EightBits(v, 1) == Middle(v[1], v[2])
  {
    BitsOfDigit(v, 1);
    BitsOfDigit(v, 2);
    LowDigitHalves(v[1]);
    HighDigitHalves(v[1]);
    LowDigitHalves(v[2]);
    HighDigitHalves(v[2]);
  }

  lemma ThirdOctet(v: seq<Sextet>)
    requires |v| >= 4
    ensures EightBits(v, 2) == Low(v[2], v[3])
  {
    BitsOfDigit(v, 2);
    BitsOfDigit(v, 3);
    LowDigitHalves(v[2]);
    LowDigitHalves(v[3]);
    HighDigitHalves(v[3]);
  }

  lemma DigitShift(v: seq<Sextet>, j: nat)
    requires |v| >= 4
    ensures DigitBit(v, j + 24) == DigitBit(v[4..], j)
  {
  }

  lemma FourShift(v: seq<Sextet>, j: nat)
    requires |v| >= 4
    ensures FourBits(v, j + 24) == FourBits(v[4..], j)
  {
    DigitShift(v, j);
    DigitShift(v, j + 1);
    DigitShift(v, j + 2);
    DigitShift(v, j + 3);
  }

  lemma EightShift(v: seq<Sextet>, m: nat)
    requires |v| >= 4
    ensures EightBits(v, m + 3) == EightBits(v[4..], m)
  {
    FourShift(v, 8 * m);
    FourShift(v, 8 * m + 4);
  }

  lemma {:induction false} OctetCount(v: seq<Sextet>)
    requires |v| % 4 != 1
    ensures |Octets(v)| == 6 * |v| / 8
  {
    if |v| >= 4 {
      OctetCount(v[4..]);
    }
  }

  lemma LeadingOctets(v: seq<Sextet>, m: nat)
    requires |v| % 4 != 1 && m < 3 && m < |Octets(v)|
    ensures Octets(v)[m] as int == EightBits(v, m)
  {
    OctetCount(v);
    if m == 0 {
      FirstOctet(v);
    } else if m == 1 {
      SecondOctet(v);
    } else {
      ThirdOctet(v);
    }
  }

  lemma LaterOctet(v: seq<Sextet>, m: nat)
    requires |v| % 4 != 1 && 3 <= m < |Octets(v)|
    ensures |v| >= 4 && |v[4..]| % 4 != 1 && m - 3 < |Octets(v[4..])| && Octets(v)[m] == Octets(v[4..])[m - 3]
  {
  }

  lemma {:induction false} OctetBits(v: seq<Sextet>, m: nat)
    requires |v| % 4 != 1 && m < |Octets(v)|
    ensures Octets(v)[m] as int == EightBits(v, m)
  {
    if m < 3 {
      LeadingOctets(v, m);
    } else {
      LaterOctet(v, m);
      var rest, k := v[4..], m - 3;
      EightShift(v, k);
      OctetBits(rest, k);
    }
  }

  // ---------- the digits ----------

  /** The digit of a value, as printed and as read back. */
  predicate StandsFor(c: char, v: Sextet) {
    ToUrl(Digit(v)) == c && FromUrl(c) == Digit(v) && c != ':'
  }

  lemma Capitals(v: Sextet)
    requires v < 26
    ensures |CAPITALS| == 26 && StandsFor(CAPITALS[v], v)
  {
    match v
    case 0 => case 1 => case 2 => case 3 => case 4 => case 5 => case 6 => case 7 => case 8 => case 9 =>
    case 10 => case 11 => case 12 => case 13 => case 14 => case 15 => case 16 => case 17 => case 18 =>
    case 19 => case 20 => case 21 => case 22 => case 23 => case 24 => case _ =>
  }

  lemma SmallLetters(k: nat)
    requires k < 26
    ensures |SMALL_LETTERS| == 26 && StandsFor(SMALL_LETTERS[k], k + 26)
  {
    match k
    case 0 => case 1 => case 2 => case 3 => case 4 => case 5 => case 6 => case 7 => case 8 =>
    case 9 => case 10 => case 11 => case 12 => case 13 => case 14 => case 15 => case 16 => case 17 =>
    case 18 => case 19 => case 20 => case 21 => case 22 => case 23 => case 24 => case _ =>
  }

  lemma Numerals(k: nat)
    requires k < 12
    ensures |NUMERALS| == 12 && StandsFor(NUMERALS[k], k + 52)
  {
    match k
    case 0 => case 1 => case 2 => case 3 => case 4 => case 5 => case 6 => case 7 => case 8 =>
    case 9 => case 10 => case _ =>
  }

  lemma UrlDigit(v: Sextet)
    ensures |ALPHABET| == 64 && StandsFor(ALPHABET[v], v)
  {
    Capitals(0);
    SmallLetters(0);
    Numerals(0);
    if v < 26 {
      Capitals(v);
    } else if v < 52 {
      SmallLetters(v - 26);
    } else {
      Numerals(v - 52);
    }
  }

  /** A printed digit of this value, or a digit of plain base64. */
  predicate Means(c: char, v: Sextet) {
    c == ALPHABET[v] || (c == '+' && v == 62) || (c == '/' && v == 63)
  }

  /** The URL part of a code is spelled with digits of these values. */
  predicate Spelled(u: string, v: seq<Sextet>) {
    |u| == |v| && forall i :: 0 <= i < |v| ==> Means(u[i], v[i])
  }

  predicate Blank(c: char) {
    c == ' ' || c == '\t' || c == '\n' || c == '\r' || c == '\U{0C}'
  }

  /** Neither a digit, nor a padding `=` at the end: the last character or, before a last `=`, the
      last but one. */
  predicate Misplaced(u: string, i: nat)
    requires i < |u|
  {
    if u[i] == '=' then !(i + 1 == |u| || (i + 2 == |u| && u[i + 1] == '='))
    else u[i] !in ALPHABET && u[i] != '+' && u[i] != '/'
  }

  lemma OnlyDigitsMean(c: char)
    requires Value(FromUrl(c)).Some?
    ensures c in ALPHABET || c == '+' || c == '/'
  {
    UrlDigit(Value(FromUrl(c)).value);
  }

  lemma DigitsSpelled(u: string, v: seq<Sextet>)
    requires Spelled(u, v)
    ensures PlainText(u) == Text(v) && ':' !in u
  {
    forall i | 0 <= i < |v| ensures u[i] != ':' && FromUrl(u[i]) == Digit(v[i])
    {
      UrlDigit(v[i]);
    }
  }

  lemma {:induction false} UnspacedAppends(a: string, b: string)
    ensures Unspaced(a + b) == Unspaced(a) + Unspaced(b)
  {
    if a == "" {
      assert a + b == b;
    } else {
      assert (a + b)[1..] == a[1..] + b;
      UnspacedAppends(a[1..], b);
    }
  }

  lemma {:induction false} NothingToSkip(s: string)
    requires forall i :: 0 <= i < |s| ==> !IsSpace(s[i])
    ensures Unspaced(s) == s
  {
    if s != "" {
      assert forall i :: 0 <= i < |s[1..]| ==> s[1..][i] == s[i + 1];
      NothingToSkip(s[1..]);
    }
  }

  // ---------- the codes ----------

  /** What a code looks like: digit i of its URL part stands for bits 6i to 6i + 5 of the URL's
      bytes, filled up with zeros; then a colon and the session id. */
  lemma PrintedBits(relayUrl: string, b: seq<Byte>, sessionId: string)
    requires |b| == |relayUrl| && forall i :: 0 <= i < |b| ==> b[i] == relayUrl[i] as int
    ensures var code := EncodeJoinCode(relayUrl, sessionId);
            && code.Some?
            && var n := (8 * |b| + 5) / 6;
            && |code.value| == n + 1 + |sessionId|
            && (forall i :: 0 <= i < n ==> code.value[i] == ALPHABET[SixBits(b, i)])
            && code.value[n] == ':' && code.value[n + 1..] == sessionId
  {
    assert Latin1(relayUrl) && Bytes(relayUrl) == b;
    PrintedUrl(relayUrl);
    SextetCount(b);
    var part := UrlText(Text(Sextets(b)));
    forall i | 0 <= i < |Sextets(b)| ensures part[i] == ALPHABET[SixBits(b, i)]
    {
      SextetBits(b, i);
      UrlDigit(Sextets(b)[i]);
    }
    assert EncodeJoinCode(relayUrl, sessionId).value == part + ":" + sessionId;
  }

  /** What a code spelled with these digits reads as: nothing for a single digit too many or an empty
      session id; otherwise character m of the URL is bits 8m to 8m + 7 of the digits, those left
      over dropped. */
  lemma ParsedBits(u: string, v: seq<Sextet>, sessionId: string)
    requires Spelled(u, v)
    ensures var target := DecodeJoinCode(u + ":" + sessionId);
            if |v| % 4 == 1 || sessionId == "" then target.None?
            else
              && target.Some? && target.value.sessionId == sessionId && |target.value.relayUrl| == 6 * |v| / 8
              && forall m :: 0 <= m < 6 * |v| / 8 ==> target.value.relayUrl[m] as int == EightBits(v, m)
  {
    DigitsSpelled(u, v);
    SplitAtColon(u, sessionId);
    TextIsDigits(v);
    AtobOfDigits(Text(v));
    if |v| % 4 != 1 {
      OctetCount(v);
      forall m | 0 <= m < |Octets(v)| ensures Octets(v)[m] as int == EightBits(v, m)
      {
        OctetBits(v, m);
      }
    }
  }

  /** Two URL parts that atob reads alike. */
  lemma SameReading(a: string, b: string, sessionId: string)
    requires ':' !in a && ':' !in b && Atob(PlainText(a)) == Atob(PlainText(b))
    ensures DecodeJoinCode(a + ":" + sessionId) == DecodeJoinCode(b + ":" + sessionId)
  {
    SplitAtColon(a, sessionId);
    SplitAtColon(b, sessionId);
  }

  lemma Unread(a: string, sessionId: string)
    requires ':' !in a && Atob(PlainText(a)).None?
    ensures DecodeJoinCode(a + ":" + sessionId).None?
  {
    SplitAtColon(a, sessionId);
  }

  lemma PlainAppends(a: string, b: string)
    ensures PlainText(a + b) == PlainText(a) + PlainText(b)
  {
  }

  lemma SkipsBlank(a: string, c: char, b: string)
    requires IsSpace(c)
    ensures Unspaced(a + [c] + b) == Unspaced(a + b)
  {
    var blank := [c];
    UnspacedAppends(a + blank, b);
    UnspacedAppends(a, blank);
    UnspacedAppends(a, b);
    assert blank[1..] == "";
    assert Unspaced(blank) == "";
  }

  /** White space in the URL part is skipped. */
  lemma BlanksAreSkipped(a: string, c: char, b: string, sessionId: string)
    requires ':' !in a && ':' !in b && Blank(c)
    ensures DecodeJoinCode(a + [c] + b + ":" + sessionId) == DecodeJoinCode(a + b + ":" + sessionId)
  {
    var blank := [c];
    PlainAppends(a + blank, b);
    PlainAppends(a, blank);
    PlainAppends(a, b);
    assert PlainText(blank) == blank;
    SkipsBlank(PlainText(a), c, PlainText(b));
    SameReading(a + blank + b, a + b, sessionId);
  }

  lemma PaddedHasNoBlanks(t: string, pad: string)
    requires AllDigits(t) && (pad == "=" || pad == "==")
    ensures Unspaced(t + pad) == t + pad
  {
    forall i | 0 <= i < |t + pad| ensures !IsSpace((t + pad)[i])
    {
      if i < |t| {
        assert Value(t[i]).Some?;
      }
    }
    NothingToSkip(t + pad);
  }

  lemma PaddingCut(t: string, pad: string)
    requires AllDigits(t) && (pad == "=" || pad == "==")
    ensures Unpadded(t + pad) == t && !AllDigits(t + pad)
  {
    var s := t + pad;
    if t != "" {
      assert Value(t[|t| - 1]).Some? && s[|t| - 1] == t[|t| - 1];
    }
    assert s[|t|] == '=' && Value(s[|t|]).None?;
    assert s[..|t|] == t;
  }

  lemma PaddedText(t: string, pad: string)
    requires AllDigits(t) && (pad == "=" || pad == "==")
    ensures Atob(t + pad) == if (|t| + |pad|) % 4 == 0 then Atob(t) else None
  {
    PaddedHasNoBlanks(t, pad);
    PaddingCut(t, pad);
    AtobOfDigits(t);
  }

  lemma PlainPadding(u: string, pad: string)
    requires pad == "=" || pad == "=="
    ensures PlainText(u + pad) == PlainText(u) + pad && ':' !in pad
  {
    PlainAppends(u, pad);
    assert PlainText(pad) == pad;
  }

  lemma PaddedPart(u: string, v: seq<Sextet>, pad: string)
    requires Spelled(u, v) && (pad == "=" || pad == "==")
    ensures ':' !in u && ':' !in u + pad
    ensures Atob(PlainText(u + pad)) == if (|u| + |pad|) % 4 == 0 then Atob(PlainText(u)) else None
  {
    DigitsSpelled(u, v);
    TextIsDigits(v);
    PlainPadding(u, pad);
    PaddedText(PlainText(u), pad);
  }

  /** Padding behind the digits is dropped where it fills the last group of four, and refused
      elsewhere. */
  lemma PaddingFillsTheGroup(u: string, v: seq<Sextet>, pad: string, sessionId: string)
    requires Spelled(u, v) && (pad == "=" || pad == "==")
    ensures DecodeJoinCode(u + pad + ":" + sessionId)
            == if (|u| + |pad|) % 4 == 0 then DecodeJoinCode(u + ":" + sessionId) else None
  {
    PaddedPart(u, v, pad);
    if (|u| + |pad|) % 4 == 0 {
      SameReading(u + pad, u, sessionId);
    } else {
      Unread(u + pad, sessionId);
    }
  }

  /** Any other character is refused. */
  lemma MisplacedIsRefused(u: string, i: nat, sessionId: string)
    requires ':' !in u && (forall j :: 0 <= j < |u| ==> !Blank(u[j])) && i < |u| && Misplaced(u, i)
    ensures DecodeJoinCode(u + ":" + sessionId).None?
  {
    SplitAtColon(u, sessionId);
    var t := PlainText(u);
    NothingToSkip(t);
    var digits := if |t| % 4 == 0 then Unpadded(t) else t;
    assert i < |digits| && digits[i] == FromUrl(u[i]);
    if Value(digits[i]).Some? {
      OnlyDigitsMean(u[i]);
    }
    assert !AllDigits(digits);
  }

  /** A code without a colon is refused. */
  lemma {:induction false} ColonIsNeeded(code: string)
    requires ':' !in code
    ensures IndexOf(code, ':').None? && DecodeJoinCode(code).None?
  {
    if code != "" {
      ColonIsNeeded(code[1..]);
    }
  }
}
