/** The colour of a peer: a 32-bit string hash folded into eight colours. */
module PeerColors {
  /** A UTF-16 code unit, what charCodeAt returns. */
  type CodeUnit = u: int | 0 <= u < 0x1_0000

  const COLORS := 8
  const TWO32 := 0x1_0000_0000

  /** ToInt32, section 7.1.6 of ECMA-262. */
  function ToInt32(x: int): (r: int)
    ensures -0x8000_0000 <= r < 0x8000_0000 && (x - r) % TWO32 == 0
  {
    var u := x % TWO32;
    if u >= 0x8000_0000 then u - TWO32 else u
  }

  /** % COLORS in JavaScript: the remainder takes the sign of the dividend. */
  function Remainder(a: int): (r: int)
    ensures -COLORS < r < COLORS && Congruent(a, r)
  {
    if a >= 0 then a % COLORS else -(-a % COLORS)
  }

  predicate Congruent(a: int, b: int) {
    (a - b) % COLORS == 0
  }

  /** The codes from `i` on, with alternating signs, the last one positive. */
  function Alternating(s: seq<CodeUnit>, i: nat): int
    requires i <= |s|
    decreases |s| - i
  {
    if i == |s| then 0
    else (if (|s| - 1 - i) % 2 == 0 then s[i] else -s[i]) + Alternating(s, i + 1)
  }

  /** One more code turns every sign. */
  lemma {:induction false} AlternatingSnoc(s: seq<CodeUnit>, c: CodeUnit, i: nat)
    requires i <= |s|
    ensures Alternating(s + [c], i) == c - Alternating(s, i)
    decreases |s| - i
  {
    if i < |s| {
      AlternatingSnoc(s, c, i + 1);
    }
  }

  /** Wrapping to 32 bits keeps the value modulo 8. */
  lemma WrapKeeps(x: int)
    ensures Congruent(ToInt32(x), x)
  {
    var k := (x - ToInt32(x)) / TWO32;
    assert ToInt32(x) - x == (-k * 0x2000_0000) * COLORS;
  }

  lemma CongruentSum(a: int, b: int, c: int, d: int)
    requires Congruent(a, b) && Congruent(c, d)
    ensures Congruent(a + c, b + d) && Congruent(a - c, b - d)
  {
  }

  /** One round of the loop, modulo 8: 31 is -1, and 8 divides 2^32. */
  lemma Round(hash: int, sum: int, c: CodeUnit)
    requires Congruent(hash, sum)
    ensures Congruent(ToInt32(ToInt32(hash * 32) - hash + c), c - sum)
  {
    var shifted := ToInt32(hash * 32);
    WrapKeeps(hash * 32);
    Times32(hash);
    Chained(shifted, hash * 32, 0);
    CongruentSum(shifted, 0, hash, sum);
    CongruentSum(shifted - hash, 0 - sum, c, c);
    WrapKeeps(shifted - hash + c);
    Chained(ToInt32(shifted - hash + c), shifted - hash + c, 0 - sum + c);
  }

  lemma Times32(x: int)
    ensures Congruent(x * 32, 0)
  {
    assert x * 32 == (x * 4) * COLORS;
  }

  lemma Chained(a: int, b: int, c: int)
    requires Congruent(a, b) && Congruent(b, c)
    ensures Congruent(a, c)
  {
  }

  lemma {:induction false} Folded(hash: int)
    ensures Remainder(Remainder(hash) + COLORS) == hash % COLORS
  {
    var r := Remainder(hash);
    assert r + COLORS > 0;
    CongruentSum(hash, r, 0, 0);
  }

  /** hashClientIdToColorIndex: always one of the eight, and the alternating sum of the codes
      modulo 8, whatever wraps around on the way. */
  method HashClientIdToColorIndex(clientId: seq<CodeUnit>) returns (index: nat)
    ensures index < 8 && index == Alternating(clientId, 0) % 8
  {
    var hash := 0;
    for i := 0 to |clientId|
      invariant Congruent(hash, Alternating(clientId[..i], 0))
    {
      Round(hash, Alternating(clientId[..i], 0), clientId[i]);
      AlternatingSnoc(clientId[..i], clientId[i], 0);
      assert clientId[..i + 1] == clientId[..i] + [clientId[i]];
      hash := ToInt32(ToInt32(hash * 32) - hash + clientId[i]);
    }
    assert clientId[..|clientId|] == clientId;
    Folded(hash);
    index := Remainder(Remainder(hash) + COLORS);
  }
}
