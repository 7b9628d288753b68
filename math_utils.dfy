/** The string hash of the rhythm game's helpers (MIR/js/mathUtils.js): Java's
    String.hashCode recurrence h := 31 * h + code unit, in signed 32-bit arithmetic. */
module MathUtils {

  /** A UTF-16 code unit, what String.prototype.charCodeAt returns. */
  type CodeUnit = x: int | 0 <= x < 0x1_0000

  const TwoTo31: int := 0x8000_0000
  const TwoTo32: int := 0x1_0000_0000

  predicate IsInt32(x: int)
  {
    -TwoTo31 <= x < TwoTo31
  }

  /** ECMAScript ToInt32: the signed 32-bit integer congruent to x modulo 2^32. */
  function ToInt32(x: int): (r: int)
    ensures IsInt32(r)
    ensures (r - x) % TwoTo32 == 0
  {
    (x + TwoTo31) % TwoTo32 - TwoTo31
  }

  /** ToInt32 depends only on the residue modulo 2^32. */
  lemma ToInt32Congruent(x: int, y: int)
    requires (x - y) % TwoTo32 == 0
    ensures ToInt32(x) == ToInt32(y)
  {
    var k := (x - y) / TwoTo32;
    assert x == y + k * TwoTo32;
    assert (y + TwoTo31 + k * TwoTo32) % TwoTo32 == (y + TwoTo31) % TwoTo32;
  }

  lemma ToInt32Identity(x: int)
    requires IsInt32(x)
    ensures ToInt32(x) == x
  {
  }

  /** `h << 5` on a number: ToInt32 of the operand, shifted left by five bits, as a signed 32-bit value. */
  function ShiftLeft5(h: int): (r: int)
    ensures IsInt32(r)
  {
    ToInt32(ToInt32(h) * 32)
  }

  /** The hash of s, one code unit at a time from the left. */
  function HashOf(s: seq<CodeUnit>): (h: int)
    ensures IsInt32(h)
  {
    if s == [] then 0 else ToInt32(31 * HashOf(s[..|s| - 1]) + s[|s| - 1])
  }

  /** s read as a base-31 numeral without any wrap-around. */
  function Poly(s: seq<CodeUnit>): int
  {
    if s == [] then 0 else 31 * Poly(s[..|s| - 1]) + s[|s| - 1]
  }

  /** hash: the loop of the source, with `hash = ((hash << 5) - hash) + chr; hash |= 0`. */
  method Hash(str: seq<CodeUnit>) returns (hash: int)
    ensures hash == HashOf(str)
  {
    hash := 0;
    if |str| == 0 {
      return hash;
    }
    var i := 0;
    while i < |str|
      invariant 0 <= i <= |str|
      invariant hash == HashOf(str[..i])
    {
      var chr := str[i];
      ghost var before := hash;
      hash := (ShiftLeft5(hash) - hash) + chr;
      hash := ToInt32(hash);
      StepIsJavaStep(before, chr);
      assert str[..i + 1][..i] == str[..i];
      i := i + 1;
    }
    assert str[..i] == str;
  }

  /** One step of the source, shift-subtract-add then ToInt32, is Java's 31 * h + c in 32 bits. */
  lemma StepIsJavaStep(h: int, c: int)
    requires IsInt32(h)
    ensures ToInt32(ShiftLeft5(h) - h + c) == ToInt32(31 * h + c)
  {
    ToInt32Identity(h);
    var shifted := ShiftLeft5(h);
    assert (shifted - 32 * h) % TwoTo32 == 0;
    ToInt32Congruent(shifted - h + c, 31 * h + c);
  }

  /** The empty string hashes to 0. */
  lemma HashEmpty()
    ensures HashOf([]) == 0
  {
  }

  /** The hash is the base-31 value of the code units, reduced to a signed 32-bit integer. */
  lemma {:induction false} HashIsPolynomial(s: seq<CodeUnit>)
    ensures HashOf(s) == ToInt32(Poly(s))
  {
    if s != [] {
      var init := s[..|s| - 1];
      HashIsPolynomial(init);
      var p, c := Poly(init), s[|s| - 1];
      ScaleCongruent(ToInt32(p), p);
      ToInt32Congruent(31 * ToInt32(p) + c, 31 * p + c);
    }
  }

  /** Congruence modulo 2^32 survives multiplying both sides by 31. */
  lemma ScaleCongruent(x: int, y: int)
    requires (x - y) % TwoTo32 == 0
    ensures (31 * x - 31 * y) % TwoTo32 == 0
  {
    var k := (x - y) / TwoTo32;
    assert x - y == k * TwoTo32;
    assert 31 * x - 31 * y == (31 * k) * TwoTo32;
  }

  /** Appending a code unit applies one step to the hash of the prefix. */
  lemma HashAppend(s: seq<CodeUnit>, c: CodeUnit)
    ensures HashOf(s + [c]) == ToInt32(31 * HashOf(s) + c)
  {
    assert (s + [c])[..|s + [c]| - 1] == s;
  }

  /** A one-character string hashes to its code unit. */
  lemma HashSingle(c: CodeUnit)
    ensures HashOf([c]) == c
  {
    assert [c][..0] == [];
  }
}
