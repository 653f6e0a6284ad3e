/**
 * The base-58 decoder of reference identifiers. Both analyser versions carry
 * the same decoder; it returns the sentinel -1 instead of raising, for an
 * empty string and for a string holding a character outside the alphabet.
 * The rightmost character is the least significant digit.
 */
module Base58 {

  /** The 58 digits in order (the base is `len(BASE58_ALPHABET)`): no `0`, `O`, `I` or `l`. */
  const Alphabet: string := "123456789ABCDEFGHJKLMNPQRSTUVWXYZabcdefghijkmnopqrstuvwxyz"

  /** Position of `c` in `s` at or after `from`, searching left to right. */
  function FindFrom(s: string, c: char, from: nat): (r: int)
    requires from <= |s|
    ensures r == -1 ==> forall k :: from <= k < |s| ==> s[k] != c
    ensures r != -1 ==> from <= r < |s| && s[r] == c && forall k :: from <= k < r ==> s[k] != c
    decreases |s| - from
  {
    if from == |s| then -1
    else if s[from] == c then from
    else FindFrom(s, c, from + 1)
  }

  /** `BASE58_MAP.get(c)`: the digit value of `c`, or -1 when `c` is not a digit. */
  function DigitOf(c: char): (d: int)
    ensures -1 <= d < 58
    ensures d == -1 <==> c !in Alphabet
    ensures d != -1 ==> Alphabet[d] == c
  {
    assert |Alphabet| == 58;
    FindFrom(Alphabet, c, 0)
  }

  predicate IsBase58(s: string) {
    forall k :: 0 <= k < |s| ==> s[k] in Alphabet
  }

  function Pow(k: nat): (p: nat)
    ensures p >= 1
  {
    if k == 0 then 1 else 58 * Pow(k - 1)
  }

  /** The number a base-58 string denotes, most significant digit first. */
  function Value(s: string): nat
    requires IsBase58(s)
  {
    if s == [] then 0 else 58 * Value(s[..|s| - 1]) + DigitOf(s[|s| - 1])
  }

  /**
   * `decodeBase58`: -1 for the empty string or a string with a character
   * outside the alphabet, otherwise the value of the string read as base-58
   * digits. The loop walks the string from its last character, as the
   * source does, keeping the place value of the next digit in `multi`.
   */
  method DecodeBase58(encoded: string) returns (r: int)
    ensures encoded == [] || !IsBase58(encoded) ==> r == -1
    ensures encoded != [] && IsBase58(encoded) ==> r == Value(encoded)
    ensures r == -1 || r >= 0
  {
    if encoded == [] {
      return -1;
    }
    var decoded: nat := 0;
    var multi: nat := 1;
    var i := |encoded|;
    while i > 0
      invariant 0 <= i <= |encoded|
      invariant IsBase58(encoded[i..])
      invariant decoded == Value(encoded[i..])
      invariant multi == Pow(|encoded| - i)
    {
      i := i - 1;
      var digit := DigitOf(encoded[i]);
      if digit == -1 {
        assert !IsBase58(encoded);
        return -1;
      }
      DecodeStep(encoded, i, decoded, multi);
      decoded := decoded + digit * multi;
      multi := multi * 58;
    }
    assert encoded[0..] == encoded;
    return decoded;
  }

  /** One iteration of the decoding loop: the digit at `i` joins the suffix at place value `58^(|s|-i-1)`. */
  lemma ValueStep(s: string, i: nat)
    requires i < |s| && s[i] in Alphabet && IsBase58(s[i + 1..])
    ensures IsBase58(s[i..])
    ensures Value(s[i..]) == DigitOf(s[i]) * Pow(|s| - i - 1) + Value(s[i + 1..])
    ensures Pow(|s| - i) == Pow(|s| - i - 1) * 58
  {
    var rest := s[i + 1..];
    assert s[i..] == [s[i]] + rest;
    ValuePrepend(s[i], rest);
    assert |rest| == |s| - i - 1;
    assert Pow(|rest| + 1) == 58 * Pow(|rest|);
  }

  /** The loop's invariant, carried from the suffix after `i` to the suffix at `i`. */
  lemma DecodeStep(s: string, i: nat, decoded: nat, multi: nat)
    requires i < |s| && s[i] in Alphabet && IsBase58(s[i + 1..])
    requires decoded == Value(s[i + 1..]) && multi == Pow(|s| - i - 1)
    ensures IsBase58(s[i..])
    ensures decoded + DigitOf(s[i]) * multi == Value(s[i..]) && multi * 58 == Pow(|s| - i)
  {
    ValueStep(s, i);
  }

  /** Appending a digit on the right shifts the value one place and adds the digit. */
  lemma ValueAppend(s: string, c: char)
    requires IsBase58(s) && c in Alphabet
    ensures IsBase58(s + [c])
    ensures Value(s + [c]) == 58 * Value(s) + DigitOf(c)
  {
    assert (s + [c])[..|s|] == s;
  }

  /** Prepending a digit on the left adds it at the highest place. */
  lemma {:induction false} ValuePrepend(c: char, s: string)
    requires c in Alphabet && IsBase58(s)
    ensures IsBase58([c] + s)
    ensures Value([c] + s) == DigitOf(c) * Pow(|s|) + Value(s)
    decreases |s|
  {
    var t := [c] + s;
    assert IsBase58(t);
    if s == [] {
      assert t[..|t| - 1] == [];
      assert Value(t) == DigitOf(c);
      assert DigitOf(c) * Pow(|s|) == DigitOf(c) * 1;
    } else {
      var s' := s[..|s| - 1];
      assert t[..|t| - 1] == [c] + s';
      ValuePrepend(c, s');
      var d, p, v, e := DigitOf(c), Pow(|s'|), Value(s'), DigitOf(s[|s| - 1]);
      assert Value(t) == 58 * (d * p + v) + e;
      assert 58 * (d * p + v) == 58 * (d * p) + 58 * v;
      Shift(d, p);
      assert Pow(|s|) == 58 * p;
      assert Value(s) == 58 * v + e;
      assert Value(t) == d * Pow(|s|) + Value(s);
    }
  }

  lemma Shift(d: int, p: int)
    ensures 58 * (d * p) == d * (58 * p)
  {
  }

  /** A string of n digits denotes a number below 58^n. */
  lemma {:induction false} ValueBound(s: string)
    requires IsBase58(s)
    ensures Value(s) < Pow(|s|)
  {
    if s != [] {
      var s' := s[..|s| - 1];
      ValueBound(s');
      assert Value(s') + 1 <= Pow(|s'|);
      assert 58 * (Value(s') + 1) <= 58 * Pow(|s'|);
    }
  }

  /** Distinct characters have distinct digit values. */
  lemma DigitOfInjective(a: char, b: char)
    requires a in Alphabet && b in Alphabet && DigitOf(a) == DigitOf(b)
    ensures a == b
  {
  }

  lemma DivideByBase(x: nat, d: nat, y: nat, e: nat)
    requires d < 58 && e < 58 && 58 * x + d == 58 * y + e
    ensures x == y && d == e
  {
  }

  lemma Unsnoc(s: string)
    requires s != []
    ensures s == s[..|s| - 1] + [s[|s| - 1]]
  {
  }

  /** Splitting off the last digit of a base-58 string. */
  lemma LastDigit(s: string)
    requires IsBase58(s) && s != []
    ensures IsBase58(s[..|s| - 1]) && s[|s| - 1] in Alphabet
  {
    var s' := s[..|s| - 1];
    forall k | 0 <= k < |s'|
      ensures s'[k] in Alphabet
    {
      assert s'[k] == s[k];
    }
  }

  /** Decoding is unambiguous: two digit strings of one width with the same value are the same string. */
  lemma {:induction false} ValueInjective(s: string, t: string)
    requires IsBase58(s) && IsBase58(t) && |s| == |t|
    requires Value(s) == Value(t)
    ensures s == t
    decreases |s|
  {
    if s != [] {
      var s', t', a, b := s[..|s| - 1], t[..|t| - 1], s[|s| - 1], t[|t| - 1];
      LastDigit(s);
      LastDigit(t);
      ValueAppend(s', a);
      ValueAppend(t', b);
      Unsnoc(s);
      Unsnoc(t);
      DivideByBase(Value(s'), DigitOf(a), Value(t'), DigitOf(b));
      DigitOfInjective(a, b);
      ValueInjective(s', t');
    }
  }
}
