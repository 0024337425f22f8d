/** The base58 digit loop of session ids (src/modex_agent/core/session_id.py:21-42).
    The digest is a parameter: any natural number, below 2^96 as the code calls it. */
module Base58 {

  /** Digit `d` of the alphabet, which leaves out 0, I, O and l (see `AlphabetSpelled`). */
  function Digit(d: int): (c: char)
    requires 0 <= d < 58
  {
    if d < 9 then '1' + d as char
    else if d < 17 then 'A' + (d - 9) as char
    else if d < 22 then 'J' + (d - 17) as char
    else if d < 33 then 'P' + (d - 22) as char
    else if d < 44 then 'a' + (d - 33) as char
    else 'm' + (d - 44) as char
  }

  predicate IsDigit(c: char) {
    '1' <= c <= '9' || 'A' <= c <= 'H' || 'J' <= c <= 'N' || 'P' <= c <= 'Z' || 'a' <= c <= 'k' || 'm' <= c <= 'z'
  }

  function Value(c: char): (d: nat)
    requires IsDigit(c)
  {
    if c <= '9' then (c - '1') as int
    else if c <= 'H' then (c - 'A') as int + 9
    else if c <= 'N' then (c - 'J') as int + 17
    else if c <= 'Z' then (c - 'P') as int + 22
    else if c <= 'k' then (c - 'a') as int + 33
    else (c - 'm') as int + 44
  }

  lemma DigitRoundTrip(d: int)
    requires 0 <= d < 58
    ensures IsDigit(Digit(d)) && Value(Digit(d)) == d
  {
  }

  const ALPHABET: string := "123456789" + "ABCDEFGH" + "JKLMN" + "PQRSTUVWXYZ" + "abcdefghijk" + "mnopqrstuvwxyz"

  lemma AlphabetSpelled(d: int)
    requires 0 <= d < 58
    ensures |ALPHABET| == 58 && Digit(d) == ALPHABET[d]
  {
    assert d < 9 ==> Digit(d) == "123456789"[d];
    assert 9 <= d < 17 ==> Digit(d) == "ABCDEFGH"[d - 9];
    assert 17 <= d < 22 ==> Digit(d) == "JKLMN"[d - 17];
    assert 22 <= d < 33 ==> Digit(d) == "PQRSTUVWXYZ"[d - 22];
    assert 33 <= d < 44 ==> Digit(d) == "abcdefghijk"[d - 33];
    assert 44 <= d ==> Digit(d) == "mnopqrstuvwxyz"[d - 44];
  }

  predicate Printed(s: string) {
    forall c :: c in s ==> IsDigit(c)
  }

  /** The number a string of digits stands for, most significant digit first. */
  function Decode(s: string): (n: nat)
    requires Printed(s)
  {
    if s == [] then 0 else 58 * Decode(s[..|s| - 1]) + Value(s[|s| - 1])
  }

  /** `out` read as digits produced least significant first. */
  function DecodeReversed(out: seq<char>): (n: nat)
    requires Printed(out)
  {
    if out == [] then 0 else Value(out[0]) + 58 * DecodeReversed(out[1..])
  }

  function Reversed(s: seq<char>): (r: seq<char>)
    ensures |r| == |s|
  {
    seq(|s|, i requires 0 <= i < |s| => s[|s| - 1 - i])
  }

  function Pow58(k: nat): (p: nat)
    ensures p >= 1
  {
    if k == 0 then 1 else 58 * Pow58(k - 1)
  }

  lemma {:induction false} DecodeOfReversed(out: seq<char>)
    requires Printed(out) && Printed(Reversed(out))
    ensures Decode(Reversed(out)) == DecodeReversed(out)
  {
    if out != [] {
      var r := Reversed(out);
      DecodeOfReversed(out[1..]);
      assert r[..|r| - 1] == Reversed(out[1..]);
    }
  }

  lemma {:induction false} DecodeSnoc(out: seq<char>, c: char)
    requires Printed(out) && IsDigit(c)
    ensures Printed(out + [c]) && DecodeReversed(out + [c]) == DecodeReversed(out) + Value(c) * Pow58(|out|)
  {
    if out == [] {
      assert (out + [c])[1..] == [];
    } else {
      assert (out + [c])[1..] == out[1..] + [c];
      DecodeSnoc(out[1..], c);
      Distribute(DecodeReversed(out[1..]), Value(c), Pow58(|out| - 1));
    }
  }

  lemma Distribute(a: int, v: int, p: int)
    ensures 58 * (a + v * p) == 58 * a + v * (58 * p)
  {
  }

  lemma SplitDigit(n: nat, p: nat)
    ensures n * p == (n % 58) * p + (n / 58) * (58 * p)
  {
    var q, r := n / 58, n % 58;
    assert n == r + 58 * q;
    assert (r + 58 * q) * p == r * p + q * (58 * p);
  }

  /** The string read back is the number, it has no leading zero digit unless the
      number is zero, and zero is the single digit 1. */
  method Encode(num: nat) returns (s: string)
    ensures Printed(s) && Decode(s) == num
    ensures s != [] && (s[0] == '1' <==> num == 0) && (num == 0 ==> s == "1")
  {
    if num == 0 {
      return [Digit(0)];
    }
    var n: nat, out: seq<char> := num, [];
    while n > 0
      invariant Printed(out) && DecodeReversed(out) + n * Pow58(|out|) == num
      invariant n == 0 ==> out != [] && out[|out| - 1] != '1'
    {
      var rem := n % 58;
      DigitRoundTrip(rem);
      SplitDigit(n, Pow58(|out|));
      DecodeSnoc(out, Digit(rem));
      out := out + [Digit(rem)];
      n := n / 58;
    }
    DecodeOfReversed(out);
    s := Reversed(out);
  }

  /** A string with no leading zero digit is not shorter than its number is large. */
  lemma {:induction false} LengthBounded(s: string)
    requires Printed(s) && s != [] && s[0] != '1'
    ensures Pow58(|s| - 1) <= Decode(s)
  {
    assert s[0] in s;
    if |s| > 1 {
      LengthBounded(s[..|s| - 1]);
    } else {
      assert s[..0] == [];
    }
  }

  lemma CharRoundTrip(c: char)
    requires IsDigit(c)
    ensures Value(c) < 58 && Digit(Value(c)) == c
  {
  }

  lemma DivDigit(n: nat, q: nat, v: nat, c: char)
    requires v < 58 && n == 58 * q + v && c == Digit(v)
    ensures n / 58 == q && c == Digit(n % 58)
  {
    assert n % 58 == v;
  }

  lemma LastDigit(s: string)
    requires Printed(s) && s != []
    ensures Printed(s[..|s| - 1]) && s[|s| - 1] == Digit(Decode(s) % 58) && Decode(s[..|s| - 1]) == Decode(s) / 58
  {
    var c := s[|s| - 1];
    assert c in s;
    CharRoundTrip(c);
    DivDigit(Decode(s), Decode(s[..|s| - 1]), Value(c), c);
  }

  lemma PositiveDecode(s: string)
    requires Printed(s) && (s == [] || s[0] != '1')
    ensures s == [] <==> Decode(s) == 0
  {
    if s != [] {
      LengthBounded(s);
    }
  }

  /** A number has one string only that has no leading zero digit: with `Encode`
      reading back, printing is injective and its result is canonical. */
  lemma {:induction false} OneCanonicalString(s: string, t: string)
    requires Printed(s) && (s == [] || s[0] != '1')
    requires Printed(t) && (t == [] || t[0] != '1')
    requires Decode(s) == Decode(t)
    ensures s == t
  {
    PositiveDecode(s);
    PositiveDecode(t);
    if s != [] {
      LastDigit(s);
      LastDigit(t);
      OneCanonicalString(s[..|s| - 1], t[..|t| - 1]);
      assert s == s[..|s| - 1] + [s[|s| - 1]] && t == t[..|t| - 1] + [t[|t| - 1]];
    }
  }

  lemma {:induction false} PowGrows(j: nat, k: nat)
    requires j <= k
    ensures Pow58(j) <= Pow58(k)
    decreases k
  {
    if j < k {
      PowGrows(j, k - 1);
    }
  }

  /** Any 12-byte digest prints in at most 17 characters. */
  lemma DigestFits(s: string)
    requires Printed(s) && s != [] && s[0] != '1'
    requires Decode(s) < 0x1_0000_0000_0000_0000_0000_0000
    ensures |s| <= 17
  {
    LengthBounded(s);
    Pow58Seventeen();
    if |s| > 17 {
      PowGrows(17, |s| - 1);
    }
  }

  lemma Pow58Seventeen()
    ensures Pow58(17) >= 0x1_0000_0000_0000_0000_0000_0000
  {
    assert Pow58(4) == 11316496;
    assert Pow58(8) == 128063081718016;
    assert Pow58(12) == 1449225352009601191936;
    assert Pow58(16) == 16400152899115243850138976256;
  }
}
