/**
 * String operations the pipeline relies on: Python's `str.lower()` (on the
 * ASCII range), `str(int)` as used in f-strings, and the `term + ","`
 * accumulation that renders a list of terms into one prompt sentence.
 */
module Text {

  /** `c.lower()` for one character: ASCII upper-case letters map to lower case. */
  function LowerChar(c: char): char {
    if 'A' <= c <= 'Z' then (c as int + 32) as char else c
  }

  /**
   * `s.lower()`, character by character: each ASCII upper-case letter becomes
   * the lower-case letter at the same place in the alphabet, every other
   * character is kept, and so no upper-case letter remains.
   */
  function Lower(s: string): (r: string)
    ensures |r| == |s|
    ensures forall i :: 0 <= i < |s| && !('A' <= s[i] <= 'Z') ==> r[i] == s[i]
    ensures forall i :: 0 <= i < |s| && 'A' <= s[i] <= 'Z' ==>
              'a' <= r[i] <= 'z' && r[i] as int - 'a' as int == s[i] as int - 'A' as int
    ensures forall i :: 0 <= i < |s| ==> !('A' <= r[i] <= 'Z')
  {
    seq(|s|, i requires 0 <= i < |s| => LowerChar(s[i]))
  }

  /** Lower-casing a second time changes nothing. */
  lemma LowerIdempotent(s: string)
    ensures Lower(Lower(s)) == Lower(s)
  {
    var once := Lower(s);
    forall i | 0 <= i < |s|
      ensures Lower(once)[i] == once[i]
    {
      assert !('A' <= once[i] <= 'Z');
    }
  }

  // ---------------------------------------------------------------------------
  // Decimal rendering of integers, `str(n)` / `f"{n}"`.

  function DigitChar(d: nat): char
    requires d < 10
  {
    "0123456789"[d]
  }

  function DigitValue(c: char): nat {
    if '0' <= c <= '9' then c as int - '0' as int else 0
  }

  predicate IsDigit(c: char) {
    '0' <= c <= '9'
  }

  /** Decimal digits of a natural number, most significant first, no leading zeros. */
  function NatDecimal(n: nat): (r: string)
    ensures |r| >= 1
    ensures forall i :: 0 <= i < |r| ==> IsDigit(r[i])
    ensures |r| > 1 ==> r[0] != '0'
  {
    if n < 10 then [DigitChar(n)] else NatDecimal(n / 10) + [DigitChar(n % 10)]
  }

  /** `str(n)` for a Python `int`: a minus sign for negatives, then the digits, with no leading zero. */
  function IntDecimal(n: int): (r: string)
    ensures |r| >= 1
    ensures r[0] == '-' <==> n < 0
    ensures forall i :: 0 <= i < |r| && !(i == 0 && n < 0) ==> IsDigit(r[i])
    ensures n >= 0 && |r| > 1 ==> r[0] != '0'
    ensures n < 0 ==> |r| >= 2 && r[1] != '0'
  {
    if n < 0 then "-" + NatDecimal(-n) else NatDecimal(n)
  }

  /** Reads back a string of decimal digits. */
  function ParseNat(s: string): nat {
    if s == [] then 0 else ParseNat(s[..|s| - 1]) * 10 + DigitValue(s[|s| - 1])
  }

  /** Reads back the output of `IntDecimal`. */
  function ParseInt(s: string): int {
    if |s| > 0 && s[0] == '-' then -(ParseNat(s[1..]) as int) else ParseNat(s)
  }

  lemma {:induction false} NatDecimalRoundTrip(n: nat)
    ensures ParseNat(NatDecimal(n)) == n
  {
    if n >= 10 {
      var s := NatDecimal(n);
      assert s[..|s| - 1] == NatDecimal(n / 10);
      NatDecimalRoundTrip(n / 10);
    }
  }

  /** A minus sign followed by the digits of `m` reads back as `-m`. */
  lemma {:induction false} NegativeRoundTrip(m: nat)
    ensures ParseInt("-" + NatDecimal(m)) == -(m as int)
  {
    var d := NatDecimal(m);
    assert ("-" + d)[0] == '-' && ("-" + d)[1..] == d;
    NatDecimalRoundTrip(m);
  }

  /** The digits of `m` read back as `m`. */
  lemma {:induction false} NonNegativeRoundTrip(m: nat)
    ensures ParseInt(NatDecimal(m)) == m
  {
    assert NatDecimal(m)[0] != '-';
    NatDecimalRoundTrip(m);
  }

  /** The class id written into a prompt sentence can be read back exactly. */
  lemma IntDecimalRoundTrip(n: int)
    ensures ParseInt(IntDecimal(n)) == n
  {
    if n < 0 {
      var m: nat := -n;
      assert IntDecimal(n) == "-" + NatDecimal(m);
      NegativeRoundTrip(m);
    } else {
      assert IntDecimal(n) == NatDecimal(n);
      NonNegativeRoundTrip(n);
    }
  }

  // ---------------------------------------------------------------------------
  // Term lists rendered as `t1,t2,...,tn,`.

  /**
   * The concatenation of `term + ","` over `terms`, in order: empty exactly
   * for no terms, and otherwise ending in the last term's comma.
   */
  function Suffixed(terms: seq<string>): (r: string)
    ensures r == [] <==> terms == []
    ensures terms != [] ==> r[|r| - 1] == ','
  {
    if terms == [] then "" else terms[0] + "," + Suffixed(terms[1..])
  }

  /** Rendering distributes over concatenation of term lists. */
  lemma {:induction false} SuffixedAppend(a: seq<string>, b: seq<string>)
    ensures Suffixed(a + b) == Suffixed(a) + Suffixed(b)
  {
    if a != [] {
      assert (a + b)[0] == a[0];
      assert (a + b)[1..] == a[1..] + b;
      SuffixedAppend(a[1..], b);
      calc {
        Suffixed(a + b);
        a[0] + "," + Suffixed(a[1..] + b);
        a[0] + "," + (Suffixed(a[1..]) + Suffixed(b));
        (a[0] + "," + Suffixed(a[1..])) + Suffixed(b);
      }
    } else {
      assert a + b == b;
    }
  }

  /** One step of the accumulation loop `t = t + term + ","`. */
  lemma SuffixedSnoc(terms: seq<string>, t: string)
    ensures Suffixed(terms + [t]) == Suffixed(terms) + t + ","
  {
    SuffixedAppend(terms, [t]);
    assert Suffixed([t]) == t + "," + Suffixed([]);
  }

  /** The rendered string has one character per term character plus one comma per term. */
  function TotalLength(terms: seq<string>): nat {
    if terms == [] then 0 else |terms[0]| + 1 + TotalLength(terms[1..])
  }

  lemma {:induction false} SuffixedLength(terms: seq<string>)
    ensures |Suffixed(terms)| == TotalLength(terms)
  {
    if terms != [] {
      SuffixedLength(terms[1..]);
    }
  }

  /** Position of the first comma in `s`, or `|s|` when there is none. */
  function FirstComma(s: string): (i: nat)
    ensures i <= |s|
    ensures forall j :: 0 <= j < i ==> s[j] != ','
    ensures i < |s| ==> s[i] == ','
  {
    if s == [] then 0 else if s[0] == ',' then 0 else 1 + FirstComma(s[1..])
  }

  /** Splits a comma-terminated list back into its terms. */
  function SplitTerms(s: string): seq<string>
    decreases |s|
  {
    if s == [] then []
    else
      var i := FirstComma(s);
      if i == |s| then [s] else [s[..i]] + SplitTerms(s[i + 1..])
  }

  predicate CommaFree(terms: seq<string>) {
    forall t :: t in terms ==> ',' !in t
  }

  lemma FirstCommaAfter(t: string, rest: string)
    requires ',' !in t
    ensures FirstComma(t + "," + rest) == |t|
  {
    var s := t + "," + rest;
    assert s[|t|] == ',';
    forall j | 0 <= j < |t|
      ensures s[j] != ','
    {
      assert s[j] == t[j];
    }
  }

  /** Rendering a list of comma-free terms can be undone: the terms come back in order. */
  lemma {:induction false} SplitSuffixed(terms: seq<string>)
    requires CommaFree(terms)
    ensures SplitTerms(Suffixed(terms)) == terms
  {
    if terms != [] {
      var t, rest := terms[0], Suffixed(terms[1..]);
      var s := t + "," + rest;
      assert Suffixed(terms) == s;
      FirstCommaAfter(t, rest);
      assert s[..|t|] == t;
      assert s[|t| + 1..] == rest;
      SplitSuffixed(terms[1..]);
    }
  }

  /**
   * A single counterexample: two different term lists, one of whose terms
   * contains a comma, render to the same string. This is why `SplitSuffixed`
   * needs `CommaFree`.
   */
  lemma SuffixedAmbiguous()
    ensures Suffixed(["a,b"]) == Suffixed(["a", "b"])
  {
    assert Suffixed(["a,b"]) == "a,b" + "," + Suffixed([]);
    assert Suffixed(["a", "b"]) == "a" + "," + Suffixed(["b"]);
    assert Suffixed(["b"]) == "b" + "," + Suffixed([]);
  }
}
