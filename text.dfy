/**
 * The string helpers of the Go standard library that the core relies on:
 * `%d` / strconv.Itoa (Decimal), strconv.Atoi on a 64-bit platform (Atoi)
 * strings.ToLower restricted to ASCII (ToLower), Go map lookup with its
 * zero value (Lookup) and the "value or default" idiom (OrElse).
 */
module Text {
  import opened Wrappers

  /** Indexing a Go map[string]string: the zero value "" for a missing key. */
  function Lookup(m: map<string, string>, key: string): string
  {
    if key in m then m[key] else ""
  }

  /** A string, or the fallback when the string is empty. */
  function OrElse(s: string, fallback: string): (r: string)
    ensures s != "" ==> r == s
    ensures s == "" ==> r == fallback
    ensures fallback != "" ==> r != ""
  {
    if s != "" then s else fallback
  }

  /** `prefix` is the head of `s`. */
  predicate StartsWith(s: string, prefix: string)
  {
    |prefix| <= |s| && s[..|prefix|] == prefix
  }

  /** `suffix` is the tail of `s`: a formatted message that ends with the text it wraps. */
  predicate EndsWith(s: string, suffix: string)
  {
    |suffix| <= |s| && s[|s| - |suffix|..] == suffix
  }

  const Int64Min: int := -0x8000_0000_0000_0000
  const Int64Max: int := 0x7fff_ffff_ffff_ffff

  predicate IsDigit(c: char) { '0' <= c <= '9' }

  predicate AllDigits(s: string) { forall i | 0 <= i < |s| :: IsDigit(s[i]) }

  function DigitChar(d: nat): (c: char)
    requires d < 10
    ensures IsDigit(c)
  {
    ('0' as int + d) as char
  }

  function DigitValue(c: char): (d: nat)
    requires IsDigit(c)
    ensures d < 10
  {
    c as int - '0' as int
  }

  /** Decimal digits of n, most significant first, without leading zeros. */
  function NatDigits(n: nat): (s: string)
    ensures |s| > 0 && AllDigits(s)
    ensures |s| > 1 ==> s[0] != '0'
    decreases n
  {
    if n < 10 then [DigitChar(n)] else NatDigits(n / 10) + [DigitChar(n % 10)]
  }

  /** Go's `%d` verb for an int: an optional minus sign followed by NatDigits. */
  function Decimal(n: int): (s: string)
    ensures |s| > 0
    ensures forall i | 0 <= i < |s| :: IsDigit(s[i]) || s[i] == '-'
    ensures s[0] == '-' <==> n < 0
    ensures var digits := if n < 0 then s[1..] else s;
      |digits| > 0 && AllDigits(digits) && (|digits| > 1 ==> digits[0] != '0')
  {
    if n < 0 then "-" + NatDigits(-n) else NatDigits(n)
  }

  /** The number a string of decimal digits denotes. */
  function DigitsValue(s: string): nat
    requires AllDigits(s)
  {
    if |s| == 0 then 0 else DigitsValue(s[..|s| - 1]) * 10 + DigitValue(s[|s| - 1])
  }

  lemma {:induction false} NatDigitsValue(n: nat)
    ensures DigitsValue(NatDigits(n)) == n
    decreases n
  {
    if n >= 10 {
      var s := NatDigits(n);
      assert s[..|s| - 1] == NatDigits(n / 10);
      NatDigitsValue(n / 10);
    }
  }

  /**
   * strconv.Atoi for a 64-bit int: an optional '+' or '-', then at least one
   * decimal digit and nothing else (no spaces, no underscores), and the value
   * must lie in the int64 range; anything else is an error (None).
   */
  function Atoi(s: string): (r: Option<int>)
    ensures r.Some? ==> Int64Min <= r.value <= Int64Max
    ensures r.Some? ==> |s| > 0 && (|s| == 1 ==> IsDigit(s[0]))
    ensures r.Some? ==> forall i | 0 <= i < |s| :: IsDigit(s[i]) || (i == 0 && (s[0] == '-' || s[0] == '+'))
  {
    var signed := |s| > 0 && (s[0] == '-' || s[0] == '+');
    var digits := if signed then s[1..] else s;
    if |digits| == 0 || !AllDigits(digits) then None
    else
      var v: int := if signed && s[0] == '-' then -(DigitsValue(digits) as int) else DigitsValue(digits);
      if Int64Min <= v <= Int64Max then Some(v) else None
  }

  /**
   * What Atoi gives for the texts its contract admits: a run of digits, with
   * or without a sign, reads as its value (leading zeros allowed), provided
   * that value lies in the int64 range. With Atoi's own ensures, which reject
   * every other text, this decides Atoi on every input.
   */
  lemma AtoiDigits(d: string)
    requires |d| > 0 && AllDigits(d)
    ensures Atoi(d) == if DigitsValue(d) <= Int64Max then Some(DigitsValue(d) as int) else None
    ensures Atoi("+" + d) == Atoi(d)
    ensures Atoi("-" + d) == if -(DigitsValue(d) as int) >= Int64Min then Some(-(DigitsValue(d) as int)) else None
  {
    assert IsDigit(d[0]);
    var plus, minus := "+" + d, "-" + d;
    assert plus[0] == '+' && plus[1..] == d;
    assert minus[0] == '-' && minus[1..] == d;
  }

  /** strconv.Atoi's edge cases: a '+' sign and leading zeros are accepted, and so is "-0"; a lone sign, an underscore or a space is not. */
  lemma AtoiEdgeCases()
    ensures Atoi("+7") == Some(7) && Atoi("007") == Some(7) && Atoi("-0") == Some(0)
    ensures Atoi("") == None && Atoi("+") == None && Atoi("-") == None
    ensures Atoi("1_0") == None && Atoi(" 1") == None
  {
    AtoiDigits("7");
    AtoiDigits("0");
    assert DigitsValue("007") == 7 by {
      assert "007"[..2] == "00" && "00"[..1] == "0";
    }
  }

  /** Atoi reads back every int64 that Decimal writes. */
  lemma DecimalRoundTrip(n: int)
    requires Int64Min <= n <= Int64Max
    ensures Atoi(Decimal(n)) == Some(n)
  {
    var s := Decimal(n);
    if n < 0 {
      var digits := NatDigits(-n);
      assert s[0] == '-' && s[1..] == digits;
      NatDigitsValue(-n);
      assert AllDigits(digits) && -(DigitsValue(digits) as int) == n;
    } else {
      assert s == NatDigits(n) && IsDigit(s[0]);
      NatDigitsValue(n);
    }
  }

  function LowerChar(c: char): char
  {
    if 'A' <= c <= 'Z' then (c as int - 'A' as int + 'a' as int) as char else c
  }

  /** strings.ToLower on ASCII letters; every other character is kept. */
  function ToLower(s: string): (r: string)
    ensures |r| == |s|
    ensures forall i | 0 <= i < |s| :: !('A' <= r[i] <= 'Z')
  {
    seq(|s|, i requires 0 <= i < |s| => LowerChar(s[i]))
  }

  predicate IsLower(s: string) { forall i | 0 <= i < |s| :: !('A' <= s[i] <= 'Z') }

  /** Lower-casing is idempotent, and lower-case strings are its fixed points. */
  lemma ToLowerFixedPoints(s: string)
    ensures ToLower(s) == s <==> IsLower(s)
    ensures ToLower(ToLower(s)) == ToLower(s)
  {
    if IsLower(s) {
      assert forall i | 0 <= i < |s| :: ToLower(s)[i] == s[i];
    }
  }
}
