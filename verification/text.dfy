/** String helpers: the decimal rendering JavaScript gives an integer inside a
    template literal, the rendering of `undefined`, and splitting a string at the
    last occurrence of a separator (used to read the derived URIs back). */
module Text {
  import opened Wrappers

  predicate IsDigit(c: char)
  {
    '0' <= c <= '9'
  }

  predicate AllDigits(s: string)
  {
    forall i :: 0 <= i < |s| ==> IsDigit(s[i])
  }

  function DigitChar(d: nat): (c: char)
    requires d < 10
    ensures IsDigit(c) && DigitValue(c) == d
  {
    ('0' as int + d) as char
  }

  function DigitValue(c: char): nat
    requires IsDigit(c)
  {
    c as int - '0' as int
  }

  predicate HasPrefix(s: string, p: string)
  {
    |p| <= |s| && s[..|p|] == p
  }

  predicate HasSuffix(s: string, p: string)
  {
    |p| <= |s| && s[|s| - |p|..] == p
  }

  /** Decimal digits of `n`, most significant first, without leading zeros. */
  function NatToString(n: nat): (s: string)
    ensures |s| > 0 && AllDigits(s)
    ensures s[0] == '0' <==> n == 0
    ensures |s| > 1 ==> s[0] != '0'
    decreases n
  {
    if n < 10 then [DigitChar(n)] else NatToString(n / 10) + [DigitChar(n % 10)]
  }

  function ParseNat(s: string): nat
    requires |s| > 0 && AllDigits(s)
  {
    if |s| == 1 then DigitValue(s[0])
    else 10 * ParseNat(s[..|s| - 1]) + DigitValue(s[|s| - 1])
  }

  lemma {:induction false} ParseNatToString(n: nat)
    ensures ParseNat(NatToString(n)) == n
    decreases n
  {
    if n >= 10 {
      var s := NatToString(n);
      ParseNatToString(n / 10);
      assert s[..|s| - 1] == NatToString(n / 10);
    }
  }

  /** `${n}` for an integral JavaScript number `n` below 10^21 in magnitude:
      a `-` exactly for negatives, then the decimal digits of |n| without
      leading zeros. */
  function IntToString(n: int): (s: string)
    ensures ParseInt(s) == Some(n)
    ensures ':' !in s && '@' !in s
    ensures |s| > 0 && (s[0] == '-' <==> n < 0)
    ensures n >= 0 ==> AllDigits(s) && (s[0] == '0' <==> n == 0) && (n == 0 ==> s == "0")
    ensures n < 0 ==> |s| > 1 && AllDigits(s[1..]) && s[1] != '0'
  {
    ParseNatToString(if n < 0 then -n else n);
    var digits := NatToString(if n < 0 then -n else n);
    var s := if n < 0 then "-" + digits else digits;
    assert n < 0 ==> s[1..] == digits;
    assert forall i :: 0 <= i < |digits| ==> IsDigit(digits[i]);
    s
  }

  /** Reads back what `IntToString` writes; `None` for anything else. */
  function ParseInt(s: string): Option<int>
  {
    if |s| > 1 && s[0] == '-' && AllDigits(s[1..]) then Some(-(ParseNat(s[1..]) as int))
    else if |s| > 0 && AllDigits(s) then Some(ParseNat(s))
    else None
  }

  /** `${x}` for a JavaScript value of type `string | undefined`. */
  function Render(x: Option<string>): string
  {
    match x
    case Some(s) => s
    case None => "undefined"
  }

  /** Index of the last `c` in `s`, if any. */
  function LastIndexOf(s: string, c: char): (r: Option<nat>)
    ensures r.None? ==> c !in s
    ensures r.Some? ==> r.value < |s| && s[r.value] == c
    ensures r.Some? ==> forall j :: r.value < j < |s| ==> s[j] != c
    decreases |s|
  {
    if |s| == 0 then None
    else if s[|s| - 1] == c then Some(|s| - 1)
    else
      LastIndexOf(s[..|s| - 1], c)
  }

  /** The parts of `s` before and after its last `c`. */
  function SplitLast(s: string, c: char): Option<(string, string)>
  {
    match LastIndexOf(s, c)
    case None => None
    case Some(i) => Some((s[..i], s[i + 1..]))
  }

  /** Joining two parts around `c` and splitting at the last `c` gives the
      parts back whenever the second part does not contain `c`. */
  lemma SplitLastJoin(h: string, c: char, t: string)
    requires c !in t
    ensures SplitLast(h + [c] + t, c) == Some((h, t))
  {
    var s := h + [c] + t;
    assert s[|h|] == c;
    var r := LastIndexOf(s, c);
    assert r.Some?;
    assert r.value == |h|;
    assert s[..|h|] == h;
    assert s[|h| + 1..] == t;
  }
}
