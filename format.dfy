/**
 * The two uses of Go's fmt package that the server makes: `%d` of an int
 * and the listener address `fmt.Sprintf("%s:%d", bind, port)`.
 * ParseInt and SplitAddr are the inverse readings used to state that the
 * formatted text loses nothing.
 */
module Format {
  import opened Wrappers

  predicate IsDigit(c: char) {
    '0' <= c <= '9'
  }

  function DigitChar(d: nat): (c: char)
    requires d < 10
    ensures IsDigit(c) && DigitValue(c) == d
  {
    ('0' as int + d) as char
  }

  function DigitValue(c: char): (d: nat)
    requires IsDigit(c)
    ensures d < 10
  {
    c as int - '0' as int
  }

  predicate AllDigits(s: string) {
    forall i :: 0 <= i < |s| ==> IsDigit(s[i])
  }

  /** The decimal digits of n, most significant first, with no leading zero. */
  function NatDigits(n: nat): (s: string)
    ensures |s| >= 1 && AllDigits(s)
    ensures s[0] == '0' ==> n == 0
    decreases n
  {
    if n < 10 then [DigitChar(n)] else NatDigits(n / 10) + [DigitChar(n % 10)]
  }

  /** The value of a string of decimal digits (the empty string reads as 0). */
  function DigitsValue(s: string): (n: nat)
    requires AllDigits(s)
    decreases |s|
  {
    if s == [] then 0 else DigitsValue(s[..|s| - 1]) * 10 + DigitValue(s[|s| - 1])
  }

  /** Go's `%d` verb on an int: an optional minus sign, then the digits of the magnitude. */
  function FormatInt(n: int): (s: string)
    ensures |s| >= 1
    ensures forall i :: 0 <= i < |s| ==> IsDigit(s[i]) || (i == 0 && s[i] == '-')
  {
    if n < 0 then "-" + NatDigits(-n) else NatDigits(n)
  }

  /** Reads back what `%d` writes: `-` followed by digits, or digits alone. */
  function ParseInt(s: string): (r: Option<int>)
    ensures r.Some? ==> |s| >= 1
  {
    if |s| >= 2 && s[0] == '-' && AllDigits(s[1..]) then Some(-(DigitsValue(s[1..]) as int))
    else if |s| >= 1 && AllDigits(s) then Some(DigitsValue(s))
    else None
  }

  lemma {:induction false} NatDigitsRoundTrip(n: nat)
    ensures DigitsValue(NatDigits(n)) == n
    decreases n
  {
    if n >= 10 {
      var s := NatDigits(n);
      NatDigitsRoundTrip(n / 10);
      assert s[..|s| - 1] == NatDigits(n / 10);
      assert DigitValue(s[|s| - 1]) == n % 10;
    }
  }

  /** Every int survives a trip through `%d` and back. */
  lemma FormatIntRoundTrip(n: int)
    ensures ParseInt(FormatInt(n)) == Some(n)
  {
    var s := FormatInt(n);
    if n < 0 {
      assert s[1..] == NatDigits(-n);
      NatDigitsRoundTrip(-n);
    } else {
      NatDigitsRoundTrip(n);
      assert s[0] != '-';
    }
  }

  /** `fmt.Sprintf("%s:%d", bind, port)`. */
  function Addr(bind: string, port: int): (a: string)
    ensures |a| > |bind| && a[|bind|] == ':'
  {
    bind + ":" + FormatInt(port)
  }

  /** The position of the last occurrence of c in s, if any. */
  function LastIndex(s: string, c: char): (r: Option<nat>)
    ensures r.Some? ==> r.value < |s| && s[r.value] == c
    ensures r.Some? ==> forall j :: r.value < j < |s| ==> s[j] != c
    ensures r.None? ==> forall j :: 0 <= j < |s| ==> s[j] != c
    decreases |s|
  {
    if s == [] then None
    else if s[|s| - 1] == c then Some(|s| - 1)
    else LastIndex(s[..|s| - 1], c)
  }

  /**
   * Splits an address at its last colon into the bind text and the port.
   * The last colon is the right one because a bind such as `[::]` may hold colons
   * of its own while the decimal port never does.
   */
  function SplitAddr(a: string): (r: Option<(string, int)>)
    ensures r.Some? ==> |r.value.0| < |a| && a[..|r.value.0|] == r.value.0 && a[|r.value.0|] == ':'
  {
    match LastIndex(a, ':')
    case None => None
    case Some(i) =>
      match ParseInt(a[i + 1..])
      case None => None
      case Some(port) => Some((a[..i], port))
  }

  /** The bind text and the port can always be recovered from the formatted address. */
  lemma AddrRoundTrip(bind: string, port: int)
    ensures SplitAddr(Addr(bind, port)) == Some((bind, port))
  {
    var a := Addr(bind, port);
    var digits := FormatInt(port);
    assert a[|bind| + 1..] == digits;
    forall j | |bind| < j < |a|
      ensures a[j] != ':'
    {
      assert a[j] == digits[j - |bind| - 1];
    }
    var last := LastIndex(a, ':');
    assert last == Some(|bind|);
    assert a[..|bind|] == bind;
    FormatIntRoundTrip(port);
  }
}
