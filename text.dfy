/** String helpers with the JavaScript semantics the control panel relies on:
    String.prototype.trim, parseInt on decimal text, the `parseInt(x) || d`
    idiom, and the decimal text of an integer (what a template literal or an
    input's value holds). */
module Text {

  datatype Option<T> = None | Some(value: T)

  /** The WhiteSpace and LineTerminator code points of ECMAScript: what
      trim and parseInt skip. */
  predicate IsWhitespace(c: char)
  {
    var n := c as int;
    (0x09 <= n <= 0x0D) || n == 0x20 || n == 0xA0 || n == 0x1680 ||
    (0x2000 <= n <= 0x200A) || n == 0x2028 || n == 0x2029 || n == 0x202F ||
    n == 0x205F || n == 0x3000 || n == 0xFEFF
  }

  predicate IsDigit(c: char)
  {
    '0' <= c <= '9'
  }

  predicate AllDigits(s: string)
  {
    forall i :: 0 <= i < |s| ==> IsDigit(s[i])
  }

  function DigitValue(c: char): nat
    requires IsDigit(c)
  {
    (c as int) - ('0' as int)
  }

  function DigitChar(d: nat): char
    requires d < 10
  {
    (('0' as int) + d) as char
  }

  /** The number of whitespace characters s starts with. */
  function LeadingWhitespace(s: string): (k: nat)
    ensures k <= |s|
    ensures k < |s| ==> !IsWhitespace(s[k])
  {
    if |s| > 0 && IsWhitespace(s[0]) then 1 + LeadingWhitespace(s[1..]) else 0
  }

  /** Everything LeadingWhitespace counts is whitespace. */
  lemma {:induction false} LeadingWhitespaceIsWhitespace(s: string)
    ensures forall i :: 0 <= i < LeadingWhitespace(s) ==> IsWhitespace(s[i])
  {
    if |s| > 0 && IsWhitespace(s[0]) {
      LeadingWhitespaceIsWhitespace(s[1..]);
    }
  }

  /** The number of whitespace characters s ends with. */
  function TrailingWhitespace(s: string): (k: nat)
    ensures k <= |s|
    ensures k < |s| ==> !IsWhitespace(s[|s| - 1 - k])
  {
    if |s| > 0 && IsWhitespace(s[|s| - 1]) then 1 + TrailingWhitespace(s[..|s| - 1]) else 0
  }

  /** Everything TrailingWhitespace counts is whitespace. */
  lemma {:induction false} TrailingWhitespaceIsWhitespace(s: string)
    ensures forall i :: |s| - TrailingWhitespace(s) <= i < |s| ==> IsWhitespace(s[i])
  {
    if |s| > 0 && IsWhitespace(s[|s| - 1]) {
      TrailingWhitespaceIsWhitespace(s[..|s| - 1]);
    }
  }

  /** Whether s is whitespace only (the empty string included). */
  predicate IsBlank(s: string)
  {
    forall i :: 0 <= i < |s| ==> IsWhitespace(s[i])
  }

  /** String.prototype.trim: s without its leading and trailing whitespace. */
  function Trim(s: string): (r: string)
    ensures |r| <= |s|
    ensures r != [] ==> !IsWhitespace(r[0]) && !IsWhitespace(r[|r| - 1])
    ensures s != [] && !IsWhitespace(s[0]) ==> r != [] && r[0] == s[0]
  {
    var t := s[LeadingWhitespace(s)..];
    TrailingWhitespaceIsWhitespace(t);
    t[..|t| - TrailingWhitespace(t)]
  }

  /** What trim keeps is the stretch of s that starts at its first
      non-whitespace character, and everything after it is whitespace. */
  lemma TrimIsInfix(s: string)
    ensures LeadingWhitespace(s) + |Trim(s)| <= |s|
    ensures Trim(s) == s[LeadingWhitespace(s)..LeadingWhitespace(s) + |Trim(s)|]
    ensures forall i :: LeadingWhitespace(s) + |Trim(s)| <= i < |s| ==> IsWhitespace(s[i])
  {
    var k := LeadingWhitespace(s);
    var t := s[k..];
    TrailingWhitespaceIsWhitespace(t);
    forall i | k + |Trim(s)| <= i < |s|
      ensures IsWhitespace(s[i])
    {
      assert s[i] == t[i - k];
    }
  }

  /** Trimming leaves nothing exactly when the text is whitespace only. */
  lemma TrimEmptyIffBlank(s: string)
    ensures Trim(s) == [] <==> IsBlank(s)
  {
    LeadingWhitespaceIsWhitespace(s);
    TrailingWhitespaceIsWhitespace(s[LeadingWhitespace(s)..]);
  }

  /** Trimming twice is trimming once. */
  lemma TrimIdempotent(s: string)
    ensures Trim(Trim(s)) == Trim(s)
  {
    var r := Trim(s);
    if r != [] {
      assert LeadingWhitespace(r) == 0;
      assert TrailingWhitespace(r) == 0;
    }
  }

  /** The length of the run of decimal digits s starts with. */
  function DigitRun(s: string): (k: nat)
    ensures k <= |s| && AllDigits(s[..k])
    ensures k < |s| ==> !IsDigit(s[k])
  {
    if |s| > 0 && IsDigit(s[0]) then 1 + DigitRun(s[1..]) else 0
  }

  /** The value of a run of decimal digits, most significant first. */
  function DigitsValue(ds: string): nat
    requires AllDigits(ds)
  {
    if ds == [] then 0 else 10 * DigitsValue(ds[..|ds| - 1]) + DigitValue(ds[|ds| - 1])
  }

  /** parseInt(s) without a radix, on decimal text: leading whitespace is
      skipped, one optional sign is read, then the longest run of decimal
      digits; anything after that run is ignored. None stands for NaN (no
      digit follows the sign). A "-0" reads as 0. */
  function ParseInt(s: string): (r: Option<int>)
    ensures |s| > 0 && IsDigit(s[0]) ==> r == Some(DigitsValue(s[..DigitRun(s)]))
    decreases |s|
  {
    if |s| > 0 && IsWhitespace(s[0]) then ParseInt(s[1..])
    else if |s| > 0 && s[0] == '-' then
      (match ParseDigits(s[1..]) case None => None case Some(m) => Some(-m))
    else if |s| > 0 && s[0] == '+' then ParseDigits(s[1..])
    else ParseDigits(s)
  }

  /** The optional digit run parseInt reads after the sign: None when u
      does not start with a digit. */
  function ParseDigits(u: string): (r: Option<int>)
    ensures r.Some? <==> |u| > 0 && IsDigit(u[0])
  {
    var n := DigitRun(u);
    if n == 0 then None else Some(DigitsValue(u[..n]))
  }

  /** One sign is read before the digits: "-" negates the digit run that
      follows it, "+" keeps it, and a sign not followed by a digit is NaN
      (so "-5.5" reads as -5 and "+5" as 5). Text that starts with anything
      else than whitespace, a sign or a digit is NaN (so ".5" is NaN). */
  lemma ParseIntSigned(s: string)
    ensures |s| > 1 && s[0] == '-' && IsDigit(s[1]) ==>
              ParseInt(s) == Some(-(DigitsValue(s[1..][..DigitRun(s[1..])]) as int))
    ensures |s| > 1 && s[0] == '+' && IsDigit(s[1]) ==>
              ParseInt(s) == Some(DigitsValue(s[1..][..DigitRun(s[1..])]))
    ensures |s| > 0 && (s[0] == '-' || s[0] == '+') && !(|s| > 1 && IsDigit(s[1])) ==> ParseInt(s).None?
    ensures |s| > 0 && !IsWhitespace(s[0]) && !IsDigit(s[0]) && s[0] != '-' && s[0] != '+' ==> ParseInt(s).None?
  {
  }

  /** Leading whitespace is skipped: parseInt reads s as it reads s with
      its leading whitespace removed. */
  lemma {:induction false} ParseIntSkipsWhitespace(s: string)
    ensures ParseInt(s) == ParseInt(s[LeadingWhitespace(s)..])
    decreases |s|
  {
    if |s| > 0 && IsWhitespace(s[0]) {
      ParseIntSkipsWhitespace(s[1..]);
      assert s[1..][LeadingWhitespace(s[1..])..] == s[LeadingWhitespace(s)..];
    }
  }

  /** Text without a single decimal digit reads as NaN. */
  lemma {:induction false} ParseIntNeedsDigit(s: string)
    requires forall i :: 0 <= i < |s| ==> !IsDigit(s[i])
    ensures ParseInt(s).None?
    decreases |s|
  {
    if |s| > 0 && IsWhitespace(s[0]) {
      ParseIntNeedsDigit(s[1..]);
    }
  }

  /** The `parseInt(s) || fallback` idiom: NaN and 0 are both falsy, so
      both give the fallback. */
  function ParseIntOr(s: string, fallback: int): (r: int)
    ensures fallback != 0 ==> r != 0
    ensures ParseInt(s) == Some(r) || r == fallback
    ensures ParseInt(s).None? || ParseInt(s) == Some(0) ==> r == fallback
    ensures ParseInt(s).Some? && ParseInt(s).value != 0 ==> r == ParseInt(s).value
  {
    match ParseInt(s)
    case Some(v) => if v != 0 then v else fallback
    case None => fallback
  }

  /** The decimal text of n, without leading zeros. */
  function NatToString(n: nat): (s: string)
    ensures s != [] && AllDigits(s)
    ensures n != 0 ==> s[0] != '0'
  {
    if n < 10 then [DigitChar(n)] else NatToString(n / 10) + [DigitChar(n % 10)]
  }

  /** The text of an integer as a template literal or an input value holds it. */
  function IntToString(n: int): (s: string)
    ensures s != [] && (s[0] == '-' <==> n < 0)
  {
    if n < 0 then "-" + NatToString(-n) else NatToString(n)
  }

  lemma {:induction false} NatToStringValue(n: nat)
    ensures DigitsValue(NatToString(n)) == n
  {
    var s := NatToString(n);
    if n < 10 {
      assert s[..|s| - 1] == [];
    } else {
      assert s[..|s| - 1] == NatToString(n / 10);
      NatToStringValue(n / 10);
    }
  }

  /** parseInt reads back every integer's decimal text exactly. */
  lemma ParseIntRoundTrip(n: int)
    ensures ParseInt(IntToString(n)) == Some(n)
  {
    var m: nat := if n < 0 then -n else n;
    var u := NatToString(m);
    assert DigitRun(u) == |u| && u[..|u|] == u;
    NatToStringValue(m);
    if n < 0 {
      assert IntToString(n)[1..] == u;
    }
  }
}
