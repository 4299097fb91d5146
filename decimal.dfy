/**
  Base-10 integers as text: the parser behind Go's `strconv.Atoi` and the
  formatter behind the `%d` verb of `fmt.Sprintf`.
 */
module Decimal {
  import opened Results

  predicate IsDigit(c: char) {
    '0' <= c <= '9'
  }

  function DigitValue(c: char): (d: nat)
    requires IsDigit(c)
    ensures d < 10
  {
    (c as int) - ('0' as int)
  }

  function DigitChar(d: nat): (c: char)
    requires d < 10
    ensures IsDigit(c) && DigitValue(c) == d
  {
    (('0' as int) + d) as char
  }

  predicate AllDigits(s: string) {
    forall k :: 0 <= k < |s| ==> IsDigit(s[k])
  }

  predicate IsSign(c: char) {
    c == '+' || c == '-'
  }

  /** The syntax `strconv.Atoi` accepts in base 10: an optional sign, then one or more digits. */
  predicate IsIntegerLiteral(s: string) {
    if |s| > 0 && IsSign(s[0]) then |s| > 1 && AllDigits(s[1..])
    else |s| > 0 && AllDigits(s)
  }

  /** Positional value of a digit string, most significant digit first. */
  function DigitsValue(s: string): nat
    requires AllDigits(s)
  {
    if s == [] then 0 else DigitsValue(s[..|s| - 1]) * 10 + DigitValue(s[|s| - 1])
  }

  /** The integer an integer literal denotes. */
  function LiteralValue(s: string): int
    requires IsIntegerLiteral(s)
  {
    if s[0] == '-' then -(DigitsValue(s[1..]) as int)
    else if s[0] == '+' then DigitsValue(s[1..])
    else DigitsValue(s)
  }

  /** Left-to-right scan of digits into an accumulator; fails at the first non-digit. */
  function ScanDigits(s: string, acc: nat): Option<nat>
    decreases |s|
  {
    if s == [] then Some(acc)
    else if !IsDigit(s[0]) then None
    else ScanDigits(s[1..], acc * 10 + DigitValue(s[0]))
  }

  /** `strconv.Atoi(s)`, with `None` for its syntax error. */
  function Atoi(s: string): Option<int> {
    if |s| == 0 then None
    else if IsSign(s[0]) then
      if |s| == 1 then None
      else match ScanDigits(s[1..], 0)
        case None => None
        case Some(v) => Some(if s[0] == '-' then -(v as int) else v as int)
    else match ScanDigits(s, 0)
      case None => None
      case Some(v) => Some(v as int)
  }

  /** Decimal digits of a natural number, without leading zeros. */
  function Digits(n: nat): (s: string)
    ensures 0 < |s| && AllDigits(s)
    ensures |s| > 1 ==> s[0] != '0'
    decreases n
  {
    if n < 10 then [DigitChar(n)] else Digits(n / 10) + [DigitChar(n % 10)]
  }

  /** `fmt.Sprintf("%d", n)`. */
  function FormatInt(n: int): string {
    if n < 0 then "-" + Digits(-n) else Digits(n)
  }

  lemma {:induction false} ScanDigitsValue(p: string, s: string)
    requires AllDigits(p + s)
    ensures AllDigits(p) && AllDigits(s)
    ensures ScanDigits(s, DigitsValue(p)) == Some(DigitsValue(p + s))
    decreases |s|
  {
    assert forall k :: 0 <= k < |p| ==> (p + s)[k] == p[k];
    assert forall k :: 0 <= k < |s| ==> (p + s)[|p| + k] == s[k];
    if s == [] {
      assert p + s == p;
    } else {
      var p' := p + [s[0]];
      assert p' + s[1..] == p + s;
      assert p'[..|p'| - 1] == p;
      ScanDigitsValue(p', s[1..]);
    }
  }

  lemma ScanAllDigits(s: string, acc: nat)
    ensures ScanDigits(s, acc).Some? <==> AllDigits(s)
    decreases |s|
  {
    if s != [] {
      ScanAllDigits(s[1..], acc * 10 + if IsDigit(s[0]) then DigitValue(s[0]) else 0);
      if AllDigits(s[1..]) && IsDigit(s[0]) {
        assert forall k :: 1 <= k < |s| ==> s[k] == s[1..][k - 1];
      }
    }
  }

  /** Atoi accepts exactly the integer literals, and yields the value they denote. */
  lemma AtoiAccepts(s: string)
    ensures Atoi(s).Some? <==> IsIntegerLiteral(s)
    ensures Atoi(s).Some? ==> Atoi(s).value == LiteralValue(s)
  {
    if |s| > 0 {
      var ds := if IsSign(s[0]) then s[1..] else s;
      ScanAllDigits(ds, 0);
      if AllDigits(ds) {
        assert [] + ds == ds;
        ScanDigitsValue([], ds);
      }
    }
  }

  lemma {:induction false} DigitsValueOfDigits(n: nat)
    ensures DigitsValue(Digits(n)) == n
    decreases n
  {
    if n >= 10 {
      var s := Digits(n);
      assert s[..|s| - 1] == Digits(n / 10);
      DigitsValueOfDigits(n / 10);
    }
  }

  /** Parsing what `%d` printed gives the number back. */
  lemma AtoiFormatInt(n: int)
    ensures IsIntegerLiteral(FormatInt(n))
    ensures Atoi(FormatInt(n)) == Some(n)
  {
    var s := FormatInt(n);
    if n < 0 {
      assert s[1..] == Digits(-n);
      DigitsValueOfDigits(-n);
    } else {
      DigitsValueOfDigits(n);
    }
    AtoiAccepts(s);
  }

  /** Distinct numbers print differently. */
  lemma FormatIntInjective(m: int, n: int)
    requires FormatInt(m) == FormatInt(n)
    ensures m == n
  {
    AtoiFormatInt(m);
    AtoiFormatInt(n);
  }
}
