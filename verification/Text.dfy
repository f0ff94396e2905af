/** Decimal printing and parsing (fmt %d, strconv.Itoa, strconv.Atoi) and the string
    searches the names are built from and read back with. */
module Text {
  import opened Types

  predicate IsDigit(c: char) {
    '0' <= c <= '9'
  }

  predicate AllDigits(s: string) {
    forall k | 0 <= k < |s| :: IsDigit(s[k])
  }

  function DigitChar(d: nat): (c: char)
    requires d < 10
    ensures IsDigit(c) && DigitValue(c) == d
  {
    ('0' as int + d) as char
  }

  function DigitValue(c: char): nat
    requires IsDigit(c)
  {
    c as int - '0' as int
  }

  /** Decimal text of a natural number. */
  function Dec(n: nat): (s: string)
    ensures s != [] && AllDigits(s)
  {
    if n < 10 then [DigitChar(n)] else Dec(n / 10) + [DigitChar(n % 10)]
  }

  /** Decimal text of an integer, as fmt's %d prints it. */
  function DecInt(n: int): (s: string)
    ensures s != []
  {
    if n < 0 then "-" + Dec(-n) else Dec(n)
  }

  function DigitsValue(s: string): nat
    requires AllDigits(s)
  {
    if s == [] then 0
    else 10 * DigitsValue(s[..|s| - 1]) + DigitValue(s[|s| - 1])
  }

  /** strconv.Atoi: an optional sign, then at least one digit. */
  function Atoi(s: string): Option<int> {
    var signed := s != [] && (s[0] == '-' || s[0] == '+');
    var digits := if signed then s[1..] else s;
    if digits == [] || !AllDigits(digits) then None
    else
      var value: int := DigitsValue(digits);
      Some(if signed && s[0] == '-' then -value else value)
  }

  lemma {:induction false} DigitsOfDec(n: nat)
    ensures DigitsValue(Dec(n)) == n
  {
    if n < 10 {
      assert Dec(n)[..0] == [];
    } else {
      var s := Dec(n);
      assert s[..|s| - 1] == Dec(n / 10);
      DigitsOfDec(n / 10);
    }
  }

  /** Printing then parsing gives the number back. */
  lemma AtoiDec(n: nat)
    ensures Atoi(Dec(n)) == Some(n)
  {
    DigitsOfDec(n);
    assert IsDigit(Dec(n)[0]);
  }

  lemma AtoiDecInt(n: int)
    ensures Atoi(DecInt(n)) == Some(n)
  {
    if n < 0 {
      AtoiDec(-n);
      DigitsOfDec(-n);
      assert DecInt(n)[1..] == Dec(-n);
    } else {
      AtoiDec(n);
    }
  }

  lemma DecInjective(m: nat, n: nat)
    requires Dec(m) == Dec(n)
    ensures m == n
  {
    DigitsOfDec(m);
    DigitsOfDec(n);
  }

  /** strings.CutPrefix: the rest of s after prefix, when s has that prefix. */
  function CutPrefix(s: string, prefix: string): Option<string> {
    if prefix <= s then Some(s[|prefix|..]) else None
  }

  /** strings.Cut at the first occurrence of c: what comes before it, or all of s. */
  function Before(s: string, c: char): (r: string)
    ensures r <= s && c !in r
    ensures |r| < |s| ==> s[|r|] == c
  {
    if s == [] || s[0] == c then []
    else
      var rest := Before(s[1..], c);
      assert s == [s[0]] + s[1..];
      [s[0]] + rest
  }

  lemma {:induction false} BeforeSeparator(a: string, c: char, b: string)
    requires c !in a
    ensures Before(a + [c] + b, c) == a
  {
    if a != [] {
      assert (a + [c] + b)[1..] == a[1..] + [c] + b;
      BeforeSeparator(a[1..], c, b);
    }
  }

  lemma BeforeAbsent(a: string, c: char)
    requires c !in a
    ensures Before(a, c) == a
  {
    assert |Before(a, c)| == |a|;
  }

  /** What comes after the first c, if there is one. */
  function Past(s: string, c: char): (r: string)
    ensures s != "" ==> |r| < |s|
  {
    if |Before(s, c)| < |s| then s[|Before(s, c)| + 1..] else ""
  }

  lemma Splits(a: string, c: char, b: string)
    requires c !in a
    ensures Before(a + [c] + b, c) == a && Past(a + [c] + b, c) == b
  {
    BeforeSeparator(a, c, b);
    assert (a + [c] + b)[|a| + 1..] == b;
  }

  /** Text that splits neither lines nor fields. */
  predicate Solid(s: string) {
    ' ' !in s && '\n' !in s
  }

  /** The text after the last '-', with what precedes that dash. */
  function LastSegment(s: string): (r: Option<(string, string)>)
    ensures r.Some? ==> s == r.value.0 + "-" + r.value.1 && '-' !in r.value.1
  {
    if s == [] then None
    else
      var init, last := s[..|s| - 1], s[|s| - 1];
      assert s == init + [last];
      if last == '-' then Some((init, ""))
      else match LastSegment(init)
        case None => None
        case Some((p, seg)) => Some((p, seg + [last]))
  }

  lemma {:induction false} LastSegmentOf(p: string, seg: string)
    requires '-' !in seg
    ensures LastSegment(p + "-" + seg) == Some((p, seg))
  {
    var s := p + "-" + seg;
    if seg == [] {
      assert s[..|s| - 1] == p;
    } else {
      var seg' := seg[..|seg| - 1];
      assert s[..|s| - 1] == p + "-" + seg';
      assert seg == seg' + [seg[|seg| - 1]];
      LastSegmentOf(p, seg');
    }
  }
}
