/** String helpers of JavaScript: decimal numbers, indexOf, lastIndexOf. */
module Text {
  import opened Common


  predicate IsDigit(c: char) {
    '0' <= c <= '9'
  }

  function Digit(n: nat): (c: char)
    requires n < 10
    ensures IsDigit(c) && c as int == '0' as int + n
  {
    '0' + n as char
  }

  function DigitValue(c: char): (n: nat)
    requires IsDigit(c)
    ensures n < 10
  {
    c as int - '0' as int
  }

  // String(n)
  function Decimal(n: nat): (s: string)
    ensures s != "" && forall c <- s :: IsDigit(c)
  {
    if n < 10 then [Digit(n)] else Decimal(n / 10) + [Digit(n % 10)]
  }

  // Number(s) for a string of decimal digits.
  function ParseDecimal(s: string): Option<nat> {
    if s == "" || !(forall c <- s :: IsDigit(c)) then None else Some(DecimalValue(s))
  }

  function DecimalValue(s: string): nat
    requires forall c <- s :: IsDigit(c)
  {
    if s == "" then 0 else DecimalValue(s[..|s| - 1]) * 10 + DigitValue(s[|s| - 1])
  }

  lemma {:induction false} DecimalRoundTrip(n: nat)
    ensures ParseDecimal(Decimal(n)) == Some(n)
  {
    var s := Decimal(n);
    if n < 10 {
      assert s[..0] == "" && DecimalValue(s) == DecimalValue("") * 10 + DigitValue(s[0]);
    } else {
      DecimalRoundTrip(n / 10);
      assert s[..|s| - 1] == Decimal(n / 10);
    }
  }

  lemma DecimalInjective(m: nat, n: nat)
    requires Decimal(m) == Decimal(n)
    ensures m == n
  {
    DecimalRoundTrip(m);
    DecimalRoundTrip(n);
  }

  // s.indexOf(c)
  function IndexOf(s: string, c: char): (i: int)
    ensures -1 <= i < |s|
    ensures i >= 0 ==> s[i] == c && c !in s[..i]
    ensures i == -1 ==> c !in s
  {
    if s == "" then -1
    else if s[0] == c then 0
    else
      var i := IndexOf(s[1..], c);
      if i == -1 then -1
      else
        assert s[..i + 1] == [s[0]] + s[1..][..i];
        i + 1
  }

  // s.lastIndexOf(c)
  function LastIndexOf(s: string, c: char): (i: int)
    ensures -1 <= i < |s|
    ensures i >= 0 ==> s[i] == c && c !in s[i + 1..]
    ensures i == -1 ==> c !in s
  {
    if s == "" then -1
    else if s[|s| - 1] == c then |s| - 1
    else
      var t := s[..|s| - 1];
      assert s == t + [s[|s| - 1]];
      var i := LastIndexOf(t, c);
      assert i >= 0 ==> s[i + 1..] == t[i + 1..] + [s[|s| - 1]];
      i
  }

  // The first c of a text is where it was put if nothing before it is one.
  lemma IndexOfFirst(a: string, c: char, b: string)
    requires c !in a
    ensures IndexOf(a + [c] + b, c) == |a|
  {
    var s := a + [c] + b;
    var i := IndexOf(s, c);
    assert s[|a|] == c && i >= 0;
    assert forall k :: 0 <= k < |a| ==> s[k] == a[k] && a[k] in a;
    assert forall k :: 0 <= k < i ==> s[..i][k] == s[k] && s[k] != c;
  }

  lemma InDrop(s: string, j: nat)
    requires j <= |s|
    ensures forall k :: j <= k < |s| ==> s[k] in s[j..]
  {
    forall k | j <= k < |s|
      ensures s[k] in s[j..]
    {
      assert s[j..][k - j] == s[k];
    }
  }

  lemma LastIndexIs(s: string, c: char, j: nat)
    requires j < |s| && s[j] == c && c !in s[j + 1..]
    ensures LastIndexOf(s, c) == j
  {
    var i := LastIndexOf(s, c);
    assert c in s && i >= 0;
    InDrop(s, i + 1);
    InDrop(s, j + 1);
  }

  lemma LastIndexOfLast(a: string, c: char, b: string)
    requires c !in b
    ensures LastIndexOf(a + [c] + b, c) == |a|
  {
    var s := a + [c] + b;
    assert s[|a| + 1..] == b;
    LastIndexIs(s, c, |a|);
  }

  // Two texts that end alike behind a mark that the ends do not contain.
  lemma SplitAtLast(a: string, b: string, a': string, b': string, c: char)
    requires a + [c] + b == a' + [c] + b' && c !in b && c !in b'
    ensures a == a' && b == b'
  {
    LastIndexOfLast(a, c, b);
    LastIndexOfLast(a', c, b');
    assert (a + [c] + b)[..|a|] == a && (a + [c] + b)[|a| + 1..] == b;
    assert (a' + [c] + b')[..|a'|] == a' && (a' + [c] + b')[|a'| + 1..] == b';
  }

  lemma CancelRight(a: string, b: string, t: string)
    requires a + t == b + t
    ensures a == b
  {
    assert (a + t)[..|a|] == a && (b + t)[..|b|] == b;
  }

  lemma CancelLeft(t: string, a: string, b: string)
    requires t + a == t + b
    ensures a == b
  {
    assert (t + a)[|t|..] == a && (t + b)[|t|..] == b;
  }
}
