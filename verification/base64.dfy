/** Base64 (RFC 4648 section 4) as Buffer writes and reads it. */
module Base64 {
  import opened Common
  import opened Utf8

  type Digit = n: int | 0 <= n < 64

  function Letter(n: Digit): char {
    if n < 26 then 'A' + n as char
    else if n < 52 then 'a' + (n - 26) as char
    else if n < 62 then '0' + (n - 52) as char
    else if n == 62 then '+'
    else '/'
  }

  // Of either alphabet: the reader maps - and _ to + and / first.
  function Sextet(c: char): Option<Digit> {
    if 'A' <= c <= 'Z' then Some(c as int - 'A' as int)
    else if 'a' <= c <= 'z' then Some(c as int - 'a' as int + 26)
    else if '0' <= c <= '9' then Some(c as int - '0' as int + 52)
    else if c == '+' || c == '-' then Some(62)
    else if c == '/' || c == '_' then Some(63)
    else None
  }

  // Three bytes are four sextets; one or two at the end are two or three.
  function Split(bs: seq<Byte>): seq<Digit> {
    if bs == [] then []
    else if |bs| == 1 then [bs[0] / 4, bs[0] % 4 * 16]
    else if |bs| == 2 then [bs[0] / 4, bs[0] % 4 * 16 + bs[1] / 16, bs[1] % 16 * 4]
    else [bs[0] / 4, bs[0] % 4 * 16 + bs[1] / 16, bs[1] % 16 * 4 + bs[2] / 64, bs[2] % 64] + Split(bs[3..])
  }

  function Letters(ns: seq<Digit>): string {
    if ns == [] then "" else [Letter(ns[0])] + Letters(ns[1..])
  }

  function Padding(bytes: nat): string {
    if bytes % 3 == 1 then "==" else if bytes % 3 == 2 then "=" else ""
  }

  function Encode64(bs: seq<Byte>): string {
    Letters(Split(bs)) + Padding(|bs|)
  }

  // The reader skips padding and whatever is in no alphabet.
  function Sextets(s: string): seq<Digit> {
    if s == "" then []
    else (if Sextet(s[0]).Some? then [Sextet(s[0]).value] else []) + Sextets(s[1..])
  }

  function First(a: Digit, b: Digit): Byte {
    var n: int := a;
    n * 4 + b / 16
  }

  function Second(b: Digit, c: Digit): Byte {
    var n: int := b % 16;
    n * 16 + c / 4
  }

  function Third(c: Digit, d: Digit): Byte {
    var n: int := c % 4;
    n * 64 + d
  }

  // Four sextets are three bytes; two or three at the end are one or two.
  function Gather(ns: seq<Digit>): seq<Byte> {
    if |ns| < 2 then []
    else if |ns| == 2 then [First(ns[0], ns[1])]
    else if |ns| == 3 then [First(ns[0], ns[1]), Second(ns[1], ns[2])]
    else [First(ns[0], ns[1]), Second(ns[1], ns[2]), Third(ns[2], ns[3])] + Gather(ns[4..])
  }

  function Decode64(s: string): seq<Byte> {
    Gather(Sextets(s))
  }

  lemma SextetOfLetter(n: Digit)
    ensures Sextet(Letter(n)) == Some(n)
  {
  }

  lemma SextetsCons(n: Digit, rest: string)
    ensures Sextets([Letter(n)] + rest) == [n] + Sextets(rest)
  {
    SextetOfLetter(n);
    assert ([Letter(n)] + rest)[1..] == rest;
  }

  lemma {:induction false} SextetsOfLetters(ns: seq<Digit>, rest: string)
    ensures Sextets(Letters(ns) + rest) == ns + Sextets(rest)
  {
    if ns == [] {
      assert Letters(ns) + rest == rest;
    } else {
      SextetsOfLetters(ns[1..], rest);
      SextetsCons(ns[0], Letters(ns[1..]) + rest);
      assert Letters(ns) + rest == [Letter(ns[0])] + (Letters(ns[1..]) + rest);
      assert ns + Sextets(rest) == [ns[0]] + (ns[1..] + Sextets(rest));
    }
  }

  lemma PaddingIsSkipped(bytes: nat)
    ensures Sextets(Padding(bytes)) == []
  {
    assert "="[1..] == "" && "=="[1..] == "=";
  }

  lemma Triple(a: Byte, b: Byte, c: Byte)
    ensures First(a / 4, a % 4 * 16 + b / 16) == a
    ensures Second(a % 4 * 16 + b / 16, b % 16 * 4 + c / 64) == b
    ensures Third(b % 16 * 4 + c / 64, c % 64) == c
  {
  }

  lemma {:induction false} GatherSplit(bs: seq<Byte>)
    ensures Gather(Split(bs)) == bs
  {
    if |bs| == 1 {
      assert bs == [bs[0]];
    } else if |bs| == 2 {
      assert bs == [bs[0], bs[1]];
    } else if |bs| > 2 {
      GatherSplit(bs[3..]);
      Triple(bs[0], bs[1], bs[2]);
      assert Split(bs)[4..] == Split(bs[3..]);
      assert bs == [bs[0], bs[1], bs[2]] + bs[3..];
    }
  }

  // Reading gives back any bytes that were written.
  lemma Base64RoundTrip(bs: seq<Byte>)
    ensures Decode64(Encode64(bs)) == bs
  {
    SextetsOfLetters(Split(bs), Padding(|bs|));
    PaddingIsSkipped(|bs|);
    GatherSplit(bs);
    assert Split(bs) + [] == Split(bs);
  }

  predicate InAlphabet(c: char) {
    Sextet(c).Some? || c == '='
  }

  lemma {:induction false} LettersInAlphabet(ns: seq<Digit>)
    ensures forall c <- Letters(ns) :: InAlphabet(c)
  {
    if ns != [] {
      SextetOfLetter(ns[0]);
      LettersInAlphabet(ns[1..]);
    }
  }

  lemma EncodedInAlphabet(bs: seq<Byte>)
    ensures forall c <- Encode64(bs) :: InAlphabet(c)
  {
    LettersInAlphabet(Split(bs));
  }
}
