/** UTF-8 (RFC 3629 section 3) on Unicode scalar values. */
module Utf8 {
  import opened Common

  type Byte = b: int | 0 <= b < 256

  function EncodeChar(c: char): (r: seq<Byte>)
    ensures 1 <= |r| <= 4
    ensures c as int < 0x80 <==> |r| == 1
  {
    var n := c as int;
    if n < 0x80 then [n]
    else if n < 0x800 then [0xC0 + n / 64, 0x80 + n % 64]
    else if n < 0x10000 then [0xE0 + n / 4096, 0x80 + n / 64 % 64, 0x80 + n % 64]
    else [0xF0 + n / 262144, 0x80 + n / 4096 % 64, 0x80 + n / 64 % 64, 0x80 + n % 64]
  }

  function Encode(s: string): seq<Byte> {
    if s == "" then [] else EncodeChar(s[0]) + Encode(s[1..])
  }

  // How many bytes a first byte announces; none for a byte that cannot be first.
  function Width(b: Byte): nat {
    if b < 0x80 then 1
    else if 0xC2 <= b <= 0xDF then 2
    else if 0xE0 <= b <= 0xEF then 3
    else if 0xF0 <= b <= 0xF4 then 4
    else 0
  }

  predicate Continues(b: Byte) {
    0x80 <= b < 0xC0
  }

  predicate IsScalar(n: int) {
    0 <= n < 0xD800 || 0xE000 <= n < 0x110000
  }

  // A byte without its mark.
  function Bits(b: int, mark: int): int {
    b - mark
  }

  // One character from exactly its bytes: no overlong form, no surrogate.
  function DecodeChar(bs: seq<Byte>): Option<char>
    requires bs != [] && |bs| == Width(bs[0])
  {
    if |bs| == 1 then Some(bs[0] as char)
    else if !(forall i :: 1 <= i < |bs| ==> Continues(bs[i])) then None
    else
      var n :=
        if |bs| == 2 then Bits(bs[0], 0xC0) * 64 + Bits(bs[1], 0x80)
        else if |bs| == 3 then Bits(bs[0], 0xE0) * 4096 + Bits(bs[1], 0x80) * 64 + Bits(bs[2], 0x80)
        else Bits(bs[0], 0xF0) * 262144 + Bits(bs[1], 0x80) * 4096 + Bits(bs[2], 0x80) * 64 + Bits(bs[3], 0x80);
      if (|bs| == 3 && n < 0x800) || (|bs| == 4 && n < 0x10000) || !IsScalar(n) then None else Some(n as char)
  }

  // The strict decoder, which refuses what is not UTF-8.
  function Decode(bs: seq<Byte>): Option<string> {
    if bs == [] then Some("")
    else
      var w := Width(bs[0]);
      if w == 0 || w > |bs| then None
      else
        var c, rest := DecodeChar(bs[..w]), Decode(bs[w..]);
        if c.None? || rest.None? then None else Some([c.value] + rest.value)
  }

  lemma CharRoundTrip(c: char)
    ensures Width(EncodeChar(c)[0]) == |EncodeChar(c)|
    ensures DecodeChar(EncodeChar(c)) == Some(c)
  {
    var n := c as int;
    if n < 0x800 {
      TwoBytes(n);
    } else if n < 0x10000 {
      ThreeBytes(n);
    } else {
      FourBytes(n);
    }
  }

  lemma TwoBytes(n: nat)
    requires n < 0x800
    ensures n == n / 64 * 64 + n % 64
  {
  }

  lemma ThreeBytes(n: nat)
    requires n < 0x10000
    ensures n == n / 4096 * 4096 + n / 64 % 64 * 64 + n % 64
  {
    assert n / 64 == n / 4096 * 64 + n / 64 % 64;
  }

  lemma FourBytes(n: nat)
    requires n < 0x110000
    ensures n == n / 262144 * 262144 + n / 4096 % 64 * 4096 + n / 64 % 64 * 64 + n % 64
  {
    assert n / 4096 == n / 262144 * 64 + n / 4096 % 64;
    assert n / 64 == n / 4096 * 64 + n / 64 % 64;
  }

  lemma CharIsCanonical(bs: seq<Byte>)
    requires bs != [] && |bs| == Width(bs[0]) && DecodeChar(bs).Some?
    ensures EncodeChar(DecodeChar(bs).value) == bs
  {
    var n := DecodeChar(bs).value as int;
    if |bs| == 3 {
      Digits3(bs[0] - 0xE0, bs[1] - 0x80, bs[2] - 0x80);
    } else if |bs| == 4 {
      Digits4(bs[0] - 0xF0, bs[1] - 0x80, bs[2] - 0x80, bs[3] - 0x80);
    }
  }

  lemma Digits3(a: nat, b: nat, c: nat)
    requires b < 64 && c < 64
    ensures var n := a * 4096 + b * 64 + c; n / 4096 == a && n / 64 % 64 == b && n % 64 == c
  {
    assert (a * 4096 + b * 64 + c) / 64 == a * 64 + b;
  }

  lemma Digits4(a: nat, b: nat, c: nat, d: nat)
    requires b < 64 && c < 64 && d < 64
    ensures var n := a * 262144 + b * 4096 + c * 64 + d;
      n / 262144 == a && n / 4096 % 64 == b && n / 64 % 64 == c && n % 64 == d
  {
    assert (a * 262144 + b * 4096 + c * 64 + d) / 64 == a * 4096 + b * 64 + c;
    assert (a * 262144 + b * 4096 + c * 64 + d) / 4096 == a * 64 + b;
  }

  lemma {:induction false} DecodeEncode(s: string)
    ensures Decode(Encode(s)) == Some(s)
  {
    if s != "" {
      CharRoundTrip(s[0]);
      DecodeEncode(s[1..]);
      var bs, w := Encode(s), |EncodeChar(s[0])|;
      assert bs[..w] == EncodeChar(s[0]) && bs[w..] == Encode(s[1..]);
      assert bs[0] == EncodeChar(s[0])[0];
      assert s == [s[0]] + s[1..];
    }
  }

  lemma {:induction false} EncodeDecode(bs: seq<Byte>)
    requires Decode(bs).Some?
    ensures Encode(Decode(bs).value) == bs
  {
    if bs != [] {
      var w := Width(bs[0]);
      CharIsCanonical(bs[..w]);
      EncodeDecode(bs[w..]);
      var s := Decode(bs).value;
      assert s[1..] == Decode(bs[w..]).value;
    }
  }
}
