/**
 * Percent-encoding (RFC 3986 section 2.1): encodeURIComponent and
 * decodeURIComponent, and the form encoding of URLSearchParams.
 */
module Percent {
  import opened Common
  import opened Text
  import opened Utf8

  // ── Escapes ──────────────────────────────────────────────────────────────

  function HexDigit(n: nat): (c: char)
    requires n < 16
  {
    if n < 10 then '0' + n as char else 'A' + (n - 10) as char
  }

  function HexValue(c: char): (r: Option<nat>)
    ensures r.Some? ==> r.value < 16
  {
    if '0' <= c <= '9' then Some(c as int - '0' as int)
    else if 'A' <= c <= 'F' then Some(c as int - 'A' as int + 10)
    else if 'a' <= c <= 'f' then Some(c as int - 'a' as int + 10)
    else None
  }

  function Escape(b: Byte): (r: string)
    ensures |r| == 3
  {
    ['%', HexDigit(b / 16), HexDigit(b % 16)]
  }

  function Escapes(bs: seq<Byte>): (r: string)
    ensures |r| == 3 * |bs|
  {
    if bs == [] then "" else Escape(bs[0]) + Escapes(bs[1..])
  }

  // The byte of an escape at the start of a text.
  function ReadEscape(s: string): Option<Byte> {
    if |s| < 3 || s[0] != '%' then None
    else
      var hi, lo := HexValue(s[1]), HexValue(s[2]);
      if hi.None? || lo.None? then None else Some(hi.value * 16 + lo.value)
  }

  lemma ReadEscaped(b: Byte, rest: string)
    ensures ReadEscape(Escape(b) + rest) == Some(b)
    ensures (Escape(b) + rest)[3..] == rest
  {
    assert b == b / 16 * 16 + b % 16;
  }

  // n escapes in a row.
  function ReadEscapes(s: string, n: nat): (r: Option<seq<Byte>>)
    ensures r.Some? ==> |r.value| == n && 3 * n <= |s|
  {
    if n == 0 then Some([])
    else
      var b := ReadEscape(s);
      if b.None? then None
      else
        var rest := ReadEscapes(s[3..], n - 1);
        if rest.None? then None else Some([b.value] + rest.value)
  }

  lemma EscapesHead(bs: seq<Byte>, rest: string)
    requires bs != []
    ensures Escapes(bs) + rest == Escape(bs[0]) + (Escapes(bs[1..]) + rest)
    ensures ReadEscape(Escapes(bs) + rest) == Some(bs[0])
    ensures (Escapes(bs) + rest)[3..] == Escapes(bs[1..]) + rest
  {
    ReadEscaped(bs[0], Escapes(bs[1..]) + rest);
  }

  lemma {:induction false} ReadEscapesOf(bs: seq<Byte>, rest: string)
    ensures ReadEscapes(Escapes(bs) + rest, |bs|) == Some(bs)
  {
    if bs != [] {
      EscapesHead(bs, rest);
      ReadEscapesOf(bs[1..], rest);
      assert bs == [bs[0]] + bs[1..];
    }
  }

  lemma BehindEscapes(bs: seq<Byte>, rest: string)
    ensures (Escapes(bs) + rest)[3 * |bs|..] == rest
  {
  }

  // ── encodeURIComponent, decodeURIComponent ───────────────────────────────

  predicate IsAlnum(c: char) {
    'a' <= c <= 'z' || 'A' <= c <= 'Z' || '0' <= c <= '9'
  }

  predicate Unreserved(c: char) {
    IsAlnum(c) || c == '-' || c == '_' || c == '.' || c == '!' || c == '~' || c == '*' || c == '\'' || c == '('
      || c == ')'
  }

  function EncodeOne(c: char): string {
    if Unreserved(c) then [c] else Escapes(EncodeChar(c))
  }

  function EncodeComponent(s: string): string {
    if s == "" then "" else EncodeOne(s[0]) + EncodeComponent(s[1..])
  }

  // None where the original throws.
  function DecodeComponent(s: string): Option<string> {
    if s == "" then Some("")
    else if s[0] != '%' then
      var rest := DecodeComponent(s[1..]);
      if rest.None? then None else Some([s[0]] + rest.value)
    else
      var first := ReadEscape(s);
      if first.None? || Width(first.value) == 0 then None
      else
        var w := Width(first.value);
        var bs := ReadEscapes(s, w);
        if bs.None? then None
        else
          assert bs.value[0] == first.value;
          var c, rest := DecodeChar(bs.value), DecodeComponent(s[3 * w..]);
          if c.None? || rest.None? then None else Some([c.value] + rest.value)
  }

  lemma DecodeOne(c: char, rest: string)
    ensures DecodeComponent(rest).Some? ==>
      DecodeComponent(EncodeOne(c) + rest) == Some([c] + DecodeComponent(rest).value)
  {
    var s := EncodeOne(c) + rest;
    if Unreserved(c) {
      assert s[0] == c && c != '%' && s[1..] == rest;
    } else {
      CharRoundTrip(c);
      EscapesHead(EncodeChar(c), rest);
      ReadEscapesOf(EncodeChar(c), rest);
      BehindEscapes(EncodeChar(c), rest);
    }
  }

  lemma {:induction false} ComponentRoundTrip(s: string)
    ensures DecodeComponent(EncodeComponent(s)) == Some(s)
  {
    if s != "" {
      ComponentRoundTrip(s[1..]);
      DecodeOne(s[0], EncodeComponent(s[1..]));
      assert s == [s[0]] + s[1..];
    }
  }

  // What an encoded text is made of: no mark that separates parts of a URI.
  predicate Plain(c: char) {
    Unreserved(c) || c == '%'
  }

  lemma EscapeIsPlain(bs: seq<Byte>)
    ensures forall c <- Escapes(bs) :: IsAlnum(c) || c == '%'
  {
    if bs != [] {
      EscapeIsPlain(bs[1..]);
      assert forall c <- Escape(bs[0]) :: IsAlnum(c) || c == '%';
    }
  }

  lemma {:induction false} EncodedIsPlain(s: string)
    ensures forall c <- EncodeComponent(s) :: Plain(c)
    ensures EncodeComponent(s) == "" <==> s == ""
  {
    if s != "" {
      EncodedIsPlain(s[1..]);
      EscapeIsPlain(EncodeChar(s[0]));
    }
  }

  // ── URLSearchParams ──────────────────────────────────────────────────────

  predicate FormKept(c: char) {
    IsAlnum(c) || c == '*' || c == '-' || c == '.' || c == '_'
  }

  function FormOne(c: char): string {
    if FormKept(c) then [c] else if c == ' ' then "+" else Escapes(EncodeChar(c))
  }

  function FormEncode(s: string): string {
    if s == "" then "" else FormOne(s[0]) + FormEncode(s[1..])
  }

  // The bytes of a form value; a stray percent sign stands for itself.
  function FormBytes(s: string): seq<Byte> {
    if s == "" then []
    else if s[0] == '+' then [0x20] + FormBytes(s[1..])
    else
      var b := ReadEscape(s);
      if b.Some? then [b.value] + FormBytes(s[3..]) else EncodeChar(s[0]) + FormBytes(s[1..])
  }

  // repair is what the platform makes of bytes that are not UTF-8.
  function Repaired(bs: seq<Byte>, repair: seq<Byte> -> string): string {
    var s := Decode(bs);
    if s.Some? then s.value else repair(bs)
  }

  function FormDecode(s: string, repair: seq<Byte> -> string): string {
    Repaired(FormBytes(s), repair)
  }

  lemma {:induction false} FormBytesOfEscapes(bs: seq<Byte>, rest: string)
    ensures FormBytes(Escapes(bs) + rest) == bs + FormBytes(rest)
  {
    if bs == [] {
      assert Escapes(bs) + rest == rest;
    } else {
      EscapesHead(bs, rest);
      FormBytesOfEscapes(bs[1..], rest);
      assert bs + FormBytes(rest) == [bs[0]] + (bs[1..] + FormBytes(rest));
    }
  }

  lemma FormBytesOfOne(c: char, rest: string)
    ensures FormBytes(FormOne(c) + rest) == EncodeChar(c) + FormBytes(rest)
  {
    if FormKept(c) || c == ' ' {
      assert (FormOne(c) + rest)[1..] == rest;
    } else {
      FormBytesOfEscapes(EncodeChar(c), rest);
    }
  }

  lemma {:induction false} FormBytesOfEncoded(s: string)
    ensures FormBytes(FormEncode(s)) == Encode(s)
  {
    if s != "" {
      FormBytesOfOne(s[0], FormEncode(s[1..]));
      FormBytesOfEncoded(s[1..]);
    }
  }

  lemma FormRoundTrip(s: string, repair: seq<Byte> -> string)
    ensures FormDecode(FormEncode(s), repair) == s
  {
    FormBytesOfEncoded(s);
    DecodeEncode(s);
  }

  predicate FormPlain(c: char) {
    FormKept(c) || c == '+' || c == '%'
  }

  lemma {:induction false} FormIsPlain(s: string)
    ensures forall c <- FormEncode(s) :: FormPlain(c)
  {
    if s != "" {
      FormIsPlain(s[1..]);
      EscapeIsPlain(EncodeChar(s[0]));
    }
  }

  type Params = seq<(string, string)>

  function Pair(p: (string, string)): string {
    FormEncode(p.0) + "=" + FormEncode(p.1)
  }

  function Serialize(ps: Params): string {
    if ps == [] then "" else if |ps| == 1 then Pair(ps[0]) else Pair(ps[0]) + "&" + Serialize(ps[1..])
  }

  function ParsePair(piece: string, repair: seq<Byte> -> string): (string, string) {
    var i := IndexOf(piece, '=');
    if i < 0 then (FormDecode(piece, repair), "")
      else (FormDecode(piece[..i], repair), FormDecode(piece[i + 1..], repair))
  }

  function ParsePieces(s: string, repair: seq<Byte> -> string): Params {
    var i := IndexOf(s, '&');
    var piece := if i < 0 then s else s[..i];
    (if piece == "" then [] else [ParsePair(piece, repair)]) + if i < 0 then [] else ParsePieces(s[i + 1..], repair)
  }

  // new URLSearchParams(query)
  function ParseQuery(query: string, repair: seq<Byte> -> string): Params {
    ParsePieces(if query != "" && query[0] == '?' then query[1..] else query, repair)
  }

  lemma PairIsPlain(p: (string, string))
    ensures forall c <- Pair(p) :: FormPlain(c) || c == '='
    ensures Pair(p) != ""
  {
    FormIsPlain(p.0);
    FormIsPlain(p.1);
  }

  lemma PairRoundTrip(p: (string, string), repair: seq<Byte> -> string)
    ensures ParsePair(Pair(p), repair) == p
  {
    FormIsPlain(p.0);
    FormRoundTrip(p.0, repair);
    FormRoundTrip(p.1, repair);
    IndexOfFirst(FormEncode(p.0), '=', FormEncode(p.1));
    var s, i := Pair(p), |FormEncode(p.0)|;
    assert s == FormEncode(p.0) + ['='] + FormEncode(p.1);
    assert s[..i] == FormEncode(p.0) && s[i + 1..] == FormEncode(p.1);
  }

  lemma NotIn(s: string, c: char)
    requires c !in s
    ensures IndexOf(s, c) == -1
  {
    assert forall k :: 0 <= k < |s| ==> s[k] in s;
  }

  lemma PairFacts(p: (string, string), repair: seq<Byte> -> string)
    ensures Pair(p) != "" && '&' !in Pair(p) && ParsePair(Pair(p), repair) == p
  {
    PairIsPlain(p);
    PairRoundTrip(p, repair);
  }

  lemma PieceFirst(piece: string, rest: string, repair: seq<Byte> -> string)
    requires piece != "" && '&' !in piece
    ensures ParsePieces(piece + "&" + rest, repair) == [ParsePair(piece, repair)] + ParsePieces(rest, repair)
  {
    var s := piece + "&" + rest;
    IndexOfFirst(piece, '&', rest);
    assert s == piece + ['&'] + rest;
    assert s[..|piece|] == piece && s[|piece| + 1..] == rest;
  }

  lemma PieceAlone(piece: string, repair: seq<Byte> -> string)
    requires piece != "" && '&' !in piece
    ensures ParsePieces(piece, repair) == [ParsePair(piece, repair)]
  {
    NotIn(piece, '&');
  }

  lemma MorePieces(ps: Params, repair: seq<Byte> -> string)
    requires |ps| > 1 && ParsePieces(Serialize(ps[1..]), repair) == ps[1..]
    ensures ParsePieces(Serialize(ps), repair) == ps
  {
    var piece, rest := Pair(ps[0]), Serialize(ps[1..]);
    PairFacts(ps[0], repair);
    PieceFirst(piece, rest, repair);
    assert ParsePieces(piece + "&" + rest, repair) == [ps[0]] + ps[1..];
  }

  lemma {:induction false} PiecesRoundTrip(ps: Params, repair: seq<Byte> -> string)
    ensures ParsePieces(Serialize(ps), repair) == ps
  {
    if ps == [] {
      NotIn("", '&');
    } else {
      if |ps| == 1 {
        PairFacts(ps[0], repair);
        PieceAlone(Pair(ps[0]), repair);
        assert ps == [ps[0]];
      } else {
        PiecesRoundTrip(ps[1..], repair);
        MorePieces(ps, repair);
      }
    }
  }

  // Any list of names and values survives, whatever characters it holds.
  lemma QueryRoundTrip(ps: Params, repair: seq<Byte> -> string)
    ensures ParseQuery(Serialize(ps), repair) == ps
  {
    PiecesRoundTrip(ps, repair);
    NoQuestionMark(ps);
  }

  lemma NoQuestionMark(ps: Params)
    ensures Serialize(ps) != "" ==> Serialize(ps)[0] != '?'
  {
    SerializedIsPlain(ps);
    assert Serialize(ps) != "" ==> Serialize(ps)[0] in Serialize(ps);
  }

  lemma {:induction false} SerializedIsPlain(ps: Params)
    ensures forall c <- Serialize(ps) :: FormPlain(c) || c == '=' || c == '&'
    ensures Serialize(ps) == "" <==> ps == []
  {
    if ps != [] {
      PairIsPlain(ps[0]);
      SerializedIsPlain(ps[1..]);
    }
  }

  // get: the first value of a name.
  function Get(ps: Params, name: string): Option<string> {
    if ps == [] then None else if ps[0].0 == name then Some(ps[0].1) else Get(ps[1..], name)
  }

  // set: the first value is replaced, further ones are dropped; a new name goes last.
  function Set(ps: Params, name: string, value: string): Params {
    if ps == [] then [(name, value)]
    else if ps[0].0 == name then [(name, value)] + Drop(ps[1..], name)
    else [ps[0]] + Set(ps[1..], name, value)
  }

  function Drop(ps: Params, name: string): Params {
    if ps == [] then [] else (if ps[0].0 == name then [] else [ps[0]]) + Drop(ps[1..], name)
  }

  lemma {:induction false} GetAfterDrop(ps: Params, name: string, other: string)
    ensures Get(Drop(ps, name), other) == if other == name then None else Get(ps, other)
  {
    if ps != [] {
      GetAfterDrop(ps[1..], name, other);
      var rest := Drop(ps[1..], name);
      assert Drop(ps, name) == if ps[0].0 == name then rest else [ps[0]] + rest;
      assert ([ps[0]] + rest)[1..] == rest;
    }
  }

  lemma {:induction false} GetAfterSet(ps: Params, name: string, value: string, other: string)
    ensures Get(Set(ps, name, value), other) == if other == name then Some(value) else Get(ps, other)
  {
    if ps != [] {
      GetAfterSet(ps[1..], name, value, other);
      GetAfterDrop(ps[1..], name, other);
      assert ([(name, value)] + Drop(ps[1..], name))[1..] == Drop(ps[1..], name);
      assert ([ps[0]] + Set(ps[1..], name, value))[1..] == Set(ps[1..], name, value);
    }
  }
}
