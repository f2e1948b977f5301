/**
The specifier codec: how a virtual module id and its version travel in a URL,
and how the id is recovered from it.

A Rust string is its UTF-8 bytes; here a byte string is a `string` whose
characters are all below 256, one character per byte.
*/
module Specifier {
  import opened Options

  predicate Bytes(s: string) {
    forall i :: 0 <= i < |s| ==> s[i] as int < 256
  }

  // ---------------------------------------------------------- percent encoding

  /** The unreserved characters of section 2.3 of RFC 3986. */
  predicate Unreserved(c: char) {
    'A' <= c <= 'Z' || 'a' <= c <= 'z' || '0' <= c <= '9' || c == '-' || c == '_' || c == '.' || c == '~'
  }

  function HexDigit(n: int): (c: char)
    requires 0 <= n < 16
    ensures '0' <= c <= '9' || 'A' <= c <= 'F'
    ensures HexValue(c) == Some(n)
  {
    if n < 10 then ('0' as int + n) as char else ('A' as int + n - 10) as char
  }

  function HexValue(c: char): Option<int> {
    if '0' <= c <= '9' then Some(c as int - '0' as int)
    else if 'A' <= c <= 'F' then Some(c as int - 'A' as int + 10)
    else if 'a' <= c <= 'f' then Some(c as int - 'a' as int + 10)
    else None
  }

  /** The digits are the usual ones, capital or not, and nothing else is one. */
  lemma HexDigitsAre(n: int, c: char)
    requires 0 <= n < 16
    ensures HexDigit(n) == "0123456789ABCDEF"[n]
    ensures HexValue("0123456789ABCDEF"[n]) == HexValue("0123456789abcdef"[n]) == Some(n)
    ensures HexValue(c).Some? <==> c in "0123456789ABCDEFabcdef"
  {
  }

  /** The unreserved characters by code point, as section 2 of RFC 3986 lists them. */
  lemma UnreservedAre(c: char)
    ensures var n := c as int;
            Unreserved(c) <==> 0x41 <= n <= 0x5A || 0x61 <= n <= 0x7A || 0x30 <= n <= 0x39 || n in {0x2D, 0x2E, 0x5F, 0x7E}
  {
  }

  function EncodeByte(c: char): string
    requires c as int < 256
  {
    if Unreserved(c) then [c] else ['%', HexDigit(c as int / 16), HexDigit(c as int % 16)]
  }

  function Encode(s: string): string
    requires Bytes(s)
  {
    if s == "" then "" else EncodeByte(s[0]) + Encode(s[1..])
  }

  method PercentEncode(s: string) returns (out: string)
    requires Bytes(s)
    ensures out == Encode(s)
  {
    hide HexDigit, Unreserved;
    out := "";
    for i := 0 to |s|
      invariant out == Encode(s[..i])
    {
      EncodeSnoc(s[..i], s[i]);
      assert s[..i + 1] == s[..i] + [s[i]];
      if Unreserved(s[i]) {
        out := out + [s[i]];
      } else {
        out := out + ['%', HexDigit(s[i] as int / 16), HexDigit(s[i] as int % 16)];
      }
    }
    assert s[..|s|] == s;
  }

  lemma {:induction false} EncodeSnoc(s: string, c: char)
    requires Bytes(s) && c as int < 256
    ensures Encode(s + [c]) == Encode(s) + EncodeByte(c)
  {
    hide EncodeByte;
    if s == "" {
      assert s + [c] == [c] && [c][1..] == "";
    } else {
      assert (s + [c])[1..] == s[1..] + [c];
      EncodeSnoc(s[1..], c);
    }
  }

  // ---------------------------------------------------------- percent decoding

  /** Parsing two characters as a number in base 16: two digits, or a plus sign
      and one digit. */
  function ParseHex(a: char, b: char): Option<char> {
    match (HexValue(a), HexValue(b))
    case (Some(x), Some(y)) => Some((x * 16 + y) as char)
    case (None, Some(y)) => if a == '+' then Some(y as char) else None
    case _ => None
  }

  /** A plus sign is taken for a leading zero. */
  lemma PlusSignIsTaken(n: int)
    requires 0 <= n < 16
    ensures ParseHex('+', HexDigit(n)) == ParseHex('0', HexDigit(n)) == Some(n as char)
  {
  }

  /** Where the UTF-8 text may be cut: not before a continuation byte. */
  predicate CharBoundary(s: string, i: int)
    requires 0 <= i <= |s|
  {
    i == |s| || !(0x80 <= s[i] as int < 0xC0)
  }

  /** A cut is bad exactly before a byte whose two high bits are 10. */
  lemma BoundaryByHighBits(s: string, i: int)
    requires 0 <= i < |s| && s[i] as int < 256
    ensures CharBoundary(s, i) <==> s[i] as int / 64 != 2
  {
  }

  /** The two characters after a `%` cannot be cut out of the text. */
  predicate BadCut(s: string, i: int) {
    0 <= i && i + 2 < |s| && s[i] == '%' && !(CharBoundary(s, i + 1) && CharBoundary(s, i + 3))
  }

  /** The length of the triplet at `i` and the byte it stands for. */
  function Triplet(s: string, i: int): Option<char>
    requires 0 <= i < |s|
  {
    if s[i] == '%' && i + 2 < |s| then ParseHex(s[i + 1], s[i + 2]) else None
  }

  /** The bytes from `i` on; None where `percent_decode` panics on a bad cut. */
  function DecodeFrom(s: string, i: int): Option<string>
    requires 0 <= i <= |s|
    decreases |s| - i
  {
    if i == |s| then Some("")
    else if BadCut(s, i) then None
    else if Triplet(s, i).Some? then
      var rest := DecodeFrom(s, i + 3);
      if rest.Some? then Some([Triplet(s, i).value] + rest.value) else None
    else
      var rest := DecodeFrom(s, i + 1);
      if rest.Some? then Some([s[i]] + rest.value) else None
  }

  method PercentDecode(s: string) returns (out: Option<string>)
    ensures out == DecodeFrom(s, 0)
  {
    var buffer, i := "", 0;
    assert DecodeFrom(s, 0).Some? ==> "" + DecodeFrom(s, 0).value == DecodeFrom(s, 0).value;
    while i < |s|
      invariant 0 <= i <= |s|
      invariant DecodeFrom(s, 0) == var rest := DecodeFrom(s, i); if rest.Some? then Some(buffer + rest.value) else None
    {
      if s[i] == '%' && i + 2 < |s| {
        if !(CharBoundary(s, i + 1) && CharBoundary(s, i + 3)) {
          return None;
        }
        var b := ParseHex(s[i + 1], s[i + 2]);
        if b.Some? {
          ghost var rest := DecodeFrom(s, i + 3);
          assert rest.Some? ==> buffer + ([b.value] + rest.value) == buffer + [b.value] + rest.value;
          buffer, i := buffer + [b.value], i + 3;
          continue;
        }
      }
      ghost var rest := DecodeFrom(s, i + 1);
      assert rest.Some? ==> buffer + ([s[i]] + rest.value) == buffer + [s[i]] + rest.value;
      buffer, i := buffer + [s[i]], i + 1;
    }
    assert buffer + "" == buffer;
    return Some(buffer);
  }

  // ---------------------------------------------------------------- round trip

  lemma EncodeByteSafe(c: char)
    requires c as int < 256
    ensures forall i :: 0 <= i < |EncodeByte(c)| ==> Unreserved(EncodeByte(c)[i]) || EncodeByte(c)[i] == '%'
  {
  }

  /** Everything encoded is unreserved characters and percent signs. */
  lemma {:induction false} EncodeSafe(s: string)
    requires Bytes(s)
    ensures forall i :: 0 <= i < |Encode(s)| ==> Unreserved(Encode(s)[i]) || Encode(s)[i] == '%'
  {
    if s != "" {
      EncodeByteSafe(s[0]);
      EncodeSafe(s[1..]);
    }
  }

  lemma DecodeOneByte(c: char, rest: string)
    requires c as int < 256
    requires forall i :: 0 <= i < |rest| ==> Unreserved(rest[i]) || rest[i] == '%'
    ensures var t := EncodeByte(c) + rest;
            !BadCut(t, 0) && Triplet(t, 0) == (if Unreserved(c) then None else Some(c))
  {
    var t := EncodeByte(c) + rest;
    if !Unreserved(c) {
      assert t[0] == '%' && t[1] == HexDigit(c as int / 16) && t[2] == HexDigit(c as int % 16);
    }
  }

  lemma {:induction false} DecodeShift(a: string, b: string, i: int)
    requires 0 <= i <= |b|
    ensures DecodeFrom(a + b, |a| + i) == DecodeFrom(b, i)
    decreases |b| - i
  {
    if i < |b| {
      assert (a + b)[|a| + i] == b[i];
      if i + 2 < |b| {
        assert (a + b)[|a| + i + 1] == b[i + 1] && (a + b)[|a| + i + 2] == b[i + 2];
        assert i + 3 < |b| ==> (a + b)[|a| + i + 3] == b[i + 3];
        DecodeShift(a, b, i + 3);
      }
      assert BadCut(a + b, |a| + i) == BadCut(b, i);
      DecodeShift(a, b, i + 1);
    }
  }

  /** Decoding undoes encoding, on every byte string. */
  lemma {:induction false} DecodeUndoesEncode(s: string)
    requires Bytes(s)
    ensures DecodeFrom(Encode(s), 0) == Some(s)
  {
    if s != "" {
      var head, tail := EncodeByte(s[0]), Encode(s[1..]);
      DecodeUndoesEncode(s[1..]);
      EncodeSafe(s[1..]);
      DecodeOneByte(s[0], tail);
      DecodeShift(head, tail, 0);
      assert [s[0]] + s[1..] == s;
    }
  }

  // ------------------------------------------------------ when decoding panics

  /** Decoding panics exactly when some percent sign has two bytes after it that
      cannot be cut out of the text as characters of their own. */
  lemma {:induction false} PanicsIffBadCut(s: string, i: int)
    requires 0 <= i <= |s|
    ensures DecodeFrom(s, i) == None <==> exists j :: i <= j && BadCut(s, j)
    decreases |s| - i
  {
    if i < |s| && !BadCut(s, i) {
      if Triplet(s, i).Some? {
        PanicsIffBadCut(s, i + 3);
        assert !BadCut(s, i + 1) && !BadCut(s, i + 2);
      } else {
        PanicsIffBadCut(s, i + 1);
      }
    }
  }

  /** ASCII text, such as the path of a parsed URL, can be cut anywhere. */
  lemma AsciiNeverPanics(s: string)
    requires forall i :: 0 <= i < |s| ==> s[i] as int < 128
    ensures DecodeFrom(s, 0).Some?
  {
    PanicsIffBadCut(s, 0);
  }

  /** What is no triplet is kept as it stands, wherever it is. */
  lemma {:induction false} NoTripletsNoChange(s: string, i: int)
    requires 0 <= i <= |s| && forall j :: i <= j < |s| ==> Triplet(s, j).None? && !BadCut(s, j)
    ensures DecodeFrom(s, i) == Some(s[i..])
    decreases |s| - i
  {
    if i < |s| {
      NoTripletsNoChange(s, i + 1);
      assert [s[i]] + s[i + 1..] == s[i..];
    }
  }

  /** A percent sign and two digits, capital or not, become the byte they number. */
  lemma TripletDecodes(a: char, b: char, rest: string)
    requires HexValue(a).Some? && HexValue(b).Some? && CharBoundary(rest, 0) && DecodeFrom(rest, 0).Some?
    ensures DecodeFrom("%" + [a, b] + rest, 0) == Some([(16 * HexValue(a).value + HexValue(b).value) as char] + DecodeFrom(rest, 0).value)
  {
    var s := "%" + [a, b] + rest;
    assert s[0] == '%' && s[1] == a && s[2] == b && (rest != "" ==> s[3] == rest[0]);
    DecodeShift("%" + [a, b], rest, 0);
  }

  /** `%a` before a two-byte character: the cut falls inside that character. */
  lemma PanicExample()
    ensures DecodeFrom("%a\U{00C3}\U{00A9}", 0) == None
  {
    assert BadCut("%a\U{00C3}\U{00A9}", 0);
  }

  // -------------------------------------------------------------- the specifier

  function Decimal(n: nat): string {
    if n < 10 then [('0' as int + n) as char] else Decimal(n / 10) + [('0' as int + n % 10) as char]
  }

  function Number(s: string): int {
    if s == "" then 0 else Number(s[..|s| - 1]) * 10 + (s[|s| - 1] as int - '0' as int)
  }

  lemma {:induction false} NumberOfDecimal(n: nat)
    ensures Number(Decimal(n)) == n && Decimal(n) != ""
  {
    if n < 10 {
      assert Decimal(n)[..0] == "";
    } else {
      NumberOfDecimal(n / 10);
      assert Decimal(n)[..|Decimal(n)| - 1] == Decimal(n / 10);
    }
  }

  const PREFIX := "oj-ssr:///"

  /** The specifier of a virtual id at a version. */
  function SpecifierText(id: string, version: nat): string
    requires Bytes(id)
  {
    PREFIX + Encode(id) + "?v=" + Decimal(version)
  }

  /** One specifier, written out. */
  lemma SpecifierExample()
    ensures SpecifierText("a b", 12) == "oj-ssr:///a%20b?v=12"
  {
    assert "a b"[1..] == " b" && " b"[1..] == "b" && "b"[1..] == "";
    assert Encode("b") == "b" && Encode(" b") == "%20" + "b" && Encode("a b") == "a" + "%20b";
    assert Decimal(12) == Decimal(1) + "2";
  }

  /** The text up to the first `?`. */
  function BeforeQuery(s: string): string {
    if s == "" || s[0] == '?' then "" else [s[0]] + BeforeQuery(s[1..])
  }

  predicate Dot(s: string) {
    s == "." || s == "%2e" || s == "%2E"
  }

  /** The path segments a URL parser resolves away: one dot or two, encoded or not. */
  predicate DotSegment(seg: string) {
    || Dot(seg)
    || (|seg| > 1 && Dot(seg[..1]) && Dot(seg[1..]))
    || (|seg| > 3 && Dot(seg[..3]) && Dot(seg[3..]))
  }

  function TrimSlashes(s: string): string {
    if s != "" && s[0] == '/' then TrimSlashes(s[1..]) else s
  }

  /** The path of a one-segment URL of our scheme, as the URL parser gives it. */
  function UrlPath(spec: string): Option<string> {
    if PREFIX <= spec then
      var seg := BeforeQuery(spec[|PREFIX|..]);
      Some("/" + if DotSegment(seg) then "" else seg)
    else None
  }

  /** The id behind a virtual specifier; importer ids are recovered the same way. */
  function VirtualId(spec: string): Option<string> {
    match UrlPath(spec)
    case Some(path) => DecodeFrom(TrimSlashes(path), 0)
    case None => None
  }

  lemma {:induction false} BeforeQueryOf(seg: string, rest: string)
    requires '?' !in seg
    ensures BeforeQuery(seg + "?" + rest) == seg
  {
    if seg == "" {
      assert (seg + "?" + rest)[0] == '?';
    } else {
      assert (seg + "?" + rest)[0] == seg[0] && (seg + "?" + rest)[1..] == seg[1..] + "?" + rest;
      BeforeQueryOf(seg[1..], rest);
    }
  }

  lemma SegmentOf(id: string, version: nat)
    requires Bytes(id)
    ensures PREFIX <= SpecifierText(id, version)
    ensures BeforeQuery(SpecifierText(id, version)[|PREFIX|..]) == Encode(id)
  {
    EncodeSafe(id);
    var tail := "v=" + Decimal(version);
    assert SpecifierText(id, version)[|PREFIX|..] == Encode(id) + "?" + tail;
    BeforeQueryOf(Encode(id), tail);
  }

  lemma EncodedDotSegment(id: string)
    requires Bytes(id)
    ensures DotSegment(Encode(id)) <==> id == "." || id == ".."
  {
    if DotSegment(Encode(id)) {
      DecodeDots(Encode(id));
      DecodeUndoesEncode(id);
    }
    EncodeDots();
  }

  lemma EncodeDots()
    ensures Encode(".") == "." && Encode("..") == ".."
  {
    assert ".."[1..] == "." && "."[1..] == "";
  }

  lemma DecodeDot(dot: string, rest: string)
    requires Dot(dot) && (rest == "" || Dot(rest))
    ensures DecodeFrom(dot + rest, 0) == var r := DecodeFrom(rest, 0); if r.Some? then Some("." + r.value) else None
  {
    DecodeShift(dot, rest, 0);
    assert |dot| == 3 ==> ParseHex(dot[1], dot[2]) == Some('.');
  }

  lemma DecodeDots(seg: string)
    requires DotSegment(seg)
    ensures DecodeFrom(seg, 0) == Some(".") || DecodeFrom(seg, 0) == Some("..")
  {
    assert DecodeFrom("", 0) == Some("") && "." + "" == "." && "." + "." == "..";
    if Dot(seg) {
      DecodeDot(seg, "");
      assert seg + "" == seg;
    } else {
      var n := if Dot(seg[..1]) && Dot(seg[1..]) then 1 else 3;
      DecodeDot(seg[..n], seg[n..]);
      DecodeDot(seg[n..], "");
      assert seg == seg[..n] + seg[n..] && seg[n..] + "" == seg[n..];
    }
  }

  /** The id is recovered from its specifier exactly when it is not one of the
      two dot segments, which the URL parser resolves away. */
  lemma VirtualIdRecovers(id: string, version: nat)
    requires Bytes(id)
    ensures VirtualId(SpecifierText(id, version)) == Some(id) <==> id != "." && id != ".."
  {
    SegmentOf(id, version);
    EncodedDotSegment(id);
    DecodeUndoesEncode(id);
    EncodeSafe(id);
    var seg := Encode(id);
    if id == "." || id == ".." {
      assert TrimSlashes("/" + "") == "" by {
        assert ("/" + "")[1..] == "";
      }
    } else {
      assert ("/" + seg)[1..] == seg && TrimSlashes(seg) == seg;
    }
  }

  /** Distinct pairs of id and version have distinct specifiers. */
  lemma SpecifiersAreDistinct(id: string, version: nat, id': string, version': nat)
    requires Bytes(id) && Bytes(id')
    ensures SpecifierText(id, version) == SpecifierText(id', version') <==> id == id' && version == version'
  {
    if SpecifierText(id, version) == SpecifierText(id', version') {
      SegmentOf(id, version);
      SegmentOf(id', version');
      DecodeUndoesEncode(id);
      DecodeUndoesEncode(id');
      var head := PREFIX + Encode(id) + "?v=";
      assert SpecifierText(id, version)[|head|..] == Decimal(version);
      assert SpecifierText(id', version')[|head|..] == Decimal(version');
      NumberOfDecimal(version);
      NumberOfDecimal(version');
    }
  }
}
