// Percent-encoding of a URI component, as `encodeURIComponent` performs
// it (section 19.2.6.5 of ECMA-262): the characters A-Z a-z 0-9 and
// - _ . ! ~ * ' ( ) stay as they are, every other character becomes the
// %XX escapes of its UTF-8 bytes (RFC 3629), with upper-case hex digits.
// A decoder is given beside it as the partner of the round trip.

module UriEncoding {
  import opened Common

  predicate Unreserved(c: char)
  {
    ('A' <= c <= 'Z') || ('a' <= c <= 'z') || ('0' <= c <= '9')
    || c == '-' || c == '_' || c == '.' || c == '!' || c == '~'
    || c == '*' || c == '\'' || c == '(' || c == ')'
  }

  // ---------------------------------------------------------------------
  // UTF-8

  predicate IsByte(b: int) { 0 <= b < 256 }

  /** The UTF-8 bytes of a Unicode scalar value. */
  function Utf8(cp: nat): (r: seq<int>)
    requires cp < 0x110000
    ensures 1 <= |r| <= 4
    ensures forall i :: 0 <= i < |r| ==> IsByte(r[i])
    ensures forall i :: 1 <= i < |r| ==> 0x80 <= r[i] < 0xC0
  {
    if cp < 0x80 then [cp]
    else if cp < 0x800 then [0xC0 + cp / 64, 0x80 + cp % 64]
    else if cp < 0x10000 then [0xE0 + cp / 4096, 0x80 + cp / 64 % 64, 0x80 + cp % 64]
    else [0xF0 + cp / 262144, 0x80 + cp / 4096 % 64, 0x80 + cp / 64 % 64, 0x80 + cp % 64]
  }

  /** How many bytes a sequence starting with `b0` has; 0 when `b0` cannot
      start one. */
  function SequenceLength(b0: int): nat
  {
    if 0 <= b0 < 0x80 then 1
    else if 0xC0 <= b0 < 0xE0 then 2
    else if 0xE0 <= b0 < 0xF0 then 3
    else if 0xF0 <= b0 < 0xF8 then 4
    else 0
  }

  /** The scalar value that well-formed continuation bytes spell. */
  function Utf8Value(bs: seq<int>): int
    requires 1 <= |bs| <= 4
  {
    if |bs| == 1 then bs[0]
    else if |bs| == 2 then (bs[0] - 0xC0) * 64 + (bs[1] - 0x80)
    else if |bs| == 3 then (bs[0] - 0xE0) * 4096 + (bs[1] - 0x80) * 64 + (bs[2] - 0x80)
    else (bs[0] - 0xF0) * 262144 + (bs[1] - 0x80) * 4096 + (bs[2] - 0x80) * 64 + (bs[3] - 0x80)
  }

  lemma Utf8RoundTrip(cp: nat)
    requires cp < 0x110000
    ensures SequenceLength(Utf8(cp)[0]) == |Utf8(cp)|
    ensures Utf8Value(Utf8(cp)) == cp
  {
    var q1, r1 := cp / 64, cp % 64;
    assert cp == q1 * 64 + r1;
    var q2, r2 := q1 / 64, q1 % 64;
    assert q1 == q2 * 64 + r2;
    var q3, r3 := q2 / 64, q2 % 64;
    assert q2 == q3 * 64 + r3;
    assert cp / 4096 == q2 by {
      assert cp == q2 * 4096 + r2 * 64 + r1;
    }
    assert cp / 262144 == q3 by {
      assert cp == q3 * 262144 + r3 * 4096 + r2 * 64 + r1;
    }
  }

  // ---------------------------------------------------------------------
  // Percent escapes

  const HexDigits := "0123456789ABCDEF"

  function HexValue(c: char): Option<nat>
  {
    if '0' <= c <= '9' then Some(c as int - '0' as int)
    else if 'A' <= c <= 'F' then Some(c as int - 'A' as int + 10)
    else if 'a' <= c <= 'f' then Some(c as int - 'a' as int + 10)
    else None
  }

  lemma HexDigitValue(d: nat)
    requires d < 16
    ensures HexValue(HexDigits[d]) == Some(d)
  {
  }

  /** `%XX` for one byte. */
  function Escape(b: int): (r: string)
    requires IsByte(b)
    ensures |r| == 3 && r[0] == '%'
  {
    ['%', HexDigits[b / 16], HexDigits[b % 16]]
  }

  function Escapes(bs: seq<int>): (r: string)
    requires forall i :: 0 <= i < |bs| ==> IsByte(bs[i])
    ensures |r| == 3 * |bs|
  {
    if bs == [] then "" else Escape(bs[0]) + Escapes(bs[1..])
  }

  /** The byte written by the escape at position `i`, if there is one. */
  function ByteAt(s: string, i: nat): Option<int>
  {
    if i + 3 <= |s| && s[i] == '%' && HexValue(s[i + 1]).Some? && HexValue(s[i + 2]).Some? then
      Some(HexValue(s[i + 1]).value * 16 + HexValue(s[i + 2]).value)
    else None
  }

  lemma ByteAtEscape(b: int, rest: string)
    requires IsByte(b)
    ensures ByteAt(Escape(b) + rest, 0) == Some(b)
  {
    HexDigitValue(b / 16);
    HexDigitValue(b % 16);
    assert (Escape(b) + rest)[1] == HexDigits[b / 16];
    assert (Escape(b) + rest)[2] == HexDigits[b % 16];
  }

  /** Read `n` escaped bytes from the front of `s`; every byte after the
      first must be a continuation byte. */
  function ReadBytes(s: string, n: nat, first: bool): (r: Option<seq<int>>)
    ensures r.Some? ==> |r.value| == n && 3 * n <= |s|
    decreases n
  {
    if n == 0 then Some([])
    else match ByteAt(s, 0)
      case None => None
      case Some(b) =>
        if !first && !(0x80 <= b < 0xC0) then None
        else match ReadBytes(s[3..], n - 1, false)
          case None => None
          case Some(bs) => Some([b] + bs)
  }

  lemma {:induction false} ReadBytesOfEscapes(bs: seq<int>, rest: string, first: bool)
    requires forall i :: 0 <= i < |bs| ==> IsByte(bs[i])
    requires forall i :: (if first then 1 else 0) <= i < |bs| ==> 0x80 <= bs[i] < 0xC0
    ensures ReadBytes(Escapes(bs) + rest, |bs|, first) == Some(bs)
    decreases |bs|
  {
    if bs != [] {
      var u := Escapes(bs) + rest;
      EscapesFront(bs, rest);
      ContinuationTail(bs, first);
      ReadBytesOfEscapes(bs[1..], rest, false);
      ReadBytesFront(u, |bs|, first, bs[0], bs[1..]);
      assert [bs[0]] + bs[1..] == bs;
    }
  }

  lemma ContinuationTail(bs: seq<int>, first: bool)
    requires bs != []
    requires forall i :: 0 <= i < |bs| ==> IsByte(bs[i])
    requires forall i :: (if first then 1 else 0) <= i < |bs| ==> 0x80 <= bs[i] < 0xC0
    ensures forall i :: 0 <= i < |bs[1..]| ==> IsByte(bs[1..][i]) && 0x80 <= bs[1..][i] < 0xC0
  {
    forall i | 0 <= i < |bs[1..]|
      ensures IsByte(bs[1..][i]) && 0x80 <= bs[1..][i] < 0xC0
    {
      assert bs[1..][i] == bs[i + 1];
    }
  }

  /** The first escape of a run, and the run after it. */
  lemma EscapesFront(bs: seq<int>, rest: string)
    requires bs != [] && forall i :: 0 <= i < |bs| ==> IsByte(bs[i])
    ensures |Escapes(bs) + rest| >= 3 && ByteAt(Escapes(bs) + rest, 0) == Some(bs[0])
    ensures (Escapes(bs) + rest)[3..] == Escapes(bs[1..]) + rest
  {
    var e, es := Escape(bs[0]), Escapes(bs[1..]);
    assert Escapes(bs) == e + es;
    EscapeThen(bs[0], e, es, rest);
  }

  lemma EscapeThen(b: int, e: string, es: string, rest: string)
    requires IsByte(b) && e == Escape(b)
    ensures ByteAt((e + es) + rest, 0) == Some(b) && ((e + es) + rest)[3..] == es + rest
  {
    assert (e + es) + rest == e + (es + rest);
    ByteAtEscape(b, es + rest);
  }

  /** Reading an escaped byte and then the rest. */
  lemma ReadBytesFront(u: string, n: nat, first: bool, b: int, tail: seq<int>)
    requires n > 0 && |u| >= 3 && ByteAt(u, 0) == Some(b)
    requires first || 0x80 <= b < 0xC0
    requires ReadBytes(u[3..], n - 1, false) == Some(tail)
    ensures ReadBytes(u, n, first) == Some([b] + tail)
  {
  }

  // ---------------------------------------------------------------------
  // Encoding and decoding

  function EncodeChar(c: char): (r: string)
    ensures |r| >= 1
  {
    if Unreserved(c) then [c] else Escapes(Utf8(c as int))
  }

  /** `encodeURIComponent` for text made of Unicode scalar values. */
  function Encode(s: string): (r: string)
  {
    if s == [] then "" else EncodeChar(s[0]) + Encode(s[1..])
  }

  predicate InUriAlphabet(c: char)
  {
    Unreserved(c) || c == '%' || ('A' <= c <= 'F')
  }

  /** '%' or an upper-case hex digit. */
  predicate EscapeChar(c: char)
  {
    c == '%' || ('0' <= c <= '9') || ('A' <= c <= 'F')
  }

  lemma {:induction false} EscapesAlphabet(bs: seq<int>)
    requires forall i :: 0 <= i < |bs| ==> IsByte(bs[i])
    ensures forall i :: 0 <= i < |Escapes(bs)| ==> EscapeChar(Escapes(bs)[i])
    ensures forall i :: 0 <= i < |Escapes(bs)| ==> InUriAlphabet(Escapes(bs)[i]) && Escapes(bs)[i] != '-'
  {
    if bs != [] {
      EscapesAlphabet(bs[1..]);
      var e := Escape(bs[0]);
      assert forall i :: 0 <= i < 3 ==> EscapeChar(e[i]);
      forall i | 0 <= i < |Escapes(bs)|
        ensures EscapeChar(Escapes(bs)[i])
      {
        if i >= 3 {
          assert Escapes(bs)[i] == Escapes(bs[1..])[i - 3];
        }
      }
    }
  }

  /** The encoded text uses only unreserved characters, '%' and hex digits,
      so none of the characters that delimit a URL ('/', '?', '&', '=', '#',
      ' '); a '-' appears in it exactly where the input had one. */
  lemma {:induction false} EncodeAlphabet(s: string)
    ensures forall i :: 0 <= i < |Encode(s)| ==> InUriAlphabet(Encode(s)[i])
    ensures '-' in Encode(s) <==> '-' in s
  {
    if s != [] {
      EncodeAlphabet(s[1..]);
      var e := EncodeChar(s[0]);
      if !Unreserved(s[0]) {
        EscapesAlphabet(Utf8(s[0] as int));
      }
      assert Encode(s) == e + Encode(s[1..]);
      forall i | 0 <= i < |Encode(s)|
        ensures InUriAlphabet(Encode(s)[i])
      {
        if i >= |e| {
          assert Encode(s)[i] == Encode(s[1..])[i - |e|];
        }
      }
      assert s == [s[0]] + s[1..];
      assert '-' in e <==> s[0] == '-';
    }
  }

  predicate IsScalar(cp: int)
  {
    (0 <= cp < 0xD800) || (0xE000 <= cp < 0x110000)
  }

  /** Read the escapes of one UTF-8 sequence: the character and the number
      of input characters it took. */
  function DecodeEscapes(s: string): (r: Option<(char, nat)>)
    ensures r.Some? ==> 3 <= r.value.1 <= |s|
  {
    match ByteAt(s, 0)
    case None => None
    case Some(b0) =>
      var n := SequenceLength(b0);
      if n == 0 then None
      else match ReadBytes(s, n, true)
        case None => None
        case Some(bytes) =>
          var cp := Utf8Value(bytes);
          if IsScalar(cp) then Some((cp as char, 3 * n)) else None
  }

  /** `decodeURIComponent`, lenient about overlong sequences; `None` for
      text it cannot read. */
  function Decode(s: string): Option<string>
    decreases |s|
  {
    if s == [] then Some("")
    else if s[0] != '%' then
      match Decode(s[1..])
      case None => None
      case Some(t) => Some([s[0]] + t)
    else
      match DecodeEscapes(s)
      case None => None
      case Some((c, used)) =>
        match Decode(s[used..])
        case None => None
        case Some(t) => Some([c] + t)
  }

  lemma DecodeEscapesOfChar(c: char, rest: string)
    requires !Unreserved(c)
    ensures DecodeEscapes(EncodeChar(c) + rest) == Some((c, |EncodeChar(c)|))
  {
    assert EncodeChar(c) == Escapes(Utf8(c as int));
    DecodeEscapesOfScalar(c, rest);
  }

  /** The escapes of a character's UTF-8 bytes read back as that character. */
  lemma DecodeEscapesOfScalar(c: char, rest: string)
    ensures var e := Escapes(Utf8(c as int));
      DecodeEscapes(e + rest) == Some((c, |e|))
  {
    var bs := Utf8(c as int);
    Utf8RoundTrip(c as int);
    assert Escapes(bs) + rest == Escape(bs[0]) + (Escapes(bs[1..]) + rest);
    ByteAtEscape(bs[0], Escapes(bs[1..]) + rest);
    ReadBytesOfEscapes(bs, rest, true);
  }

  lemma {:induction false} DecodeEncode(s: string)
    ensures Decode(Encode(s)) == Some(s)
  {
    if s != [] {
      DecodeEncode(s[1..]);
      var c, e, rest := s[0], EncodeChar(s[0]), Encode(s[1..]);
      assert Encode(s) == e + rest;
      if Unreserved(c) {
        assert (e + rest)[1..] == rest;
      } else {
        DecodeEscapesOfChar(c, rest);
        assert (e + rest)[|e|..] == rest;
        assert (e + rest)[0] == '%';
      }
      assert s == [s[0]] + s[1..];
    }
  }

  /** Distinct texts encode differently. */
  lemma EncodeInjective(a: string, b: string)
    requires Encode(a) == Encode(b)
    ensures a == b
  {
    DecodeEncode(a);
    DecodeEncode(b);
  }

  lemma {:induction false} EncodeUnreservedIdentity(s: string)
    requires forall i :: 0 <= i < |s| ==> Unreserved(s[i])
    ensures Encode(s) == s
  {
    if s != [] {
      EncodeUnreservedIdentity(s[1..]);
      assert Encode(s) == [s[0]] + s[1..];
    }
  }

  lemma {:induction false} EncodeConcat(a: string, b: string)
    ensures Encode(a + b) == Encode(a) + Encode(b)
  {
    if a != [] {
      var x := EncodeChar(a[0]);
      assert (a + b)[0] == a[0] && (a + b)[1..] == a[1..] + b;
      assert Encode(a + b) == x + Encode(a[1..] + b);
      EncodeConcat(a[1..], b);
      assert Encode(a) == x + Encode(a[1..]);
      assert x + (Encode(a[1..]) + Encode(b)) == (x + Encode(a[1..])) + Encode(b);
    } else {
      assert a + b == b;
    }
  }

  /** A space and a percent sign are escaped. */
  lemma EncodeExamples()
    ensures Encode(" ") == "%20"
    ensures Encode("%") == "%25"
  {
    assert Encode(" ") == EncodeChar(' ') + Encode("");
    assert EncodeChar(' ') == Escape(32) + Escapes([]);
    assert Encode("%") == EncodeChar('%') + Encode("");
    assert EncodeChar('%') == Escape(37) + Escapes([]);
  }

  // ---------------------------------------------------------------------
  // Form encoding

  // `URLSearchParams.toString()` serialises with the
  // application/x-www-form-urlencoded serializer (section 5.2 of the WHATWG
  // URL Standard): A-Z a-z 0-9 and * - . _ stay as they are, a space
  // becomes '+', every other character becomes the %XX escapes of its
  // UTF-8 bytes.

  predicate FormUnreserved(c: char)
  {
    ('A' <= c <= 'Z') || ('a' <= c <= 'z') || ('0' <= c <= '9')
    || c == '*' || c == '-' || c == '.' || c == '_'
  }

  function FormEncodeChar(c: char): (r: string)
    ensures |r| >= 1
  {
    if c == ' ' then "+" else if FormUnreserved(c) then [c] else Escapes(Utf8(c as int))
  }

  /** The form serialisation of one name or value. */
  function FormEncode(s: string): (r: string)
  {
    if s == [] then "" else FormEncodeChar(s[0]) + FormEncode(s[1..])
  }

  /** The form parser's reading of one name or value (section 5.1 of the
      WHATWG URL Standard): '+' is a space, escapes are UTF-8 bytes;
      `None` for escapes it cannot read. */
  function FormDecode(s: string): Option<string>
    decreases |s|
  {
    if s == [] then Some("")
    else if s[0] == '+' then
      match FormDecode(s[1..])
      case None => None
      case Some(t) => Some([' '] + t)
    else if s[0] != '%' then
      match FormDecode(s[1..])
      case None => None
      case Some(t) => Some([s[0]] + t)
    else
      match DecodeEscapes(s)
      case None => None
      case Some((c, used)) =>
        match FormDecode(s[used..])
        case None => None
        case Some(t) => Some([c] + t)
  }

  /** Reading one encoded character in front of a readable rest. */
  lemma FormDecodeStep(c: char, rest: string, t: string)
    requires FormDecode(rest) == Some(t)
    ensures FormDecode(FormEncodeChar(c) + rest) == Some([c] + t)
  {
    var e := FormEncodeChar(c);
    if c == ' ' || FormUnreserved(c) {
      assert (e + rest)[1..] == rest;
    } else {
      DecodeEscapesOfScalar(c, rest);
      assert (e + rest)[|e|..] == rest;
      assert (e + rest)[0] == '%';
    }
  }

  lemma {:induction false} FormDecodeEncode(s: string)
    ensures FormDecode(FormEncode(s)) == Some(s)
  {
    if s != [] {
      FormDecodeEncode(s[1..]);
      assert FormEncode(s) == FormEncodeChar(s[0]) + FormEncode(s[1..]);
      FormDecodeStep(s[0], FormEncode(s[1..]), s[1..]);
      assert s == [s[0]] + s[1..];
    }
  }

  predicate InFormAlphabet(c: char)
  {
    FormUnreserved(c) || c == '+' || c == '%'
  }

  /** The form encoding uses only the unreserved characters, '+', '%' and
      hex digits, so never '&' or '='. */
  lemma {:induction false} FormEncodeAlphabet(s: string)
    ensures forall i :: 0 <= i < |FormEncode(s)| ==> InFormAlphabet(FormEncode(s)[i])
  {
    if s != [] {
      FormEncodeAlphabet(s[1..]);
      var e := FormEncodeChar(s[0]);
      if s[0] != ' ' && !FormUnreserved(s[0]) {
        EscapesAlphabet(Utf8(s[0] as int));
      }
      assert forall i :: 0 <= i < |e| ==> InFormAlphabet(e[i]);
      assert FormEncode(s) == e + FormEncode(s[1..]);
      forall i | 0 <= i < |FormEncode(s)|
        ensures InFormAlphabet(FormEncode(s)[i])
      {
        if i >= |e| {
          assert FormEncode(s)[i] == FormEncode(s[1..])[i - |e|];
        }
      }
    }
  }

  /** Where the two encodings differ: a space is '+' in a form and "%20"
      in a URI component, and '(' stays in a URI component but is escaped
      in a form. */
  lemma FormEncodeExamples()
    ensures FormEncode("a b") == "a+b"
    ensures FormEncode("(") == "%28" && Encode("(") == "("
  {
    FormEncodeConcat("a", " b");
    FormEncodeConcat(" ", "b");
    assert "a" + " b" == "a b" && " " + "b" == " b";
    assert FormEncode("a") == FormEncodeChar('a') + FormEncode("");
    assert FormEncode(" ") == FormEncodeChar(' ') + FormEncode("");
    assert FormEncode("b") == FormEncodeChar('b') + FormEncode("");
    assert FormEncode("(") == FormEncodeChar('(') + FormEncode("");
    assert FormEncodeChar('(') == Escape(40) + Escapes([]);
    assert Encode("(") == EncodeChar('(') + Encode("");
  }

  lemma {:induction false} FormEncodeUnreservedIdentity(s: string)
    requires forall i :: 0 <= i < |s| ==> FormUnreserved(s[i])
    ensures FormEncode(s) == s
  {
    if s != [] {
      FormEncodeUnreservedIdentity(s[1..]);
      assert FormEncode(s) == [s[0]] + s[1..];
    }
  }

  lemma {:induction false} FormEncodeConcat(a: string, b: string)
    ensures FormEncode(a + b) == FormEncode(a) + FormEncode(b)
  {
    if a != [] {
      var x := FormEncodeChar(a[0]);
      assert (a + b)[0] == a[0] && (a + b)[1..] == a[1..] + b;
      assert FormEncode(a + b) == x + FormEncode(a[1..] + b);
      FormEncodeConcat(a[1..], b);
      assert FormEncode(a) == x + FormEncode(a[1..]);
      assert x + (FormEncode(a[1..]) + FormEncode(b)) == (x + FormEncode(a[1..])) + FormEncode(b);
    } else {
      assert a + b == b;
    }
  }
}
