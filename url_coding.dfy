/** Percent-encoding as the pages use it: `encodeURIComponent`, the
    application/x-www-form-urlencoded serializer behind `URLSearchParams` (which writes a space as
    `+`), the matching form decoder behind `searchParams.get`, and `decodeURIComponent`. */
module UrlCoding {
  import opened Js
  import opened Utf8

  function HexDigit(n: int): (c: char)
    requires 0 <= n < 16
  {
    if n < 10 then ('0' as int + n) as char else ('A' as int + n - 10) as char
  }

  /** The value of a hexadecimal digit of either case. */
  function HexValue(c: char): (r: Option<int>)
    ensures r.Some? ==> 0 <= r.value < 16
    ensures r.Some? <==> ('0' <= c <= '9' || 'A' <= c <= 'F' || 'a' <= c <= 'f')
  {
    if '0' <= c <= '9' then Some(c as int - '0' as int)
    else if 'A' <= c <= 'F' then Some(c as int - 'A' as int + 10)
    else if 'a' <= c <= 'f' then Some(c as int - 'a' as int + 10)
    else None
  }

  lemma HexValueOfDigit(n: int)
    requires 0 <= n < 16
    ensures HexValue(HexDigit(n)) == Some(n)
  {
  }

  /** The two encoders: `encodeURIComponent` and the form serializer of `URLSearchParams`. */
  datatype Style = Component | Form

  predicate IsAlphanumeric(c: char) {
    '0' <= c <= '9' || 'A' <= c <= 'Z' || 'a' <= c <= 'z'
  }

  /** The ASCII characters an encoder leaves as they are. */
  predicate Unescaped(c: char, style: Style) {
    IsAlphanumeric(c) ||
    c == '-' || c == '_' || c == '.' || c == '*' ||
    (style == Component && (c == '!' || c == '~' || c == '\'' || c == '(' || c == ')'))
  }

  /** One byte of the UTF-8 encoding, written out. */
  function EncodeByte(b: Byte, style: Style): string {
    if b < 0x80 && Unescaped(b as char, style) then [b as char] else Escape(b, style)
  }

  /** A byte that must be escaped: `%XX`, or `+` for a space in a form. */
  function Escape(b: Byte, style: Style): string {
    if style == Form && b == 0x20 then "+" else ['%', HexDigit(b / 16), HexDigit(b % 16)]
  }

  function EncodeBytes(bs: seq<Byte>, style: Style): string {
    if bs == [] then "" else EncodeByte(bs[0], style) + EncodeBytes(bs[1..], style)
  }

  /** Percent-encoding of the UTF-8 bytes of `s`. */
  function Encode(s: string, style: Style): string {
    EncodeBytes(Utf8.Encode(s), style)
  }

  /** No `&`, `=` or `#`: a text that can stand as a query parameter name or value. */
  predicate QuerySafe(s: string) {
    '&' !in s && '=' !in s && '#' !in s
  }

  lemma {:induction false} EncodeBytesQuerySafe(bs: seq<Byte>, style: Style)
    ensures QuerySafe(EncodeBytes(bs, style))
  {
    if bs != [] {
      EncodeBytesQuerySafe(bs[1..], style);
      var head := EncodeByte(bs[0], style);
      assert QuerySafe(head);
      assert EncodeBytes(bs, style) == head + EncodeBytes(bs[1..], style);
    }
  }

  /** Neither encoder ever writes a query delimiter. */
  lemma EncodeQuerySafe(s: string, style: Style)
    ensures QuerySafe(Encode(s, style))
  {
    EncodeBytesQuerySafe(Utf8.Encode(s), style);
  }

  function EncodeURIComponent(s: string): string {
    Encode(s, Component)
  }

  function FormEncode(s: string): string {
    Encode(s, Form)
  }

  /** The bytes a form-encoded text stands for: `+` is a space, `%XX` with two hexadecimal digits
      is that byte, and any other character (a lone `%` included) is its own UTF-8 encoding. */
  function PercentDecodeForm(s: string): seq<Byte>
    decreases |s|
  {
    if s == [] then []
    else if s[0] == '+' then [0x20] + PercentDecodeForm(s[1..])
    else if s[0] == '%' && |s| >= 3 && HexValue(s[1]).Some? && HexValue(s[2]).Some? then
      [HexValue(s[1]).value * 16 + HexValue(s[2]).value] + PercentDecodeForm(s[3..])
    else Utf8.EncodeChar(s[0]) + PercentDecodeForm(s[1..])
  }

  /** What `searchParams.get` returns for a raw parameter name or value; it never fails. */
  function FormDecode(s: string): string {
    DecodeLenient(PercentDecodeForm(s))
  }

  lemma PercentDecodeEncodeByte(b: Byte, style: Style, rest: string)
    ensures PercentDecodeForm(EncodeByte(b, style) + rest) == [b] + PercentDecodeForm(rest)
  {
    var s := EncodeByte(b, style) + rest;
    if b < 0x80 && Unescaped(b as char, style) {
      assert s[1..] == rest;
    } else if style == Form && b == 0x20 {
      assert s[1..] == rest;
    } else {
      HexValueOfDigit(b / 16);
      HexValueOfDigit(b % 16);
      assert s[3..] == rest;
    }
  }

  lemma {:induction false} PercentDecodeEncodeBytes(bs: seq<Byte>, style: Style)
    ensures PercentDecodeForm(EncodeBytes(bs, style)) == bs
  {
    if bs != [] {
      PercentDecodeEncodeByte(bs[0], style, EncodeBytes(bs[1..], style));
      PercentDecodeEncodeBytes(bs[1..], style);
      assert [bs[0]] + bs[1..] == bs;
    }
  }

  /** Text made only of characters an encoder leaves alone. */
  predicate Plain(s: string, style: Style) {
    s == [] || (Unescaped(s[0], style) && Plain(s[1..], style))
  }

  lemma {:induction false} PlainQuerySafe(s: string, style: Style)
    requires Plain(s, style)
    ensures QuerySafe(s)
  {
    if s != [] {
      PlainQuerySafe(s[1..], style);
      assert s == [s[0]] + s[1..];
    }
  }

  /** Plain text is written unchanged. */
  lemma {:induction false} EncodeUnescaped(s: string, style: Style)
    requires Plain(s, style)
    ensures Encode(s, style) == s
  {
    if s != [] {
      EncodeUnescaped(s[1..], style);
      var b: Byte := s[0] as int;
      assert Utf8.EncodeChar(s[0]) == [b];
      var bs := Utf8.Encode(s);
      assert bs == [b] + Utf8.Encode(s[1..]);
      assert bs[1..] == Utf8.Encode(s[1..]);
      assert [s[0]] + s[1..] == s;
    }
  }

  /** The form decoder inverts both encoders: whatever either one writes reads back unchanged. */
  lemma FormDecodeEncode(s: string, style: Style)
    ensures FormDecode(Encode(s, style)) == s
  {
    PercentDecodeEncodeBytes(Utf8.Encode(s), style);
    DecodeEncode(s);
  }

  /** Plain text reads back as itself. */
  lemma FormDecodeUnescaped(s: string)
    requires Plain(s, Form)
    ensures FormDecode(s) == s
  {
    EncodeUnescaped(s, Form);
    FormDecodeEncode(s, Form);
  }

  /** The bytes of the longest run of `%XX` escapes at the start of `s`. */
  function EscapeRun(s: string): (r: seq<Byte>)
    ensures 3 * |r| <= |s|
    decreases |s|
  {
    if |s| >= 3 && s[0] == '%' && HexValue(s[1]).Some? && HexValue(s[2]).Some?
    then [HexValue(s[1]).value * 16 + HexValue(s[2]).value] + EscapeRun(s[3..])
    else []
  }

  /** `decodeURIComponent`: every run of escapes must be well-formed UTF-8 and every `%` must start
      an escape, otherwise it throws (None); characters other than `%` are kept. */
  function DecodeURIComponent(s: string): (r: Option<string>)
    ensures '%' !in s ==> r == Some(s)
    decreases |s|
  {
    if s == [] then Some("")
    else if s[0] != '%' then
      assert s == [s[0]] + s[1..];
      match DecodeURIComponent(s[1..])
      case None => None
      case Some(t) => Some([s[0]] + t)
    else
      var run := EscapeRun(s);
      if run == [] then None
      else match DecodeStrict(run)
        case None => None
        case Some(u) =>
          match DecodeURIComponent(s[3 * |run|..])
          case None => None
          case Some(t) => Some(u + t)
  }

  /** Decoding never lengthens the text, and a text holding `%` comes back strictly shorter,
      so `decodeURIComponent` never returns a text holding `%` unchanged. */
  lemma {:induction false} DecodeURIComponentShorter(s: string)
    ensures DecodeURIComponent(s).Some? ==> |DecodeURIComponent(s).value| <= |s|
    ensures DecodeURIComponent(s).Some? && '%' in s ==> |DecodeURIComponent(s).value| < |s|
    ensures '%' in s ==> DecodeURIComponent(s) != Some(s)
    decreases |s|
  {
    if s != [] {
      if s[0] != '%' {
        DecodeURIComponentShorter(s[1..]);
        assert s == [s[0]] + s[1..];
      } else {
        var run := EscapeRun(s);
        if run != [] {
          DecodeStrictShorter(run);
          DecodeURIComponentShorter(s[3 * |run|..]);
        }
      }
    }
  }

  /** A text holding the escape `%25` loses it on a second decoding: "%25" reads as "%". */
  lemma DecodeURIComponentEscapedPercent()
    ensures DecodeURIComponent("%25") == Some("%")
  {
    var s := "%25";
    assert HexValue(s[1]) == Some(2) && HexValue(s[2]) == Some(5);
    assert EscapeRun(s[3..]) == [];
    var run: seq<Byte> := [0x25];
    assert EscapeRun(s) == run;
    assert DecodeFirst(run) == Some(('%', 1));
    assert run[1..] == [];
    assert DecodeStrict(run[1..]) == Some("");
    assert ['%'] + "" == "%";
    assert DecodeStrict(run) == Some("%");
  }

  /** A lone `%` makes `decodeURIComponent` throw. */
  lemma DecodeURIComponentLonePercent()
    ensures DecodeURIComponent("%") == None
  {
  }
}
