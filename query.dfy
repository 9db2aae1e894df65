/** Query strings as `URLSearchParams` reads and writes them (the application/x-www-form-urlencoded
    parser and serializer): `&`-separated `name=value` pairs, each side form-encoded. */
module Query {
  import opened Js
  import opened UrlCoding

  type Pairs = seq<(string, string)>

  /** The pieces of `s` between occurrences of `sep`; there is always at least one. */
  function Split(s: string, sep: char): (r: seq<string>)
    ensures |r| >= 1
    ensures forall i :: 0 <= i < |r| ==> sep !in r[i]
  {
    if s == [] then [""]
    else
      var rest := Split(s[1..], sep);
      if s[0] == sep then [""] + rest else [[s[0]] + rest[0]] + rest[1..]
  }

  function Join(parts: seq<string>, sep: char): string {
    if parts == [] then ""
    else if |parts| == 1 then parts[0]
    else parts[0] + [sep] + Join(parts[1..], sep)
  }

  lemma {:induction false} SplitWithout(s: string, sep: char)
    requires sep !in s
    ensures Split(s, sep) == [s]
  {
    if s != [] {
      SplitWithout(s[1..], sep);
      assert [s[0]] + s[1..] == s;
    }
  }

  lemma {:induction false} SplitAfterFirst(a: string, sep: char, b: string)
    requires sep !in a
    ensures Split(a + [sep] + b, sep) == [a] + Split(b, sep)
  {
    var s := a + [sep] + b;
    if a == [] {
      assert s[1..] == b;
    } else {
      assert s[1..] == a[1..] + [sep] + b;
      SplitAfterFirst(a[1..], sep, b);
      assert [a[0]] + a[1..] == a;
    }
  }

  /** Splitting inverts joining pieces that do not hold the separator. */
  lemma {:induction false} SplitJoin(parts: seq<string>, sep: char)
    requires |parts| >= 1
    requires forall i :: 0 <= i < |parts| ==> sep !in parts[i]
    ensures Split(Join(parts, sep), sep) == parts
  {
    if |parts| == 1 {
      SplitWithout(parts[0], sep);
    } else {
      SplitAfterFirst(parts[0], sep, Join(parts[1..], sep));
      SplitJoin(parts[1..], sep);
      assert [parts[0]] + parts[1..] == parts;
    }
  }

  /** `s` cut at its first `=`: the text before it and, if there is one, the text after it. */
  function CutAtEquals(s: string): (r: (string, Option<string>))
    ensures '=' !in r.0
  {
    if s == [] then ("", None)
    else if s[0] == '=' then ("", Some(s[1..]))
    else
      var rest := CutAtEquals(s[1..]);
      ([s[0]] + rest.0, rest.1)
  }

  lemma {:induction false} CutAtEqualsAfter(a: string, b: string)
    requires '=' !in a
    ensures CutAtEquals(a + "=" + b) == (a, Some(b))
  {
    var s := a + "=" + b;
    if a == [] {
      assert s[1..] == b;
    } else {
      assert s[1..] == a[1..] + "=" + b;
      CutAtEqualsAfter(a[1..], b);
      assert [a[0]] + a[1..] == a;
    }
  }

  /** One non-empty `name=value` piece; without `=` the value is empty. */
  function ParseSegment(seg: string): (string, string) {
    var (name, value) := CutAtEquals(seg);
    (FormDecode(name), match value case None => "" case Some(v) => FormDecode(v))
  }

  function ParseSegments(segs: seq<string>): (r: Pairs)
    ensures |r| <= |segs|
  {
    if segs == [] then []
    else if segs[0] == "" then ParseSegments(segs[1..])
    else [ParseSegment(segs[0])] + ParseSegments(segs[1..])
  }

  /** The parameters of a query string, in order; empty pieces are skipped. */
  function Parse(q: string): Pairs {
    ParseSegments(Split(q, '&'))
  }

  /** A query of one `name=value` piece is that one parameter. */
  lemma ParsePiece(name: string, value: string)
    requires '&' !in name && '&' !in value && '=' !in name
    ensures Parse(name + "=" + value) == [(FormDecode(name), FormDecode(value))]
  {
    var s := name + "=" + value;
    assert '&' !in s by {
      assert forall i :: 0 <= i < |s| ==> s[i] == (if i < |name| then name[i] else if i == |name| then '=' else value[i - |name| - 1]);
    }
    SplitWithout(s, '&');
    CutAtEqualsAfter(name, value);
    assert ParseSegments([s]) == [ParseSegment(s)] + ParseSegments([s][1..]);
  }

  /** A query of one plain `name=value` piece is that one parameter, as written. */
  lemma ParsePlainPiece(name: string, value: string)
    requires Plain(name, Form) && Plain(value, Form)
    ensures Parse(name + "=" + value) == [(name, value)]
  {
    PlainQuerySafe(name, Form);
    PlainQuerySafe(value, Form);
    ParsePiece(name, value);
    FormDecodeUnescaped(name);
    FormDecodeUnescaped(value);
  }

  function SerializePair(p: (string, string)): string {
    FormEncode(p.0) + "=" + FormEncode(p.1)
  }

  function SerializeAll(ps: Pairs): (r: seq<string>)
    ensures |r| == |ps|
  {
    if ps == [] then [] else [SerializePair(ps[0])] + SerializeAll(ps[1..])
  }

  /** `URLSearchParams.toString()`. */
  function Serialize(ps: Pairs): string {
    Join(SerializeAll(ps), '&')
  }

  /** `searchParams.get(name)`: the value of the first parameter of that name, or null. */
  function Get(ps: Pairs, name: string): (r: Option<string>)
    ensures r.Some? <==> exists i :: 0 <= i < |ps| && ps[i].0 == name
    ensures r.Some? ==> exists i :: 0 <= i < |ps| && ps[i] == (name, r.value)
  {
    if ps == [] then None
    else if ps[0].0 == name then Some(ps[0].1)
    else
      var r := Get(ps[1..], name);
      assert forall i :: 0 < i < |ps| ==> ps[i] == ps[1..][i - 1];
      r
  }

  /** `get` finds the first parameter of a name: the ones before it with other names are skipped. */
  lemma {:induction false} GetAt(ps: Pairs, i: nat, name: string)
    requires i < |ps| && ps[i].0 == name
    requires forall j :: 0 <= j < i ==> ps[j].0 != name
    ensures Get(ps, name) == Some(ps[i].1)
  {
    if i > 0 {
      assert ps[0].0 != name;
      GetAt(ps[1..], i - 1, name);
    }
  }

  function Param(q: string, name: string): Option<string> {
    Get(Parse(q), name)
  }

  /** `searchParams.get(name)` where the page tests it for truthiness: present and not empty. */
  function Given(q: string, name: string): Option<string> {
    match Param(q, name)
    case Some(v) => if v != "" then Some(v) else None
    case None => None
  }

  lemma ParseSerializedPair(p: (string, string))
    ensures ParseSegment(SerializePair(p)) == p
  {
    EncodeQuerySafe(p.0, Form);
    CutAtEqualsAfter(FormEncode(p.0), FormEncode(p.1));
    FormDecodeEncode(p.0, Form);
    FormDecodeEncode(p.1, Form);
  }

  /** Every serialized pair is a non-empty piece without `&`. */
  lemma {:induction false} SerializeAllPieces(ps: Pairs)
    ensures forall i :: 0 <= i < |ps| ==> SerializeAll(ps)[i] != "" && '&' !in SerializeAll(ps)[i]
  {
    if ps != [] {
      SerializeAllPieces(ps[1..]);
      var head := SerializePair(ps[0]);
      EncodeQuerySafe(ps[0].0, Form);
      EncodeQuerySafe(ps[0].1, Form);
      assert head == FormEncode(ps[0].0) + "=" + FormEncode(ps[0].1);
      assert '&' !in head && head != "";
      forall i | 0 < i < |ps|
        ensures SerializeAll(ps)[i] == SerializeAll(ps[1..])[i - 1]
      {
      }
    }
  }

  lemma {:induction false} ParseSerializedSegments(ps: Pairs)
    ensures ParseSegments(SerializeAll(ps)) == ps
  {
    if ps != [] {
      SerializeAllPieces(ps);
      ParseSerializedPair(ps[0]);
      assert SerializeAll(ps)[1..] == SerializeAll(ps[1..]);
      ParseSerializedSegments(ps[1..]);
      assert [ps[0]] + ps[1..] == ps;
    }
  }

  /** Parsing reads back exactly the parameters that were serialized, names, values and order. */
  lemma ParseSerialize(ps: Pairs)
    ensures Parse(Serialize(ps)) == ps
  {
    var segs := SerializeAll(ps);
    if ps == [] {
      assert Split("", '&') == [""];
    } else {
      SerializeAllPieces(ps);
      SplitJoin(segs, '&');
      ParseSerializedSegments(ps);
    }
  }
}
