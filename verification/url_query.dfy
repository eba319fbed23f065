/**
 * Building request URLs: PHP's `urlencode`, the recursive query-string
 * builder `buildQuery` (shared in form by the provider clients and the IMDb
 * component) and the `{name}` / `{name:first}` placeholder substitution.
 */
module UrlQuery {
  import opened PhpStrings
  import opened PhpValues
  import opened SeqFacts

  /** A byte value. */
  type Byte = x: int | 0 <= x < 256

  /** The UTF-8 encoding of one character. */
  function Utf8(c: char): (bs: seq<Byte>)
    ensures 1 <= |bs| <= 4
    ensures (c as int < 128) <==> bs == [c as int]
  {
    var cp := c as int;
    if cp < 0x80 then [cp]
    else if cp < 0x800 then [0xC0 + cp / 64, 0x80 + cp % 64]
    else if cp < 0x10000 then [0xE0 + cp / 4096, 0x80 + (cp / 64) % 64, 0x80 + cp % 64]
    else [0xF0 + cp / 262144, 0x80 + (cp / 4096) % 64, 0x80 + (cp / 64) % 64, 0x80 + cp % 64]
  }

  /**
   * PHP `$s[0]` on the UTF-8 bytes of `s`: the first byte, kept as the
   * character with that code, or "" (with a warning) for an empty string.
   * It is the first character when that is ASCII; a string that starts
   * with any other character gives the lead byte of its encoding alone.
   */
  function FirstByte(s: string): (r: string)
    ensures |r| == if s == [] then 0 else 1
    ensures s != [] ==> r[0] as int == Utf8(s[0])[0]
    ensures s != [] && s[0] as int < 128 ==> r == s[..1]
    ensures s != [] && s[0] as int >= 128 ==> 0xC0 <= r[0] as int < 0xF8
  {
    if s == [] then "" else [Utf8(s[0])[0] as char]
  }

  /** The UTF-8 bytes of a string, which is what `urlencode` works on. */
  function Utf8Bytes(s: string): seq<Byte>
  {
    if s == [] then [] else Utf8(s[0]) + Utf8Bytes(s[1..])
  }

  /** Bytes `urlencode` leaves as they are: ASCII letters, digits, `-`, `_` and `.`. */
  predicate Unreserved(b: Byte)
  {
    ('A' as int <= b <= 'Z' as int) || ('a' as int <= b <= 'z' as int) || ('0' as int <= b <= '9' as int)
    || b == '-' as int || b == '_' as int || b == '.' as int
  }

  /** The upper-case hexadecimal digit for a value below 16. */
  function HexDigit(d: int): char
    requires 0 <= d < 16
  {
    if d < 10 then ('0' as int + d) as char else ('A' as int + d - 10) as char
  }

  predicate IsHexDigit(c: char)
  {
    ('0' <= c <= '9') || ('A' <= c <= 'F') || ('a' <= c <= 'f')
  }

  function HexValue(c: char): int
    requires IsHexDigit(c)
  {
    if '0' <= c <= '9' then c as int - '0' as int
    else if 'A' <= c <= 'F' then c as int - 'A' as int + 10
    else c as int - 'a' as int + 10
  }

  /** The encoding of one byte: kept, `+` for a space, `%XX` (upper-case hex) otherwise. */
  function EncodeByte(b: Byte): (r: string)
  {
    if Unreserved(b) then [b as char]
    else if b == 32 then "+"
    else ['%', HexDigit(b / 16), HexDigit(b % 16)]
  }

  function EncodeBytes(bs: seq<Byte>): string
  {
    if bs == [] then "" else EncodeByte(bs[0]) + EncodeBytes(bs[1..])
  }

  /** PHP `urlencode`. */
  function UrlEncode(s: string): string
  {
    EncodeBytes(Utf8Bytes(s))
  }

  /** PHP `urldecode`: the bytes a query value stands for. */
  function UrlDecode(e: string): seq<Byte>
  {
    if e == [] then []
    else if |e| >= 3 && e[0] == '%' && IsHexDigit(e[1]) && IsHexDigit(e[2]) then
      [16 * HexValue(e[1]) + HexValue(e[2])] + UrlDecode(e[3..])
    else if e[0] == '+' then [32] + UrlDecode(e[1..])
    else Utf8(e[0]) + UrlDecode(e[1..])
  }

  /** The characters `urlencode` can produce. */
  predicate UrlSafe(c: char)
  {
    ('A' <= c <= 'Z') || ('a' <= c <= 'z') || ('0' <= c <= '9') || c in "-_.+%"
  }

  lemma EncodeByteSafe(b: Byte)
    ensures forall c :: c in EncodeByte(b) ==> UrlSafe(c)
  {
  }

  /** Decoding the encoding of one byte, followed by anything, gives that byte first. */
  lemma DecodeEncodeByte(b: Byte, rest: string)
    ensures UrlDecode(EncodeByte(b) + rest) == [b] + UrlDecode(rest)
  {
    var e := EncodeByte(b) + rest;
    if Unreserved(b) {
      assert e[0] == b as char && e[1..] == rest;
    } else if b == 32 {
      assert e[0] == '+' && e[1..] == rest;
    } else {
      assert e[0] == '%' && e[1] == HexDigit(b / 16) && e[2] == HexDigit(b % 16);
      assert HexValue(HexDigit(b / 16)) == b / 16;
      assert HexValue(HexDigit(b % 16)) == b % 16;
      assert e[3..] == rest;
    }
  }

  lemma {:induction false} DecodeEncodeBytes(bs: seq<Byte>)
    ensures UrlDecode(EncodeBytes(bs)) == bs
  {
    if bs != [] {
      DecodeEncodeBytes(bs[1..]);
      DecodeEncodeByte(bs[0], EncodeBytes(bs[1..]));
      assert [bs[0]] + bs[1..] == bs;
    }
  }

  /** `urldecode(urlencode($s))` gives back the bytes of `s`. */
  lemma UrlDecodeEncode(s: string)
    ensures UrlDecode(UrlEncode(s)) == Utf8Bytes(s)
  {
    DecodeEncodeBytes(Utf8Bytes(s));
  }

  lemma {:induction false} EncodeBytesSafe(bs: seq<Byte>)
    ensures forall c :: c in EncodeBytes(bs) ==> UrlSafe(c)
  {
    if bs != [] {
      EncodeByteSafe(bs[0]);
      EncodeBytesSafe(bs[1..]);
    }
  }

  /**
   * An encoded value never contains the characters that structure a query
   * string: `&`, `=`, `[` or `]`.
   */
  lemma UrlEncodeSafe(s: string)
    ensures forall c :: c in UrlEncode(s) ==> UrlSafe(c)
    ensures '&' !in UrlEncode(s) && '=' !in UrlEncode(s) && '[' !in UrlEncode(s) && ']' !in UrlEncode(s)
  {
    EncodeBytesSafe(Utf8Bytes(s));
  }

  /** A query parameter: a scalar value or a nested array of parameters. */
  datatype Param = Leaf(value: string) | Nested(entries: seq<(string, Param)>)

  /**
   * The name a key gets under the current format: the key itself at the top
   * level, `outer[key]` inside a nested array.
   */
  function FullKey(outer: Option<string>, key: string): string
  {
    if outer.Some? then outer.value + "[" + key + "]" else key
  }

  /**
   * The query string `buildQuery` produces for the parameters of `params`
   * from index `i` on, under `outer`.
   */
  function QueryFrom(params: seq<(string, Param)>, i: nat, outer: Option<string>): string
    requires i <= |params|
    decreases Nested(params), |params| - i
  {
    if i == |params| then ""
    else FieldQuery(params[i].0, params[i].1, outer) + QueryFrom(params, i + 1, outer)
  }

  function FieldQuery(key: string, value: Param, outer: Option<string>): string
    decreases value, if value.Nested? then |value.entries| + 1 else 0
  {
    match value
    case Leaf(v) => FullKey(outer, key) + "=" + UrlEncode(v) + "&"
    case Nested(entries) => QueryFrom(entries, 0, Some(FullKey(outer, key)))
  }

  /** The query string `buildQuery($params)` produces. */
  function QueryOf(params: seq<(string, Param)>, outer: Option<string>): string
  {
    QueryFrom(params, 0, outer)
  }

  /**
   * `buildQuery($params, $format)`: walks the parameters in order, appending
   * `name=urlencode(value)&` for a scalar and the query of a nested array,
   * whose names are formatted as `name[key]`.
   */
  method BuildQuery(params: seq<(string, Param)>, outer: Option<string>) returns (query: string)
    ensures query == QueryOf(params, outer)
    decreases Nested(params)
  {
    query := "";
    var i := 0;
    while i < |params|
      invariant 0 <= i <= |params|
      invariant QueryOf(params, outer) == query + QueryFrom(params, i, outer)
    {
      var (key, value) := params[i];
      var piece;
      if value.Nested? {
        assert value == params[i].1;
        piece := BuildQuery(value.entries, Some(FullKey(outer, key)));
      } else {
        piece := FullKey(outer, key) + "=" + UrlEncode(value.value) + "&";
      }
      AppendAssoc(query, piece, QueryFrom(params, i + 1, outer));
      query := query + piece;
      i := i + 1;
    }
  }

  /** Parameters that are all scalars. */
  predicate AllLeaves(params: seq<(string, Param)>)
  {
    forall i :: 0 <= i < |params| ==> params[i].1.Leaf?
  }

  /** Parameters that are all scalars, under keys free of `&`. */
  predicate FlatParams(params: seq<(string, Param)>)
  {
    AllLeaves(params) && forall i :: 0 <= i < |params| ==> '&' !in params[i].0
  }

  /** The `key=value` pairs a flat query is made of, from index `i` on. */
  function PairsFrom(params: seq<(string, Param)>, i: nat): (ps: seq<string>)
    requires AllLeaves(params) && i <= |params|
    ensures |ps| == |params| - i
    decreases |params| - i
  {
    if i == |params| then []
    else [params[i].0 + "=" + UrlEncode(params[i].1.value)] + PairsFrom(params, i + 1)
  }

  lemma {:induction false} PairsNoAmpersand(params: seq<(string, Param)>, i: nat)
    requires FlatParams(params) && i <= |params|
    ensures forall j :: 0 <= j < |params| - i ==> '&' !in PairsFrom(params, i)[j]
    decreases |params| - i
  {
    if i < |params| {
      PairsNoAmpersand(params, i + 1);
      UrlEncodeSafe(params[i].1.value);
      NotInConcat('&', params[i].0, "=", UrlEncode(params[i].1.value));
      ConsIndex(params[i].0 + "=" + UrlEncode(params[i].1.value), PairsFrom(params, i + 1));
    }
  }

  lemma {:induction false} FlatQueryJoin(params: seq<(string, Param)>, i: nat)
    requires AllLeaves(params) && i <= |params|
    ensures QueryFrom(params, i, None) == Implode("&", PairsFrom(params, i) + [""])
    decreases |params| - i
  {
    if i == |params| {
      EmptyPrefix([""]);
    } else {
      FlatQueryJoin(params, i + 1);
      var head := params[i].0 + "=" + UrlEncode(params[i].1.value);
      AppendAssoc([head], PairsFrom(params, i + 1), [""]);
      ImplodeCons("&", head, PairsFrom(params, i + 1) + [""]);
    }
  }

  /**
   * A flat query splits on `&` into exactly its `key=urlencode(value)` pairs,
   * in order, followed by the empty string after the trailing `&`; an empty
   * parameter list gives the empty string.
   */
  lemma FlatQuerySplit(params: seq<(string, Param)>)
    requires FlatParams(params)
    ensures params == [] ==> QueryOf(params, None) == ""
    ensures Explode('&', QueryOf(params, None)) == PairsFrom(params, 0) + [""]
    ensures forall j :: 0 <= j < |params| ==>
              Explode('&', QueryOf(params, None))[j] == params[j].0 + "=" + UrlEncode(params[j].1.value)
  {
    var ps := PairsFrom(params, 0);
    FlatQueryJoin(params, 0);
    PairsNoAmpersand(params, 0);
    ExplodeImplodeTrailing('&', ps);
    PairsAt(params, 0);
    forall j | 0 <= j < |params|
      ensures (ps + [""])[j] == ps[j]
    {
    }
  }

  lemma {:induction false} PairsAt(params: seq<(string, Param)>, i: nat)
    requires AllLeaves(params) && i <= |params|
    ensures forall j :: i <= j < |params| ==>
              PairsFrom(params, i)[j - i] == params[j].0 + "=" + UrlEncode(params[j].1.value)
    decreases |params| - i
  {
    if i < |params| {
      PairsAt(params, i + 1);
      var ps := PairsFrom(params, i);
      assert ps[0] == params[i].0 + "=" + UrlEncode(params[i].1.value);
      forall j | i < j < |params|
        ensures ps[j - i] == params[j].0 + "=" + UrlEncode(params[j].1.value)
      {
        assert ps[j - i] == PairsFrom(params, i + 1)[j - (i + 1)];
      }
    }
  }

  /** The `{name:first}` placeholder that goes with `{name}`. */
  function FirstPlaceholder(search: string): string
  {
    TrimRight(search, {'}'}) + ":first}"
  }

  /** The URL after substituting the placeholders `params` names, in order. */
  function Substituted(url: string, params: seq<(string, string)>): string
    decreases |params|
  {
    if params == [] then url
    else
      var lowered := Lower(params[0].1);
      var withFirst := Replace(url, FirstPlaceholder(params[0].0), FirstByte(lowered));
      Substituted(Replace(withFirst, params[0].0, lowered), params[1..])
  }

  lemma {:induction false} SubstitutedAppend(url: string, a: seq<(string, string)>, b: seq<(string, string)>)
    ensures Substituted(url, a + b) == Substituted(Substituted(url, a), b)
    decreases |a|
  {
    if a != [] {
      assert (a + b)[0] == a[0];
      assert (a + b)[1..] == a[1..] + b;
      var lowered := Lower(a[0].1);
      var next := Replace(Replace(url, FirstPlaceholder(a[0].0), FirstByte(lowered)), a[0].0, lowered);
      SubstitutedAppend(next, a[1..], b);
    } else {
      assert a + b == b;
    }
  }

  /**
   * `buildUrlFromPlaceholders($url, $params)`: for each placeholder, in
   * order, lower-cases its value, puts the value's first byte in place
   * of `{name:first}` and then the whole value in place of `{name}`.
   */
  method BuildUrlFromPlaceholders(url: string, params: seq<(string, string)>) returns (r: string)
    ensures r == Substituted(url, params)
  {
    r := url;
    var i := 0;
    while i < |params|
      invariant 0 <= i <= |params|
      invariant r == Substituted(url, params[..i])
    {
      var (search, replace) := params[i];
      replace := Lower(replace);
      r := Replace(r, FirstPlaceholder(search), FirstByte(replace));
      r := Replace(r, search, replace);
      SubstitutedAppend(url, params[..i], [params[i]]);
      assert params[..i + 1] == params[..i] + [params[i]];
      i := i + 1;
    }
    assert params[..i] == params;
  }

  /** No occurrence of `pat` starts inside `a` when `a` lacks the first character of `pat`. */
  lemma NoOccurrenceIn(a: string, pat: string, rest: string)
    requires pat != [] && pat[0] !in a
    ensures forall i :: 0 <= i < |a| ==> !OccursAt(a + rest, pat, i)
  {
    forall i | 0 <= i < |a|
      ensures !OccursAt(a + rest, pat, i)
    {
      var s := a + rest;
      assert s[i] == a[i];
      if i + |pat| <= |s| {
        assert s[i..i + |pat|][0] == s[i];
      }
    }
  }

  /** A string no longer than `pat` and not starting with its first character has no occurrence. */
  lemma NoOccurrenceShort(s: string, pat: string)
    requires pat != [] && |s| <= |pat| && (s != [] ==> s[0] != pat[0])
    ensures forall i :: 0 <= i < |s| ==> !OccursAt(s, pat, i)
  {
    forall i | 0 <= i < |s|
      ensures !OccursAt(s, pat, i)
    {
      if i + |pat| <= |s| {
        assert s[i..i + |pat|][0] == s[0];
      }
    }
  }
}
