/** The URL machinery the dashboard's search-parameter hooks use: a `URLSearchParams` list of
    name/value pairs with its `set`, `delete` and `toString` (the
    application/x-www-form-urlencoded serializer of the WHATWG URL standard), and the reading of
    a query string back into pairs. */
module UrlEncoding {

  type Pair = (string, string)

  // ---------------------------------------------------------------- split and join

  /** The parts joined with `sep` between them. */
  function Join(parts: seq<string>, sep: char): string {
    if parts == [] then ""
    else if |parts| == 1 then parts[0]
    else parts[0] + [sep] + Join(parts[1..], sep)
  }

  /** The pieces of `s` between occurrences of `sep` (at least one piece, possibly empty). */
  function Split(s: string, sep: char): (parts: seq<string>)
    ensures |parts| >= 1
  {
    if s == [] then [""]
    else
      var rest := Split(s[1..], sep);
      if s[0] == sep then [""] + rest else [[s[0]] + rest[0]] + rest[1..]
  }

  lemma {:induction false} SplitNoSeparator(p: string, sep: char, t: string)
    requires sep !in p
    ensures Split(p + t, sep) == [p + Split(t, sep)[0]] + Split(t, sep)[1..]
  {
    if p != [] {
      SplitNoSeparator(p[1..], sep, t);
      assert (p + t)[1..] == p[1..] + t;
      assert [p[0]] + (p[1..] + Split(t, sep)[0]) == p + Split(t, sep)[0];
    } else {
      assert p + t == t;
      assert p + Split(t, sep)[0] == Split(t, sep)[0];
      assert [Split(t, sep)[0]] + Split(t, sep)[1..] == Split(t, sep);
    }
  }

  /** Splitting a join gives back the parts, provided no part contains the separator. */
  lemma {:induction false} SplitJoin(parts: seq<string>, sep: char)
    requires parts != []
    requires forall i :: 0 <= i < |parts| ==> sep !in parts[i]
    ensures Split(Join(parts, sep), sep) == parts
  {
    var p := parts[0];
    if |parts| == 1 {
      SplitNoSeparator(p, sep, "");
      assert Split("", sep) == [""];
      assert p + "" == p;
    } else {
      var j := Join(parts[1..], sep);
      SplitJoin(parts[1..], sep);
      SplitNoSeparator(p, sep, [sep] + j);
      assert Join(parts, sep) == p + ([sep] + j);
      assert ([sep] + j)[1..] == j;
      assert Split([sep] + j, sep) == [""] + Split(j, sep);
      assert p + "" == p;
      assert [p] + parts[1..] == parts;
    }
  }

  /** The text before the first `sep` and the text after it; all of `s` and "" when `sep` does
      not occur. */
  function SplitAtFirst(s: string, sep: char): (r: (string, string))
    ensures sep !in s ==> r == (s, "")
    ensures sep in s ==> s == r.0 + [sep] + r.1 && sep !in r.0
  {
    if s == [] then ("", "")
    else if s[0] == sep then ("", s[1..])
    else
      var r := SplitAtFirst(s[1..], sep);
      assert sep in s ==> sep in s[1..];
      assert sep !in s ==> sep !in s[1..];
      assert [s[0]] + s[1..] == s;
      ([s[0]] + r.0, r.1)
  }

  // ---------------------------------------------------------------- the urlencoded serializer

  /** The code points the serializer writes as themselves. */
  predicate Unescaped(c: char) {
    c == '*' || c == '-' || c == '.' || c == '_'
    || ('0' <= c <= '9') || ('A' <= c <= 'Z') || ('a' <= c <= 'z')
  }

  /** The UTF-8 encoding of one code point. */
  function Utf8(c: char): (bytes: seq<int>)
    ensures 1 <= |bytes| <= 4
    ensures forall i :: 0 <= i < |bytes| ==> 0 <= bytes[i] < 256
  {
    var n := c as int;
    if n < 0x80 then [n]
    else if n < 0x800 then [0xC0 + n / 0x40, 0x80 + n % 0x40]
    else if n < 0x1_0000 then [0xE0 + n / 0x1000, 0x80 + n / 0x40 % 0x40, 0x80 + n % 0x40]
    else [0xF0 + n / 0x4_0000, 0x80 + n / 0x1000 % 0x40, 0x80 + n / 0x40 % 0x40, 0x80 + n % 0x40]
  }

  function HexUpper(d: int): (c: char)
    requires 0 <= d < 16
    ensures Unescaped(c)
  {
    if d < 10 then ('0' as int + d) as char else ('A' as int + d - 10) as char
  }

  /** `%XX` for each byte, with upper-case hexadecimal digits. */
  function PercentEncode(bytes: seq<int>): (r: string)
    requires forall i :: 0 <= i < |bytes| ==> 0 <= bytes[i] < 256
    ensures forall i :: 0 <= i < |r| ==> r[i] == '%' || Unescaped(r[i])
  {
    if bytes == [] then []
    else ['%', HexUpper(bytes[0] / 16), HexUpper(bytes[0] % 16)] + PercentEncode(bytes[1..])
  }

  /** How the serializer writes one code point: space as '+', the unescaped set as itself, every
      other code point as its percent-encoded UTF-8 bytes. */
  function EncodeChar(c: char): (r: string)
    ensures r != []
    ensures forall i :: 0 <= i < |r| ==> r[i] == '+' || r[i] == '%' || Unescaped(r[i])
  {
    if c == ' ' then "+" else if Unescaped(c) then [c] else PercentEncode(Utf8(c))
  }

  /** The application/x-www-form-urlencoded encoding of a name or a value. Its output holds no
      '&', '=', '?', '#' or space, so it never breaks the query's structure. */
  function FormEncode(s: string): (r: string)
    ensures r == [] <==> s == []
    ensures forall i :: 0 <= i < |r| ==> r[i] == '+' || r[i] == '%' || Unescaped(r[i])
  {
    if s == [] then [] else EncodeChar(s[0]) + FormEncode(s[1..])
  }

  /** Text made only of unescaped code points is written as it is. */
  lemma {:induction false} FormEncodeUnescaped(s: string)
    requires forall i :: 0 <= i < |s| ==> Unescaped(s[i])
    ensures FormEncode(s) == s
  {
    if s != [] {
      FormEncodeUnescaped(s[1..]);
      assert [s[0]] + s[1..] == s;
    }
  }

  function SerializePair(p: Pair): string {
    FormEncode(p.0) + "=" + FormEncode(p.1)
  }

  function SerializedPairs(pairs: seq<Pair>): (r: seq<string>)
    ensures |r| == |pairs|
    ensures forall i :: 0 <= i < |pairs| ==> r[i] == SerializePair(pairs[i])
  {
    if pairs == [] then [] else [SerializePair(pairs[0])] + SerializedPairs(pairs[1..])
  }

  /** `URLSearchParams.prototype.toString`: each pair as `name=value`, joined with '&'. */
  function Serialize(pairs: seq<Pair>): string {
    Join(SerializedPairs(pairs), '&')
  }

  lemma SerializedPairHasNoAmpersand(p: Pair)
    ensures '&' !in SerializePair(p)
  {
    var s := SerializePair(p);
    assert forall i :: 0 <= i < |s| ==> s[i] != '&';
  }

  /** An empty list serializes to "", and any other list does not: even a pair with an empty
      name and value is written as "=". */
  lemma SerializeEmpty(pairs: seq<Pair>)
    ensures Serialize(pairs) == "" <==> pairs == []
  {
    if pairs != [] {
      var first := SerializePair(pairs[0]);
      assert first != "" by {
        assert first == FormEncode(pairs[0].0) + "=" + FormEncode(pairs[0].1);
      }
      if |pairs| > 1 {
        assert Serialize(pairs) == first + ['&'] + Join(SerializedPairs(pairs)[1..], '&');
      }
    }
  }

  // ---------------------------------------------------------------- reading a query back

  /** The pairs of the pieces: empty pieces are skipped, and each piece is cut at its first '='. */
  function PairsOfPieces(pieces: seq<string>): seq<Pair> {
    if pieces == [] then []
    else (if pieces[0] == "" then [] else [SplitAtFirst(pieces[0], '=')]) + PairsOfPieces(pieces[1..])
  }

  /** Text in which the parser has nothing to decode. */
  predicate Undecoded(q: string) {
    forall i :: 0 <= i < |q| ==> q[i] != '+' && q[i] != '%'
  }

  /** The application/x-www-form-urlencoded parser, for text that holds no '+' and no '%' (so
      that nothing needs decoding): the pieces between '&', each cut at its first '='. */
  function ParseQuery(q: string): seq<Pair>
    requires Undecoded(q)
  {
    PairsOfPieces(Split(q, '&'))
  }

  /** The query of a URL: what follows its first '?'. */
  function QueryOf(url: string): string {
    SplitAtFirst(url, '?').1
  }

  /** Names and values made only of unescaped code points. */
  predicate PlainPairs(pairs: seq<Pair>) {
    forall i :: 0 <= i < |pairs| ==>
      (forall k :: 0 <= k < |pairs[i].0| ==> Unescaped(pairs[i].0[k])) &&
      (forall k :: 0 <= k < |pairs[i].1| ==> Unescaped(pairs[i].1[k]))
  }

  lemma SplitSerializedPair(p: Pair)
    requires forall k :: 0 <= k < |p.0| ==> Unescaped(p.0[k])
    requires forall k :: 0 <= k < |p.1| ==> Unescaped(p.1[k])
    ensures SerializePair(p) != ""
    ensures SplitAtFirst(SerializePair(p), '=') == p
  {
    FormEncodeUnescaped(p.0);
    FormEncodeUnescaped(p.1);
    var s := SerializePair(p);
    assert s == p.0 + ['='] + p.1;
    assert '=' !in p.0 by {
      assert forall k :: 0 <= k < |p.0| ==> p.0[k] != '=';
    }
    SplitAtFirstAfter(p.0, '=', p.1);
  }

  lemma {:induction false} SplitAtFirstAfter(a: string, sep: char, b: string)
    requires sep !in a
    ensures SplitAtFirst(a + [sep] + b, sep) == (a, b)
  {
    if a == [] {
      assert a + [sep] + b == [sep] + b;
      assert ([sep] + b)[1..] == b;
    } else {
      SplitAtFirstAfter(a[1..], sep, b);
      assert (a + [sep] + b)[1..] == a[1..] + [sep] + b;
      assert [a[0]] + a[1..] == a;
    }
  }

  /** A URL whose query is one `name=value` pair: the query is read back as that single pair,
      the value keeping any '=' or '?' it holds. */
  lemma SinglePairQuery(path: string, name: string, value: string)
    requires '?' !in path && '=' !in name
    requires forall i :: 0 <= i < |name| ==> name[i] != '&' && name[i] != '+' && name[i] != '%'
    requires forall i :: 0 <= i < |value| ==> value[i] != '&' && value[i] != '+' && value[i] != '%'
    ensures QueryOf(path + "?" + name + "=" + value) == name + "=" + value
    ensures Undecoded(name + "=" + value)
    ensures ParseQuery(name + "=" + value) == [(name, value)]
  {
    var q := name + "=" + value;
    assert path + "?" + name + "=" + value == path + ['?'] + q;
    SplitAtFirstAfter(path, '?', q);
    assert forall i :: 0 <= i < |q| ==> q[i] != '&' && q[i] != '+' && q[i] != '%' by {
      forall i | 0 <= i < |q| ensures q[i] != '&' && q[i] != '+' && q[i] != '%' {
        if i < |name| { assert q[i] == name[i]; }
        else if i > |name| { assert q[i] == value[i - |name| - 1]; }
      }
    }
    SplitNoSeparator(q, '&', "");
    assert q + "" == q;
    assert Split("", '&') == [""];
    assert Split(q, '&') == [q];
    assert name + ['='] + value == q;
    SplitAtFirstAfter(name, '=', value);
    assert PairsOfPieces([q]) == [SplitAtFirst(q, '=')];
  }

  lemma {:induction false} PairsOfSerialized(pairs: seq<Pair>)
    requires PlainPairs(pairs)
    ensures PairsOfPieces(SerializedPairs(pairs)) == pairs
  {
    if pairs != [] {
      var parts := SerializedPairs(pairs);
      assert PlainPairs(pairs[1..]) by {
        forall i | 0 <= i < |pairs[1..]| ensures pairs[1..][i] == pairs[i + 1] { }
      }
      PairsOfSerialized(pairs[1..]);
      SplitSerializedPair(pairs[0]);
      assert parts[1..] == SerializedPairs(pairs[1..]);
      assert PairsOfPieces(parts) == [pairs[0]] + PairsOfPieces(parts[1..]);
      assert [pairs[0]] + pairs[1..] == pairs;
    }
  }

  /** Pairs whose names and values use only the unescaped code points are read back exactly
      from their serialization: the query a hook pushes carries the pairs it was given. */
  lemma SerializeParseRoundTrip(pairs: seq<Pair>)
    requires PlainPairs(pairs)
    ensures Undecoded(Serialize(pairs))
    ensures ParseQuery(Serialize(pairs)) == pairs
  {
    var parts := SerializedPairs(pairs);
    forall i | 0 <= i < |pairs|
      ensures FormEncode(pairs[i].0) == pairs[i].0 && FormEncode(pairs[i].1) == pairs[i].1
    {
      FormEncodeUnescaped(pairs[i].0);
      FormEncodeUnescaped(pairs[i].1);
    }
    JoinCharacters(parts, '&');
    if pairs == [] {
      assert Serialize(pairs) == "";
    } else {
      forall i | 0 <= i < |parts| ensures '&' !in parts[i] {
        SerializedPairHasNoAmpersand(pairs[i]);
      }
      SplitJoin(parts, '&');
      PairsOfSerialized(pairs);
    }
  }

  /** Every character of a join is the separator or a character of one of the parts; stated here
      for the serializer's alphabet. */
  lemma {:induction false} JoinCharacters(parts: seq<string>, sep: char)
    requires sep == '&'
    requires forall i :: 0 <= i < |parts| ==> forall k :: 0 <= k < |parts[i]| ==> parts[i][k] != '+' && parts[i][k] != '%'
    ensures forall k :: 0 <= k < |Join(parts, sep)| ==> Join(parts, sep)[k] != '+' && Join(parts, sep)[k] != '%'
  {
    if |parts| > 1 {
      JoinCharacters(parts[1..], sep);
    }
  }

  // ---------------------------------------------------------------- URLSearchParams

  /** The values the list holds for `name`, in list order: `getAll(name)`. */
  function Values(list: seq<Pair>, name: string): seq<string> {
    if list == [] then []
    else (if list[0].0 == name then [list[0].1] else []) + Values(list[1..], name)
  }

  lemma ValuesCons(p: Pair, list: seq<Pair>, name: string)
    ensures Values([p] + list, name) == (if p.0 == name then [p.1] else []) + Values(list, name)
  {
    assert ([p] + list)[1..] == list;
  }

  lemma {:induction false} ValuesAppend(list: seq<Pair>, p: Pair, name: string)
    ensures Values(list + [p], name) == Values(list, name) + (if p.0 == name then [p.1] else [])
  {
    if list != [] {
      ValuesAppend(list[1..], p, name);
      assert (list + [p])[1..] == list[1..] + [p];
    }
  }

  lemma {:induction false} ValuesConcat(a: seq<Pair>, b: seq<Pair>, name: string)
    ensures Values(a + b, name) == Values(a, name) + Values(b, name)
  {
    if a == [] {
      assert a + b == b;
    } else {
      ValuesConcat(a[1..], b, name);
      assert (a + b)[1..] == a[1..] + b;
    }
  }

  /** `delete(name)`: removes every pair with that name and keeps the rest in order. */
  function DeleteAll(list: seq<Pair>, name: string): (r: seq<Pair>)
    ensures Values(r, name) == []
    ensures forall other :: other != name ==> Values(r, other) == Values(list, other)
  {
    if list == [] then []
    else if list[0].0 == name then DeleteAll(list[1..], name)
    else
      var r := [list[0]] + DeleteAll(list[1..], name);
      ValuesCons(list[0], DeleteAll(list[1..], name), name);
      forall other | other != name ensures Values(r, other) == Values(list, other) {
        ValuesCons(list[0], DeleteAll(list[1..], name), other);
      }
      r
  }

  /** The first pair with that name gets the new value and the later ones are removed. */
  function ReplaceFirst(list: seq<Pair>, name: string, value: string): (r: seq<Pair>)
    ensures Values(list, name) != [] ==> Values(r, name) == [value]
    ensures forall other :: other != name ==> Values(r, other) == Values(list, other)
  {
    if list == [] then []
    else if list[0].0 == name then
      var r := [(name, value)] + DeleteAll(list[1..], name);
      ValuesCons((name, value), DeleteAll(list[1..], name), name);
      forall other | other != name ensures Values(r, other) == Values(list, other) {
        ValuesCons((name, value), DeleteAll(list[1..], name), other);
      }
      r
    else
      var r := [list[0]] + ReplaceFirst(list[1..], name, value);
      ValuesCons(list[0], ReplaceFirst(list[1..], name, value), name);
      forall other | other != name ensures Values(r, other) == Values(list, other) {
        ValuesCons(list[0], ReplaceFirst(list[1..], name, value), other);
      }
      r
  }

  /** `set(name, value)`: afterwards `name` has exactly the one value `value` (in the place of its
      first pair, or appended when it had none), and every other name keeps its values. */
  function SetPairs(list: seq<Pair>, name: string, value: string): (r: seq<Pair>)
    ensures Values(r, name) == [value]
    ensures forall other :: other != name ==> Values(r, other) == Values(list, other)
  {
    if Values(list, name) == [] then
      ValuesAppend(list, (name, value), name);
      forall other | other != name ensures Values(list + [(name, value)], other) == Values(list, other) {
        ValuesAppend(list, (name, value), other);
      }
      list + [(name, value)]
    else
      ReplaceFirst(list, name, value)
  }

  /** `delete` works pair by pair: the pairs of two lists are filtered separately and keep their
      order. */
  lemma {:induction false} DeleteAllConcat(a: seq<Pair>, b: seq<Pair>, name: string)
    ensures DeleteAll(a + b, name) == DeleteAll(a, name) + DeleteAll(b, name)
  {
    if a == [] {
      assert a + b == b;
    } else {
      DeleteAllConcat(a[1..], b, name);
      assert (a + b)[1..] == a[1..] + b;
    }
  }

  /** `delete` of a name that has no pair leaves the list as it was. */
  lemma {:induction false} DeleteAllAbsent(list: seq<Pair>, name: string)
    requires Values(list, name) == []
    ensures DeleteAll(list, name) == list
  {
    if list != [] {
      ValuesCons(list[0], list[1..], name);
      assert [list[0]] + list[1..] == list;
      DeleteAllAbsent(list[1..], name);
    }
  }

  /** When the first pair with the name is at index `k`, the pairs before it stay as they were,
      that pair takes the new value in its place, and the later pairs with the name go. */
  lemma {:induction false} ReplaceFirstAt(list: seq<Pair>, name: string, value: string, k: nat)
    requires k < |list| && list[k].0 == name && Values(list[..k], name) == []
    ensures ReplaceFirst(list, name, value) == list[..k] + [(name, value)] + DeleteAll(list[k + 1..], name)
  {
    if k > 0 {
      var tail := list[1..];
      assert list[..k] == [list[0]] + tail[..k - 1];
      ValuesCons(list[0], tail[..k - 1], name);
      assert list[0].0 != name;
      ReplaceFirstAt(tail, name, value, k - 1);
      assert tail[k - 1 + 1..] == list[k + 1..];
      assert list[..k] == [list[0]] + tail[..k - 1];
    }
  }

  /** `set` on a name whose first pair is at index `k` keeps that position: before it nothing
      changes, and after it only the pairs with the name are removed. */
  lemma SetPairsAt(list: seq<Pair>, name: string, value: string, k: nat)
    requires k < |list| && list[k].0 == name && Values(list[..k], name) == []
    ensures SetPairs(list, name, value) == list[..k] + [(name, value)] + DeleteAll(list[k + 1..], name)
  {
    assert list == list[..k] + list[k..];
    ValuesConcat(list[..k], list[k..], name);
    ValuesCons(list[k], list[k + 1..], name);
    assert list[k..] == [list[k]] + list[k + 1..];
    ReplaceFirstAt(list, name, value, k);
  }

  /** A browser `URLSearchParams` object, updated in place by `set` and `delete`. */
  class SearchParams {
    var list: seq<Pair>

    /** `new URLSearchParams(...)` over already-parsed pairs. */
    constructor (init: seq<Pair>)
      ensures list == init
    {
      list := init;
    }

    method Set(name: string, value: string)
      modifies this
      ensures list == SetPairs(old(list), name, value)
    {
      list := SetPairs(list, name, value);
    }

    method Delete(name: string)
      modifies this
      ensures list == DeleteAll(old(list), name)
    {
      list := DeleteAll(list, name);
    }

    function ToString(): string
      reads this
    {
      Serialize(list)
    }
  }
}
