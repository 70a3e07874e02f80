/** The JSON text the dashboard writes with `JSON.stringify` and reads with `JSON.parse`, for the
    one shape it uses: an object whose properties all hold strings (the stored user, the banner
    form's `data` field). Stringify follows ECMAScript's QuoteJSONString; the reader accepts
    exactly the text stringify produces, plus the other escapes JSON allows. */
module JsonText {
  import opened Wrappers

  // ---------------------------------------------------------------- writing

  function HexDigitLower(d: nat): (c: char)
    requires d < 16
  {
    if d < 10 then ('0' as int + d) as char else ('a' as int + d - 10) as char
  }

  /** How JSON.stringify writes one character inside a string literal. */
  function EscapeChar(c: char): string {
    if c == '"' then "\\\""
    else if c == '\\' then "\\\\"
    else if c == '\U{8}' then "\\b"
    else if c == '\U{C}' then "\\f"
    else if c == '\n' then "\\n"
    else if c == '\r' then "\\r"
    else if c == '\t' then "\\t"
    else if c < ' ' then "\\u00" + [HexDigitLower(c as int / 16), HexDigitLower(c as int % 16)]
    else [c]
  }

  function Escape(s: string): string {
    if s == [] then [] else EscapeChar(s[0]) + Escape(s[1..])
  }

  /** A JSON string literal. */
  function Quote(s: string): string {
    "\"" + Escape(s) + "\""
  }

  function Member(f: (string, string)): string {
    Quote(f.0) + ":" + Quote(f.1)
  }

  /** The members, comma-separated, followed by the closing brace. */
  function MembersClosed(fs: seq<(string, string)>): string {
    if fs == [] then "}"
    else if |fs| == 1 then Member(fs[0]) + "}"
    else Member(fs[0]) + ("," + MembersClosed(fs[1..]))
  }

  /** `JSON.stringify` of an object whose properties, in order, are `fs`, all holding strings. */
  function StringifyObject(fs: seq<(string, string)>): string {
    "{" + MembersClosed(fs)
  }

  // ---------------------------------------------------------------- reading

  function HexValue(c: char): (r: Option<nat>)
    ensures r.Some? ==> r.value < 16
  {
    if '0' <= c <= '9' then Some(c as int - '0' as int)
    else if 'a' <= c <= 'f' then Some(c as int - 'a' as int + 10)
    else if 'A' <= c <= 'F' then Some(c as int - 'A' as int + 10)
    else None
  }

  /** Reads the escape that follows a backslash: the character it stands for and how many
      characters it takes. A `\u` escape of a lone surrogate has no character and is refused. */
  function ReadEscape(t: string): (r: Option<(char, nat)>)
    ensures r.Some? ==> 1 <= r.value.1 <= |t|
  {
    if t == [] then None
    else if t[0] == '"' then Some(('"', 1))
    else if t[0] == '\\' then Some(('\\', 1))
    else if t[0] == '/' then Some(('/', 1))
    else if t[0] == 'b' then Some(('\U{8}', 1))
    else if t[0] == 'f' then Some(('\U{C}', 1))
    else if t[0] == 'n' then Some(('\n', 1))
    else if t[0] == 'r' then Some(('\r', 1))
    else if t[0] == 't' then Some(('\t', 1))
    else if t[0] == 'u' && |t| >= 5 then
      match (HexValue(t[1]), HexValue(t[2]), HexValue(t[3]), HexValue(t[4]))
      case (Some(a), Some(b), Some(c), Some(d)) =>
        var code := a * 4096 + b * 256 + c * 16 + d;
        if 0xD800 <= code < 0xE000 then None else Some((code as char, 5))
      case _ => None
    else None
  }

  /** Reads a string literal's contents up to and including its closing quote: the decoded
      text, and what follows the quote. Raw control characters are refused, as JSON requires. */
  function ReadStringBody(s: string): (r: Option<(string, string)>)
    ensures r.Some? ==> |r.value.1| < |s|
    decreases |s|
  {
    if s == [] then None
    else if s[0] == '"' then Some(([], s[1..]))
    else if s[0] == '\\' then
      match ReadEscape(s[1..])
      case None => None
      case Some((c, n)) =>
        match ReadStringBody(s[1 + n..])
        case None => None
        case Some((v, rest)) => Some(([c] + v, rest))
    else if s[0] < ' ' then None
    else
      match ReadStringBody(s[1..])
      case None => None
      case Some((v, rest)) => Some(([s[0]] + v, rest))
  }

  /** Reads one string literal at the start of `s`. */
  function ReadString(s: string): (r: Option<(string, string)>)
    ensures r.Some? ==> |r.value.1| < |s|
  {
    if s != [] && s[0] == '"' then ReadStringBody(s[1..]) else None
  }

  /** Reads `"key":"value"` members separated by commas up to the closing brace, which must end
      the text. */
  function ReadMembers(s: string): Option<seq<(string, string)>>
    decreases |s|
  {
    match ReadString(s)
    case None => None
    case Some((k, r1)) =>
      if r1 == [] || r1[0] != ':' then None
      else
        match ReadString(r1[1..])
        case None => None
        case Some((v, r2)) =>
          if r2 == "}" then Some([(k, v)])
          else if r2 != [] && r2[0] == ',' then
            match ReadMembers(r2[1..])
            case None => None
            case Some(more) => Some([(k, v)] + more)
          else None
  }

  /** `JSON.parse` of text holding an object whose properties all hold strings; `None` for any
      other text. */
  function ParseObject(s: string): Option<seq<(string, string)>> {
    if s == "{}" then Some([])
    else if |s| >= 2 && s[0] == '{' then ReadMembers(s[1..])
    else None
  }

  // ---------------------------------------------------------------- round trip

  lemma HexRoundTrip(d: nat)
    requires d < 16
    ensures HexValue(HexDigitLower(d)) == Some(d)
  {
  }

  /** Reading back one escaped character yields that character, then continues after it. */
  lemma ReadEscapedChar(c: char, tail: string)
    ensures ReadStringBody(EscapeChar(c) + tail) ==
      match ReadStringBody(tail)
      case None => None
      case Some((v, rest)) => Some(([c] + v, rest))
  {
    var s := EscapeChar(c) + tail;
    if c == '"' || c == '\\' || c == '\U{8}' || c == '\U{C}' || c == '\n' || c == '\r' || c == '\t' {
      ReadShortEscape(c, tail);
      ReadBodyAfterEscape(s, c, 1, tail);
    } else if c < ' ' {
      ReadUnicodeEscape(c, tail);
      ReadBodyAfterEscape(s, c, 5, tail);
    } else {
      assert s[0] == c && s[1..] == tail;
    }
  }

  /** One step of the reader over an escape sequence. */
  lemma ReadBodyAfterEscape(s: string, c: char, n: nat, tail: string)
    requires 1 <= n && |s| >= 1 + n && s[0] == '\\'
    requires ReadEscape(s[1..]) == Some((c, n)) && s[1 + n..] == tail
    ensures ReadStringBody(s) ==
      match ReadStringBody(tail)
      case None => None
      case Some((v, rest)) => Some(([c] + v, rest))
  {
  }

  /** A quote, a backslash or a control character with a short escape is written as a
      backslash and one letter, and read back from them. */
  lemma ReadShortEscape(c: char, tail: string)
    requires c in {'"', '\\', '\U{8}', '\U{C}', '\n', '\r', '\t'}
    ensures var s := EscapeChar(c) + tail;
      |s| >= 2 && s[0] == '\\' && ReadEscape(s[1..]) == Some((c, 1)) && s[2..] == tail
  {
    var e := EscapeChar(c);
    var s := e + tail;
    assert |e| == 2 && s[0] == '\\' && s[1] == e[1];
    assert s[2..] == tail;
  }

  /** A control character without a short escape is written `\u00XX` and read back from it. */
  lemma ReadUnicodeEscape(c: char, tail: string)
    requires c < ' ' && c !in {'\U{8}', '\U{C}', '\n', '\r', '\t'}
    ensures var s := EscapeChar(c) + tail;
      |s| >= 6 && s[0] == '\\' && ReadEscape(s[1..]) == Some((c, 5)) && s[6..] == tail
  {
    var s := EscapeChar(c) + tail;
    var hi, lo := c as int / 16, c as int % 16;
    HexRoundTrip(hi);
    HexRoundTrip(lo);
    assert s[1..][..5] == ['u', '0', '0', HexDigitLower(hi), HexDigitLower(lo)];
    assert s[6..] == tail;
  }

  /** Escaping then reading back gives the text: the body of every string literal stringify
      writes is read back exactly, up to its closing quote. */
  lemma {:induction false} ReadEscaped(x: string, rest: string)
    ensures ReadStringBody(Escape(x) + "\"" + rest) == Some((x, rest))
  {
    if x == [] {
      assert Escape(x) + "\"" + rest == "\"" + rest;
    } else {
      ReadEscaped(x[1..], rest);
      var tail := Escape(x[1..]) + "\"" + rest;
      assert Escape(x) + "\"" + rest == EscapeChar(x[0]) + tail;
      ReadEscapedChar(x[0], tail);
      assert [x[0]] + x[1..] == x;
    }
  }

  lemma ReadStringAfterQuote(body: string)
    ensures ReadString("\"" + body) == ReadStringBody(body)
  {
    assert ("\"" + body)[1..] == body;
  }

  lemma {:induction false} ReadQuoted(x: string, rest: string)
    ensures ReadString(Quote(x) + rest) == Some((x, rest))
  {
    var body := Escape(x) + "\"" + rest;
    ReadEscaped(x, rest);
    ReadStringAfterQuote(body);
    assert Quote(x) + rest == "\"" + body;
  }

  /** Reading a text that starts with one member written by stringify. */
  lemma {:induction false} ReadOneMember(f: (string, string), tail: string)
    ensures ReadMembers(Member(f) + tail) ==
      if tail == "}" then Some([f])
      else if tail != [] && tail[0] == ',' then
        match ReadMembers(tail[1..])
        case None => None
        case Some(more) => Some([f] + more)
      else None
  {
    var r1 := ":" + Quote(f.1) + tail;
    assert Member(f) + tail == Quote(f.0) + r1;
    ReadQuoted(f.0, r1);
    assert r1[0] == ':' && r1[1..] == Quote(f.1) + tail;
    ReadQuoted(f.1, tail);
  }

  lemma ReadLastMember(f: (string, string))
    ensures ReadMembers(Member(f) + "}") == Some([f])
  {
    ReadOneMember(f, "}");
  }

  lemma ReadMemberThenMore(f: (string, string), more: string, rest: seq<(string, string)>)
    requires ReadMembers(more) == Some(rest)
    ensures ReadMembers(Member(f) + ("," + more)) == Some([f] + rest)
  {
    var tail := "," + more;
    ReadOneMember(f, tail);
    assert tail[0] == ',' && tail != "}";
    assert tail[1..] == more;
  }

  lemma {:induction false} ReadMembersRoundTrip(fs: seq<(string, string)>)
    requires fs != []
    ensures ReadMembers(MembersClosed(fs)) == Some(fs)
  {
    var f, more := fs[0], fs[1..];
    if more == [] {
      assert MembersClosed(fs) == Member(f) + "}";
      ReadLastMember(f);
      assert [f] == fs;
    } else {
      assert MembersClosed(fs) == Member(f) + ("," + MembersClosed(more));
      ReadMembersRoundTrip(more);
      ReadMemberThenMore(f, MembersClosed(more), more);
      assert [f] + more == fs;
    }
  }

  /** Parsing what stringify wrote gives back the same properties in the same order. */
  lemma StringifyParseRoundTrip(fs: seq<(string, string)>)
    ensures ParseObject(StringifyObject(fs)) == Some(fs)
  {
    var s := StringifyObject(fs);
    if fs != [] {
      ReadMembersRoundTrip(fs);
      assert s[1..] == MembersClosed(fs);
      assert MembersClosed(fs)[0] == '"';
      assert s != "{}";
    }
  }

}
