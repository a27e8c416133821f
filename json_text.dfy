/** JSON values passed through by the services (request metadata), and the text
    `json.dumps` produces for an object whose members are all strings (the JSON Lines index
    entries). Python's default
    `ensure_ascii=True` escaping is modelled: every character outside space to `~` is
    written as an escape, so the text is printable ASCII. */
module JsonText {
  import opened Outcomes
  import opened Text

  datatype Json =
    | JNull
    | JBool(b: bool)
    | JInt(i: int)
    | JReal(r: real)
    | JStr(s: string)
    | JObj(members: seq<(string, Json)>)

  predicate IsPrintableAscii(c: char) {
    ' ' <= c <= '~'
  }

  /** A lower-case hex digit. */
  function HexDigit(d: nat): (c: char)
    requires d < 16
    ensures IsPrintableAscii(c)
    ensures HexValue(c) == Some(d)
  {
    if d < 10 then ('0' as int + d) as char else ('a' as int + d - 10) as char
  }

  /** The value of a hex digit of either case. */
  function HexValue(c: char): (v: Option<nat>)
    ensures v.Some? <==> '0' <= c <= '9' || 'a' <= c <= 'f' || 'A' <= c <= 'F'
    ensures v.Some? ==> v.value < 16
  {
    if '0' <= c <= '9' then Some(c as int - '0' as int)
    else if 'a' <= c <= 'f' then Some(c as int - 'a' as int + 10)
    else if 'A' <= c <= 'F' then Some(c as int - 'A' as int + 10)
    else None
  }

  /** `\uXXXX` with four lower-case hex digits. */
  function UnicodeEscape(n: nat): (s: string)
    requires n < 0x10000
    ensures |s| == 6 && s[..2] == "\\u" && forall i :: 0 <= i < |s| ==> IsPrintableAscii(s[i])
    ensures HexQuad(s[2..]) == Some(n)
  {
    var r := n % 0x1000;
    var a, b, c, d := n / 0x1000, r / 0x100, r % 0x100 / 0x10, r % 0x10;
    HexQuadOfDigits(a, b, c, d);
    ['\\', 'u', HexDigit(a), HexDigit(b), HexDigit(c), HexDigit(d)]
  }

  /** Four hex digits read back as the number they write. */
  lemma HexQuadOfDigits(a: nat, b: nat, c: nat, d: nat)
    requires a < 16 && b < 16 && c < 16 && d < 16
    ensures var s := ['\\', 'u', HexDigit(a), HexDigit(b), HexDigit(c), HexDigit(d)];
      s[..2] == "\\u" && HexQuad(s[2..]) == Some(a * 0x1000 + b * 0x100 + c * 0x10 + d)
  {
    var s := ['\\', 'u', HexDigit(a), HexDigit(b), HexDigit(c), HexDigit(d)];
    assert s[2..] == [HexDigit(a), HexDigit(b), HexDigit(c), HexDigit(d)];
  }

  /** Four hex digits read as a number below 0x10000. */
  function HexQuad(s: string): (n: Option<nat>)
    requires |s| == 4
    ensures n.Some? ==> n.value < 0x10000
  {
    match (HexValue(s[0]), HexValue(s[1]), HexValue(s[2]), HexValue(s[3]))
    case (Some(a), Some(b), Some(c), Some(d)) => Some(a * 0x1000 + b * 0x100 + c * 0x10 + d)
    case _ => None
  }

  /** The escape `json.dumps` writes for one character of a string. */
  function EscapeChar(c: char): (s: string)
    ensures forall i :: 0 <= i < |s| ==> IsPrintableAscii(s[i])
    ensures |s| >= 1
  {
    if IsPrintableAscii(c) then
      if c == '\\' then "\\\\" else if c == '"' then "\\\"" else [c]
    else if (c as int) >= 0x10000 then SurrogateEscape(c as int - 0x10000)
    else if c == '\n' then "\\n"
    else if c == '\r' then "\\r"
    else if c == '\t' then "\\t"
    else if c == '\U{8}' then "\\b"
    else if c == '\U{C}' then "\\f"
    else UnicodeEscape(c as int)
  }

  /** A character beyond the Basic Multilingual Plane, `0x10000 + n`, is written as the
      escapes of its UTF-16 surrogate pair. */
  function SurrogateEscape(n: nat): (s: string)
    requires n < 0x100000
    ensures |s| == 12 && forall i :: 0 <= i < |s| ==> IsPrintableAscii(s[i])
  {
    UnicodeEscape(0xD800 + n / 0x400) + UnicodeEscape(0xDC00 + n % 0x400)
  }

  function EscapeString(s: string): (r: string)
    ensures forall i :: 0 <= i < |r| ==> IsPrintableAscii(r[i])
    ensures |r| >= |s|
  {
    if s == [] then [] else EscapeChar(s[0]) + EscapeString(s[1..])
  }

  /** A string literal: the escaped characters between double quotes. */
  function Quote(s: string): (r: string)
    ensures forall i :: 0 <= i < |r| ==> IsPrintableAscii(r[i])
  {
    "\"" + EscapeString(s) + "\""
  }

  /** The character a two-character escape `\\x` stands for, for every `x` but `u`. */
  function Unescaped(x: char): (c: Option<char>)
    ensures c.Some? <==> x in "\"\\/bfnrt"
  {
    if x == '"' then Some('"')
    else if x == '\\' then Some('\\')
    else if x == '/' then Some('/')
    else if x == 'b' then Some('\U{8}')
    else if x == 'f' then Some('\U{C}')
    else if x == 'n' then Some('\n')
    else if x == 'r' then Some('\r')
    else if x == 't' then Some('\t')
    else None
  }

  /** `c` in front of the characters a successful parse decoded. */
  function Prepend(c: char, r: Option<(string, string)>): Option<(string, string)> {
    if r.Some? then Some(([c] + r.value.0, r.value.1)) else None
  }

  /** Reads the characters of a string literal up to and including its closing quote, as a
      JSON decoder does (section 7 of RFC 8259): the decoded characters and the text after
      the quote. A raw control character, an unknown escape, or a surrogate that is not
      part of a high-low pair is an error. */
  function ParseChars(t: string): (r: Option<(string, string)>)
    ensures r.Some? ==> |r.value.1| < |t|
    decreases |t|
  {
    if t == [] || t[0] < ' ' then None
    else if t[0] == '"' then Some(([], t[1..]))
    else if t[0] != '\\' then Prepend(t[0], ParseChars(t[1..]))
    else if |t| < 2 then None
    else if Unescaped(t[1]).Some? then Prepend(Unescaped(t[1]).value, ParseChars(t[2..]))
    else if t[1] != 'u' || |t| < 6 || HexQuad(t[2..6]).None? then None
    else
      var n := HexQuad(t[2..6]).value;
      if n < 0xD800 || 0xE000 <= n then Prepend(n as char, ParseChars(t[6..]))
      else if 0xDC00 <= n || |t| < 12 || t[6..8] != "\\u" || HexQuad(t[8..12]).None? then None
      else
        var m := HexQuad(t[8..12]).value;
        if m < 0xDC00 || 0xE000 <= m then None
        else Prepend((0x10000 + (n - 0xD800) * 0x400 + (m - 0xDC00)) as char, ParseChars(t[12..]))
  }

  /** Reads a string literal at the start of `t`: its value and the text after it. */
  function ParseString(t: string): (r: Option<(string, string)>)
    ensures r.Some? ==> |r.value.1| < |t|
  {
    if t != [] && t[0] == '"' then ParseChars(t[1..]) else None
  }

  /** Reads `"key": "value"` members separated by `", "` up to the closing brace, which
      must end the text. */
  function ParseMembers(t: string): (r: Option<seq<(string, string)>>)
    ensures r.Some? ==> r.value != []
    decreases |t|
  {
    var key := ParseString(t);
    if key.None? || |key.value.1| < 2 || key.value.1[..2] != ": " then None
    else
      var value := ParseString(key.value.1[2..]);
      if value.None? then None
      else
        var after := value.value.1;
        if after == "}" then Some([(key.value.0, value.value.0)])
        else if |after| < 2 || after[..2] != ", " then None
        else
          var rest := ParseMembers(after[2..]);
          if rest.None? then None else Some([(key.value.0, value.value.0)] + rest.value)
  }

  /** Reads the text of an object whose values are all strings, as `json.dumps` writes it
      with its default separators. */
  function ParseObject(t: string): (r: Option<seq<(string, string)>>)
    ensures t == "{}" ==> r == Some([])
  {
    if t == "{}" then Some([])
    else if t != [] && t[0] == '{' then ParseMembers(t[1..])
    else None
  }

  /** The members after the first, each preceded by the default separator `", "`. */
  function MembersText(members: seq<(string, string)>): (r: string)
    ensures forall i :: 0 <= i < |r| ==> IsPrintableAscii(r[i])
    ensures members != [] ==> |r| >= 6
  {
    if members == [] then ""
    else
      var rest := MembersText(members[1..]);
      var sep := if |members| > 1 then ", " else "";
      Quote(members[0].0) + ": " + Quote(members[0].1) + sep + rest
  }

  /** `json.dumps(obj)` for an object whose values are strings. */
  function DumpsStrings(members: seq<(string, string)>): (r: string)
    ensures |r| >= 2 && r[0] == '{' && r[|r| - 1] == '}'
    ensures forall i :: 0 <= i < |r| ==> IsPrintableAscii(r[i])
    ensures ParseObject(r) == Some(members)
  {
    DumpsRoundTrip(members);
    "{" + MembersText(members) + "}"
  }

  /** `json.dumps(entry) + "\n"`: a JSON Lines record that reads back as `members`. */
  function DumpsLine(members: seq<(string, string)>): (line: string)
    ensures Count(line, '\n') == 1 && EndsWith(line, "\n")
    ensures ParseObject(line[..|line| - 1]) == Some(members)
  {
    var line := DumpsStrings(members) + "\n";
    DumpedLineIsOneLine(members);
    assert line[..|line| - 1] == DumpsStrings(members);
    line
  }

  /** A printable character other than `"` and `\\` reads back as itself. */
  lemma ParsePlain(c: char, t: string)
    requires ' ' <= c && c != '"' && c != '\\'
    ensures ParseChars([c] + t) == Prepend(c, ParseChars(t))
  {
    assert ([c] + t)[1..] == t;
  }

  /** A two-character escape reads back as the character it stands for. */
  lemma ParseShortEscape(x: char, t: string)
    requires Unescaped(x).Some?
    ensures ParseChars(['\\', x] + t) == Prepend(Unescaped(x).value, ParseChars(t))
  {
    assert (['\\', x] + t)[2..] == t;
  }

  /** `\uXXXX` outside the surrogates reads back as that character. */
  lemma ParseBmpEscape(e: string, n: nat, t: string)
    requires |e| == 6 && e[..2] == "\\u" && HexQuad(e[2..]) == Some(n) && (n < 0xD800 || 0xE000 <= n)
    ensures ParseChars(e + t) == Prepend(n as char, ParseChars(t))
  {
    var u := e + t;
    assert u[0] == '\\' && u[1] == 'u' && u[2..6] == e[2..] && u[6..] == t;
  }

  /** A high surrogate escape followed by a low one reads back as the character they encode. */
  lemma ParsePairEscape(high: string, low: string, n: nat, m: nat, t: string)
    requires |high| == 6 && high[..2] == "\\u" && HexQuad(high[2..]) == Some(n) && 0xD800 <= n < 0xDC00
    requires |low| == 6 && low[..2] == "\\u" && HexQuad(low[2..]) == Some(m) && 0xDC00 <= m < 0xE000
    ensures ParseChars(high + low + t) == Prepend((0x10000 + (n - 0xD800) * 0x400 + (m - 0xDC00)) as char, ParseChars(t))
  {
    var u := high + low + t;
    assert u[0] == '\\' && u[1] == 'u' && u[2..6] == high[2..];
    assert u[6..8] == low[..2] && u[8..12] == low[2..] && u[12..] == t;
  }

  /** Reading back the escape of `c` yields `c`, then goes on with what follows. */
  lemma ParseEscapedChar(c: char, t: string)
    ensures ParseChars(EscapeChar(c) + t) == Prepend(c, ParseChars(t))
  {
    if c == '\\' || c == '"' || c == '\n' || c == '\r' || c == '\t' || c == '\U{8}' || c == '\U{C}' {
      ParseShortEscape(EscapeChar(c)[1], t);
    } else if IsPrintableAscii(c) {
      ParsePlain(c, t);
    } else if (c as int) < 0x10000 {
      ParseBmpEscape(UnicodeEscape(c as int), c as int, t);
    } else {
      ParseSurrogatePair(c, t);
    }
  }

  /** A character beyond the Basic Multilingual Plane reads back from its surrogate pair. */
  lemma ParseSurrogatePair(c: char, t: string)
    requires (c as int) >= 0x10000
    ensures ParseChars(EscapeChar(c) + t) == Prepend(c, ParseChars(t))
  {
    var n := c as int - 0x10000;
    var high, low := 0xD800 + n / 0x400, 0xDC00 + n % 0x400;
    EscapesAsPair(c);
    PairDecodes(n);
    ParsePairEscape(UnicodeEscape(high), UnicodeEscape(low), high, low, t);
  }

  lemma EscapesAsPair(c: char)
    requires (c as int) >= 0x10000
    ensures EscapeChar(c) == SurrogateEscape(c as int - 0x10000)
  {
  }

  /** The surrogate pair of `0x10000 + n` combines back to `0x10000 + n`. */
  lemma PairDecodes(n: nat)
    requires n < 0x100000
    ensures 0x10000 + ((0xD800 + n / 0x400) - 0xD800) * 0x400 + ((0xDC00 + n % 0x400) - 0xDC00) == 0x10000 + n
  {
  }

  /** Reading back an escaped string and its closing quote yields the string. */
  lemma {:induction false} ParseEscapedString(s: string, t: string)
    ensures ParseChars(EscapeString(s) + "\"" + t) == Some((s, t))
  {
    if s == [] {
      assert EscapeString(s) + "\"" + t == "\"" + t;
    } else {
      var rest := EscapeString(s[1..]) + "\"" + t;
      assert EscapeString(s) + "\"" + t == EscapeChar(s[0]) + rest;
      ParseEscapedChar(s[0], rest);
      ParseEscapedString(s[1..], t);
      assert [s[0]] + s[1..] == s;
    }
  }

  /** A quoted string reads back as itself, followed by whatever came after it. */
  lemma ParseQuote(s: string, t: string)
    ensures ParseString(Quote(s) + t) == Some((s, t))
  {
    assert (Quote(s) + t)[1..] == EscapeString(s) + "\"" + t;
    ParseEscapedString(s, t);
  }

  /** A member read as key, `": "` and value, then what follows it: the closing brace ends
      the list, `", "` goes on with the next member. */
  lemma ParseMemberAt(t: string, key: string, afterKey: string, value: string, more: string)
    requires ParseString(t) == Some((key, afterKey))
    requires |afterKey| >= 2 && afterKey[..2] == ": " && ParseString(afterKey[2..]) == Some((value, more))
    ensures more == "}" ==> ParseMembers(t) == Some([(key, value)])
    ensures |more| >= 2 && more[..2] == ", " && ParseMembers(more[2..]).Some? ==>
      ParseMembers(t) == Some([(key, value)] + ParseMembers(more[2..]).value)
  {
  }

  /** One quoted member, then what follows it. */
  lemma ParseMemberStep(key: string, value: string, more: string)
    ensures var r := ParseMembers(Quote(key) + ": " + Quote(value) + more);
      && (more == "}" ==> r == Some([(key, value)]))
      && (|more| >= 2 && more[..2] == ", " && ParseMembers(more[2..]).Some? ==>
            r == Some([(key, value)] + ParseMembers(more[2..]).value))
  {
    var afterKey := ": " + Quote(value) + more;
    ParseKey(key, value, more);
    ParseValue(value, more);
    ParseMemberAt(Quote(key) + ": " + Quote(value) + more, key, afterKey, value, more);
  }

  lemma ParseKey(key: string, value: string, more: string)
    ensures ParseString(Quote(key) + ": " + Quote(value) + more) == Some((key, ": " + Quote(value) + more))
  {
    assert Quote(key) + ": " + Quote(value) + more == Quote(key) + (": " + Quote(value) + more);
    ParseQuote(key, ": " + Quote(value) + more);
  }

  lemma ParseValue(value: string, more: string)
    ensures var afterKey := ": " + Quote(value) + more;
      |afterKey| >= 2 && afterKey[..2] == ": " && ParseString(afterKey[2..]) == Some((value, more))
  {
    assert (": " + Quote(value) + more)[2..] == Quote(value) + more;
    ParseQuote(value, more);
  }

  /** The members' text, closed by the brace, reads back as the members. */
  lemma {:induction false} MembersRoundTrip(members: seq<(string, string)>)
    requires members != []
    ensures ParseMembers(MembersText(members) + "}") == Some(members)
  {
    var more := MembersTextAfterFirst(members);
    ParseMemberStep(members[0].0, members[0].1, more);
    if |members| > 1 {
      MembersRoundTrip(members[1..]);
      assert ParseMembers(more[2..]) == Some(members[1..]);
      assert [(members[0].0, members[0].1)] + members[1..] == members;
    } else {
      assert [(members[0].0, members[0].1)] == members;
    }
  }

  /** The first member's text, then the brace or `", "` and the text of the others. */
  lemma MembersTextAfterFirst(members: seq<(string, string)>) returns (more: string)
    requires members != []
    ensures MembersText(members) + "}" == Quote(members[0].0) + ": " + Quote(members[0].1) + more
    ensures |members| == 1 ==> more == "}"
    ensures |members| > 1 ==> |more| >= 2 && more[..2] == ", " && more[2..] == MembersText(members[1..]) + "}"
  {
    var first := Quote(members[0].0) + ": " + Quote(members[0].1);
    if |members| > 1 {
      var rest := MembersText(members[1..]);
      more := ", " + rest + "}";
      assert MembersText(members) == first + ", " + rest;
      assert first + ", " + rest + "}" == first + more;
      assert more[2..] == rest + "}";
    } else {
      more := "}";
      assert MembersText(members) == first;
    }
  }

  /** The text of an object reads back as its members. */
  lemma DumpsRoundTrip(members: seq<(string, string)>)
    ensures ParseObject("{" + MembersText(members) + "}") == Some(members)
  {
    var r := "{" + MembersText(members) + "}";
    if members == [] {
      assert r == "{}";
    } else {
      assert r[1..] == MembersText(members) + "}" && |r| > 2;
      MembersRoundTrip(members);
    }
  }

  /** Printable ASCII text holds no line break. */
  lemma {:induction false} PrintableHasNoNewline(s: string)
    requires forall i :: 0 <= i < |s| ==> IsPrintableAscii(s[i])
    ensures Count(s, '\n') == 0
  {
    if s != [] {
      assert forall i :: 0 <= i < |s| - 1 ==> s[1..][i] == s[i + 1];
      PrintableHasNoNewline(s[1..]);
    }
  }

  /** `json.dumps(entry) + "\n"` is exactly one JSON Lines record: it holds one line break,
      at its end. */
  lemma DumpedLineIsOneLine(members: seq<(string, string)>)
    ensures Count(DumpsStrings(members) + "\n", '\n') == 1
  {
    var line := DumpsStrings(members);
    PrintableHasNoNewline(line);
    CountConcat(line, "\n", '\n');
    assert Count("\n", '\n') == 1 by {
      assert "\n"[0] == '\n' && "\n"[1..] == [];
    }
  }
}
