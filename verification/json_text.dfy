/** The part of JSON text that the chat stream uses: JSON.stringify of an object whose
    members are all strings, and the JSON.parse reading of that text. */
module JsonText {
  import opened Wrappers

  /** An object whose members are all strings, in key order. */
  type Members = seq<(string, string)>

  /** A lower-case hexadecimal digit, as JSON.stringify writes it in `\u00XX`. */
  function HexDigit(d: int): (c: char)
    requires 0 <= d < 16
    ensures '0' <= c <= '9' || 'a' <= c <= 'f'
  {
    if d < 10 then ('0' as int + d) as char else ('a' as int + d - 10) as char
  }

  /** The value of a hexadecimal digit of either case. */
  function HexValue(c: char): (r: Option<int>)
    ensures r.Some? ==> 0 <= r.value < 16
    ensures r.Some? <==> '0' <= c <= '9' || 'a' <= c <= 'f' || 'A' <= c <= 'F'
  {
    if '0' <= c <= '9' then Some(c as int - '0' as int)
    else if 'a' <= c <= 'f' then Some(c as int - 'a' as int + 10)
    else if 'A' <= c <= 'F' then Some(c as int - 'A' as int + 10)
    else None
  }

  /** How JSON.stringify writes one character inside a string literal: the quote and the
      backslash are escaped, control characters get their short escape or `\u00XX`. */
  function EscapeChar(c: char): (r: string)
    ensures |r| >= 1
    ensures forall i :: 0 <= i < |r| ==> r[i] >= ' '
    ensures r[0] != '"'
  {
    if c == '"' then ['\\', '"']
    else if c == '\\' then ['\\', '\\']
    else if c == '\U{8}' then ['\\', 'b']
    else if c == '\U{C}' then ['\\', 'f']
    else if c == '\n' then ['\\', 'n']
    else if c == '\r' then ['\\', 'r']
    else if c == '\t' then ['\\', 't']
    else if c < ' ' then ['\\', 'u', '0', '0', HexDigit(c as int / 16), HexDigit(c as int % 16)]
    else [c]
  }

  /** The body of a JSON string literal: no control character (so no line break) survives. */
  function Escape(s: string): string
    decreases |s|
  {
    if s == [] then [] else EscapeChar(s[0]) + Escape(s[1..])
  }

  /** No control character: in particular no line feed. */
  predicate Printable(s: string)
  {
    forall i :: 0 <= i < |s| ==> s[i] >= ' '
  }

  lemma PrintableAppend(a: string, b: string)
    requires Printable(a) && Printable(b)
    ensures Printable(a + b)
  {
    assert forall i :: |a| <= i < |a + b| ==> (a + b)[i] == b[i - |a|];
  }

  lemma {:induction false} EscapeHasNoControl(s: string)
    ensures Printable(Escape(s))
    decreases |s|
  {
    if s != [] {
      EscapeHasNoControl(s[1..]);
      PrintableAppend(EscapeChar(s[0]), Escape(s[1..]));
    }
  }

  /** A JSON string literal. */
  function Quote(s: string): string
  {
    ['"'] + Escape(s) + ['"']
  }

  function MemberText(m: (string, string)): string
  {
    Quote(m.0) + [':'] + Quote(m.1)
  }

  function MembersText(ms: Members): string
    decreases |ms|
  {
    if ms == [] then []
    else if |ms| == 1 then MemberText(ms[0])
    else MemberText(ms[0]) + [','] + MembersText(ms[1..])
  }

  /** JSON.stringify of an object with string members: no whitespace, members in order. */
  function Stringify(ms: Members): (r: string)
    ensures '\n' !in r
  {
    var r := ['{'] + MembersText(ms) + ['}'];
    StringifyHasNoControl(ms);
    PrintableAppend(['{'], MembersText(ms));
    PrintableAppend(['{'] + MembersText(ms), ['}']);
    r
  }

  lemma QuoteHasNoControl(s: string)
    ensures Printable(Quote(s))
  {
    EscapeHasNoControl(s);
    PrintableAppend(['"'], Escape(s));
    PrintableAppend(['"'] + Escape(s), ['"']);
  }

  lemma MemberTextHasNoControl(m: (string, string))
    ensures Printable(MemberText(m))
  {
    QuoteHasNoControl(m.0);
    QuoteHasNoControl(m.1);
    PrintableAppend(Quote(m.0), [':']);
    PrintableAppend(Quote(m.0) + [':'], Quote(m.1));
  }

  lemma {:induction false} StringifyHasNoControl(ms: Members)
    ensures Printable(MembersText(ms))
    decreases |ms|
  {
    if ms != [] {
      MemberTextHasNoControl(ms[0]);
      if |ms| > 1 {
        StringifyHasNoControl(ms[1..]);
        PrintableAppend(MemberText(ms[0]), [',']);
        PrintableAppend(MemberText(ms[0]) + [','], MembersText(ms[1..]));
      }
    }
  }

  /** One escape sequence after a backslash: the character it stands for and how many
      characters it takes. Escapes naming a UTF-16 surrogate are refused, since a surrogate
      is not a character on its own. */
  function DecodeEscape(s: string): (r: Option<(char, nat)>)
    ensures r.Some? ==> 1 <= r.value.1 <= |s|
  {
    if s == [] then None
    else if s[0] == '"' then Some(('"', 1))
    else if s[0] == '\\' then Some(('\\', 1))
    else if s[0] == '/' then Some(('/', 1))
    else if s[0] == 'b' then Some(('\U{8}', 1))
    else if s[0] == 'f' then Some(('\U{C}', 1))
    else if s[0] == 'n' then Some(('\n', 1))
    else if s[0] == 'r' then Some(('\r', 1))
    else if s[0] == 't' then Some(('\t', 1))
    else if s[0] == 'u' && |s| >= 5 then
      match (HexValue(s[1]), HexValue(s[2]), HexValue(s[3]), HexValue(s[4]))
      case (Some(a), Some(b), Some(c), Some(d)) =>
        var high := a * 16 + b;
        assert 0 <= high < 256;
        var code := high * 256 + c * 16 + d;
        assert 0 <= code < 0x1_0000;
        if 0xD800 <= code < 0xE000 then None else Some((code as char, 5))
      case _ => None
    else None
  }

  function Prepend(c: char, r: Option<(string, string)>): Option<(string, string)>
  {
    match r
    case None => None
    case Some((d, rest)) => Some(([c] + d, rest))
  }

  /** Reads the rest of a string literal whose opening quote is already consumed: the decoded
      string and the text after the closing quote. A raw control character is an error. */
  function ParseStringBody(s: string): (r: Option<(string, string)>)
    ensures r.Some? ==> |r.value.1| < |s|
    decreases |s|
  {
    if s == [] then None
    else if s[0] == '"' then Some(([], s[1..]))
    else if s[0] == '\\' then
      match DecodeEscape(s[1..])
      case None => None
      case Some((c, n)) => Prepend(c, ParseStringBody(s[1 + n..]))
    else if s[0] < ' ' then None
    else Prepend(s[0], ParseStringBody(s[1..]))
  }

  /** What follows a string literal is the tail of the text it was read from. */
  lemma {:induction false} StringBodyRest(s: string)
    ensures ParseStringBody(s).Some? ==> ParseStringBody(s).value.1 == s[|s| - |ParseStringBody(s).value.1|..]
    decreases |s|
  {
    if s != [] && s[0] == '\\' {
      match DecodeEscape(s[1..])
      case None =>
      case Some((c, n)) => StringBodyRest(s[1 + n..]);
    } else if s != [] && s[0] != '"' && s[0] >= ' ' {
      StringBodyRest(s[1..]);
    }
  }

  /** Reads `"key":"value"` members separated by commas, up to and including the closing brace,
      which must end the text. */
  function ParseMembers(s: string): (r: Option<Members>)
    ensures r.Some? ==> |r.value| > 0 && |s| > 0 && s[0] == '"' && s[|s| - 1] == '}'
    decreases |s|
  {
    if |s| == 0 || s[0] != '"' then None
    else match ParseStringBody(s[1..])
    case None => None
    case Some((key, afterKey)) =>
      if |afterKey| < 2 || afterKey[0] != ':' || afterKey[1] != '"' then None
      else match ParseStringBody(afterKey[2..])
      case None => None
      case Some((value, afterValue)) =>
        StringBodyRest(s[1..]);
        StringBodyRest(afterKey[2..]);
        if afterValue == ['}'] then Some([(key, value)])
        else if |afterValue| > 0 && afterValue[0] == ',' then
          match ParseMembers(afterValue[1..])
          case None => None
          case Some(more) => Some([(key, value)] + more)
        else None
  }

  /** JSON.parse, for text that denotes an object whose members are all strings (written without
      whitespace); `None` for any other text. */
  function ParseObject(s: string): (r: Option<Members>)
    ensures r.Some? ==> |s| >= 2 && s[0] == '{' && s[|s| - 1] == '}'
    ensures r == Some([]) <==> s == "{}"
    ensures r.Some? && r.value != [] ==> s[1] == '"'
  {
    if |s| < 2 || s[0] != '{' then None
    else if s[1] == '}' then (if |s| == 2 then Some([]) else None)
    else ParseMembers(s[1..])
  }

  lemma HexRoundTrip(d: int)
    requires 0 <= d < 16
    ensures HexValue(HexDigit(d)) == Some(d)
  {
  }

  /** Decoding the escape of one character gives that character back, whatever follows. */
  lemma EscapeCharDecodes(c: char, tail: string)
    ensures ParseStringBody(EscapeChar(c) + tail) == Prepend(c, ParseStringBody(tail))
  {
    var e := EscapeChar(c);
    if c == '"' || c == '\\' || c == '\U{8}' || c == '\U{C}' || c == '\n' || c == '\r' || c == '\t' {
      assert (e + tail)[1..][1..] == tail;
    } else if c < ' ' {
      var u := ['u', '0', '0', HexDigit(c as int / 16), HexDigit(c as int % 16)];
      var s := e + tail;
      assert s[1..] == u + tail;
      UnicodeEscapeDecodes(c, tail);
      assert s[1 + 5..] == tail;
    } else {
      assert (e + tail)[1..] == tail;
    }
  }

  /** A `\u00XX` escape of a control character decodes to it and takes five characters. */
  lemma UnicodeEscapeDecodes(c: char, tail: string)
    requires c < ' '
    ensures DecodeEscape(['u', '0', '0', HexDigit(c as int / 16), HexDigit(c as int % 16)] + tail) == Some((c, 5))
  {
    var hi, lo := c as int / 16, c as int % 16;
    HexRoundTrip(hi);
    HexRoundTrip(lo);
    var s := ['u', '0', '0', HexDigit(hi), HexDigit(lo)] + tail;
    assert s[1] == '0' && s[2] == '0' && s[3] == HexDigit(hi) && s[4] == HexDigit(lo);
  }

  /** Reading back an escaped string up to its closing quote recovers the string and leaves
      exactly the text after the quote. */
  lemma {:induction false} ParseEscaped(s: string, rest: string)
    ensures ParseStringBody(Escape(s) + ['"'] + rest) == Some((s, rest))
    decreases |s|
  {
    if s == [] {
      assert Escape(s) + ['"'] + rest == ['"'] + rest;
    } else {
      var tail := Escape(s[1..]) + ['"'] + rest;
      assert Escape(s) + ['"'] + rest == EscapeChar(s[0]) + tail;
      ParseEscaped(s[1..], rest);
      EscapeCharDecodes(s[0], tail);
      assert [s[0]] + s[1..] == s;
    }
  }

  /** Where the key's and the value's literals sit inside a member's text. */
  lemma MemberTextShape(k: string, v: string, after: string)
    ensures var s := MemberText((k, v)) + after;
      && |s| > 0 && s[0] == '"'
      && s[1..] == Escape(k) + ['"'] + ([':', '"'] + (Escape(v) + ['"'] + after))
  {
    var ek, ev := Escape(k), Escape(v);
    var x := ev + ['"'] + after;
    var s := MemberText((k, v)) + after;
    calc {
      s;
      ['"'] + ek + ['"'] + [':'] + (['"'] + ev + ['"']) + after;
      { Regroup(['"'] + ek + ['"'], [':'], ['"'] + ev + ['"'], after); }
      ['"'] + ek + ['"'] + ([':'] + ((['"'] + ev + ['"']) + after));
      { assert (['"'] + ev + ['"']) + after == ['"'] + x; }
      ['"'] + ek + ['"'] + ([':'] + (['"'] + x));
      { assert [':'] + (['"'] + x) == [':', '"'] + x; }
      ['"'] + ek + ['"'] + ([':', '"'] + x);
      { Regroup(['"'], ek, ['"'], [':', '"'] + x); }
      ['"'] + (ek + (['"'] + ([':', '"'] + x)));
    }
    assert s[1..] == ek + (['"'] + ([':', '"'] + x));
  }

  /** Reading one member back: the key, then the value, then what follows the value. */
  lemma ParseMemberText(k: string, v: string, after: string)
    ensures ParseMembers(MemberText((k, v)) + after) ==
      if after == ['}'] then Some([(k, v)])
      else if |after| > 0 && after[0] == ',' then
        match ParseMembers(after[1..])
        case None => None
        case Some(more) => Some([(k, v)] + more)
      else None
  {
    var x := Escape(v) + ['"'] + after;
    var afterKey := [':', '"'] + x;
    MemberTextShape(k, v, after);
    ParseEscaped(k, afterKey);
    assert afterKey[2..] == x;
    ParseEscaped(v, after);
  }

  lemma ParseLastMember(k: string, v: string)
    ensures ParseMembers(MemberText((k, v)) + ['}']) == Some([(k, v)])
  {
    ParseMemberText(k, v, ['}']);
  }

  lemma ParseMemberThenMore(k: string, v: string, rest: string, more: Members)
    requires ParseMembers(rest) == Some(more)
    ensures ParseMembers(MemberText((k, v)) + ([','] + rest)) == Some([(k, v)] + more)
  {
    var after := [','] + rest;
    ParseMemberText(k, v, after);
    assert after[1..] == rest;
    assert after != ['}'];
  }

  lemma {:induction false} ParseMembersText(ms: Members)
    requires |ms| >= 1
    ensures ParseMembers(MembersText(ms) + ['}']) == Some(ms)
    decreases |ms|
  {
    var k, v := ms[0].0, ms[0].1;
    if |ms| == 1 {
      ParseLastMember(k, v);
      assert ms == [(k, v)];
    } else {
      var rest := MembersText(ms[1..]) + ['}'];
      ParseMembersText(ms[1..]);
      MembersTextCons(ms);
      ParseMemberThenMore(k, v, rest, ms[1..]);
      assert [(k, v)] + ms[1..] == ms;
    }
  }

  lemma MembersTextCons(ms: Members)
    requires |ms| > 1
    ensures MembersText(ms) + ['}'] == MemberText(ms[0]) + ([','] + (MembersText(ms[1..]) + ['}']))
  {
    var a, b := MemberText(ms[0]), MembersText(ms[1..]);
    assert MembersText(ms) == a + [','] + b;
    Regroup(a, [','], b, ['}']);
  }

  lemma Regroup(a: string, b: string, c: string, d: string)
    ensures a + b + c + d == a + (b + (c + d))
  {
  }

  /** JSON.parse inverts JSON.stringify on objects with string members. */
  lemma StringifyRoundTrip(ms: Members)
    ensures ParseObject(Stringify(ms)) == Some(ms)
  {
    var s := Stringify(ms);
    if ms == [] {
      assert s == "{}";
    } else {
      ParseMembersText(ms);
      assert s[1..] == MembersText(ms) + ['}'];
      assert s[0] == '{' && s[1] == '"';
      assert ParseObject(s) == ParseMembers(s[1..]);
    }
  }
}
