/** JSON text for the flat, string-valued records the flow persists
    (`{ fullName, email, phone }` and `{ entry1, …, entry5 }`).

    The encoder produces exactly what `JSON.stringify` produces for such a
    record: members in insertion order, no whitespace, and each string
    quoted with the escapes of the ECMAScript QuoteJSONString operation. The
    decoder reads that layout back, accepting every escape JSON allows inside
    a string, and fails on anything else. `ObjectRoundTrip` proves that
    decoding what was encoded gives back the same field values. */
module Json {
  import opened Base

  /** Lower-case hexadecimal digit, as QuoteJSONString writes them. */
  function HexDigit(d: nat): char
    requires d < 16
  {
    if d < 10 then ('0' as int + d) as char else ('a' as int + d - 10) as char
  }

  /** The value of a hexadecimal digit of either case. */
  function HexValue(c: char): (r: Option<nat>)
    ensures r.Some? ==> r.value < 16
  {
    if '0' <= c <= '9' then Some(c as int - '0' as int)
    else if 'a' <= c <= 'f' then Some(c as int - 'a' as int + 10)
    else if 'A' <= c <= 'F' then Some(c as int - 'A' as int + 10)
    else None
  }

  lemma HexDigitValue(d: nat)
    requires d < 16
    ensures HexValue(HexDigit(d)) == Some(d)
  {
  }

  /** How one character of a string is written between the quotes. */
  function EscapeChar(c: char): string
  {
    var n := c as int;
    if c == '"' then ['\\', '"']
    else if c == '\\' then ['\\', '\\']
    else if n == 8 then ['\\', 'b']
    else if n == 9 then ['\\', 't']
    else if n == 10 then ['\\', 'n']
    else if n == 12 then ['\\', 'f']
    else if n == 13 then ['\\', 'r']
    else if n < 0x20 then ['\\', 'u', '0', '0', HexDigit(n / 16), HexDigit(n % 16)]
    else [c]
  }

  function Escape(s: string): string
  {
    if s == [] then [] else EscapeChar(s[0]) + Escape(s[1..])
  }

  /** `JSON.stringify(s)` for a string `s`. */
  function Quote(s: string): string
  {
    ['"'] + Escape(s) + ['"']
  }

  /** One escape sequence, given what follows the backslash: the character
      it stands for and the text after it. A `\u` escape naming a lone
      surrogate has no character of its own and is refused. */
  function ParseEscape(t: string): (r: Option<(char, string)>)
    ensures r.Some? ==> |r.value.1| < |t|
  {
    if t == [] then None
    else if t[0] == '"' then Some(('"', t[1..]))
    else if t[0] == '\\' then Some(('\\', t[1..]))
    else if t[0] == '/' then Some(('/', t[1..]))
    else if t[0] == 'b' then Some((8 as char, t[1..]))
    else if t[0] == 't' then Some((9 as char, t[1..]))
    else if t[0] == 'n' then Some((10 as char, t[1..]))
    else if t[0] == 'f' then Some((12 as char, t[1..]))
    else if t[0] == 'r' then Some((13 as char, t[1..]))
    else if t[0] == 'u' && |t| >= 5 then
      match (HexValue(t[1]), HexValue(t[2]), HexValue(t[3]), HexValue(t[4]))
      case (Some(a), Some(b), Some(c), Some(d)) =>
        var n := ((a * 16 + b) * 16 + c) * 16 + d;
        if 0xD800 <= n < 0xE000 then None else Some((n as char, t[5..]))
      case _ => None
    else None
  }

  function Prepend(c: char, r: Option<(string, string)>): Option<(string, string)>
  {
    match r
    case None => None
    case Some((v, rest)) => Some(([c] + v, rest))
  }

  /** The body of a string literal whose opening quote has been read: the
      decoded characters and the text after the closing quote. Raw control
      characters and unknown escapes are errors, as in `JSON.parse`. */
  function ParseStringTail(s: string): Option<(string, string)>
    decreases |s|
  {
    if s == [] then None
    else if s[0] == '"' then Some(([], s[1..]))
    else if s[0] == '\\' then
      match ParseEscape(s[1..])
      case None => None
      case Some((c, rest)) => Prepend(c, ParseStringTail(rest))
    else if (s[0] as int) < 0x20 then None
    else Prepend(s[0], ParseStringTail(s[1..]))
  }

  /** A string literal at the start of `s`, and the text after it. */
  function ParseString(s: string): Option<(string, string)>
  {
    if s != [] && s[0] == '"' then ParseStringTail(s[1..]) else None
  }

  lemma EscapeCharRoundTrip(c: char, t: string)
    ensures ParseStringTail(EscapeChar(c) + t) == Prepend(c, ParseStringTail(t))
  {
    var n := c as int;
    var s := EscapeChar(c) + t;
    if c != '"' && c != '\\' && n != 8 && n != 9 && n != 10 && n != 12 && n != 13 && n < 0x20 {
      HexDigitValue(n / 16);
      HexDigitValue(n % 16);
      assert s[1..] == ['u', '0', '0', HexDigit(n / 16), HexDigit(n % 16)] + t;
      assert ParseEscape(s[1..]) == Some((c, t));
    } else if c == '"' || c == '\\' || n == 8 || n == 9 || n == 10 || n == 12 || n == 13 {
      assert s[1..] == EscapeChar(c)[1..] + t;
      assert ParseEscape(s[1..]) == Some((c, t));
    } else {
      assert s[1..] == t;
    }
  }

  /** Reading back an escaped string stops exactly at its closing quote and
      yields the original characters. */
  lemma {:induction false} EscapeRoundTrip(s: string, rest: string)
    ensures ParseStringTail(Escape(s) + ['"'] + rest) == Some((s, rest))
  {
    if s == [] {
      assert Escape(s) + ['"'] + rest == ['"'] + rest;
    } else {
      var tail := Escape(s[1..]) + ['"'] + rest;
      assert Escape(s) + ['"'] + rest == EscapeChar(s[0]) + tail;
      EscapeCharRoundTrip(s[0], tail);
      EscapeRoundTrip(s[1..], rest);
      assert [s[0]] + s[1..] == s;
    }
  }

  lemma QuoteRoundTrip(s: string, rest: string)
    ensures ParseString(Quote(s) + rest) == Some((s, rest))
  {
    var q := Quote(s) + rest;
    assert q[1..] == Escape(s) + ['"'] + rest;
    EscapeRoundTrip(s, rest);
  }

  /** `"key":value` as `JSON.stringify` writes a member. */
  function Member(key: string, value: string): string
  {
    Quote(key) + [':'] + Quote(value)
  }

  function EncodeMembers(keys: seq<string>, values: seq<string>): string
    requires |keys| == |values|
  {
    if keys == [] then []
    else Member(keys[0], values[0])
         + (if |keys| == 1 then [] else [','] + EncodeMembers(keys[1..], values[1..]))
  }

  /** `JSON.stringify` of a record whose members, in order, are `keys` with
      string values `values`. */
  function EncodeObject(keys: seq<string>, values: seq<string>): (r: string)
    requires |keys| == |values|
    ensures |r| >= 2 && r[0] == '{' && r[|r| - 1] == '}'
  {
    ['{'] + EncodeMembers(keys, values) + ['}']
  }

  /** A member named `key` at the start of `s`: its value and what follows. */
  function DecodeMember(key: string, s: string): Option<(string, string)>
  {
    match ParseString(s)
    case None => None
    case Some((k, r)) =>
      if k != key || r == [] || r[0] != ':' then None else ParseString(r[1..])
  }

  function DecodeMembers(keys: seq<string>, s: string): (r: Option<(seq<string>, string)>)
    ensures r.Some? ==> |r.value.0| == |keys|
    decreases |keys|
  {
    if keys == [] then Some(([], s))
    else
      match DecodeMember(keys[0], s)
      case None => None
      case Some((v, r)) =>
        if |keys| == 1 then Some(([v], r))
        else if r == [] || r[0] != ',' then None
        else
          match DecodeMembers(keys[1..], r[1..])
          case None => None
          case Some((vs, r')) => Some(([v] + vs, r'))
  }

  /** `JSON.parse` of a record with exactly the members `keys`, in order,
      each holding a string; `None` where the text is not such a record. */
  function DecodeObject(keys: seq<string>, s: string): (r: Option<seq<string>>)
    ensures r.Some? ==> |r.value| == |keys|
    ensures s == [] || s[0] != '{' ==> r == None
  {
    if s == [] || s[0] != '{' then None
    else
      match DecodeMembers(keys, s[1..])
      case None => None
      case Some((vs, r)) => if r == ['}'] then Some(vs) else None
  }

  lemma MemberRoundTrip(key: string, value: string, rest: string)
    ensures DecodeMember(key, Member(key, value) + rest) == Some((value, rest))
  {
    var s := Member(key, value) + rest;
    var after := [':'] + (Quote(value) + rest);
    ConcatAssoc(Quote(key) + [':'], Quote(value), rest);
    ConcatAssoc(Quote(key), [':'], Quote(value) + rest);
    assert s == Quote(key) + after;
    QuoteRoundTrip(key, after);
    assert after[1..] == Quote(value) + rest;
    QuoteRoundTrip(value, rest);
    DecodeMemberOf(key, s, after, value, rest);
  }

  /** `DecodeMember` reads the key, the colon and the value in turn. */
  lemma DecodeMemberOf(key: string, s: string, after: string, value: string, rest: string)
    requires ParseString(s) == Some((key, after))
    requires after != [] && after[0] == ':'
    requires ParseString(after[1..]) == Some((value, rest))
    ensures DecodeMember(key, s) == Some((value, rest))
  {
  }

  /** One step of `DecodeMembers` past a member that was read successfully. */
  lemma DecodeMembersStep(keys: seq<string>, s: string, v: string, r: string)
    requires |keys| >= 2 && DecodeMember(keys[0], s) == Some((v, r))
    requires r != [] && r[0] == ','
    ensures DecodeMembers(keys, s) ==
      match DecodeMembers(keys[1..], r[1..])
      case None => None
      case Some((vs, r')) => Some(([v] + vs, r'))
  {
  }

  lemma {:induction false} MembersRoundTrip(keys: seq<string>, values: seq<string>, rest: string)
    requires |keys| == |values|
    ensures DecodeMembers(keys, EncodeMembers(keys, values) + rest) == Some((values, rest))
    decreases |keys|
  {
    if keys == [] {
      assert EncodeMembers(keys, values) + rest == rest;
    } else if |keys| == 1 {
      LastMemberRoundTrip(keys, values, rest);
    } else {
      var first := Member(keys[0], values[0]);
      var later := EncodeMembers(keys[1..], values[1..]);
      var more := [','] + later + rest;
      assert EncodeMembers(keys, values) == first + ([','] + later);
      ConcatAssoc(first, [','] + later, rest);
      MemberRoundTrip(keys[0], values[0], more);
      ConcatAssoc([','], later, rest);
      MembersRoundTrip(keys[1..], values[1..], rest);
      DecodeMembersStep(keys, first + more, values[0], more);
      assert [values[0]] + values[1..] == values;
    }
  }

  lemma ConcatAssoc(a: string, b: string, c: string)
    ensures (a + b) + c == a + (b + c)
  {
  }

  lemma LastMemberRoundTrip(keys: seq<string>, values: seq<string>, rest: string)
    requires |keys| == |values| == 1
    ensures DecodeMembers(keys, EncodeMembers(keys, values) + rest) == Some((values, rest))
  {
    assert EncodeMembers(keys, values) == Member(keys[0], values[0]);
    MemberRoundTrip(keys[0], values[0], rest);
    assert values == [values[0]];
  }

  /** Decoding the text `JSON.stringify` wrote gives back the same values. */
  lemma ObjectRoundTrip(keys: seq<string>, values: seq<string>)
    requires |keys| == |values|
    ensures DecodeObject(keys, EncodeObject(keys, values)) == Some(values)
  {
    var text := EncodeObject(keys, values);
    assert text[1..] == EncodeMembers(keys, values) + ['}'];
    MembersRoundTrip(keys, values, ['}']);
  }
}
