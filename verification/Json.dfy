/** JSON text: compact rendering with the self-healer's escapes, and a strict parser; the one undoes the other. */
module Json {
  import opened Jobs

  datatype Value =
    | Null
    | Bool(b: bool)
    | Number(text: string)
    | Str(s: string)
    | Array(elems: seq<Value>)
    | Object(members: seq<Member>)

  datatype Member = Member(key: string, value: Value)

  // ----- rendering

  function EscapeChar(c: char): string {
    if c == '\\' then "\\\\"
    else if c == '"' then "\\\""
    else if c == '\n' then "\\n"
    else if c == '\r' then "\\r"
    else if c == '\t' then "\\t"
    else [c]
  }

  function Escape(s: string): string {
    if s == "" then "" else EscapeChar(s[0]) + Escape(s[1..])
  }

  function Quote(s: string): string { ['"'] + (Escape(s) + ['"']) }

  function Render(v: Value): string
    decreases v, 1
  {
    match v
    case Null => "null"
    case Bool(b) => if b then "true" else "false"
    case Number(text) => text
    case Str(s) => Quote(s)
    case Array(elems) => ['['] + (RenderElems(elems) + [']'])
    case Object(members) => ['{'] + (RenderMembers(members) + ['}'])
  }

  function RenderElems(elems: seq<Value>): string
    decreases elems, 0
  {
    if elems == [] then ""
    else if |elems| == 1 then Render(elems[0])
    else Render(elems[0]) + ([','] + RenderElems(elems[1..]))
  }

  function RenderMember(m: Member): string
    decreases m, 2
  {
    Quote(m.key) + ([':'] + Render(m.value))
  }

  function RenderMembers(members: seq<Member>): string
    decreases members, 0
  {
    if members == [] then ""
    else if |members| == 1 then RenderMember(members[0])
    else RenderMember(members[0]) + ([','] + RenderMembers(members[1..]))
  }

  lemma Regroup(a: string, mark: char, b: string, c: string)
    ensures (a + ([mark] + b)) + c == a + ([mark] + (b + c))
  {
  }

  lemma Associate(a: string, b: string, c: string)
    ensures (a + b) + c == a + (b + c)
  {
  }

  // ----- parsing

  predicate Blank(c: char) { c in {' ', '\t', '\n', '\r'} }

  function SkipBlank(s: string): (rest: string)
    ensures |rest| <= |s|
    ensures s != "" && !Blank(s[0]) ==> rest == s
    ensures rest != "" ==> !Blank(rest[0])
  {
    if s != "" && Blank(s[0]) then SkipBlank(s[1..]) else s
  }

  datatype Parsed<T> = Fail | Got(value: T, rest: string)

  function Unescape(c: char): Option<char> {
    if c in {'"', '\\', '/'} then Some(c)
    else if c == 'b' then Some('\U{8}')
    else if c == 'f' then Some('\U{c}')
    else if c == 'n' then Some('\n')
    else if c == 'r' then Some('\r')
    else if c == 't' then Some('\t')
    else None
  }

  function HexDigit(c: char): Option<nat> {
    if '0' <= c <= '9' then Some((c - '0') as nat)
    else if 'a' <= c <= 'f' then Some((c - 'a') as nat + 10)
    else if 'A' <= c <= 'F' then Some((c - 'A') as nat + 10)
    else None
  }

  function HexNumber(digits: string): (code: Option<nat>)
    ensures code.Some? ==> code.value < Pow16(|digits|)
  {
    if digits == "" then Some(0)
    else
      var high, low := HexNumber(digits[..|digits| - 1]), HexDigit(digits[|digits| - 1]);
      if high.None? || low.None? then None else Some(16 * high.value + low.value)
  }

  function Pow16(n: nat): nat { if n == 0 then 1 else 16 * Pow16(n - 1) }

  /** The character of a four-digit escape; surrogate codes are not part of this model. */
  function UnicodeEscape(digits: string): Option<char>
    requires |digits| == 4
  {
    var code := HexNumber(digits);
    assert Pow16(4) == 0x10000;
    if code.None? || 0xD800 <= code.value < 0xE000 then None else Some(code.value as char)
  }

  /** The rest of a string literal after its opening quote. Raw control characters are rejected. */
  function ParseString(s: string): (p: Parsed<string>)
    ensures p.Got? ==> |p.rest| < |s|
  {
    if s == "" then Fail
    else if s[0] == '"' then Got("", s[1..])
    else if s[0] == '\\' then
      if |s| >= 6 && s[1] == 'u' then
        var c := UnicodeEscape(s[2..6]);
        if c.None? then Fail else Prepend(c.value, ParseString(s[6..]))
      else if |s| >= 2 && Unescape(s[1]).Some? then Prepend(Unescape(s[1]).value, ParseString(s[2..]))
      else Fail
    else if s[0] < ' ' then Fail
    else Prepend(s[0], ParseString(s[1..]))
  }

  function Prepend(c: char, p: Parsed<string>): Parsed<string> {
    if p.Fail? then Fail else Got([c] + p.value, p.rest)
  }

  predicate Digit(c: char) { '0' <= c <= '9' }

  function Digits(s: string): (n: nat)
    ensures n <= |s|
  {
    if s != "" && Digit(s[0]) then 1 + Digits(s[1..]) else 0
  }

  function WholeLength(s: string): (n: nat)
    ensures n <= |s|
  {
    if s != "" && s[0] == '0' then 1 else Digits(s)
  }

  function IntegerLength(s: string): (n: nat)
    ensures n <= |s|
  {
    if s != "" && s[0] == '-' then (if WholeLength(s[1..]) == 0 then 0 else 1 + WholeLength(s[1..])) else WholeLength(s)
  }

  function FractionLength(s: string): (n: nat)
    ensures n <= |s|
  {
    if s != "" && s[0] == '.' && Digits(s[1..]) > 0 then 1 + Digits(s[1..]) else 0
  }

  function ExponentLength(s: string): (n: nat)
    ensures n <= |s|
  {
    var mark := if s != "" && s[0] in {'e', 'E'} then (if 1 < |s| && s[1] in {'+', '-'} then 2 else 1) else 0;
    if mark > 0 && Digits(s[mark..]) > 0 then mark + Digits(s[mark..]) else 0
  }

  function ScaleLength(s: string): (n: nat)
    ensures n <= |s|
  {
    FractionLength(s) + ExponentLength(s[FractionLength(s)..])
  }

  /** The length of the number at the start of `s`; 0 if there is none. */
  function NumberLength(s: string): (n: nat)
    ensures n <= |s|
  {
    var i := IntegerLength(s);
    if i == 0 then 0 else i + ScaleLength(s[i..])
  }

  /** The constants that the reader's parser takes for numbers, beyond RFC 8259. */
  function ConstantLength(s: string): (n: nat)
    ensures n <= |s|
  {
    if "NaN" <= s then 3 else if "Infinity" <= s then 8 else if "-Infinity" <= s then 9 else 0
  }

  function ParseValue(s: string): (p: Parsed<Value>)
    ensures p.Got? ==> |p.rest| < |s|
    decreases |s|, 0
  {
    if s == "" then Fail
    else if s[0] == '"' then
      var p := ParseString(s[1..]);
      if p.Fail? then Fail else Got(Str(p.value), p.rest)
    else if s[0] == '{' then
      var t := SkipBlank(s[1..]);
      if t != "" && t[0] == '}' then Got(Object([]), t[1..])
      else
        var p := ParseMembers(t);
        if p.Fail? then Fail else Got(Object(p.value), p.rest)
    else if s[0] == '[' then
      var t := SkipBlank(s[1..]);
      if t != "" && t[0] == ']' then Got(Array([]), t[1..])
      else
        var p := ParseElems(t);
        if p.Fail? then Fail else Got(Array(p.value), p.rest)
    else if "null" <= s then Got(Null, s[4..])
    else if "true" <= s then Got(Bool(true), s[4..])
    else if "false" <= s then Got(Bool(false), s[5..])
    else
      var n := NumberLength(s);
      if n > 0 then Got(Number(s[..n]), s[n..])
      else
        var word := ConstantLength(s);
        if word == 0 then Fail else Got(Number(s[..word]), s[word..])
  }

  /** One or more elements and the closing bracket. */
  function ParseElems(s: string): (p: Parsed<seq<Value>>)
    ensures p.Got? ==> |p.rest| < |s|
    decreases |s|, 1
  {
    var first := ParseValue(s);
    if first.Fail? then Fail
    else
      var t := SkipBlank(first.rest);
      if t == "" then Fail
      else if t[0] == ']' then Got([first.value], t[1..])
      else if t[0] == ',' then
        var more := ParseElems(SkipBlank(t[1..]));
        if more.Fail? then Fail else Got([first.value] + more.value, more.rest)
      else Fail
  }

  function ParseMember(s: string): (p: Parsed<Member>)
    ensures p.Got? ==> |p.rest| < |s|
    decreases |s|, 1
  {
    if s == "" || s[0] != '"' then Fail
    else
      var key := ParseString(s[1..]);
      if key.Fail? then Fail
      else
        var t := SkipBlank(key.rest);
        if t == "" || t[0] != ':' then Fail
        else
          var value := ParseValue(SkipBlank(t[1..]));
          if value.Fail? then Fail else Got(Member(key.value, value.value), value.rest)
  }

  /** One or more members and the closing brace. */
  function ParseMembers(s: string): (p: Parsed<seq<Member>>)
    ensures p.Got? ==> |p.rest| < |s|
    decreases |s|, 2
  {
    var first := ParseMember(s);
    if first.Fail? then Fail
    else
      var t := SkipBlank(first.rest);
      if t == "" then Fail
      else if t[0] == '}' then Got([first.value], t[1..])
      else if t[0] == ',' then
        var more := ParseMembers(SkipBlank(t[1..]));
        if more.Fail? then Fail else Got([first.value] + more.value, more.rest)
      else Fail
  }

  /** A whole document: one value with nothing but blanks around it. */
  function Loads(s: string): Option<Value> {
    var p := ParseValue(SkipBlank(s));
    if p.Got? && SkipBlank(p.rest) == "" then Some(p.value) else None
  }
}
