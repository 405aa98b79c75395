/** The text layer of the host configuration editor: lines, white space, the
    two line patterns, bracket balance, comments, and the values written and
    read back.

    JSON.parse is the parameter `json` (None where it throws).  A finite number
    is identified by the text String(n) gives it; `number` says which texts
    those are.
 */
module TomlText {

  datatype Option<T> = None | Some(value: T)

  datatype Value = Bool(b: bool) | Num(text: string) | Str(s: string) | Json(source: string)

  // ---------------------------------------------------------------- lines

  /** text.split("\n"): never empty. */
  function Split(text: string): seq<string> {
    if text == "" then [""]
    else
      var rest := Split(text[1..]);
      if text[0] == '\n' then [""] + rest else [[text[0]] + rest[0]] + rest[1..]
  }

  function Join(lines: seq<string>): string {
    if lines == [] then "" else if |lines| == 1 then lines[0] else lines[0] + "\n" + Join(lines[1..])
  }

  predicate OneLine(line: string) {
    '\n' !in line
  }

  lemma {:induction false} SplitsIntoLines(text: string)
    ensures Split(text) != [] && forall l :: l in Split(text) ==> OneLine(l)
  {
    if text != "" {
      SplitsIntoLines(text[1..]);
      var rest := Split(text[1..]);
      assert forall l :: l in rest[1..] ==> l in rest;
      assert rest[0] in rest;
      assert OneLine([text[0]] + rest[0]) || text[0] == '\n';
    }
  }

  lemma {:induction false} SplitOneLine(line: string)
    requires OneLine(line)
    ensures Split(line) == [line]
  {
    if line != "" {
      assert line[0] in line;
      assert forall c :: c in line[1..] ==> c in line;
      SplitOneLine(line[1..]);
      assert [line[0]] + line[1..] == line;
    }
  }

  lemma {:induction false} SplitConcat(line: string, rest: string)
    requires OneLine(line)
    ensures Split(line + "\n" + rest) == [line] + Split(rest)
  {
    var text := line + "\n" + rest;
    if line == "" {
      assert text[1..] == rest;
    } else {
      assert line[0] in line;
      assert forall c :: c in line[1..] ==> c in line;
      SplitConcat(line[1..], rest);
      assert text[1..] == line[1..] + "\n" + rest;
      assert [line[0]] + line[1..] == line;
    }
  }

  /** Joining lines and splitting again gives the same lines. */
  lemma {:induction false} SplitJoin(lines: seq<string>)
    requires lines != [] && forall l :: l in lines ==> OneLine(l)
    ensures Split(Join(lines)) == lines
  {
    assert lines[0] in lines;
    if |lines| == 1 {
      SplitOneLine(lines[0]);
      assert lines == [lines[0]];
    } else {
      assert forall l :: l in lines[1..] ==> l in lines;
      SplitJoin(lines[1..]);
      SplitConcat(lines[0], Join(lines[1..]));
      assert lines == [lines[0]] + lines[1..];
    }
  }

  /** The text without its trailing newlines. */
  function TrimNewlines(text: string): string {
    if text != "" && text[|text| - 1] == '\n' then TrimNewlines(text[..|text| - 1]) else text
  }

  /** The lines without trailing blank lines; one line always stays. */
  function StripBlank(lines: seq<string>): seq<string> {
    if |lines| > 1 && lines[|lines| - 1] == "" then StripBlank(lines[..|lines| - 1]) else lines
  }

  lemma {:induction false} JoinAppend(lines: seq<string>, last: string)
    requires lines != []
    ensures Join(lines + [last]) == Join(lines) + "\n" + last
  {
    if |lines| == 1 {
      assert (lines + [last])[1..] == [last];
    } else {
      JoinAppend(lines[1..], last);
      assert (lines + [last])[1..] == lines[1..] + [last];
    }
  }

  lemma {:induction false} StripKeeps(lines: seq<string>)
    requires lines != []
    ensures StripBlank(lines) != [] && StripBlank(lines) <= lines
  {
    if |lines| > 1 && lines[|lines| - 1] == "" {
      StripKeeps(lines[..|lines| - 1]);
    }
  }

  lemma {:induction false} TrimIsStrip(lines: seq<string>)
    requires lines != [] && forall l :: l in lines ==> OneLine(l)
    ensures TrimNewlines(Join(lines)) == Join(StripBlank(lines))
  {
    var last := lines[|lines| - 1];
    assert last in lines;
    if |lines| == 1 {
      TrimOneLine(last);
    } else {
      var init := lines[..|lines| - 1];
      assert lines == init + [last];
      assert forall l :: l in init ==> l in lines;
      JoinAppend(init, last);
      if last == "" {
        TrimIsStrip(init);
        assert (Join(init) + "\n" + last)[..|Join(init)|] == Join(init);
      } else {
        assert last[|last| - 1] in last;
        assert Join(lines)[|Join(lines)| - 1] == last[|last| - 1];
      }
    }
  }

  lemma TrimOneLine(line: string)
    requires OneLine(line)
    ensures TrimNewlines(line) == line
  {
    if line != "" {
      assert line[|line| - 1] in line;
    }
  }

  /** `join("\n").replace(/\n*$/, "\n")` drops trailing blank lines and ends the last line. */
  lemma FinalNewline(lines: seq<string>)
    requires lines != [] && forall l :: l in lines ==> OneLine(l)
    ensures Split(TrimNewlines(Join(lines)) + "\n") == StripBlank(lines) + [""]
  {
    TrimIsStrip(lines);
    StripKeeps(lines);
    var kept := StripBlank(lines);
    JoinAppend(kept, "");
    assert Join(kept) + "\n" == Join(kept) + "\n" + "";
    assert forall l :: l in kept ==> l in lines;
    SplitJoin(kept + [""]);
  }

  // ---------------------------------------------------------------- characters

  predicate Space(c: char) {
    || c in "\t\n\r \U{B}\U{C}\U{A0}\U{1680}\U{2028}\U{2029}\U{202F}\U{205F}\U{3000}\U{FEFF}"
    || '\U{2000}' <= c <= '\U{200A}'
  }

  /** What a dot in a pattern does not match. */
  predicate Terminator(c: char) {
    c in "\n\r\U{2028}\U{2029}"
  }

  predicate KeyChar(c: char) {
    'A' <= c <= 'Z' || 'a' <= c <= 'z' || '0' <= c <= '9' || c in "_.-"
  }

  function SkipSpace(t: string): string {
    if t != "" && Space(t[0]) then SkipSpace(t[1..]) else t
  }

  function TrimRight(t: string): string {
    if t != "" && Space(t[|t| - 1]) then TrimRight(t[..|t| - 1]) else t
  }

  function Trim(t: string): string {
    TrimRight(SkipSpace(t))
  }

  /** The position of the first c, or the length. */
  function IndexOf(t: string, c: char): (k: nat)
    ensures k <= |t| && (k < |t| ==> t[k] == c) && c !in t[..k]
  {
    if t == "" || t[0] == c then 0 else 1 + IndexOf(t[1..], c)
  }

  function KeyPrefix(t: string): (key: string)
    ensures key <= t
  {
    if t == "" || !KeyChar(t[0]) then "" else [t[0]] + KeyPrefix(t[1..])
  }

  predicate HasTerminator(t: string) {
    exists c :: c in t && Terminator(c)
  }

  // ---------------------------------------------------------------- the two line patterns

  /** The name in a table header line.  A doubled bracket is taken only when
      something is left to capture. */
  function HeaderOf(line: string): Option<string> {
    var t := SkipSpace(line);
    if t == "" || t[0] != '[' then None
    else
      var body := t[1..];
      var k := IndexOf(body, ']');
      if k == |body| || k == 0 then None
      else if body[0] == '[' && k >= 2 then Some(Trim(body[1..k]))
      else Some(Trim(body[..k]))
  }

  /** Key and first value text of an assignment line. */
  function PairOf(line: string): Option<(string, string)> {
    var t := SkipSpace(line);
    var key := KeyPrefix(t);
    var u := SkipSpace(t[|key|..]);
    if key == "" || u == "" || u[0] != '=' then None
    else
      var v := SkipSpace(u[1..]);
      if HasTerminator(v) then None else Some((key, v))
  }

  predicate IsKey(key: string) {
    key != "" && forall c :: c in key ==> KeyChar(c)
  }

  predicate StartsSolid(t: string) {
    t != "" && !Space(t[0])
  }

  lemma {:induction false} KeyPrefixIsKey(t: string)
    ensures KeyPrefix(t) == "" || IsKey(KeyPrefix(t))
  {
    if t != "" && KeyChar(t[0]) {
      KeyPrefixIsKey(t[1..]);
    }
  }

  lemma {:induction false} KeyPrefixOf(key: string, rest: string)
    requires forall c :: c in key ==> KeyChar(c)
    requires rest != "" && !KeyChar(rest[0])
    ensures KeyPrefix(key + rest) == key
  {
    if key == "" {
      assert key + rest == rest;
    } else {
      assert key[0] in key;
      assert forall c :: c in key[1..] ==> c in key;
      KeyPrefixOf(key[1..], rest);
      assert (key + rest)[1..] == key[1..] + rest;
    }
  }

  lemma UiHeaderReads()
    ensures HeaderOf("[ui]") == Some("ui") && HeaderOf("") == None && PairOf("") == None
  {
    BracketedReads("ui");
    assert "[" + "ui" + "]" == "[ui]";
    assert Trim("ui") == "ui";
  }

  lemma BracketedReads(name: string)
    requires name != "" && name[0] != '[' && ']' !in name
    ensures HeaderOf("[" + name + "]") == Some(Trim(name))
  {
    var line := "[" + name + "]";
    var body := line[1..];
    assert body == name + "]";
    FirstBracket(name);
    assert body[..|name|] == name;
  }

  lemma {:induction false} FirstBracket(name: string)
    requires ']' !in name
    ensures IndexOf(name + "]", ']') == |name|
  {
    if name != "" {
      assert (name + "]")[1..] == name[1..] + "]";
      FirstBracket(name[1..]);
    }
  }

  function Assignment(key: string, text: string): string {
    key + " = " + text
  }

  /** An assignment line reads back as its key and text, unless the text holds a
      character the pattern's dot does not match. */
  lemma AssignmentReads(key: string, text: string)
    requires IsKey(key) && StartsSolid(text)
    ensures HeaderOf(Assignment(key, text)) == None
    ensures PairOf(Assignment(key, text)) == if HasTerminator(text) then None else Some((key, text))
  {
    var line := Assignment(key, text);
    assert key[0] in key;
    assert line[0] == key[0] && KeyChar(line[0]) && !Space(line[0]);
    assert SkipSpace(line) == line;
    assert line == key + (" = " + text);
    KeyPrefixOf(key, " = " + text);
    var rest := line[|key|..];
    assert rest == " = " + text;
    assert rest[1..] == "= " + text;
    assert SkipSpace(rest) == "= " + text;
    var after := ("= " + text)[1..];
    assert after == " " + text && after[1..] == text;
    assert SkipSpace(after) == text;
  }

  // ---------------------------------------------------------------- brackets

  datatype Brackets = Brackets(depth: int, inString: bool, quoted: bool)

  function Next(b: Brackets, c: char): Brackets {
    if b.inString then
      if b.quoted then b.(quoted := false)
      else if c == '\\' then b.(quoted := true)
      else if c == '"' then b.(inString := false)
      else b
    else if c == '"' then b.(inString := true)
    else if c == '[' then b.(depth := b.depth + 1)
    else if c == ']' then b.(depth := b.depth - 1)
    else b
  }

  function Walk(b: Brackets, t: string): Brackets {
    if t == "" then b else Next(Walk(b, t[..|t| - 1]), t[|t| - 1])
  }

  const OUTSIDE := Brackets(0, false, false)
  const INSIDE := Brackets(0, true, false)

  predicate Balanced(t: string) {
    var b := Walk(OUTSIDE, t);
    b.depth <= 0 && !b.inString
  }

  lemma {:induction false} WalkConcat(b: Brackets, s: string, t: string)
    ensures Walk(b, s + t) == Walk(Walk(b, s), t)
  {
    if t == "" {
      assert s + t == s;
    } else {
      WalkConcat(b, s, t[..|t| - 1]);
      assert (s + t)[..|s + t| - 1] == s + t[..|t| - 1];
    }
  }

  /** A newline neither opens nor closes anything. */
  lemma NewlineKeepsBalance(t: string)
    ensures Balanced(t + "\n") == Balanced(t)
  {
    assert (t + "\n")[..|t|] == t;
  }

  lemma OpenListUnbalanced()
    ensures !Balanced("[") && Balanced("[\n]")
  {
    assert "["[..0] == "";
    assert Walk(OUTSIDE, "[") == Brackets(1, false, false);
    assert "[\n]"[..2] == "[\n" && "[\n"[..1] == "[";
    assert Walk(OUTSIDE, "[\n") == Brackets(1, false, false);
  }

  method BracketsBalanced(text: string) returns (balanced: bool)
    ensures balanced == Balanced(text)
  {
    var depth, inString, quoted := 0, false, false;
    for i := 0 to |text|
      invariant Walk(OUTSIDE, text[..i]) == Brackets(depth, inString, quoted)
    {
      assert text[..i + 1][..i] == text[..i];
      var c := text[i];
      if inString {
        if quoted {
          quoted := false;
        } else if c == '\\' {
          quoted := true;
        } else if c == '"' {
          inString := false;
        }
      } else if c == '"' {
        inString := true;
      } else if c == '[' {
        depth := depth + 1;
      } else if c == ']' {
        depth := depth - 1;
      }
    }
    assert text[..|text|] == text;
    balanced := depth <= 0 && !inString;
  }

  // ---------------------------------------------------------------- comments

  datatype Quotes = Quotes(quote: Option<char>, escaped: bool)

  function NextQuote(q: Quotes, c: char): Quotes {
    if q.quote.Some? then
      if q.quote.value == '"' && q.escaped then q.(escaped := false)
      else if q.quote.value == '"' && c == '\\' then q.(escaped := true)
      else if c == q.quote.value then q.(quote := None)
      else q
    else if c == '"' || c == '\'' then q.(quote := Some(c))
    else q
  }

  /** The line up to the first number sign outside quotes. */
  function StripFrom(q: Quotes, line: string): string
    decreases |line|
  {
    if line == "" || (q.quote.None? && line[0] == '#') then "" else [line[0]] + StripFrom(NextQuote(q, line[0]), line[1..])
  }

  const UNQUOTED := Quotes(None, false)

  function StripComment(line: string): string {
    StripFrom(UNQUOTED, line)
  }

  method StripTomlComment(line: string) returns (r: string)
    ensures r == StripComment(line)
  {
    var q := UNQUOTED;
    for i := 0 to |line|
      invariant StripComment(line) == line[..i] + StripFrom(q, line[i..])
    {
      var c := line[i];
      if q.quote.None? && c == '#' {
        return line[..i];
      }
      StripOne(q, line, i);
      q := NextQuote(q, c);
    }
    return line;
  }

  lemma StripOne(q: Quotes, line: string, i: nat)
    requires i < |line| && !(q.quote.None? && line[i] == '#')
    ensures line[..i] + StripFrom(q, line[i..]) == line[..i + 1] + StripFrom(NextQuote(q, line[i]), line[i + 1..])
  {
    var rest := StripFrom(NextQuote(q, line[i]), line[i + 1..]);
    assert line[i..][1..] == line[i + 1..];
    assert StripFrom(q, line[i..]) == [line[i]] + rest;
    assert line[..i + 1] == line[..i] + [line[i]];
  }

  // ---------------------------------------------------------------- values

  function HexDigit(n: int): char
    requires 0 <= n < 16
  {
    "0123456789abcdef"[n]
  }

  /** One character of a JSON string literal. */
  function Escape(c: char): string {
    if c == '"' then "\\\""
    else if c == '\\' then "\\\\"
    else if c == '\U{8}' then "\\b"
    else if c == '\t' then "\\t"
    else if c == '\n' then "\\n"
    else if c == '\U{C}' then "\\f"
    else if c == '\r' then "\\r"
    else if c < ' ' then "\\u00" + [HexDigit(c as int / 16), HexDigit(c as int % 16)]
    else [c]
  }

  function EscapeAll(s: string): string {
    if s == "" then "" else EscapeAll(s[..|s| - 1]) + Escape(s[|s| - 1])
  }

  /** JSON.stringify of a string. */
  function Quote(s: string): string {
    "\"" + EscapeAll(s) + "\""
  }

  function Serialize(v: Value): string {
    match v
    case Bool(b) => if b then "true" else "false"
    case Num(text) => text
    case Str(s) => Quote(s)
    case Json(source) => source
  }

  function StripAll(lines: seq<string>): seq<string> {
    if lines == [] then [] else [StripComment(lines[0])] + StripAll(lines[1..])
  }

  function ParseText(json: string -> Option<Value>, text: string): Value {
    if text == "true" then Bool(true)
    else if text == "false" then Bool(false)
    else if |text| >= 2 && text[0] == '\'' && text[|text| - 1] == '\'' then Str(text[1..|text| - 1])
    else match json(text)
      case Some(v) => v
      case None => Str(text)
  }

  function ParseValue(json: string -> Option<Value>, raw: string): Value {
    ParseText(json, Trim(Join(StripAll(Split(raw)))))
  }

  predicate NumberChar(c: char) {
    '0' <= c <= '9' || c in "+-.e"
  }

  /** What is taken of JSON.parse and String(n): they undo the serializer, and a
      bare word is no JSON. */
  ghost predicate LibraryOk(json: string -> Option<Value>, number: string -> bool) {
    && (forall s :: json(Quote(s)) == Some(Str(s)))
    && (forall t :: number(t) ==> json(t) == Some(Num(t)))
    && NumberTexts(number)
    && json("undefined") == None
  }

  ghost predicate NumberTexts(number: string -> bool) {
    forall t :: number(t) ==> t != "" && forall c :: c in t ==> NumberChar(c)
  }

  /** A scalar the editor accepts: a boolean, a finite number or a string. */
  predicate Scalar(number: string -> bool, v: Value) {
    v.Bool? || v.Str? || (v.Num? && number(v.text))
  }

  // A text without quotes, brackets or number signs is seen by no scanner.
  predicate PlainText(t: string) {
    t != "" && forall c :: c in t ==> NumberChar(c) || 'a' <= c <= 'z'
  }

  lemma {:induction false} PlainWalk(b: Brackets, t: string)
    requires !b.quoted && forall c :: c in t ==> NumberChar(c) || 'a' <= c <= 'z'
    ensures Walk(b, t) == b
  {
    if t != "" {
      assert forall c :: c in t[..|t| - 1] ==> c in t;
      assert t[|t| - 1] in t;
      PlainWalk(b, t[..|t| - 1]);
    }
  }

  lemma {:induction false} PlainStrip(t: string)
    requires forall c :: c in t ==> NumberChar(c) || 'a' <= c <= 'z'
    ensures StripComment(t) == t
  {
    if t != "" {
      assert t[0] in t;
      assert forall c :: c in t[1..] ==> c in t;
      PlainStrip(t[1..]);
      assert [t[0]] + t[1..] == t;
    }
  }

  // Walking over the escaped characters of a string never leaves the string.

  lemma EscapeWalk(c: char)
    ensures Walk(INSIDE, Escape(c)) == INSIDE
  {
    var e := Escape(c);
    assert e[..0] == "";
    if |e| == 2 {
      assert e[..1] == "\\" && "\\"[..0] == "";
    } else if |e| == 6 {
      HexIsPlain(c);
      assert "\\u"[..1] == "\\" && "\\"[..0] == "";
      assert Walk(INSIDE, "\\u") == INSIDE;
      assert e == "\\u" + e[2..];
      WalkConcat(INSIDE, "\\u", e[2..]);
      PlainWalk(INSIDE, e[2..]);
    }
  }

  lemma HexIsPlain(c: char)
    requires c < ' '
    ensures NumberChar(HexDigit(c as int / 16)) || 'a' <= HexDigit(c as int / 16) <= 'z'
    ensures NumberChar(HexDigit(c as int % 16)) || 'a' <= HexDigit(c as int % 16) <= 'z'
  {
    assert forall n :: 0 <= n < 10 ==> '0' <= HexDigit(n) <= '9';
    assert forall n :: 10 <= n < 16 ==> 'a' <= HexDigit(n) <= 'z';
  }

  lemma {:induction false} EscapeAllWalk(s: string)
    ensures Walk(INSIDE, EscapeAll(s)) == INSIDE
  {
    if s != "" {
      EscapeAllWalk(s[..|s| - 1]);
      EscapeWalk(s[|s| - 1]);
      WalkConcat(INSIDE, EscapeAll(s[..|s| - 1]), Escape(s[|s| - 1]));
    }
  }

  lemma QuoteBalanced(s: string)
    ensures Balanced(Quote(s))
  {
    EscapeAllWalk(s);
    WalkConcat(OUTSIDE, "\"", EscapeAll(s));
    WalkConcat(OUTSIDE, "\"" + EscapeAll(s), "\"");
    assert "\""[..0] == "";
  }

  const IN_QUOTES := Quotes(Some('"'), false)

  /** Comment stripping copies an escaped character and goes on inside the string. */
  lemma EscapeStrip(c: char, rest: string)
    ensures StripFrom(IN_QUOTES, Escape(c) + rest) == Escape(c) + StripFrom(IN_QUOTES, rest)
  {
    var e := Escape(c);
    var t := e + rest;
    if |e| == 1 {
      assert t[1..] == rest;
    } else if |e| == 2 {
      assert t[1..][1..] == rest;
      assert t[0] == e[0] == '\\' && t[1..][0] == e[1];
      StripTwo(t);
    } else {
      HexIsPlain(c);
      assert t == e[..2] + (e[2..] + rest);
      StripTwo(t);
      assert t[2..] == e[2..] + rest;
      StripFour(e[2..], rest);
      assert e[..2] + e[2..] == e;
      assert t[..2] == e[..2];
    }
  }

  lemma StripTwo(t: string)
    requires |t| >= 2 && t[0] == '\\'
    ensures StripFrom(IN_QUOTES, t) == t[..2] + StripFrom(IN_QUOTES, t[2..])
  {
    assert t[1..][1..] == t[2..];
  }

  lemma {:induction false} StripFour(e: string, rest: string)
    requires forall c :: c in e ==> NumberChar(c) || 'a' <= c <= 'z'
    ensures StripFrom(IN_QUOTES, e + rest) == e + StripFrom(IN_QUOTES, rest)
  {
    if e == "" {
      assert e + rest == rest;
    } else {
      assert e[0] in e;
      assert forall c :: c in e[1..] ==> c in e;
      assert (e + rest)[1..] == e[1..] + rest;
      StripFour(e[1..], rest);
      assert [e[0]] + e[1..] == e;
    }
  }

  lemma Associates(a: string, b: string, c: string)
    ensures (a + b) + c == a + (b + c)
  {
  }

  lemma {:induction false} EscapeAllStrip(s: string, rest: string)
    ensures StripFrom(IN_QUOTES, EscapeAll(s) + rest) == EscapeAll(s) + StripFrom(IN_QUOTES, rest)
  {
    if s == "" {
      assert EscapeAll(s) + rest == rest;
    } else {
      var init, last := EscapeAll(s[..|s| - 1]), Escape(s[|s| - 1]);
      var tail := StripFrom(IN_QUOTES, rest);
      EscapeAllStrip(s[..|s| - 1], last + rest);
      EscapeStrip(s[|s| - 1], rest);
      Associates(init, last, rest);
      Associates(init, last, tail);
    }
  }

  lemma QuoteStrip(s: string)
    ensures StripComment(Quote(s)) == Quote(s)
  {
    assert Quote(s)[1..] == EscapeAll(s) + "\"";
    EscapeAllStrip(s, "\"");
    assert "\""[1..] == "";
    assert StripFrom(IN_QUOTES, "\"") == "\"" + StripFrom(UNQUOTED, "");
  }

  lemma {:induction false} EscapeAllTerminators(s: string)
    ensures forall c :: c in EscapeAll(s) && Terminator(c) ==> c in s && c != '\n' && c != '\r'
    ensures forall c :: c in s && (c == '\U{2028}' || c == '\U{2029}') ==> c in EscapeAll(s)
  {
    if s != "" {
      var c := s[|s| - 1];
      EscapeAllTerminators(s[..|s| - 1]);
      EscapeTerminators(c);
      assert forall x :: x in s <==> x in s[..|s| - 1] || x == c;
    }
  }

  lemma EscapeTerminators(c: char)
    ensures forall x :: x in Escape(c) && Terminator(x) ==> x == c && c != '\n' && c != '\r'
    ensures c == '\U{2028}' || c == '\U{2029}' ==> c in Escape(c)
  {
    if c < ' ' {
      HexIsPlain(c);
    }
  }

  /** The two line separators that a JSON string literal leaves unescaped. */
  predicate HasSeparator(v: Value) {
    v.Str? && ('\U{2028}' in v.s || '\U{2029}' in v.s)
  }

  /** A serialized scalar is one line, balanced and solid at both ends; it holds a
      line terminator exactly when its string holds a separator. */
  lemma SerializedShape(number: string -> bool, v: Value)
    requires NumberTexts(number) && Scalar(number, v)
    ensures StartsSolid(Serialize(v)) && OneLine(Serialize(v)) && Balanced(Serialize(v))
    ensures !Space(Serialize(v)[|Serialize(v)| - 1])
    ensures StripComment(Serialize(v)) == Serialize(v)
    ensures HasTerminator(Serialize(v)) <==> HasSeparator(v)
  {
    var t := Serialize(v);
    if v.Str? {
      QuoteBalanced(v.s);
      QuoteStrip(v.s);
      EscapeAllTerminators(v.s);
      assert forall c :: c in t <==> c == '"' || c in EscapeAll(v.s);
    } else {
      PlainShape(t);
    }
  }

  lemma PlainShape(t: string)
    requires PlainText(t)
    ensures StartsSolid(t) && OneLine(t) && Balanced(t) && !Space(t[|t| - 1]) && StripComment(t) == t && !HasTerminator(t)
  {
    PlainWalk(OUTSIDE, t);
    PlainStrip(t);
    assert t[0] in t && t[|t| - 1] in t;
  }

  lemma TrimSolid(t: string)
    requires StartsSolid(t) && !Space(t[|t| - 1])
    ensures Trim(t) == t
  {
  }

  lemma ParseSolid(json: string -> Option<Value>, t: string)
    requires StartsSolid(t) && OneLine(t) && !Space(t[|t| - 1]) && StripComment(t) == t
    ensures ParseValue(json, t) == ParseText(json, t)
  {
    SplitOneLine(t);
    assert [t][1..] == [];
    assert StripAll([t]) == [t];
    TrimSolid(t);
  }

  /** A text that starts like a number or a string literal is left to JSON.parse. */
  lemma LeftToJson(json: string -> Option<Value>, t: string)
    requires t != "" && (NumberChar(t[0]) || t[0] == '"') && t[0] != 'f'
    ensures json(t).Some? ==> ParseText(json, t) == json(t).value
  {
    assert "true"[0] == 't' && "false"[0] == 'f';
  }

  /** A bare word that is no JSON reads as itself. */
  lemma BareWord(json: string -> Option<Value>, t: string)
    requires PlainText(t) && t[0] != 't' && t[0] != 'f' && json(t) == None
    ensures ParseValue(json, t) == Str(t) && !HasTerminator(t)
  {
    PlainShape(t);
    ParseSolid(json, t);
    assert t[0] in t;
    assert "true"[0] == 't' && "false"[0] == 'f';
  }

  /** What the editor writes for a scalar reads back as that scalar. */
  lemma ValueRoundTrip(json: string -> Option<Value>, number: string -> bool, v: Value)
    requires LibraryOk(json, number) && Scalar(number, v)
    ensures ParseValue(json, Serialize(v)) == v
  {
    var t := Serialize(v);
    SerializedShape(number, v);
    ParseSolid(json, t);
    if v.Num? {
      assert t[0] in t;
      LeftToJson(json, t);
    } else if v.Str? {
      LeftToJson(json, t);
    }
  }
}
