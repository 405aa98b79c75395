/** What the value reader and the two line patterns accept, stated by grammars of
    their own: quoting by pieces of text, lines by the parts they are made of.
 */
module TomlGrammar {
  import opened TomlText

  // ---------------------------------------------------------------- quoted text

  /** Inside double quotes: a character other than quote and backslash, or a
      backslash and any character. */
  datatype Unit = Raw(c: char) | Escaped(c: char)

  /** Outside quotes a single character; a double-quoted string; a single-quoted one. */
  datatype Piece = Plain(c: char) | Basic(units: seq<Unit>) | Literal(body: string)

  /** How a text may end after its pieces: there, in a comment, or inside quotes. */
  datatype Tail = End | Comment(text: string) | OpenBasic(units: seq<Unit>, dangling: bool) | OpenLiteral(body: string)

  predicate UnitsOk(us: seq<Unit>) {
    forall u :: u in us && u.Raw? ==> u.c != '"' && u.c != '\\'
  }

  function UnitText(u: Unit): string {
    if u.Raw? then [u.c] else ['\\', u.c]
  }

  function UnitsText(us: seq<Unit>): string {
    if us == [] then "" else UnitText(us[0]) + UnitsText(us[1..])
  }

  function PieceText(p: Piece): string {
    match p
    case Plain(c) => [c]
    case Basic(us) => "\"" + UnitsText(us) + "\""
    case Literal(body) => "'" + body + "'"
  }

  function Text(ps: seq<Piece>): string {
    if ps == [] then "" else PieceText(ps[0]) + Text(ps[1..])
  }

  function TailText(t: Tail): string {
    match t
    case End => ""
    case Comment(text) => "#" + text
    case OpenBasic(us, dangling) => "\"" + UnitsText(us) + if dangling then "\\" else ""
    case OpenLiteral(body) => "'" + body
  }

  // ---------------------------------------------------------------- comments

  /** To the comment stripper both kinds of quotes count. */
  predicate LineOk(ps: seq<Piece>) {
    forall p :: p in ps ==>
      match p
      case Plain(c) => c != '"' && c != '\'' && c != '#'
      case Basic(us) => UnitsOk(us)
      case Literal(body) => '\'' !in body
  }

  predicate TailOk(t: Tail) {
    match t
    case End => true
    case Comment(_) => true
    case OpenBasic(us, _) => UnitsOk(us)
    case OpenLiteral(body) => '\'' !in body
  }

  const IN_BASIC := Quotes(Some('"'), false)
  const IN_LITERAL := Quotes(Some('\''), false)

  lemma StripHead(q: Quotes, c: char, rest: string)
    requires !(q.quote.None? && c == '#')
    ensures StripFrom(q, [c] + rest) == [c] + StripFrom(NextQuote(q, c), rest)
  {
    assert ([c] + rest)[1..] == rest;
  }

  lemma StripUnit(u: Unit, rest: string)
    requires UnitsOk([u])
    ensures StripFrom(IN_BASIC, UnitText(u) + rest) == UnitText(u) + StripFrom(IN_BASIC, rest)
  {
    assert u in [u];
    if u.Raw? {
      StripHead(IN_BASIC, u.c, rest);
    } else {
      var q := Quotes(Some('"'), true);
      assert UnitText(u) + rest == ['\\'] + ([u.c] + rest);
      StripHead(IN_BASIC, '\\', [u.c] + rest);
      StripHead(q, u.c, rest);
      assert ['\\'] + ([u.c] + StripFrom(IN_BASIC, rest)) == UnitText(u) + StripFrom(IN_BASIC, rest);
    }
  }

  lemma {:induction false} StripUnits(us: seq<Unit>, rest: string)
    requires UnitsOk(us)
    ensures StripFrom(IN_BASIC, UnitsText(us) + rest) == UnitsText(us) + StripFrom(IN_BASIC, rest)
    decreases |us|
  {
    if us == [] {
      assert "" + rest == rest;
    } else {
      assert us[0] in us;
      assert UnitsText(us) + rest == UnitText(us[0]) + (UnitsText(us[1..]) + rest);
      StripUnit(us[0], UnitsText(us[1..]) + rest);
      StripUnits(us[1..], rest);
    }
  }

  lemma {:induction false} StripBody(body: string, rest: string)
    requires '\'' !in body
    ensures StripFrom(IN_LITERAL, body + rest) == body + StripFrom(IN_LITERAL, rest)
    decreases |body|
  {
    if body == "" {
      assert body + rest == rest;
    } else {
      assert body[0] in body;
      assert body + rest == [body[0]] + (body[1..] + rest);
      StripHead(IN_LITERAL, body[0], body[1..] + rest);
      StripBody(body[1..], rest);
      assert body == [body[0]] + body[1..];
    }
  }

  lemma StripBasic(us: seq<Unit>, rest: string)
    requires UnitsOk(us)
    ensures StripFrom(UNQUOTED, "\"" + UnitsText(us) + "\"" + rest) == "\"" + UnitsText(us) + "\"" + StripFrom(UNQUOTED, rest)
  {
    var u, tail := UnitsText(us), StripFrom(UNQUOTED, rest);
    assert "\"" + u + "\"" + rest == ['"'] + (u + (['"'] + rest));
    StripHead(UNQUOTED, '"', u + (['"'] + rest));
    StripUnits(us, ['"'] + rest);
    StripHead(IN_BASIC, '"', rest);
    assert "\"" + u + "\"" + tail == ['"'] + (u + (['"'] + tail));
  }

  lemma StripLiteral(body: string, rest: string)
    requires '\'' !in body
    ensures StripFrom(UNQUOTED, "'" + body + "'" + rest) == "'" + body + "'" + StripFrom(UNQUOTED, rest)
  {
    var tail := StripFrom(UNQUOTED, rest);
    assert "'" + body + "'" + rest == ['\''] + (body + (['\''] + rest));
    StripHead(UNQUOTED, '\'', body + (['\''] + rest));
    StripBody(body, ['\''] + rest);
    StripHead(IN_LITERAL, '\'', rest);
    assert "'" + body + "'" + tail == ['\''] + (body + (['\''] + tail));
  }

  lemma StripPiece(p: Piece, rest: string)
    requires LineOk([p])
    ensures StripFrom(UNQUOTED, PieceText(p) + rest) == PieceText(p) + StripFrom(UNQUOTED, rest)
  {
    assert p in [p];
    match p
    case Plain(c) => StripHead(UNQUOTED, c, rest);
    case Basic(us) => StripBasic(us, rest);
    case Literal(body) => StripLiteral(body, rest);
  }

  lemma StripTail(t: Tail)
    requires TailOk(t)
    ensures StripFrom(UNQUOTED, TailText(t)) == if t.Comment? then "" else TailText(t)
  {
    match t
    case End =>
    case Comment(text) => assert TailText(t)[0] == '#';
    case OpenBasic(us, dangling) =>
      var last := if dangling then "\\" else "";
      assert TailText(t) == ['"'] + (UnitsText(us) + last);
      StripHead(UNQUOTED, '"', UnitsText(us) + last);
      StripUnits(us, last);
      assert dangling ==> last == ['\\'] + "";
      StripHead(IN_BASIC, '\\', "");
    case OpenLiteral(body) =>
      assert TailText(t) == ['\''] + body && body + "" == body;
      StripHead(UNQUOTED, '\'', body);
      StripBody(body, "");
  }

  /** Comments: a line made of pieces and a tail loses exactly the comment. */
  lemma {:induction false} StripsTheComment(ps: seq<Piece>, t: Tail)
    requires LineOk(ps) && TailOk(t)
    ensures StripComment(Text(ps) + TailText(t)) == Text(ps) + if t.Comment? then "" else TailText(t)
    decreases |ps|
  {
    if ps == [] {
      StripTail(t);
      assert "" + TailText(t) == TailText(t);
    } else {
      var p, rest := ps[0], ps[1..];
      assert p in ps && forall x :: x in rest ==> x in ps;
      StripsTheComment(rest, t);
      StripsOnePiece(p, Text(rest), TailText(t), if t.Comment? then "" else TailText(t));
    }
  }

  lemma StripsOnePiece(p: Piece, text: string, tail: string, kept: string)
    requires LineOk([p]) && StripComment(text + tail) == text + kept
    ensures StripComment(PieceText(p) + text + tail) == PieceText(p) + text + kept
  {
    StripPiece(p, text + tail);
    Assoc(PieceText(p), text, tail);
    Assoc(PieceText(p), text, kept);
  }

  lemma Assoc(a: string, b: string, c: string)
    ensures a + b + c == a + (b + c)
  {
  }

  /** What follows an opening double quote: units up to the closing one, or to the end. */
  lemma {:induction false} SplitBasic(s: string) returns (us: seq<Unit>, closed: bool, dangling: bool, rest: string)
    ensures UnitsOk(us) && |rest| <= |s| && (closed ==> |rest| < |s|)
    ensures s == UnitsText(us) + if closed then "\"" + rest else if dangling then "\\" else ""
    decreases |s|
  {
    us, closed, dangling, rest := [], false, false, "";
    if s == "" {
    } else if s[0] == '"' {
      closed, rest := true, s[1..];
    } else if s == "\\" {
      dangling := true;
    } else {
      var u := if s[0] == '\\' then Escaped(s[1]) else Raw(s[0]);
      var n := |UnitText(u)|;
      assert s == UnitText(u) + s[n..];
      var more;
      more, closed, dangling, rest := SplitBasic(s[n..]);
      us := [u] + more;
      assert us[1..] == more;
    }
  }

  lemma {:induction false} SplitLiteral(s: string) returns (body: string, closed: bool, rest: string)
    ensures '\'' !in body && |rest| <= |s| && (closed ==> |rest| < |s|)
    ensures s == body + if closed then "'" + rest else ""
    decreases |s|
  {
    body, closed, rest := "", false, "";
    if s == "" {
    } else if s[0] == '\'' {
      closed, rest := true, s[1..];
    } else {
      var more;
      more, closed, rest := SplitLiteral(s[1..]);
      body := [s[0]] + more;
    }
  }

  /** Every line is made of such pieces and a tail. */
  lemma {:induction false} EveryLineHasPieces(line: string) returns (ps: seq<Piece>, t: Tail)
    ensures LineOk(ps) && TailOk(t) && line == Text(ps) + TailText(t)
    decreases |line|
  {
    ps, t := [], End;
    if line == "" {
    } else if line[0] == '#' {
      t := Comment(line[1..]);
    } else {
      var p: Piece, rest: string := Plain(line[0]), line[1..];
      if line[0] == '"' {
        var us, closed, dangling, after := SplitBasic(line[1..]);
        if !closed {
          t := OpenBasic(us, dangling);
          return;
        }
        p, rest := Basic(us), after;
      } else if line[0] == '\'' {
        var body, closed, after := SplitLiteral(line[1..]);
        if !closed {
          t := OpenLiteral(body);
          return;
        }
        p, rest := Literal(body), after;
      }
      assert line == PieceText(p) + rest;
      var more;
      more, t := EveryLineHasPieces(rest);
      ps := [p] + more;
      OneMorePiece(p, more, rest, TailText(t));
    }
  }

  // ---------------------------------------------------------------- brackets

  /** To the bracket counter only double quotes count. */
  predicate ValueOk(ps: seq<Piece>) {
    forall p :: p in ps ==> (p.Plain? && p.c != '"') || (p.Basic? && UnitsOk(p.units))
  }

  /** Opening less closing brackets outside strings. */
  function Depth(ps: seq<Piece>): int {
    if ps == [] then 0
    else (if ps[0] == Plain('[') then 1 else if ps[0] == Plain(']') then -1 else 0) + Depth(ps[1..])
  }

  lemma WalkOne(b: Brackets, c: char)
    ensures Walk(b, [c]) == Next(b, c)
  {
    assert [c][..0] == "";
    assert Walk(b, "") == b;
  }

  lemma {:induction false} WalkUnits(b: Brackets, us: seq<Unit>)
    requires UnitsOk(us) && b.inString && !b.quoted
    ensures Walk(b, UnitsText(us)) == b
    decreases |us|
  {
    if us != [] {
      var u := us[0];
      assert u in us;
      WalkConcat(b, UnitText(u), UnitsText(us[1..]));
      if u.Raw? {
        WalkOne(b, u.c);
      } else {
        assert ['\\', u.c] == ['\\'] + [u.c];
        WalkConcat(b, ['\\'], [u.c]);
        WalkOne(b, '\\');
        WalkOne(b.(quoted := true), u.c);
      }
      WalkUnits(b, us[1..]);
    }
  }

  lemma WalkBasic(b: Brackets, us: seq<Unit>)
    requires UnitsOk(us) && !b.inString && !b.quoted
    ensures Walk(b, "\"" + UnitsText(us)) == b.(inString := true) && Walk(b, "\"" + UnitsText(us) + "\"") == b
  {
    var inner := b.(inString := true);
    WalkConcat(b, "\"", UnitsText(us));
    WalkOne(b, '"');
    WalkUnits(inner, us);
    WalkConcat(b, "\"" + UnitsText(us), "\"");
    WalkOne(inner, '"');
  }

  lemma {:induction false} WalkText(b: Brackets, ps: seq<Piece>)
    requires ValueOk(ps) && !b.inString && !b.quoted
    ensures Walk(b, Text(ps)) == b.(depth := b.depth + Depth(ps))
    decreases |ps|
  {
    if ps != [] {
      var p := ps[0];
      assert p in ps && forall x :: x in ps[1..] ==> x in ps;
      WalkConcat(b, PieceText(p), Text(ps[1..]));
      if p.Plain? {
        WalkOne(b, p.c);
      } else {
        WalkBasic(b, p.units);
      }
      WalkText(Walk(b, PieceText(p)), ps[1..]);
    }
  }

  /** Balance: outside strings no more brackets are opened than closed, and no string is left open. */
  lemma BalancedIff(ps: seq<Piece>, open: Option<seq<Unit>>, dangling: bool)
    requires ValueOk(ps) && (open.Some? ==> UnitsOk(open.value))
    ensures var text := Text(ps) + if open.None? then "" else TailText(OpenBasic(open.value, dangling));
      Balanced(text) <==> open.None? && Depth(ps) <= 0
  {
    WalkText(OUTSIDE, ps);
    if open.None? {
      assert Text(ps) + "" == Text(ps);
    } else {
      var b, us := Walk(OUTSIDE, Text(ps)), open.value;
      WalkConcat(OUTSIDE, Text(ps), TailText(OpenBasic(us, dangling)));
      WalkBasic(b, us);
      if dangling {
        WalkConcat(b, "\"" + UnitsText(us), "\\");
        WalkOne(b.(inString := true), '\\');
      } else {
        assert "\"" + UnitsText(us) + "" == "\"" + UnitsText(us);
      }
    }
  }

  /** Every text is made of such pieces, with or without a string left open. */
  lemma {:induction false} EveryValueHasPieces(text: string) returns (ps: seq<Piece>, open: Option<seq<Unit>>, dangling: bool)
    ensures ValueOk(ps) && (open.Some? ==> UnitsOk(open.value))
    ensures text == Text(ps) + if open.None? then "" else TailText(OpenBasic(open.value, dangling))
    decreases |text|
  {
    ps, open, dangling := [], None, false;
    if text != "" {
      var p: Piece, rest: string := Plain(text[0]), text[1..];
      if text[0] == '"' {
        var us, closed, loose, after := SplitBasic(text[1..]);
        if !closed {
          open, dangling := Some(us), loose;
          return;
        }
        p, rest := Basic(us), after;
      }
      assert text == PieceText(p) + rest;
      var more;
      more, open, dangling := EveryValueHasPieces(rest);
      ps := [p] + more;
      OneMorePiece(p, more, rest, if open.None? then "" else TailText(OpenBasic(open.value, dangling)));
    }
  }

  lemma OneMorePiece(p: Piece, more: seq<Piece>, rest: string, tail: string)
    requires rest == Text(more) + tail
    ensures PieceText(p) + rest == Text([p] + more) + tail
  {
    assert ([p] + more)[1..] == more;
  }

  // ---------------------------------------------------------------- values with comments

  lemma TrimRightSpace(t: string, c: char)
    requires Space(c)
    ensures TrimRight(t + [c]) == TrimRight(t)
  {
    assert (t + [c])[..|t|] == t;
  }

  lemma {:induction false} SkipSpaceAppend(t: string, c: char)
    requires Space(c)
    ensures TrimRight(SkipSpace(t + [c])) == TrimRight(SkipSpace(t))
    decreases |t|
  {
    if t == "" {
      assert (t + [c])[1..] == "";
    } else if Space(t[0]) {
      assert (t + [c])[1..] == t[1..] + [c];
      SkipSpaceAppend(t[1..], c);
    } else {
      TrimRightSpace(t, c);
    }
  }

  /** A value on one line that ends outside quotes reads the same with a comment behind it. */
  lemma CommentedValueReads(json: string -> Option<Value>, ps: seq<Piece>, comment: string)
    requires LineOk(ps) && OneLine(Text(ps)) && OneLine(comment)
    ensures ParseValue(json, Text(ps) + " # " + comment) == ParseValue(json, Text(ps))
  {
    var t := Text(ps);
    StripCommented(ps, comment);
    StripsTheComment(ps, End);
    assert t + "" == t;
    OneLineParse(json, t + " # " + comment);
    OneLineParse(json, t);
    SkipSpaceAppend(t, ' ');
  }

  lemma StripCommented(ps: seq<Piece>, comment: string)
    requires LineOk(ps)
    ensures StripComment(Text(ps) + " # " + comment) == Text(ps) + [' ']
  {
    var spaced, tail := ps + [Plain(' ')], Comment(" " + comment);
    TextAppend(ps, Plain(' '));
    StripsTheComment(spaced, tail);
    CommentText(Text(ps), comment);
  }

  lemma CommentText(t: string, comment: string)
    ensures t + " # " + comment == t + [' '] + TailText(Comment(" " + comment)) && t + [' '] + "" == t + [' ']
  {
    assert " # " == [' '] + "#" + " ";
  }

  lemma {:induction false} TextAppend(ps: seq<Piece>, p: Piece)
    ensures Text(ps + [p]) == Text(ps) + PieceText(p)
    decreases |ps|
  {
    if ps == [] {
      assert ps + [p] == [p] && [p][1..] == [];
      assert Text([p]) == PieceText(p) + "";
    } else {
      assert (ps + [p])[1..] == ps[1..] + [p];
      TextAppend(ps[1..], p);
    }
  }

  lemma OneLineParse(json: string -> Option<Value>, t: string)
    requires OneLine(t)
    ensures ParseValue(json, t) == ParseText(json, Trim(StripComment(t)))
  {
    SplitOneLine(t);
    assert [t][1..] == [];
    assert StripAll([t]) == [StripComment(t)];
    assert Join([StripComment(t)]) == StripComment(t);
  }

  /** A single-quoted value reads as what stands between the quotes. */
  lemma LiteralReads(json: string -> Option<Value>, body: string)
    requires '\'' !in body && OneLine(body)
    ensures ParseValue(json, "'" + body + "'") == Str(body)
  {
    var ps, t := [Literal(body)], "'" + body + "'";
    assert ps[1..] == [] && t + "" == t;
    assert Text(ps) == t;
    StripsTheComment(ps, End);
    OneLineParse(json, t);
    TrimIs("", t, "");
    assert "" + t + "" == t;
    LiteralText(json, t, body);
  }

  lemma LiteralText(json: string -> Option<Value>, t: string, body: string)
    requires t == "'" + body + "'"
    ensures ParseText(json, t) == Str(body)
  {
    assert t[1..|t| - 1] == body && t[0] != "true"[0] && t[0] != "false"[0];
  }

  // ---------------------------------------------------------------- the two line patterns

  predicate Spaces(s: string) {
    forall c :: c in s ==> Space(c)
  }

  predicate Solid(t: string) {
    t == "" || !Space(t[0])
  }

  lemma {:induction false} SkipSpaces(a: string, t: string)
    requires Spaces(a) && Solid(t)
    ensures SkipSpace(a + t) == t
    decreases |a|
  {
    if a == "" {
      assert a + t == t;
    } else {
      assert a[0] in a && forall c :: c in a[1..] ==> c in a;
      assert (a + t)[1..] == a[1..] + t;
      SkipSpaces(a[1..], t);
    }
  }

  lemma {:induction false} SkippedSpaces(t: string) returns (a: string)
    ensures Spaces(a) && Solid(SkipSpace(t)) && t == a + SkipSpace(t)
    decreases |t|
  {
    a := "";
    if t != "" && Space(t[0]) {
      var more := SkippedSpaces(t[1..]);
      a := [t[0]] + more;
      Assoc([t[0]], more, SkipSpace(t[1..]));
    }
  }

  lemma {:induction false} TrimRightSpaces(t: string, b: string)
    requires Spaces(b) && (t == "" || !Space(t[|t| - 1]))
    ensures TrimRight(t + b) == t
    decreases |b|
  {
    if b == "" {
      assert t + b == t;
    } else {
      var init, last := b[..|b| - 1], b[|b| - 1];
      assert last in b && forall c :: c in init ==> c in b;
      assert t + b == t + init + [last];
      TrimRightSpace(t + init, last);
      TrimRightSpaces(t, init);
    }
  }

  /** Trimming takes off the spaces around a text that begins and ends with none. */
  lemma TrimIs(a: string, t: string, b: string)
    requires Spaces(a) && Spaces(b) && t != "" && !Space(t[0]) && !Space(t[|t| - 1])
    ensures Trim(a + t + b) == t
  {
    assert a + t + b == a + (t + b);
    SkipSpaces(a, t + b);
    TrimRightSpaces(t, b);
  }

  lemma {:induction false} IndexAfter(body: string, rest: string, c: char)
    requires c !in body
    ensures IndexOf(body + [c] + rest, c) == |body|
    decreases |body|
  {
    if body == "" {
      assert (body + [c] + rest)[0] == c;
    } else {
      assert body[0] in body && forall x :: x in body[1..] ==> x in body;
      assert (body + [c] + rest)[1..] == body[1..] + [c] + rest;
      IndexAfter(body[1..], rest, c);
    }
  }

  lemma HeaderBody(a: string, body: string, rest: string)
    requires Spaces(a) && body != "" && ']' !in body
    ensures HeaderOf(a + "[" + body + "]" + rest) == Some(Trim(if body[0] == '[' && |body| >= 2 then body[1..] else body))
  {
    var t := "[" + body + "]" + rest;
    assert a + "[" + body + "]" + rest == a + t && t[0] == '[' && !Space(t[0]);
    SkipSpaces(a, t);
    assert t[1..] == body + [']'] + rest;
    IndexAfter(body, rest, ']');
    assert t[1..][..|body|] == body && (|body| >= 2 ==> t[1..][1..|body|] == body[1..]);
  }

  /** Headers: spaces, one opening bracket or two, a name without a closing one,
      a closing bracket, and anything. */
  lemma HeaderReads(a: string, name: string, rest: string)
    requires Spaces(a) && name != "" && ']' !in name
    ensures HeaderOf(a + "[[" + name + "]" + rest) == Some(Trim(name))
    ensures name[0] != '[' || |name| == 1 ==> HeaderOf(a + "[" + name + "]" + rest) == Some(Trim(name))
  {
    HeaderBody(a, "[" + name, rest);
    assert a + "[[" + name + "]" + rest == a + "[" + ("[" + name) + "]" + rest;
    assert ("[" + name)[1..] == name;
    HeaderBody(a, name, rest);
  }

  /** And nothing else is one. */
  lemma HeaderHasParts(line: string) returns (a: string, name: string, rest: string, double: bool)
    requires HeaderOf(line).Some?
    ensures Spaces(a) && name != "" && ']' !in name && HeaderOf(line).value == Trim(name)
    ensures line == a + (if double then "[[" else "[") + name + "]" + rest
    ensures !double ==> name[0] != '[' || |name| == 1
  {
    a := SkippedSpaces(line);
    var t, body, k;
    t, body, k, name, rest, double := BodyHasParts(line);
    HeaderGlue(line, a, t, body, k, double, name, rest);
  }

  lemma BodyHasParts(line: string) returns (t: string, body: string, k: nat, name: string, rest: string, double: bool)
    requires HeaderOf(line).Some?
    ensures t == SkipSpace(line) && t == "[" + body && k < |body| && body[k] == ']' && rest == body[k + 1..]
    ensures if double then k >= 2 && body[0] == '[' && name == body[1..k] else name == body[..k]
    ensures name != "" && ']' !in name && HeaderOf(line).value == Trim(name) && (!double ==> name[0] != '[' || |name| == 1)
  {
    t := SkipSpace(line);
    body := t[1..];
    k := IndexOf(body, ']');
    double := body[0] == '[' && k >= 2;
    name, rest := if double then body[1..k] else body[..k], body[k + 1..];
    assert forall c :: c in name ==> c in body[..k];
  }

  lemma HeaderGlue(line: string, a: string, t: string, body: string, k: nat, double: bool, name: string, rest: string)
    requires line == a + t && t == "[" + body && k < |body| && body[k] == ']' && rest == body[k + 1..]
    requires if double then k >= 2 && body[0] == '[' && name == body[1..k] else name == body[..k]
    ensures line == a + (if double then "[[" else "[") + name + "]" + rest
  {
    var open := if double then "[" else "";
    assert body == open + name + "]" + rest;
    assert a + "[" + open == a + if double then "[[" else "[";
  }

  lemma KeyCharsSolid(key: string)
    requires IsKey(key)
    ensures !Space(key[0]) && Solid(key)
  {
    assert key[0] in key;
  }

  /** Assignments: spaces, a key, spaces, an equals sign, spaces, and the value,
      which begins with no space and holds no line terminator. */
  lemma PairReads(a: string, key: string, b: string, c: string, v: string)
    requires Spaces(a) && IsKey(key) && Spaces(b) && Spaces(c) && Solid(v) && !HasTerminator(v)
    ensures PairOf(a + key + b + "=" + c + v) == Some((key, v))
  {
    var value := "=" + c + v;
    KeyCharsSolid(key);
    PairText(a, key, b, c, v);
    SkipSpaces(a, key + (b + value));
    KeyThenValue(key, b, c, v, value);
    PairAt(a + (key + (b + value)), key + (b + value), key, b + value, value, c + v, v);
  }

  lemma KeyThenValue(key: string, b: string, c: string, v: string, value: string)
    requires IsKey(key) && Spaces(b) && Spaces(c) && Solid(v) && value == "=" + c + v
    ensures KeyPrefix(key + (b + value)) == key && (key + (b + value))[|key|..] == b + value
    ensures SkipSpace(b + value) == value && value[1..] == c + v && SkipSpace(c + v) == v
  {
    KeyThen(key, b, value);
    Assoc("=", c, v);
    AfterEquals(value, c + v);
    SkipSpaces(b, value);
    SkipSpaces(c, v);
  }

  lemma AfterEquals(value: string, w: string)
    requires value == "=" + w
    ensures Solid(value) && value[1..] == w
  {
  }

  lemma KeyThen(key: string, b: string, value: string)
    requires IsKey(key) && Spaces(b) && value != "" && value[0] == '='
    ensures KeyPrefix(key + (b + value)) == key && (key + (b + value))[|key|..] == b + value
  {
    NoKeyBehind(b, value);
    KeyPrefixOf(key, b + value);
  }

  lemma PairAt(line: string, t: string, key: string, rest: string, u: string, w: string, v: string)
    requires SkipSpace(line) == t && KeyPrefix(t) == key != "" && t[|key|..] == rest && SkipSpace(rest) == u
    requires u != "" && u[0] == '=' && u[1..] == w && SkipSpace(w) == v && !HasTerminator(v)
    ensures PairOf(line) == Some((key, v))
  {
  }

  lemma PairText(a: string, key: string, b: string, c: string, v: string)
    ensures a + key + b + "=" + c + v == a + (key + (b + ("=" + c + v)))
  {
  }

  lemma NoKeyBehind(b: string, rest: string)
    requires Spaces(b) && rest != "" && rest[0] == '='
    ensures b + rest != "" && !KeyChar((b + rest)[0])
  {
    if b != "" {
      assert b[0] in b;
    }
  }

  /** And nothing else is one. */
  lemma PairHasParts(line: string) returns (a: string, b: string, c: string)
    requires PairOf(line).Some?
    ensures var (key, v) := PairOf(line).value;
      && Spaces(a) && IsKey(key) && Spaces(b) && Spaces(c) && Solid(v) && !HasTerminator(v)
      && line == a + key + b + "=" + c + v
  {
    var t := SkipSpace(line);
    var key := KeyPrefix(t);
    var u := SkipSpace(t[|key|..]);
    var v := SkipSpace(u[1..]);
    a := SkippedSpaces(line);
    b := SkippedSpaces(t[|key|..]);
    c := SkippedSpaces(u[1..]);
    KeyPrefixIsKey(t);
    PairGlue(line, a, t, key, b, u, c, v);
  }

  lemma PairGlue(line: string, a: string, t: string, key: string, b: string, u: string, c: string, v: string)
    requires line == a + t && key <= t && t[|key|..] == b + u && u != "" && u[0] == '=' && u[1..] == c + v
    ensures line == a + key + b + "=" + c + v
  {
    assert t == key + (b + u) && u == "=" + (c + v);
  }

  // ---------------------------------------------------------------- string literals

  function HexValue(c: char): Option<int> {
    if '0' <= c <= '9' then Some(c as int - '0' as int)
    else if 'a' <= c <= 'f' then Some(c as int - 'a' as int + 10)
    else if 'A' <= c <= 'F' then Some(c as int - 'A' as int + 10)
    else None
  }

  /** The character that an escape of one letter stands for, as section 7 of RFC 8259 has it. */
  function Stands(c: char): Option<char> {
    match c
    case '"' => Some('"')
    case '\\' => Some('\\')
    case '/' => Some('/')
    case 'b' => Some(8 as char)
    case 'f' => Some(12 as char)
    case 'n' => Some(10 as char)
    case 'r' => Some(13 as char)
    case 't' => Some(9 as char)
    case _ => None
  }

  function Before(c: char, rest: Option<string>): Option<string> {
    if rest.None? then None else Some([c] + rest.value)
  }

  /** What stands between the quotes of a string literal, decoded; of the numeric
      escapes only those below 256 are taken. */
  function Decoded(t: string): Option<string>
    decreases |t|
  {
    if t == "" then Some("")
    else if t[0] == '"' || t[0] < ' ' then None
    else if t[0] != '\\' then Before(t[0], Decoded(t[1..]))
    else if |t| >= 2 && Stands(t[1]).Some? then Before(Stands(t[1]).value, Decoded(t[2..]))
    else if |t| >= 6 && t[1] == 'u' && t[2] == '0' && t[3] == '0' && HexValue(t[4]).Some? && HexValue(t[5]).Some? then
      Before((16 * HexValue(t[4]).value + HexValue(t[5]).value) as char, Decoded(t[6..]))
    else None
  }

  lemma HexReads(n: int)
    requires 0 <= n < 16
    ensures HexValue(HexDigit(n)) == Some(n)
  {
    assert forall i :: 0 <= i < 16 ==> "0123456789abcdef"[i] == if i < 10 then ('0' as int + i) as char else ('a' as int + i - 10) as char;
  }

  lemma EscapeDecodes(c: char, rest: string)
    ensures Decoded(Escape(c) + rest) == Before(c, Decoded(rest))
  {
    var e := Escape(c);
    EscapeShape(c, e);
    if |e| == 1 {
      assert (e + rest)[1..] == rest;
    } else if |e| == 2 {
      LetterDecodes(c, e[1], rest, e + rest);
    } else {
      NumericDecodes(c, rest, e + rest);
    }
  }

  lemma EscapeShape(c: char, e: string)
    requires e == Escape(c)
    ensures |e| == 1 || |e| == 2 || |e| == 6
    ensures |e| == 1 ==> e == [c] && c != '"' && c != '\\' && c >= ' '
    ensures |e| == 2 ==> e == ['\\', e[1]] && Stands(e[1]) == Some(c)
    ensures |e| == 6 ==> c < ' ' && e == "\\u00" + [HexDigit(c as int / 16), HexDigit(c as int % 16)]
  {
  }

  lemma LetterDecodes(c: char, x: char, rest: string, t: string)
    requires Stands(x) == Some(c) && t == ['\\', x] + rest
    ensures Decoded(t) == Before(c, Decoded(rest))
  {
    assert t[2..] == rest && t[0] == '\\' && t[1] == x;
  }

  lemma NumericDecodes(c: char, rest: string, t: string)
    requires c < ' ' && t == "\\u00" + [HexDigit(c as int / 16), HexDigit(c as int % 16)] + rest
    ensures Decoded(t) == Before(c, Decoded(rest))
  {
    HexReads(c as int / 16);
    HexReads(c as int % 16);
    assert t[6..] == rest;
    assert t[0] == '\\' && t[1] == 'u' && t[2] == '0' && t[3] == '0' && t[4] == HexDigit(c as int / 16) && t[5] == HexDigit(c as int % 16);
  }

  function Behind(s: string, rest: Option<string>): Option<string> {
    if rest.None? then None else Some(s + rest.value)
  }

  lemma BehindLast(init: string, last: char, s: string, rest: Option<string>)
    requires s == init + [last]
    ensures Behind(init, Before(last, rest)) == Behind(s, rest)
  {
    assert rest.Some? ==> init + ([last] + rest.value) == s + rest.value;
  }

  lemma {:induction false} EscapesDecode(s: string, rest: string)
    ensures Decoded(EscapeAll(s) + rest) == Behind(s, Decoded(rest))
  {
    if s == "" {
      assert EscapeAll(s) + rest == rest;
      assert Decoded(rest).Some? ==> s + Decoded(rest).value == Decoded(rest).value;
    } else {
      var init, last := s[..|s| - 1], s[|s| - 1];
      var a, e, d := EscapeAll(init), Escape(last), Decoded(rest);
      assert EscapeAll(s) + rest == a + (e + rest) by {
        assert EscapeAll(s) == a + e;
      }
      EscapesDecode(init, e + rest);
      EscapeDecodes(last, rest);
      BehindLast(init, last, s, d);
    }
  }

  /** A written string is a string literal, and decodes to the string. */
  lemma QuoteDecodes(s: string)
    ensures var t := Quote(s); |t| >= 2 && t[0] == '"' && t[|t| - 1] == '"' && Decoded(t[1..|t| - 1]) == Some(s)
  {
    var t := Quote(s);
    EscapesDecode(s, "");
    assert t[1..|t| - 1] == EscapeAll(s) && EscapeAll(s) + "" == EscapeAll(s) && s + "" == s;
  }
}
