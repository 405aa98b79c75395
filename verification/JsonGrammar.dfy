/** What comment stripping does, stated by a grammar of its own: a text is made of
    strings, comments and other characters, and loses exactly the comments.
 */
module JsonGrammar {
  import opened JsonComments
  import G = TomlGrammar

  /** A character outside strings and comments; a string; a comment to the end of its line; a block comment. */
  datatype Piece = Plain(c: char) | Str(units: seq<G.Unit>) | Line(body: string) | Block(body: string)

  /** How a text may end after its pieces. */
  datatype Tail = End | OpenStr(units: seq<G.Unit>, dangling: bool) | LastLine(body: string) | OpenBlock(body: string)

  function PieceText(p: Piece): string {
    match p
    case Plain(c) => [c]
    case Str(us) => "\"" + G.UnitsText(us) + "\""
    case Line(body) => "//" + body + "\n"
    case Block(body) => "/*" + body + "*/"
  }

  function TailText(t: Tail): string {
    match t
    case End => ""
    case OpenStr(us, dangling) => "\"" + G.UnitsText(us) + if dangling then "\\" else ""
    case LastLine(body) => "//" + body
    case OpenBlock(body) => "/*" + body
  }

  function Text(ps: seq<Piece>, t: Tail): string {
    if ps == [] then TailText(t) else PieceText(ps[0]) + Text(ps[1..], t)
  }

  /** What is left of a piece: a line comment leaves its line end. */
  function PieceKept(p: Piece): string {
    match p
    case Line(_) => "\n"
    case Block(_) => ""
    case _ => PieceText(p)
  }

  function Kept(ps: seq<Piece>, t: Tail): string {
    if ps == [] then (if t.LastLine? then "\n" else if t.OpenBlock? then "" else TailText(t)) else PieceKept(ps[0]) + Kept(ps[1..], t)
  }

  /** The body of a block comment does not hold its end. */
  predicate NoEnd(body: string) {
    forall i :: 0 <= i < |body| - 1 ==> !(body[i] == '*' && body[i + 1] == '/')
  }

  predicate TailOk(t: Tail) {
    match t
    case End => true
    case OpenStr(us, _) => G.UnitsOk(us)
    case LastLine(body) => '\n' !in body
    case OpenBlock(body) => NoEnd(body)
  }

  /** A slash stands for itself only when no slash or star follows. */
  predicate PieceOk(p: Piece, rest: string) {
    match p
    case Plain(c) => c != '"' && (c == '/' ==> rest == "" || (rest[0] != '/' && rest[0] != '*'))
    case Str(us) => G.UnitsOk(us)
    case Line(body) => '\n' !in body
    case Block(body) => NoEnd(body)
  }

  predicate AllOk(ps: seq<Piece>, t: Tail) {
    if ps == [] then TailOk(t) else PieceOk(ps[0], Text(ps[1..], t)) && AllOk(ps[1..], t)
  }

  // ---------------------------------------------------------------- strings

  lemma Copied(m: Mode, c: char, rest: string)
    requires !(m.Outside? && c == '/' && rest != "" && (rest[0] == '/' || rest[0] == '*'))
    ensures Strip(m, [c] + rest) == [c] + Strip(NextMode(m, c), rest)
  {
    assert ([c] + rest)[1..] == rest;
  }

  lemma CopiedUnit(u: G.Unit, rest: string)
    requires G.UnitsOk([u])
    ensures Strip(Inside(false), G.UnitText(u) + rest) == G.UnitText(u) + Strip(Inside(false), rest)
  {
    assert u in [u];
    if u.Raw? {
      Copied(Inside(false), u.c, rest);
    } else {
      assert G.UnitText(u) + rest == ['\\'] + ([u.c] + rest);
      Copied(Inside(false), '\\', [u.c] + rest);
      Copied(Inside(true), u.c, rest);
      assert ['\\'] + ([u.c] + Strip(Inside(false), rest)) == G.UnitText(u) + Strip(Inside(false), rest);
    }
  }

  lemma {:induction false} CopiedUnits(us: seq<G.Unit>, rest: string)
    requires G.UnitsOk(us)
    ensures Strip(Inside(false), G.UnitsText(us) + rest) == G.UnitsText(us) + Strip(Inside(false), rest)
    decreases |us|
  {
    if us == [] {
      assert "" + rest == rest;
    } else {
      assert us[0] in us;
      assert G.UnitsText(us) + rest == G.UnitText(us[0]) + (G.UnitsText(us[1..]) + rest);
      CopiedUnit(us[0], G.UnitsText(us[1..]) + rest);
      CopiedUnits(us[1..], rest);
    }
  }

  lemma CopiedStr(us: seq<G.Unit>, rest: string)
    requires G.UnitsOk(us)
    ensures Strip(Outside, "\"" + G.UnitsText(us) + "\"" + rest) == "\"" + G.UnitsText(us) + "\"" + Strip(Outside, rest)
  {
    var u, tail := G.UnitsText(us), Strip(Outside, rest);
    assert "\"" + u + "\"" + rest == ['"'] + (u + (['"'] + rest));
    Copied(Outside, '"', u + (['"'] + rest));
    CopiedUnits(us, ['"'] + rest);
    Copied(Inside(false), '"', rest);
    assert "\"" + u + "\"" + tail == ['"'] + (u + (['"'] + tail));
  }

  // ---------------------------------------------------------------- comments

  lemma {:induction false} LineEnds(body: string, rest: string)
    requires '\n' !in body
    ensures AfterLine(body + "\n" + rest) == rest && AfterLine(body) == ""
    decreases |body|
  {
    if body == "" {
      assert ("" + "\n" + rest)[1..] == rest;
    } else {
      assert body[0] in body && forall c :: c in body[1..] ==> c in body;
      assert (body + "\n" + rest)[1..] == body[1..] + "\n" + rest;
      LineEnds(body[1..], rest);
    }
  }

  lemma StripLine(body: string, rest: string)
    requires '\n' !in body
    ensures Strip(Outside, "//" + body + "\n" + rest) == "\n" + Strip(Outside, rest)
    ensures Strip(Outside, "//" + body) == "\n"
  {
    LineEnds("//" + body, rest);
    assert "\n" + "" == "\n";
  }

  lemma {:induction false} BlockEnds(body: string, rest: string)
    requires NoEnd(body)
    ensures AfterBlock(body + "*/" + rest) == rest && AfterBlock(body) == ""
    decreases |body|
  {
    if body == "" {
      assert ("" + "*/" + rest)[2..] == rest;
    } else {
      var all := body + "*/" + rest;
      assert forall i :: 0 <= i < |body[1..]| ==> body[1..][i] == body[i + 1];
      assert all[1..] == body[1..] + "*/" + rest;
      assert |body| > 1 ==> all[1] == body[1];
      assert |body| == 1 ==> all[1] == '*';
      BlockEnds(body[1..], rest);
    }
  }

  lemma StripBlock(body: string, rest: string)
    requires NoEnd(body)
    ensures Strip(Outside, "/*" + body + "*/" + rest) == Strip(Outside, rest)
    ensures Strip(Outside, "/*" + body) == ""
  {
    BlockEnds(body, rest);
    assert ("/*" + body + "*/" + rest)[2..] == body + "*/" + rest;
    assert ("/*" + body)[2..] == body;
  }

  // ---------------------------------------------------------------- the main result

  lemma StripTail(t: Tail)
    requires TailOk(t)
    ensures Strip(Outside, TailText(t)) == Kept([], t)
  {
    match t
    case End =>
    case OpenStr(us, dangling) =>
      var last := if dangling then "\\" else "";
      assert TailText(t) == ['"'] + (G.UnitsText(us) + last);
      Copied(Outside, '"', G.UnitsText(us) + last);
      CopiedUnits(us, last);
      assert dangling ==> last == ['\\'] + "";
      Copied(Inside(false), '\\', "");
    case LastLine(body) => StripLine(body, "");
    case OpenBlock(body) => StripBlock(body, "");
  }

  lemma StripPiece(p: Piece, rest: string)
    requires PieceOk(p, rest)
    ensures Strip(Outside, PieceText(p) + rest) == PieceKept(p) + Strip(Outside, rest)
  {
    match p
    case Plain(c) => Copied(Outside, c, rest);
    case Str(us) => CopiedStr(us, rest);
    case Line(body) => StripLine(body, rest);
    case Block(body) => StripBlock(body, rest);
  }

  /** Stripping: a text made of pieces and a tail loses exactly its comments; a line
      comment leaves the end of its line. */
  lemma {:induction false} StripsTheComments(ps: seq<Piece>, t: Tail)
    requires AllOk(ps, t)
    ensures Strip(Outside, Text(ps, t)) == Kept(ps, t)
    decreases |ps|
  {
    if ps == [] {
      StripTail(t);
    } else {
      StripPiece(ps[0], Text(ps[1..], t));
      StripsTheComments(ps[1..], t);
    }
  }

  lemma {:induction false} SplitLine(s: string) returns (body: string, closed: bool, rest: string)
    ensures '\n' !in body && |rest| <= |s| && s == body + if closed then "\n" + rest else ""
    decreases |s|
  {
    body, closed, rest := "", false, "";
    if s == "" {
    } else if s[0] == '\n' {
      closed, rest := true, s[1..];
    } else {
      var more;
      more, closed, rest := SplitLine(s[1..]);
      body := [s[0]] + more;
    }
  }

  lemma {:induction false} SplitBlock(s: string) returns (body: string, closed: bool, rest: string)
    ensures NoEnd(body) && |rest| <= |s| && s == body + if closed then "*/" + rest else ""
    decreases |s|
  {
    body, closed, rest := "", false, "";
    if s == "" {
    } else if |s| >= 2 && s[0] == '*' && s[1] == '/' {
      closed, rest := true, s[2..];
    } else {
      var more;
      more, closed, rest := SplitBlock(s[1..]);
      body := [s[0]] + more;
      assert |more| > 0 ==> s[1] == more[0];
    }
  }

  /** Every text is made of such pieces and a tail. */
  lemma {:induction false} EveryTextHasPieces(s: string) returns (ps: seq<Piece>, t: Tail)
    ensures AllOk(ps, t) && s == Text(ps, t)
    decreases |s|
  {
    ps, t := [], End;
    if s != "" {
      var p: Piece, rest: string := Plain(s[0]), s[1..];
      if s[0] == '"' {
        var us, closed, dangling, after := G.SplitBasic(s[1..]);
        if !closed {
          t := OpenStr(us, dangling);
          return;
        }
        p, rest := Str(us), after;
      } else if Opens(s, '/') {
        var body, closed, after := SplitLine(s[2..]);
        assert s == "//" + s[2..];
        if !closed {
          t := LastLine(body);
          return;
        }
        p, rest := Line(body), after;
      } else if Opens(s, '*') {
        var body, closed, after := SplitBlock(s[2..]);
        assert s == "/*" + s[2..];
        if !closed {
          t := OpenBlock(body);
          return;
        }
        p, rest := Block(body), after;
      }
      assert s == PieceText(p) + rest && PieceOk(p, rest);
      var more;
      more, t := EveryTextHasPieces(rest);
      ps := [p] + more;
      assert ps[1..] == more;
    }
  }
}
