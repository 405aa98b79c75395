/** Comment stripping for JSON configuration files. */
module JsonComments {

  datatype Mode = Outside | Inside(quoted: bool)

  /** The text from the end of its first line on, newline included in what is dropped. */
  function AfterLine(t: string): (r: string)
    ensures |r| <= |t|
  {
    if t == "" then "" else if t[0] == '\n' then t[1..] else AfterLine(t[1..])
  }

  /** The text behind the first end of a block comment. */
  function AfterBlock(t: string): (r: string)
    ensures |r| <= |t|
  {
    if t == "" then "" else if |t| >= 2 && t[0] == '*' && t[1] == '/' then t[2..] else AfterBlock(t[1..])
  }

  predicate Opens(t: string, second: char) {
    |t| >= 2 && t[0] == '/' && t[1] == second
  }

  function NextMode(m: Mode, c: char): Mode {
    match m
    case Outside => if c == '"' then Inside(false) else Outside
    case Inside(quoted) => if quoted then Inside(false) else if c == '\\' then Inside(true) else if c == '"' then Outside else m
  }

  /** The text without its comments; a line comment leaves its newline. */
  function Strip(m: Mode, t: string): string
    decreases |t|
  {
    if t == "" then ""
    else if m.Outside? && Opens(t, '/') then "\n" + Strip(m, AfterLine(t))
    else if m.Outside? && Opens(t, '*') then Strip(m, AfterBlock(t[2..]))
    else [t[0]] + Strip(NextMode(m, t[0]), t[1..])
  }

  /** No comment opens outside a string. */
  predicate CommentFree(m: Mode, t: string)
    decreases |t|
  {
    t == "" || (!(m.Outside? && (Opens(t, '/') || Opens(t, '*'))) && CommentFree(NextMode(m, t[0]), t[1..]))
  }

  /** A text without comments is left alone. */
  lemma {:induction false} StripsNothing(m: Mode, t: string)
    requires CommentFree(m, t)
    ensures Strip(m, t) == t
    decreases |t|
  {
    if t != "" {
      StripsNothing(NextMode(m, t[0]), t[1..]);
      assert [t[0]] + t[1..] == t;
    }
  }

  /** Copied characters come first. */
  lemma CopiedFirst(m: Mode, t: string)
    requires t != "" && (m.Inside? || t[0] != '/')
    ensures Strip(m, t) != "" && Strip(m, t)[0] == t[0]
  {
  }

  /** Removing comments never creates one. */
  lemma {:induction false} StripIsCommentFree(m: Mode, t: string)
    ensures CommentFree(m, Strip(m, t))
    decreases |t|
  {
    if t != "" {
      if m.Outside? && Opens(t, '/') {
        StripIsCommentFree(m, AfterLine(t));
        assert ("\n" + Strip(m, AfterLine(t)))[1..] == Strip(m, AfterLine(t));
      } else if m.Outside? && Opens(t, '*') {
        StripIsCommentFree(m, AfterBlock(t[2..]));
      } else {
        var c, rest := t[0], t[1..];
        var r := Strip(NextMode(m, c), rest);
        StripIsCommentFree(NextMode(m, c), rest);
        assert ([c] + r)[1..] == r;
        if c == '/' && m.Outside? && rest != "" && rest[0] != '/' {
          CopiedFirst(m, rest);
        }
      }
    }
  }

  /** Stripping twice is stripping once. */
  lemma StripIsIdempotent(m: Mode, t: string)
    ensures Strip(m, Strip(m, t)) == Strip(m, t)
  {
    StripIsCommentFree(m, t);
    StripsNothing(m, Strip(m, t));
  }

  /** A text is left alone exactly when no comment opens outside a string. */
  lemma LeftAloneIff(m: Mode, t: string)
    ensures Strip(m, t) == t <==> CommentFree(m, t)
  {
    StripIsCommentFree(m, t);
    if CommentFree(m, t) {
      StripsNothing(m, t);
    }
  }

  /** The string literals outside comments, in order, as one text with their quotes. */
  function Literals(m: Mode, t: string): string
    decreases |t|
  {
    if t == "" then ""
    else if m.Outside? && Opens(t, '/') then Literals(m, AfterLine(t))
    else if m.Outside? && Opens(t, '*') then Literals(m, AfterBlock(t[2..]))
    else (if m.Inside? || t[0] == '"' then [t[0]] else "") + Literals(NextMode(m, t[0]), t[1..])
  }

  /** String literals are copied verbatim, whatever they contain. */
  lemma {:induction false} StripKeepsLiterals(m: Mode, t: string)
    ensures Literals(m, Strip(m, t)) == Literals(m, t)
    decreases |t|
  {
    if t != "" {
      if m.Outside? && Opens(t, '/') {
        StripKeepsLiterals(m, AfterLine(t));
        assert ("\n" + Strip(m, AfterLine(t)))[1..] == Strip(m, AfterLine(t));
      } else if m.Outside? && Opens(t, '*') {
        StripKeepsLiterals(m, AfterBlock(t[2..]));
      } else {
        var c, rest := t[0], t[1..];
        var r := Strip(NextMode(m, c), rest);
        StripKeepsLiterals(NextMode(m, c), rest);
        StripIsCommentFree(m, t);
        assert ([c] + r)[1..] == r && Strip(m, t) == [c] + r;
      }
    }
  }

  method SkipLine(input: string, start: nat) returns (i: nat)
    requires start <= |input|
    ensures start <= i <= |input| && AfterLine(input[start..]) == if i == |input| then "" else input[i + 1..]
  {
    i := start;
    while i < |input| && input[i] != '\n'
      invariant start <= i <= |input| && AfterLine(input[start..]) == AfterLine(input[i..])
    {
      assert input[i..][1..] == input[i + 1..];
      i := i + 1;
    }
    if i < |input| {
      assert input[i..][1..] == input[i + 1..];
    }
  }

  method SkipBlock(input: string, start: nat) returns (i: nat)
    requires start <= |input|
    ensures start <= i <= |input| && (i < |input| ==> i + 2 <= |input|)
    ensures AfterBlock(input[start..]) == if i == |input| then "" else input[i + 2..]
  {
    i := start;
    while i < |input| && !(i + 1 < |input| && input[i] == '*' && input[i + 1] == '/')
      invariant start <= i <= |input| && AfterBlock(input[start..]) == AfterBlock(input[i..])
    {
      assert input[i..][1..] == input[i + 1..];
      i := i + 1;
    }
    if i < |input| {
      assert input[i..][2..] == input[i + 2..];
    }
  }

  lemma Appends(out: string, s: string, rest: string)
    ensures out + (s + rest) == out + s + rest
  {
  }

  method StripJsonComments(input: string) returns (out: string)
    ensures out == Strip(Outside, input)
  {
    out := "";
    var inString, quoted := false, false;
    var i := 0;
    assert input[0..] == input;
    while i < |input|
      invariant i <= |input| && (!inString ==> !quoted)
      invariant out + Strip(if inString then Inside(quoted) else Outside, input[i..]) == Strip(Outside, input)
    {
      var c := input[i];
      ghost var m := if inString then Inside(quoted) else Outside;
      ghost var t := input[i..];
      assert t[0] == c && t[1..] == input[i + 1..];
      if !inString && c == '/' && i + 1 < |input| && input[i + 1] == '/' {
        assert Opens(t, '/');
        i := SkipLine(input, i);
        Appends(out, "\n", Strip(m, AfterLine(t)));
        out := out + "\n";
        i := if i < |input| then i + 1 else i;
        continue;
      }
      if !inString && c == '/' && i + 1 < |input| && input[i + 1] == '*' {
        assert Opens(t, '*') && !Opens(t, '/') && t[2..] == input[i + 2..];
        i := SkipBlock(input, i + 2);
        i := if i < |input| then i + 2 else i;
        continue;
      }
      assert !(m.Outside? && (Opens(t, '/') || Opens(t, '*')));
      Appends(out, [c], Strip(NextMode(m, c), t[1..]));
      out := out + [c];
      if inString {
        if quoted {
          quoted := false;
        } else if c == '\\' {
          quoted := true;
        } else if c == '"' {
          inString := false;
        }
      } else if c == '"' {
        inString := true;
      }
      i := i + 1;
    }
    assert out + "" == out;
  }
}
