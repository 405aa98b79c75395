/** The key file of the remote terminal: a host appends lines, a reader polls,
    keeps the unterminated tail and dispatches the messages of complete lines,
    merging bursts of pointer moves.

    Decoding and parsing one line is the parameter `parse` (None for a line that
    is blank or no JSON, `Null` for the JSON value null, on which the original
    throws).  Which dispatches make the host close is the parameter `closes`, which
    sees all that was dispatched before.  `lines` and `polls` are an observer's
    notes: the complete lines taken, and the messages each poll parsed.
 */
module KeyReader {

  datatype Option<T> = None | Some(value: T)

  newtype byte = x: int | 0 <= x < 256
  type Bytes = seq<byte>

  const NEWLINE: byte := 10

  datatype Mouse = Mouse(kind: string, button: string, point: seq<int>, wheel: int)

  datatype Msg = Null | Msg(id: Option<string>, op: string, data: Option<string>, event: Option<Mouse>)

  datatype Dispatch = Cancel | Input(data: string) | Pointer(event: Mouse)

  datatype Config = Config(id: string, parse: Bytes -> Option<Msg>, closes: (seq<Dispatch>, Dispatch) -> bool)

  // ---------------------------------------------------------------- lines

  datatype Cut = Cut(lines: seq<Bytes>, tail: Bytes)

  function Feed(c: Cut, b: byte): Cut {
    if b == NEWLINE then Cut(c.lines + [c.tail], []) else c.(tail := c.tail + [b])
  }

  /** The complete lines of a text and what follows the last newline. */
  function CutAll(c: Cut, text: Bytes): Cut {
    if text == [] then c else Feed(CutAll(c, text[..|text| - 1]), text[|text| - 1])
  }

  const START := Cut([], [])

  lemma {:induction false} CutConcat(c: Cut, a: Bytes, b: Bytes)
    ensures CutAll(c, a + b) == CutAll(CutAll(c, a), b)
  {
    if b == [] {
      assert a + b == a;
    } else {
      CutConcat(c, a, b[..|b| - 1]);
      assert (a + b)[..|a + b| - 1] == a + b[..|b| - 1];
    }
  }

  lemma {:induction false} CutBehind(lines: seq<Bytes>, tail: Bytes, text: Bytes)
    ensures CutAll(Cut(lines, tail), text) == Cut(lines + CutAll(Cut([], tail), text).lines, CutAll(Cut([], tail), text).tail)
  {
    if text != [] {
      CutBehind(lines, tail, text[..|text| - 1]);
    }
  }

  predicate NoNewline(text: Bytes) {
    forall i :: 0 <= i < |text| ==> text[i] != NEWLINE
  }

  lemma {:induction false} CutNoNewline(text: Bytes)
    requires NoNewline(text)
    ensures CutAll(START, text) == Cut([], text)
  {
    if text != [] {
      var init, last := text[..|text| - 1], text[|text| - 1];
      CutNoNewline(init);
      assert CutAll(START, text) == Feed(Cut([], init), last);
      InitAndLast(text);
    }
  }

  lemma InitAndLast(text: Bytes)
    requires text != []
    ensures text[..|text| - 1] + [text[|text| - 1]] == text
  {
  }

  lemma {:induction false} TailHasNoNewline(text: Bytes)
    ensures NoNewline(CutAll(START, text).tail)
  {
    if text != [] {
      TailHasNoNewline(text[..|text| - 1]);
    }
  }

  /** Keeping only the tail loses nothing. */
  lemma CutResumes(a: Bytes, b: Bytes)
    ensures var tail := CutAll(START, a).tail;
      CutAll(START, a + b) == Cut(CutAll(START, a).lines + CutAll(START, tail + b).lines, CutAll(START, tail + b).tail)
  {
    var c := CutAll(START, a);
    CutConcat(START, a, b);
    CutBehind(c.lines, c.tail, b);
    TailHasNoNewline(a);
    CutNoNewline(c.tail);
    CutConcat(START, c.tail, b);
  }

  // ---------------------------------------------------------------- messages

  function Messages(parse: Bytes -> Option<Msg>, lines: seq<Bytes>): seq<Msg> {
    if lines == [] then []
    else
      var rest := Messages(parse, lines[..|lines| - 1]);
      match parse(lines[|lines| - 1])
      case None => rest
      case Some(m) => rest + [m]
  }

  lemma {:induction false} MessagesConcat(parse: Bytes -> Option<Msg>, a: seq<Bytes>, b: seq<Bytes>)
    ensures Messages(parse, a + b) == Messages(parse, a) + Messages(parse, b)
  {
    if b == [] {
      assert a + b == a;
    } else {
      MessagesConcat(parse, a, b[..|b| - 1]);
      assert (a + b)[..|a + b| - 1] == a + b[..|b| - 1];
    }
  }

  predicate IsMouseEvent(e: Option<Mouse>) {
    e.Some? && e.value.kind in ["press", "release", "move", "drag", "click", "wheel"] && e.value.button in ["left", "middle", "right", "none"]
  }

  predicate IsMove(m: Msg) {
    m.Msg? && m.op == "mouse" && IsMouseEvent(m.event) && m.event.value.kind == "move"
  }

  /** The next message makes this one redundant. */
  predicate Merges(m: Msg, next: Msg) {
    IsMove(m) && IsMove(next) && m.id == next.id
  }

  /** The messages that no next one makes redundant. */
  function Surviving(ms: seq<Msg>): seq<Msg> {
    if ms == [] then []
    else if |ms| >= 2 && Merges(ms[0], ms[1]) then Surviving(ms[1..])
    else [ms[0]] + Surviving(ms[1..])
  }

  function Act(cfg: Config, m: Msg): Option<Dispatch>
    requires m.Msg?
  {
    if m.id != Some(cfg.id) then None
    else if m.op == "cancel" then Some(Cancel)
    else if m.op == "input" && m.data.Some? then Some(Input(m.data.value))
    else if m.op == "mouse" && IsMouseEvent(m.event) then Some(Pointer(m.event.value))
    else None
  }

  datatype Played = Played(out: seq<Dispatch>, closed: bool)

  predicate Stops(cfg: Config, out: seq<Dispatch>, d: Dispatch) {
    d == Cancel || cfg.closes(out, d)
  }

  /** Dispatch messages in order, after what is out already, until the host closes or a null throws. */
  function Play(cfg: Config, out: seq<Dispatch>, ms: seq<Msg>): Played
    decreases |ms|
  {
    if ms == [] || ms[0].Null? then Played(out, false)
    else
      match Act(cfg, ms[0])
      case None => Play(cfg, out, ms[1..])
      case Some(d) => if Stops(cfg, out, d) then Played(out + [d], true) else Play(cfg, out + [d], ms[1..])
  }

  // ---------------------------------------------------------------- the reader

  datatype Reader = Reader(offset: nat, buffer: Bytes, closed: bool, out: seq<Dispatch>, lines: seq<Bytes>, polls: seq<seq<Msg>>)

  /** A file that has become shorter was created anew. */
  function Rewound(r: Reader, file: Bytes): Reader {
    if |file| < r.offset then r.(offset := 0, buffer := []) else r
  }

  function Noted(polls: seq<seq<Msg>>, ms: seq<Msg>): seq<seq<Msg>> {
    if ms == [] then polls else polls + [ms]
  }

  function Delivered(cfg: Config, r: Reader, ms: seq<Msg>): Reader {
    var p := Play(cfg, r.out, Surviving(ms));
    r.(out := p.out, closed := p.closed, polls := Noted(r.polls, ms))
  }

  function TakeCut(cfg: Config, r: Reader, n: nat, cut: Cut): Reader {
    Delivered(cfg, r.(offset := r.offset + n, buffer := cut.tail, lines := r.lines + cut.lines), Messages(cfg.parse, cut.lines))
  }

  function Take(cfg: Config, r: Reader, bytes: Bytes): Reader {
    TakeCut(cfg, r, |bytes|, CutAll(START, r.buffer + bytes))
  }

  /** One poll; the read returns at most `most` bytes. */
  function DoDrain(cfg: Config, file: Bytes, r: Reader, most: nat): Reader {
    if r.closed then r
    else
      var q := Rewound(r, file);
      var n := if most < |file| - q.offset then most else |file| - q.offset;
      if |file| == q.offset then q else Take(cfg, q, file[q.offset..q.offset + n])
  }

  datatype System = System(file: Bytes, reader: Reader)

  /** Bytes are appended, the file is created anew, or the reader polls. */
  datatype Event = Append(bytes: Bytes) | Recreate(bytes: Bytes) | Drain(most: nat)

  function Step(cfg: Config, s: System, e: Event): System {
    match e
    case Append(bytes) => s.(file := s.file + bytes)
    case Recreate(bytes) => s.(file := bytes)
    case Drain(most) => s.(reader := DoDrain(cfg, s.file, s.reader, most))
  }

  function Run(cfg: Config, s: System, es: seq<Event>): System
    decreases |es|
  {
    if es == [] then s else Run(cfg, Step(cfg, s, es[0]), es[1..])
  }

  function Fresh(): Reader {
    Reader(0, [], false, [], [], [])
  }

  // ---------------------------------------------------------------- what merging keeps

  function NonMoves(ms: seq<Msg>): seq<Msg> {
    if ms == [] then [] else (if IsMove(ms[0]) then [] else [ms[0]]) + NonMoves(ms[1..])
  }

  lemma {:induction false} NonMovesConcat(a: seq<Msg>, b: seq<Msg>)
    ensures NonMoves(a + b) == NonMoves(a) + NonMoves(b)
  {
    if a == [] {
      assert a + b == b;
    } else {
      assert (a + b)[1..] == a[1..] + b;
      NonMovesConcat(a[1..], b);
    }
  }

  lemma {:induction false} MergingKeepsNonMoves(ms: seq<Msg>)
    ensures NonMoves(Surviving(ms)) == NonMoves(ms)
  {
    if ms != [] {
      MergingKeepsNonMoves(ms[1..]);
      if !(|ms| >= 2 && Merges(ms[0], ms[1])) {
        assert ([ms[0]] + Surviving(ms[1..]))[1..] == Surviving(ms[1..]);
      }
    }
  }

  /** a is b with some elements left out. */
  predicate Subsequence(a: seq<Msg>, b: seq<Msg>) {
    a == [] || (b != [] && if a[0] == b[0] then Subsequence(a[1..], b[1..]) else Subsequence(a, b[1..]))
  }

  lemma {:induction false} SubsequenceTail(a: seq<Msg>, b: seq<Msg>)
    requires Subsequence(a, b) && a != []
    ensures Subsequence(a[1..], b)
    decreases |b|, 0
  {
    if a[0] == b[0] {
      SubsequenceCons(a[1..], b[0], b[1..]);
    } else {
      SubsequenceTail(a, b[1..]);
      SubsequenceCons(a[1..], b[0], b[1..]);
    }
    assert [b[0]] + b[1..] == b;
  }

  lemma {:induction false} SubsequenceCons(a: seq<Msg>, x: Msg, b: seq<Msg>)
    requires Subsequence(a, b)
    ensures Subsequence(a, [x] + b) && Subsequence([x] + a, [x] + b)
    decreases |b|, 1
  {
    assert ([x] + b)[1..] == b && ([x] + a)[1..] == a;
    if a != [] && a[0] == x {
      SubsequenceTail(a, b);
    }
  }

  lemma {:induction false} SubsequenceSelf(a: seq<Msg>)
    ensures Subsequence(a, a)
  {
    if a != [] {
      SubsequenceSelf(a[1..]);
    }
  }

  lemma {:induction false} SubsequenceConcat(a: seq<Msg>, b: seq<Msg>, c: seq<Msg>, d: seq<Msg>)
    requires Subsequence(a, b) && Subsequence(c, d)
    ensures Subsequence(a + c, b + d)
    decreases |b|
  {
    if b == [] {
      assert a + c == c && b + d == d;
    } else if a == [] {
      SubsequenceConcat([], b[1..], c, d);
      assert [] + c == c && a + c == c;
      SubsequenceCons(c, b[0], b[1..] + d);
      assert [b[0]] + (b[1..] + d) == b + d;
    } else if a[0] == b[0] {
      SubsequenceConcat(a[1..], b[1..], c, d);
      assert (a + c)[1..] == a[1..] + c && (b + d)[1..] == b[1..] + d;
    } else {
      SubsequenceConcat(a, b[1..], c, d);
      assert (b + d)[1..] == b[1..] + d && (a + c)[0] == a[0];
    }
  }

  /** Merging leaves messages out and keeps the order. */
  lemma {:induction false} MergingLeavesOut(ms: seq<Msg>)
    ensures Subsequence(Surviving(ms), ms)
  {
    if ms != [] {
      MergingLeavesOut(ms[1..]);
      SubsequenceCons(Surviving(ms[1..]), ms[0], ms[1..]);
      assert [ms[0]] + ms[1..] == ms;
    }
  }

  /** Polling in two parts merges no more than polling at once. */
  lemma {:induction false} SmallerBatchesMergeLess(a: seq<Msg>, b: seq<Msg>)
    ensures Subsequence(Surviving(a + b), Surviving(a) + Surviving(b))
  {
    if a == [] {
      assert a + b == b && Surviving(a) + Surviving(b) == Surviving(b);
      SubsequenceSelf(Surviving(b));
    } else {
      var rest := a[1..];
      assert (a + b)[1..] == rest + b;
      SmallerBatchesMergeLess(rest, b);
      var whole, parts := Surviving(rest + b), Surviving(rest) + Surviving(b);
      SubsequenceCons(whole, a[0], parts);
      assert [a[0]] + parts == [a[0]] + Surviving(rest) + Surviving(b);
    }
  }

  // ---------------------------------------------------------------- what playing keeps

  /** Some message calls for this dispatch. */
  ghost predicate Called(cfg: Config, ms: seq<Msg>, d: Dispatch) {
    exists m :: m in ms && m.Msg? && Act(cfg, m) == Some(d)
  }

  ghost predicate AllCalled(cfg: Config, ms: seq<Msg>, out: seq<Dispatch>) {
    forall d :: d in out ==> Called(cfg, ms, d)
  }

  /** Hovering leaves no trace in the host: whatever these messages have led to, a
      pointer move does not close it, and whether anything else does is the same
      with the moves left out. */
  ghost predicate HoverIsStateless(cfg: Config, ms: seq<Msg>) {
    forall out: seq<Dispatch>, d: Dispatch :: AllCalled(cfg, ms, out) && Called(cfg, ms, d) ==>
      if IsMoveDispatch(d) then !cfg.closes(out, d) else cfg.closes(out, d) == cfg.closes(Still(out), d)
  }

  predicate NoNull(ms: seq<Msg>) {
    forall m :: m in ms ==> m.Msg?
  }

  lemma {:induction false} PlayConcat(cfg: Config, out: seq<Dispatch>, a: seq<Msg>, b: seq<Msg>)
    requires NoNull(a)
    ensures Play(cfg, out, a + b) == var p := Play(cfg, out, a); if p.closed then p else Play(cfg, p.out, b)
    decreases |a|
  {
    if a == [] {
      assert a + b == b;
    } else {
      assert a[0] in a;
      assert (a + b)[1..] == a[1..] + b;
      var act := Act(cfg, a[0]);
      if act.None? {
        PlayConcat(cfg, out, a[1..], b);
      } else if !Stops(cfg, out, act.value) {
        PlayConcat(cfg, out + [act.value], a[1..], b);
      }
    }
  }

  lemma PlayOne(cfg: Config, out: seq<Dispatch>, m: Msg, rest: seq<Msg>)
    ensures var goal := Play(cfg, out, [m] + rest);
      && (m.Null? ==> goal == Played(out, false))
      && (m.Msg? && Act(cfg, m).None? ==> goal == Play(cfg, out, rest))
      && (m.Msg? && Act(cfg, m).Some? ==> var d := Act(cfg, m).value;
            goal == if Stops(cfg, out, d) then Played(out + [d], true) else Play(cfg, out + [d], rest))
  {
    assert ([m] + rest)[1..] == rest;
  }

  /** The dispatches other than pointer moves. */
  function Still(out: seq<Dispatch>): seq<Dispatch> {
    if out == [] then []
    else
      var d := out[|out| - 1];
      Still(out[..|out| - 1]) + if IsMoveDispatch(d) then [] else [d]
  }

  lemma StillSnoc(out: seq<Dispatch>, d: Dispatch)
    ensures Still(out + [d]) == if IsMoveDispatch(d) then Still(out) else Still(out) + [d]
  {
    assert (out + [d])[..|out|] == out;
  }

  predicate IsMoveDispatch(d: Dispatch) {
    d.Pointer? && d.event.kind == "move"
  }

  lemma ActOfMove(cfg: Config, m: Msg)
    requires m.Msg? && Act(cfg, m).Some?
    ensures IsMove(m) <==> IsMoveDispatch(Act(cfg, m).value)
  {
  }

  lemma OneMoreCalled(cfg: Config, all: seq<Msg>, out: seq<Dispatch>, m: Msg)
    requires AllCalled(cfg, all, out) && m in all && m.Msg? && Act(cfg, m).Some?
    ensures Called(cfg, all, Act(cfg, m).value) && AllCalled(cfg, all, out + [Act(cfg, m).value])
  {
  }

  /** Moves aside, what is dispatched is what the other messages call for. */
  lemma {:induction false} PlayStill(cfg: Config, all: seq<Msg>, out: seq<Dispatch>, ms: seq<Msg>)
    requires NoNull(ms) && HoverIsStateless(cfg, all) && AllCalled(cfg, all, out) && forall m :: m in ms ==> m in all
    ensures var p, q := Play(cfg, out, ms), Play(cfg, Still(out), NonMoves(ms)); Still(p.out) == q.out && p.closed == q.closed
    decreases |ms|
  {
    if ms != [] {
      var m, rest := ms[0], ms[1..];
      assert m in ms && forall x :: x in rest ==> x in ms;
      PlayOne(cfg, out, m, rest);
      PlayOne(cfg, Still(out), m, NonMoves(rest));
      assert [m] + rest == ms && NonMoves(ms) == (if IsMove(m) then [] else [m]) + NonMoves(rest);
      assert IsMove(m) ==> NonMoves(ms) == NonMoves(rest);
      var act := Act(cfg, m);
      if act.None? {
        PlayStill(cfg, all, out, rest);
      } else {
        ActOfMove(cfg, m);
        OneMoreCalled(cfg, all, out, m);
        StillSnoc(out, act.value);
        PlayStill(cfg, all, out + [act.value], rest);
        assert if IsMove(m) then !Stops(cfg, out, act.value) else Stops(cfg, out, act.value) == Stops(cfg, Still(out), act.value);
      }
    }
  }

  // ---------------------------------------------------------------- nulls

  /** The messages in front of the first null. */
  function BeforeNull(ms: seq<Msg>): seq<Msg> {
    if ms == [] || ms[0].Null? then [] else [ms[0]] + BeforeNull(ms[1..])
  }

  function NonNull(ms: seq<Msg>): seq<Msg> {
    if ms == [] then [] else (if ms[0].Null? then [] else [ms[0]]) + NonNull(ms[1..])
  }

  /** No message follows a null. */
  predicate NothingAfterNull(ms: seq<Msg>) {
    forall i, j :: 0 <= i < j < |ms| && ms[i].Null? ==> ms[j].Null?
  }

  /** A null ends the poll: what follows it in the poll is not dispatched. */
  lemma {:induction false} NullEndsThePoll(cfg: Config, out: seq<Dispatch>, ms: seq<Msg>)
    ensures Play(cfg, out, Surviving(ms)) == Play(cfg, out, Surviving(BeforeNull(ms)))
    ensures Surviving(ms) != [] && ms[0].Msg? ==> BeforeNull(ms) != [] && Surviving(BeforeNull(ms)) != []
    decreases |ms|
  {
    if ms != [] && ms[0].Msg? {
      var rest, kept, act := ms[1..], BeforeNull(ms[1..]), Act(cfg, ms[0]);
      NullEndsThePoll(cfg, out, rest);
      if act.Some? {
        NullEndsThePoll(cfg, out + [act.value], rest);
      }
      assert BeforeNull(ms)[1..] == kept;
      assert |ms| >= 2 && ms[1].Msg? ==> kept != [] && kept[0] == ms[1];
      PlayOne(cfg, out, ms[0], Surviving(rest));
      PlayOne(cfg, out, ms[0], Surviving(kept));
    }
  }

  lemma {:induction false} BeforeNullNoNull(ms: seq<Msg>)
    ensures NoNull(BeforeNull(ms))
  {
    if ms != [] && ms[0].Msg? {
      BeforeNullNoNull(ms[1..]);
    }
  }

  /** Nothing is cut off exactly when no message follows a null. */
  lemma {:induction false} CutsNothingIff(ms: seq<Msg>)
    ensures BeforeNull(ms) <= NonNull(ms)
    ensures BeforeNull(ms) == NonNull(ms) <==> NothingAfterNull(ms)
  {
    if ms != [] {
      var rest := ms[1..];
      CutsNothingIff(rest);
      assert NothingAfterNull(ms) ==> NothingAfterNull(rest);
      if ms[0].Null? {
        NullsOnlyIff(rest);
        assert NothingAfterNull(ms) <==> forall j :: 0 <= j < |rest| ==> rest[j].Null?;
      } else {
        assert NothingAfterNull(rest) ==> NothingAfterNull(ms);
      }
    }
  }

  lemma {:induction false} NullsOnlyIff(ms: seq<Msg>)
    ensures NonNull(ms) == [] <==> forall j :: 0 <= j < |ms| ==> ms[j].Null?
  {
    if ms != [] {
      NullsOnlyIff(ms[1..]);
      assert forall j :: 1 <= j < |ms| ==> ms[j] == ms[1..][j - 1];
    }
  }

  lemma {:induction false} NonNullConcat(a: seq<Msg>, b: seq<Msg>)
    ensures NonNull(a + b) == NonNull(a) + NonNull(b)
  {
    if a == [] {
      assert a + b == b;
    } else {
      assert (a + b)[1..] == a[1..] + b;
      NonNullConcat(a[1..], b);
    }
  }

  // ---------------------------------------------------------------- the polls together

  /** Everything the polls parsed. */
  function Got(polls: seq<seq<Msg>>): seq<Msg> {
    if polls == [] then [] else Got(polls[..|polls| - 1]) + polls[|polls| - 1]
  }

  /** What no null cut off. */
  function Kept(polls: seq<seq<Msg>>): seq<Msg> {
    if polls == [] then [] else Kept(polls[..|polls| - 1]) + BeforeNull(polls[|polls| - 1])
  }

  /** What is left of that after each poll merged its moves. */
  function Heard(polls: seq<seq<Msg>>): seq<Msg> {
    if polls == [] then [] else Heard(polls[..|polls| - 1]) + Surviving(BeforeNull(polls[|polls| - 1]))
  }

  lemma NotedOnce(polls: seq<seq<Msg>>, ms: seq<Msg>)
    ensures Got(Noted(polls, ms)) == Got(polls) + ms
    ensures Kept(Noted(polls, ms)) == Kept(polls) + BeforeNull(ms)
    ensures Heard(Noted(polls, ms)) == Heard(polls) + Surviving(BeforeNull(ms))
  {
    assert (polls + [ms])[..|polls|] == polls;
  }

  /** Over all polls nothing is cut off exactly when no poll has a message behind a null. */
  lemma {:induction false} KeepsAllIff(polls: seq<seq<Msg>>)
    ensures |Kept(polls)| <= |NonNull(Got(polls))|
    ensures Kept(polls) == NonNull(Got(polls)) <==> forall k :: 0 <= k < |polls| ==> NothingAfterNull(polls[k])
    ensures |Kept(polls)| == |NonNull(Got(polls))| ==> Kept(polls) == NonNull(Got(polls))
  {
    if polls != [] {
      var init, last := polls[..|polls| - 1], polls[|polls| - 1];
      KeepsAllIff(init);
      CutsNothingIff(last);
      NonNullConcat(Got(init), last);
      assert forall k :: 0 <= k < |init| ==> init[k] == polls[k];
      assert |BeforeNull(last)| == |NonNull(last)| ==> BeforeNull(last) == NonNull(last);
    }
  }

  // ---------------------------------------------------------------- what every step keeps

  /** The notes agree: the polls parsed the lines taken, and what was dispatched is
      what the messages heard call for. */
  predicate Agrees(cfg: Config, r: Reader) {
    Got(r.polls) == Messages(cfg.parse, r.lines) && Played(r.out, r.closed) == Play(cfg, [], Heard(r.polls))
  }

  /** Behind `before`, the reader has taken the complete lines of `start` and of the
      file between `at` and its offset, and keeps exactly the rest. */
  predicate Follows(file: Bytes, r: Reader, before: seq<Bytes>, start: Bytes, at: nat) {
    && at <= r.offset <= |file|
    && var c := CutAll(START, start + file[at..r.offset]);
       r.lines == before + c.lines && r.buffer == c.tail
  }

  /** Since `before` the reader has taken exactly the complete lines of the file up to its offset. */
  predicate ReadSince(file: Bytes, r: Reader, before: seq<Bytes>) {
    && r.offset <= |file|
    && var c := CutAll(START, file[..r.offset]);
       r.lines == before + c.lines && r.buffer == c.tail
  }

  predicate Reads(cfg: Config, file: Bytes, r: Reader) {
    ReadSince(file, r, []) && Agrees(cfg, r)
  }

  /** Only moves are missing, and only such as a later move of their burst replaces. */
  predicate Merged(played: seq<Msg>, got: seq<Msg>) {
    NonMoves(played) == NonMoves(got) && Subsequence(played, got) && Subsequence(Surviving(got), played)
  }

  /** The messages of the complete lines among the first bytes of a file. */
  function MessagesIn(cfg: Config, file: Bytes, offset: nat): seq<Msg> {
    Messages(cfg.parse, CutAll(START, if offset <= |file| then file[..offset] else file).lines)
  }

  /** The lines of a longer stretch. */
  lemma TakeFollows(a: Bytes, b: Bytes, before: seq<Bytes>, lines: seq<Bytes>, buffer: Bytes, cut: Cut)
    requires lines == before + CutAll(START, a).lines && buffer == CutAll(START, a).tail && cut == CutAll(START, buffer + b)
    ensures lines + cut.lines == before + CutAll(START, a + b).lines && cut.tail == CutAll(START, a + b).tail
  {
    CutResumes(a, b);
  }

  lemma {:induction false} SubsequenceTrans(a: seq<Msg>, b: seq<Msg>, c: seq<Msg>)
    requires Subsequence(a, b) && Subsequence(b, c)
    ensures Subsequence(a, c)
    decreases |c|
  {
    if a != [] && b[0] == c[0] {
      if a[0] == b[0] {
        SubsequenceTrans(a[1..], b[1..], c[1..]);
      } else {
        SubsequenceTrans(a, b[1..], c[1..]);
      }
    } else if a != [] {
      SubsequenceTrans(a, b, c[1..]);
      SubsequenceCons(a, c[0], c[1..]);
      assert [c[0]] + c[1..] == c;
    }
  }

  /** One more poll merges within itself. */
  lemma MergedKeeps(played: seq<Msg>, got: seq<Msg>, ms: seq<Msg>)
    requires Merged(played, got)
    ensures Merged(played + Surviving(ms), got + ms)
  {
    NonMovesConcat(played, Surviving(ms));
    NonMovesConcat(got, ms);
    MergingKeepsNonMoves(ms);
    MergingLeavesOut(ms);
    SubsequenceConcat(played, got, Surviving(ms), ms);
    SmallerBatchesMergeLess(got, ms);
    SubsequenceSelf(Surviving(ms));
    SubsequenceConcat(Surviving(got), played, Surviving(ms), Surviving(ms));
    SubsequenceTrans(Surviving(got + ms), Surviving(got) + Surviving(ms), played + Surviving(ms));
  }

  lemma {:induction false} SubsequenceNoNull(a: seq<Msg>, b: seq<Msg>)
    requires Subsequence(a, b) && NoNull(b)
    ensures NoNull(a)
    decreases |b|
  {
    if a != [] {
      assert b[0] in b;
      if a[0] == b[0] {
        SubsequenceNoNull(a[1..], b[1..]);
      } else {
        SubsequenceNoNull(a, b[1..]);
      }
    }
  }

  lemma {:induction false} HeardIsMerged(polls: seq<seq<Msg>>)
    ensures Merged(Heard(polls), Kept(polls)) && NoNull(Kept(polls)) && NoNull(Heard(polls))
  {
    if polls != [] {
      var init, last := polls[..|polls| - 1], BeforeNull(polls[|polls| - 1]);
      HeardIsMerged(init);
      MergedKeeps(Heard(init), Kept(init), last);
      BeforeNullNoNull(polls[|polls| - 1]);
      SubsequenceNoNull(Heard(polls), Kept(polls));
    }
  }

  lemma DeliveredKeeps(cfg: Config, out: seq<Dispatch>, polls: seq<seq<Msg>>, ms: seq<Msg>)
    requires Played(out, false) == Play(cfg, [], Heard(polls))
    ensures Play(cfg, out, Surviving(ms)) == Play(cfg, [], Heard(Noted(polls, ms)))
  {
    NotedOnce(polls, ms);
    HeardIsMerged(polls);
    NullEndsThePoll(cfg, out, ms);
    PlayConcat(cfg, [], Heard(polls), Surviving(BeforeNull(ms)));
  }

  lemma TakeAgrees(cfg: Config, r: Reader, bytes: Bytes)
    requires Agrees(cfg, r) && !r.closed
    ensures Agrees(cfg, Take(cfg, r, bytes))
  {
    var cut := CutAll(START, r.buffer + bytes);
    var ms := Messages(cfg.parse, cut.lines);
    DeliveredKeeps(cfg, r.out, r.polls, ms);
    NotedOnce(r.polls, ms);
    MessagesConcat(cfg.parse, r.lines, cut.lines);
  }

  lemma RewoundDrains(cfg: Config, file: Bytes, r: Reader, q: Reader, most: nat)
    requires !r.closed && q == Rewound(r, file) && |file| != q.offset
    ensures q.offset < |file| && !q.closed
    ensures var n := if most < |file| - q.offset then most else |file| - q.offset;
      DoDrain(cfg, file, r, most) == Take(cfg, q, file[q.offset..q.offset + n])
  {
  }

  lemma DrainAgrees(cfg: Config, file: Bytes, r: Reader, most: nat)
    requires Agrees(cfg, r)
    ensures Agrees(cfg, DoDrain(cfg, file, r, most))
  {
    var q := Rewound(r, file);
    if !r.closed && |file| != q.offset {
      RewoundDrains(cfg, file, r, q, most);
      TakeAgrees(cfg, q, file[q.offset..q.offset + if most < |file| - q.offset then most else |file| - q.offset]);
    }
  }

  /** The notes agree after every step, whatever becomes of the file. */
  lemma StepAgrees(cfg: Config, s: System, e: Event)
    requires Agrees(cfg, s.reader)
    ensures Agrees(cfg, Step(cfg, s, e).reader)
  {
    if e.Drain? {
      DrainAgrees(cfg, s.file, s.reader, e.most);
    }
  }

  lemma {:induction false} RunAgrees(cfg: Config, s: System, es: seq<Event>)
    requires Agrees(cfg, s.reader)
    ensures Agrees(cfg, Run(cfg, s, es).reader)
    decreases |es|
  {
    if es != [] {
      StepAgrees(cfg, s, es[0]);
      RunAgrees(cfg, Step(cfg, s, es[0]), es[1..]);
    }
  }

  lemma DrainTakes(cfg: Config, file: Bytes, r: Reader, most: nat, n: nat)
    requires !r.closed && r.offset < |file| && n == if most < |file| - r.offset then most else |file| - r.offset
    ensures DoDrain(cfg, file, r, most) == Take(cfg, r, file[r.offset..r.offset + n])
  {
  }

  lemma DrainFollows(cfg: Config, file: Bytes, r: Reader, most: nat, before: seq<Bytes>, start: Bytes, at: nat)
    requires Follows(file, r, before, start, at)
    ensures Follows(file, DoDrain(cfg, file, r, most), before, start, at)
  {
    if !r.closed && |file| != r.offset {
      var n := if most < |file| - r.offset then most else |file| - r.offset;
      var a, b := start + file[at..r.offset], file[r.offset..r.offset + n];
      DrainTakes(cfg, file, r, most, n);
      assert a + b == start + file[at..r.offset + n];
      TakeFollows(a, b, before, r.lines, r.buffer, CutAll(START, r.buffer + b));
    }
  }

  /** As long as the file is not created anew, the reader goes on where it is. */
  lemma StepFollows(cfg: Config, s: System, e: Event, before: seq<Bytes>, start: Bytes, at: nat)
    requires Follows(s.file, s.reader, before, start, at) && !e.Recreate?
    ensures Follows(Step(cfg, s, e).file, Step(cfg, s, e).reader, before, start, at)
  {
    match e
    case Append(bytes) => assert (s.file + bytes)[at..s.reader.offset] == s.file[at..s.reader.offset];
    case Drain(most) => DrainFollows(cfg, s.file, s.reader, most, before, start, at);
  }

  predicate NoRecreate(es: seq<Event>) {
    forall i :: 0 <= i < |es| ==> !es[i].Recreate?
  }

  lemma {:induction false} RunFollows(cfg: Config, s: System, es: seq<Event>, before: seq<Bytes>, start: Bytes, at: nat)
    requires Follows(s.file, s.reader, before, start, at) && NoRecreate(es)
    ensures Follows(Run(cfg, s, es).file, Run(cfg, s, es).reader, before, start, at)
    decreases |es|
  {
    if es != [] {
      StepFollows(cfg, s, es[0], before, start, at);
      RunFollows(cfg, Step(cfg, s, es[0]), es[1..], before, start, at);
    }
  }

  lemma FollowsFromStart(file: Bytes, r: Reader, before: seq<Bytes>)
    ensures Follows(file, r, before, [], 0) <==> ReadSince(file, r, before)
  {
    if r.offset <= |file| {
      assert [] + file[0..r.offset] == file[..r.offset];
    }
  }

  /** Every step keeps: the lines taken are exactly the complete lines read, the
      buffer exactly the rest, and the notes agree. */
  lemma StepKeeps(cfg: Config, s: System, e: Event)
    requires Reads(cfg, s.file, s.reader) && !e.Recreate?
    ensures Reads(cfg, Step(cfg, s, e).file, Step(cfg, s, e).reader)
  {
    FollowsFromStart(s.file, s.reader, []);
    StepFollows(cfg, s, e, [], [], 0);
    FollowsFromStart(Step(cfg, s, e).file, Step(cfg, s, e).reader, []);
    StepAgrees(cfg, s, e);
  }

  lemma FreshReads(cfg: Config, file: Bytes)
    ensures Reads(cfg, file, Fresh())
  {
    assert file[..0] == [];
  }

  lemma ReadsAlways(cfg: Config, file: Bytes, es: seq<Event>)
    requires NoRecreate(es)
    ensures var s := Run(cfg, System(file, Fresh()), es); Reads(cfg, s.file, s.reader)
  {
    var s0 := System(file, Fresh());
    var s := Run(cfg, s0, es);
    FreshReads(cfg, file);
    FollowsFromStart(file, Fresh(), []);
    RunFollows(cfg, s0, es, [], [], 0);
    FollowsFromStart(s.file, s.reader, []);
    RunAgrees(cfg, s0, es);
  }

  /** Merging moves: over any interleaving of appends, recreations and polls,
      however short their reads, the dispatches are those of the messages heard,
      which are the messages no null cut off with some moves merged: at most as
      many as in one pass, and never anything but moves.  The messages are those
      of the file as long as it is not created anew. */
  lemma PollingMergesOnlyMoves(cfg: Config, file: Bytes, es: seq<Event>)
    ensures var s := Run(cfg, System(file, Fresh()), es);
      var polls := s.reader.polls;
      && Played(s.reader.out, s.reader.closed) == Play(cfg, [], Heard(polls)) && Merged(Heard(polls), Kept(polls))
      && (NoRecreate(es) ==> Got(polls) == MessagesIn(cfg, s.file, s.reader.offset))
  {
    FreshReads(cfg, file);
    RunAgrees(cfg, System(file, Fresh()), es);
    HeardIsMerged(Run(cfg, System(file, Fresh()), es).reader.polls);
    if NoRecreate(es) {
      ReadsAlways(cfg, file, es);
      var s := Run(cfg, System(file, Fresh()), es);
      assert [] + CutAll(START, s.file[..s.reader.offset]).lines == CutAll(START, s.file[..s.reader.offset]).lines;
    }
  }

  /** Exactly when a run loses messages to a null: when one poll holds a null with
      a message behind it.  Otherwise all messages parsed are kept. */
  lemma NullLosesIff(cfg: Config, file: Bytes, es: seq<Event>)
    ensures var r := Run(cfg, System(file, Fresh()), es).reader;
      Kept(r.polls) == NonNull(Messages(cfg.parse, r.lines)) <==> forall k :: 0 <= k < |r.polls| ==> NothingAfterNull(r.polls[k])
  {
    FreshReads(cfg, file);
    RunAgrees(cfg, System(file, Fresh()), es);
    KeepsAllIff(Run(cfg, System(file, Fresh()), es).reader.polls);
  }

  /** Polling refines reading the whole file: unless a null cuts a poll short,
      moves aside the dispatches are those of one pass over the complete lines
      read, in order and up to the close. */
  lemma PollingRefinesOnePass(cfg: Config, file: Bytes, es: seq<Event>, s: System, ms: seq<Msg>)
    requires NoRecreate(es) && s == Run(cfg, System(file, Fresh()), es) && ms == MessagesIn(cfg, s.file, s.reader.offset)
    requires forall k :: 0 <= k < |s.reader.polls| ==> NothingAfterNull(s.reader.polls[k])
    requires HoverIsStateless(cfg, ms)
    ensures var p := Play(cfg, [], NonNull(ms)); Still(s.reader.out) == Still(p.out) && s.reader.closed == p.closed
  {
    var heard := Heard(s.reader.polls);
    PollingMergesOnlyMoves(cfg, file, es);
    KeepsAllIff(s.reader.polls);
    HeardIsMerged(s.reader.polls);
    NonNullMembers(ms);
    SubsequenceMembers(heard, NonNull(ms));
    PlayStill(cfg, ms, [], heard);
    PlayStill(cfg, ms, [], NonNull(ms));
  }

  /** In particular when no complete line read is a null. */
  lemma PollingRefinesWithoutNull(cfg: Config, file: Bytes, es: seq<Event>, s: System, ms: seq<Msg>)
    requires NoRecreate(es) && s == Run(cfg, System(file, Fresh()), es) && ms == MessagesIn(cfg, s.file, s.reader.offset)
    requires NoNull(ms) && HoverIsStateless(cfg, ms)
    ensures var p := Play(cfg, [], ms); Still(s.reader.out) == Still(p.out) && s.reader.closed == p.closed
  {
    PollingMergesOnlyMoves(cfg, file, es);
    NoNullInPolls(s.reader.polls);
    NonNullIsAll(ms);
    PollingRefinesOnePass(cfg, file, es, s, ms);
  }

  lemma {:induction false} NoNullInPolls(polls: seq<seq<Msg>>)
    requires NoNull(Got(polls))
    ensures forall k :: 0 <= k < |polls| ==> NothingAfterNull(polls[k])
  {
    if polls != [] {
      var init, last := polls[..|polls| - 1], polls[|polls| - 1];
      assert forall m :: m in Got(init) || m in last ==> m in Got(polls);
      NoNullInPolls(init);
      assert forall i :: 0 <= i < |last| ==> last[i] in last;
      assert forall k :: 0 <= k < |init| ==> polls[k] == init[k];
    }
  }

  lemma {:induction false} NonNullIsAll(ms: seq<Msg>)
    requires NoNull(ms)
    ensures NonNull(ms) == ms
  {
    if ms != [] {
      assert ms[0] in ms;
      NonNullIsAll(ms[1..]);
    }
  }

  lemma {:induction false} NonNullMembers(ms: seq<Msg>)
    ensures NoNull(NonNull(ms)) && forall m :: m in NonNull(ms) ==> m in ms
  {
    if ms != [] {
      NonNullMembers(ms[1..]);
    }
  }

  lemma {:induction false} SubsequenceMembers(a: seq<Msg>, b: seq<Msg>)
    requires Subsequence(a, b)
    ensures forall m :: m in a ==> m in b
    decreases |b|
  {
    if a != [] {
      assert a == [a[0]] + a[1..] && b == [b[0]] + b[1..];
      if a[0] == b[0] {
        SubsequenceMembers(a[1..], b[1..]);
      } else {
        SubsequenceMembers(a, b[1..]);
      }
    }
  }

  // ---------------------------------------------------------------- a run that loses an input

  lemma CutTwoLines(a: Bytes, b: Bytes)
    requires NoNewline(a) && NoNewline(b)
    ensures CutAll(START, a + [NEWLINE]) == Cut([a], []) && CutAll(START, a + [NEWLINE] + (b + [NEWLINE])) == Cut([a, b], [])
  {
    CutLine([], a);
    CutConcat(START, a + [NEWLINE], b + [NEWLINE]);
    CutLine([a], b);
    assert [] + [a] == [a] && [a] + [b] == [a, b];
  }

  lemma CutLine(done: seq<Bytes>, line: Bytes)
    requires NoNewline(line)
    ensures CutAll(Cut(done, []), line + [NEWLINE]) == Cut(done + [line], [])
  {
    assert (line + [NEWLINE])[..|line|] == line;
    CutNoNewline(line);
    CutBehind(done, [], line);
    assert done + [] == done;
  }

  lemma TwoMessages(cfg: Config, a: Bytes, b: Bytes, m: Msg)
    requires cfg.parse(a) == Some(Null) && cfg.parse(b) == Some(m)
    ensures Messages(cfg.parse, [a]) == [Null] && Messages(cfg.parse, [b]) == [m] && Messages(cfg.parse, [a, b]) == [Null, m]
  {
    assert [a][..0] == [] && [b][..0] == [] && [a, b][..1] == [a];
  }

  /** The same two lines, a null and a message for the host: read by one poll the
      message is lost, read by two it is dispatched. */
  lemma NullRunLosesInput(cfg: Config, a: Bytes, b: Bytes, m: Msg, d: Dispatch)
    requires NoNewline(a) && NoNewline(b) && cfg.parse(a) == Some(Null) && cfg.parse(b) == Some(m)
    requires m.Msg? && Act(cfg, m) == Some(d)
    ensures var s := System(a + [NEWLINE] + (b + [NEWLINE]), Fresh());
      && Run(cfg, s, [Drain(|s.file|)]).reader.out == []
      && Run(cfg, s, [Drain(|a| + 1), Drain(|b| + 1)]).reader.out == [d]
  {
    var x, y := a + [NEWLINE], b + [NEWLINE];
    var s := System(x + y, Fresh());
    CutTwoLines(a, b);
    CutTwoLines(b, a);
    TwoMessages(cfg, a, b, m);
    OnePoll(cfg, s, a, b, m);
    TwoPolls(cfg, s.file, a, b, x, y, |a| + 1, |b| + 1, m, d);
  }

  /** A poll that reads these bytes in front of an empty buffer. */
  lemma DrainBytes(cfg: Config, file: Bytes, r: Reader, bytes: Bytes)
    requires !r.closed && bytes != [] && r.offset + |bytes| <= |file| && file[r.offset..r.offset + |bytes|] == bytes
    ensures DoDrain(cfg, file, r, |bytes|) == Take(cfg, r, bytes)
  {
    DrainTakes(cfg, file, r, |bytes|, |bytes|);
  }

  lemma TakeFresh(cfg: Config, r: Reader, bytes: Bytes, cut: Cut)
    requires r.buffer == [] && CutAll(START, bytes) == cut
    ensures Take(cfg, r, bytes) == TakeCut(cfg, r, |bytes|, cut)
  {
    assert r.buffer + bytes == bytes;
  }

  lemma TakeNull(cfg: Config, n: nat, a: Bytes)
    requires Messages(cfg.parse, [a]) == [Null]
    ensures TakeCut(cfg, Fresh(), n, Cut([a], [])) == Reader(n, [], false, [], [a], [[Null]])
  {
    assert [] + [a] == [a];
    assert Surviving([Null]) == [Null];
  }

  lemma TakeInput(cfg: Config, r: Reader, n: nat, b: Bytes, m: Msg, d: Dispatch)
    requires Messages(cfg.parse, [b]) == [m] && m.Msg? && Act(cfg, m) == Some(d) && r.out == []
    ensures TakeCut(cfg, r, n, Cut([b], [])).out == [d]
  {
    assert [m][1..] == [] && Surviving([m]) == [m] && [m] + [] == [m];
    PlayOne(cfg, r.out, m, []);
    assert [] + [d] == [d];
  }

  lemma TwoSlices(x: Bytes, y: Bytes)
    ensures (x + y)[0..|x|] == x && (x + y)[|x|..|x| + |y|] == y && (x + y)[0..|x + y|] == x + y
  {
  }

  lemma OnePoll(cfg: Config, s: System, a: Bytes, b: Bytes, m: Msg)
    requires s == System(a + [NEWLINE] + (b + [NEWLINE]), Fresh())
    requires CutAll(START, s.file) == Cut([a, b], []) && Messages(cfg.parse, [a, b]) == [Null, m]
    ensures Run(cfg, s, [Drain(|s.file|)]).reader.out == []
  {
    var e := Drain(|s.file|);
    TwoSlices(a + [NEWLINE], b + [NEWLINE]);
    DrainBytes(cfg, s.file, s.reader, s.file);
    TakeFresh(cfg, s.reader, s.file, Cut([a, b], []));
    NullEndsThePoll(cfg, [], [Null, m]);
    RunTwo(cfg, s, e, e);
  }

  lemma FirstPoll(cfg: Config, file: Bytes, a: Bytes, x: Bytes, n: nat)
    requires x != [] && n == |x| <= |file| && file[0..n] == x && CutAll(START, x) == Cut([a], []) && Messages(cfg.parse, [a]) == [Null]
    ensures DoDrain(cfg, file, Fresh(), n) == Reader(n, [], false, [], [a], [[Null]])
  {
    DrainBytes(cfg, file, Fresh(), x);
    TakeFresh(cfg, Fresh(), x, Cut([a], []));
    TakeNull(cfg, n, a);
  }

  lemma SecondPoll(cfg: Config, file: Bytes, r: Reader, b: Bytes, y: Bytes, n: nat, m: Msg, d: Dispatch)
    requires !r.closed && r.buffer == [] && r.out == [] && y != [] && n == |y| && r.offset + n <= |file| && file[r.offset..r.offset + n] == y
    requires CutAll(START, y) == Cut([b], []) && Messages(cfg.parse, [b]) == [m] && m.Msg? && Act(cfg, m) == Some(d)
    ensures DoDrain(cfg, file, r, n).out == [d]
  {
    DrainBytes(cfg, file, r, y);
    TakeFresh(cfg, r, y, Cut([b], []));
    TakeInput(cfg, r, n, b, m, d);
  }

  lemma TwoPolls(cfg: Config, file: Bytes, a: Bytes, b: Bytes, x: Bytes, y: Bytes, k: nat, n: nat, m: Msg, d: Dispatch)
    requires file == x + y && x != [] && y != [] && k == |x| && n == |y| && m.Msg? && Act(cfg, m) == Some(d)
    requires CutAll(START, x) == Cut([a], []) && CutAll(START, y) == Cut([b], [])
    requires Messages(cfg.parse, [a]) == [Null] && Messages(cfg.parse, [b]) == [m]
    ensures Run(cfg, System(file, Fresh()), [Drain(k), Drain(n)]).reader.out == [d]
  {
    var r1 := Reader(k, [], false, [], [a], [[Null]]);
    TwoSlices(x, y);
    FirstPoll(cfg, file, a, x, k);
    SecondPoll(cfg, file, r1, b, y, n, m, d);
    RunTwoPolls(cfg, System(file, Fresh()), k, n, r1);
  }

  lemma RunTwoPolls(cfg: Config, s: System, k: nat, n: nat, r: Reader)
    requires DoDrain(cfg, s.file, s.reader, k) == r
    ensures Run(cfg, s, [Drain(k), Drain(n)]).reader == DoDrain(cfg, s.file, r, n)
  {
    RunTwo(cfg, s, Drain(k), Drain(n));
    assert Step(cfg, s, Drain(k)) == s.(reader := r);
  }

  lemma RunTwo(cfg: Config, s: System, e: Event, f: Event)
    ensures Run(cfg, s, [e]) == Step(cfg, s, e) && Run(cfg, s, [e, f]) == Step(cfg, Step(cfg, s, e), f)
  {
    assert [e, f][1..] == [f] && [f][1..] == [] && [e][1..] == [];
    assert Run(cfg, Step(cfg, s, e), [f]) == Step(cfg, Step(cfg, s, e), f);
  }

  /** Nothing is dispatched after the close. */
  lemma {:induction false} ClosedIsSilent(cfg: Config, s: System, es: seq<Event>)
    requires s.reader.closed
    ensures Run(cfg, s, es).reader == s.reader
    decreases |es|
  {
    if es != [] {
      ClosedIsSilent(cfg, Step(cfg, s, es[0]), es[1..]);
    }
  }

  /** A file created anew is read from its start when it is shorter than what was
      read of the old one; otherwise as many of its first bytes are skipped. */
  lemma RecreatedIsNoticedWhenShorter(cfg: Config, file: Bytes, r: Reader, most: nat)
    requires !r.closed && file != [] && most >= |file|
    ensures |file| < r.offset ==> DoDrain(cfg, file, r, most) == Take(cfg, r.(offset := 0, buffer := []), file)
    ensures |file| == r.offset ==> DoDrain(cfg, file, r, most) == r
    ensures |file| > r.offset ==> DoDrain(cfg, file, r, most) == Take(cfg, r, file[r.offset..])
  {
    assert file[0..|file|] == file;
    assert |file| > r.offset ==> file[r.offset..|file|] == file[r.offset..];
  }

  // ---------------------------------------------------------------- a file created anew

  /** The text of complete lines. */
  function Glue(lines: seq<Bytes>): Bytes {
    if lines == [] then [] else Glue(lines[..|lines| - 1]) + lines[|lines| - 1] + [NEWLINE]
  }

  /** Cutting loses nothing. */
  lemma {:induction false} CutGlues(text: Bytes)
    ensures Glue(CutAll(START, text).lines) + CutAll(START, text).tail == text
  {
    if text != [] {
      var init, last := text[..|text| - 1], text[|text| - 1];
      var c := CutAll(START, init);
      CutGlues(init);
      InitAndLast(text);
      assert (c.lines + [c.tail])[..|c.lines|] == c.lines;
      assert Glue(c.lines) + (c.tail + [last]) == (Glue(c.lines) + c.tail) + [last];
    }
  }

  lemma CutInjective(a: Bytes, b: Bytes)
    requires CutAll(START, a) == CutAll(START, b)
    ensures a == b
  {
    CutGlues(a);
    CutGlues(b);
  }

  /** All of a text is kept back exactly when it has no newline. */
  lemma TailIsAllIff(text: Bytes)
    ensures NoNewline(text) <==> |CutAll(START, text).tail| == |text|
    ensures NoNewline(text) ==> CutAll(START, text).tail == text
  {
    CutGlues(text);
    TailHasNoNewline(text);
    if NoNewline(text) {
      CutNoNewline(text);
    }
  }

  predicate HasPoll(es: seq<Event>) {
    exists i :: 0 <= i < |es| && es[i].Drain?
  }

  /** The file as the first poll finds it. */
  function AtFirstPoll(file: Bytes, es: seq<Event>): Bytes
    decreases |es|
  {
    if es == [] || es[0].Drain? then file
    else AtFirstPoll(if es[0].Append? then file + es[0].bytes else es[0].bytes, es[1..])
  }

  lemma {:induction false} FileGrows(cfg: Config, s: System, es: seq<Event>)
    requires NoRecreate(es)
    ensures s.file <= Run(cfg, s, es).file
    decreases |es|
  {
    if es != [] {
      FileGrows(cfg, Step(cfg, s, es[0]), es[1..]);
    }
  }

  /** The first poll decides: it starts over, or goes on with its buffer and offset. */
  lemma PollDecides(cfg: Config, s: System, most: nat)
    requires NoNewline(s.reader.buffer) && !s.reader.closed
    ensures var t, r := Step(cfg, s, Drain(most)), s.reader;
      if |s.file| < r.offset then Follows(t.file, t.reader, r.lines, [], 0) else Follows(t.file, t.reader, r.lines, r.buffer, r.offset)
  {
    var r, q := s.reader, Rewound(s.reader, s.file);
    assert r.lines + [] == r.lines;
    if |s.file| < r.offset {
      assert [] + s.file[0..0] == [];
      assert DoDrain(cfg, s.file, r, most) == DoDrain(cfg, s.file, q, most);
      DrainFollows(cfg, s.file, q, most, r.lines, [], 0);
    } else {
      assert r.buffer + s.file[r.offset..r.offset] == r.buffer;
      CutNoNewline(r.buffer);
      DrainFollows(cfg, s.file, r, most, r.lines, r.buffer, r.offset);
    }
  }

  lemma {:induction false} RunDecides(cfg: Config, s: System, es: seq<Event>)
    requires NoRecreate(es) && HasPoll(es) && NoNewline(s.reader.buffer) && !s.reader.closed
    ensures var t, r, g := Run(cfg, s, es), s.reader, AtFirstPoll(s.file, es);
      && g <= t.file
      && if |g| < r.offset then Follows(t.file, t.reader, r.lines, [], 0) else Follows(t.file, t.reader, r.lines, r.buffer, r.offset)
    decreases |es|
  {
    var s' := Step(cfg, s, es[0]);
    if es[0].Drain? {
      PollDecides(cfg, s, es[0].most);
      FileGrows(cfg, s, es);
      if |s.file| < s.reader.offset {
        RunFollows(cfg, s', es[1..], s.reader.lines, [], 0);
      } else {
        RunFollows(cfg, s', es[1..], s.reader.lines, s.reader.buffer, s.reader.offset);
      }
    } else {
      var i :| 0 <= i < |es| && es[i].Drain?;
      assert es[1..][i - 1].Drain?;
      RunDecides(cfg, s', es[1..]);
    }
  }

  /** Going on where the old file was left reads the new one rightly exactly when
      it begins with what was kept back, and nothing else was read. */
  lemma GoesOnRightlyIff(file: Bytes, r: Reader, before: seq<Bytes>, start: Bytes, at: nat)
    requires Follows(file, r, before, start, at)
    ensures ReadSince(file, r, before) <==> start == file[..at]
  {
    var a, b := start + file[at..r.offset], file[..r.offset];
    assert b == file[..at] + file[at..r.offset];
    if ReadSince(file, r, before) {
      assert CutAll(START, a).lines == CutAll(START, b).lines by {
        assert (before + CutAll(START, a).lines)[|before|..] == (before + CutAll(START, b).lines)[|before|..];
      }
      CutInjective(a, b);
      assert |start| == at && a[..at] == b[..at];
    }
  }

  /** What is kept back never holds a newline. */
  lemma {:induction false} RunBuffers(cfg: Config, s: System, es: seq<Event>)
    requires NoNewline(s.reader.buffer)
    ensures NoNewline(Run(cfg, s, es).reader.buffer)
    decreases |es|
  {
    if es != [] {
      if es[0].Drain? {
        DrainBuffers(cfg, s.file, s.reader, es[0].most);
      }
      RunBuffers(cfg, Step(cfg, s, es[0]), es[1..]);
    }
  }

  lemma DrainBuffers(cfg: Config, file: Bytes, r: Reader, most: nat)
    requires NoNewline(r.buffer)
    ensures NoNewline(DoDrain(cfg, file, r, most).buffer)
  {
    var q := Rewound(r, file);
    if !r.closed && |file| != q.offset {
      RewoundDrains(cfg, file, r, q, most);
      TailHasNoNewline(q.buffer + file[q.offset..q.offset + if most < |file| - q.offset then most else |file| - q.offset]);
    }
  }

  /** A file created anew.  After any run, in which the reader has come to offset k
      of a file and keeps a buffer back, let the file be created anew and let the
      run go on.  The lines taken from then on are exactly the complete lines of
      the new file if and only if the first poll finds it shorter than k, or it
      begins with the k bytes of the buffer. */
  lemma RecreatedIsReadIff(cfg: Config, file: Bytes, es: seq<Event>, bytes: Bytes, more: seq<Event>, s: System, t: System)
    requires s == Run(cfg, System(file, Fresh()), es) && !s.reader.closed
    requires NoRecreate(more) && HasPoll(more) && t == Run(cfg, s, [Recreate(bytes)] + more)
    ensures var k, g := s.reader.offset, AtFirstPoll(bytes, more);
      ReadSince(t.file, t.reader, s.reader.lines) <==> |g| < k || s.reader.buffer == g[..k]
  {
    var k, g, v := s.reader.offset, AtFirstPoll(bytes, more), s.(file := bytes);
    assert ([Recreate(bytes)] + more)[1..] == more;
    RunBuffers(cfg, System(file, Fresh()), es);
    RunDecides(cfg, v, more);
    if |g| < k {
      FollowsFromStart(t.file, t.reader, s.reader.lines);
    } else {
      GoesOnRightlyIff(t.file, t.reader, s.reader.lines, s.reader.buffer, k);
      assert t.file[..k] == g[..k];
    }
  }

  /** In terms of the old file, when it is the first to be replaced: k bytes of it
      were read, and they are one unfinished line with which the new file begins. */
  lemma BufferIsOldIff(cfg: Config, file: Bytes, es: seq<Event>, s: System, g: Bytes)
    requires NoRecreate(es) && s == Run(cfg, System(file, Fresh()), es) && s.reader.offset <= |g|
    ensures s.reader.offset <= |s.file|
    ensures var k := s.reader.offset; s.reader.buffer == g[..k] <==> NoNewline(s.file[..k]) && s.file[..k] <= g
  {
    ReadsAlways(cfg, file, es);
    TailIsAllIff(s.file[..s.reader.offset]);
  }

  /** Then the messages parsed from then on are those of the new file. */
  lemma RecreatedMessages(cfg: Config, file: Bytes, es: seq<Event>, more: seq<Event>, s: System, t: System)
    requires s == Run(cfg, System(file, Fresh()), es) && t == Run(cfg, s, more) && ReadSince(t.file, t.reader, s.reader.lines)
    ensures Got(t.reader.polls) == Got(s.reader.polls) + MessagesIn(cfg, t.file, t.reader.offset)
  {
    FreshReads(cfg, file);
    RunAgrees(cfg, System(file, Fresh()), es);
    RunAgrees(cfg, s, more);
    MessagesConcat(cfg.parse, s.reader.lines, CutAll(START, t.file[..t.reader.offset]).lines);
  }

  lemma LineTaken(cfg: Config, r: Reader, n: nat, a: Bytes)
    ensures var q := TakeCut(cfg, r, n, Cut([a], []));
      q.offset == r.offset + n && q.buffer == [] && q.lines == r.lines + [a] && (cfg.parse(a) == None ==> !q.closed)
  {
    assert [a][..0] == [];
    assert cfg.parse(a) == None ==> Messages(cfg.parse, [a]) == [];
  }

  lemma DrainOneLine(cfg: Config, file: Bytes, r: Reader, a: Bytes)
    requires NoNewline(a) && !r.closed && r.buffer == [] && r.offset + |a| + 1 <= |file|
    requires file[r.offset..r.offset + |a| + 1] == a + [NEWLINE]
    ensures var q := DoDrain(cfg, file, r, |a| + 1);
      q.offset == r.offset + |a| + 1 && q.buffer == [] && q.lines == r.lines + [a] && (cfg.parse(a) == None ==> !q.closed)
  {
    var x := a + [NEWLINE];
    CutLine([], a);
    assert [] + [a] == [a];
    DrainBytes(cfg, file, r, x);
    TakeFresh(cfg, r, x, Cut([a], []));
    LineTaken(cfg, r, |x|, a);
  }

  lemma FirstLine(cfg: Config, a: Bytes, r: Reader)
    requires NoNewline(a) && cfg.parse(a) == None && r == DoDrain(cfg, a + [NEWLINE], Fresh(), |a| + 1)
    ensures r.offset == |a| + 1 && r.buffer == [] && r.lines == [a] && !r.closed
  {
    var x := a + [NEWLINE];
    assert x[0..|a| + 1] == x && [] + [a] == [a];
    DrainOneLine(cfg, x, Fresh(), a);
  }

  lemma SecondLine(cfg: Config, anew: Bytes, r: Reader, a: Bytes, b: Bytes, c: Bytes)
    requires NoNewline(c) && |a| == |b| && anew == b + [NEWLINE] + (c + [NEWLINE])
    requires r.offset == |a| + 1 && r.buffer == [] && r.lines == [a] && !r.closed
    ensures DoDrain(cfg, anew, r, |c| + 1).lines == [a, c]
  {
    TwoSlices(b + [NEWLINE], c + [NEWLINE]);
    DrainOneLine(cfg, anew, r, c);
    assert [a] + [c] == [a, c];
  }

  /** A run that skips a line: a line was read, the file is created anew with two
      lines, the first as long as the one before, and the next poll takes only
      the second. */
  lemma RecreatedRunSkipsALine(cfg: Config, a: Bytes, b: Bytes, c: Bytes, anew: Bytes)
    requires NoNewline(a) && NoNewline(b) && NoNewline(c) && |a| == |b| && cfg.parse(a) == None
    requires anew == b + [NEWLINE] + (c + [NEWLINE])
    ensures CutAll(START, anew) == Cut([b, c], [])
    ensures var s := Run(cfg, System(a + [NEWLINE], Fresh()), [Drain(|a| + 1)]);
      s.reader.lines == [a] && Run(cfg, s, [Recreate(anew), Drain(|c| + 1)]).reader.lines == [a, c]
  {
    var s0, first := System(a + [NEWLINE], Fresh()), Drain(|a| + 1);
    RunTwo(cfg, s0, first, first);
    var s := Step(cfg, s0, first);
    FirstLine(cfg, a, s.reader);
    RunTwo(cfg, s, Recreate(anew), Drain(|c| + 1));
    SecondLine(cfg, anew, s.reader, a, b, c);
    CutTwoLines(b, c);
  }

  // ---------------------------------------------------------------- the reader itself

  class KeyHost {
    const cfg: Config
    var keyOffset: nat
    var keyBuffer: Bytes
    var closed: bool
    var out: seq<Dispatch>
    ghost var lines: seq<Bytes>
    ghost var polls: seq<seq<Msg>>

    ghost function View(): Reader
      reads this
    {
      Reader(keyOffset, keyBuffer, closed, out, lines, polls)
    }

    constructor (cfg: Config)
      ensures this.cfg == cfg && View() == Fresh()
    {
      this.cfg := cfg;
      keyOffset, keyBuffer, closed, out, lines, polls := 0, [], false, [], [], [];
    }

    /** Dispatch one message; false when the poll ends here. */
    method Handle(msg: Msg) returns (go: bool)
      requires !closed && msg.Msg?
      modifies this`closed, this`out
      ensures Act(cfg, msg).None? ==> go && !closed && out == old(out)
      ensures Act(cfg, msg).Some? ==> out == old(out) + [Act(cfg, msg).value] && closed == Stops(cfg, old(out), Act(cfg, msg).value) && go == !closed
    {
      go := true;
      if msg.id != Some(cfg.id) {
        return;
      }
      if msg.op == "cancel" {
        closed, out := true, out + [Cancel];
        return false;
      }
      if msg.op == "input" && msg.data.Some? {
        closed, out := cfg.closes(out, Input(msg.data.value)), out + [Input(msg.data.value)];
      }
      if msg.op == "mouse" && IsMouseEvent(msg.event) {
        closed, out := cfg.closes(out, Pointer(msg.event.value)), out + [Pointer(msg.event.value)];
      }
      go := !closed;
    }

    /** The last of a burst of moves, and where it stands. */
    method LastOfBurst(messages: seq<Msg>, start: nat) returns (index: nat)
      requires start < |messages|
      ensures start <= index < |messages| && Surviving(messages[start..]) == [messages[index]] + Surviving(messages[index + 1..])
    {
      index := start;
      if !IsMove(messages[start]) {
        assert messages[start..][1..] == messages[start + 1..];
        return;
      }
      while index + 1 < |messages| && messages[index + 1].Msg? && messages[index + 1].id == messages[index].id && IsMove(messages[index + 1])
        invariant start <= index < |messages| && IsMove(messages[index])
        invariant Surviving(messages[start..]) == Surviving(messages[index..])
      {
        assert messages[index..][1..] == messages[index + 1..];
        index := index + 1;
      }
      assert messages[index..][1..] == messages[index + 1..];
    }

    method DispatchMessages(messages: seq<Msg>, ghost goal: Played)
      requires !closed && goal == Play(cfg, out, Surviving(messages))
      modifies this`closed, this`out
      ensures goal == Played(out, closed)
    {
      var index := 0;
      ghost var rest := Surviving(messages);
      assert messages[0..] == messages;
      while index < |messages|
        invariant index <= |messages| && !closed && rest == Surviving(messages[index..]) && goal == Play(cfg, out, rest)
      {
        index := LastOfBurst(messages, index);
        rest := Surviving(messages[index + 1..]);
        var go := DispatchOne(messages[index], rest, goal);
        if !go {
          return;
        }
        index := index + 1;
      }
    }

    /** One message that survived; a null ends the poll. */
    method DispatchOne(msg: Msg, ghost rest: seq<Msg>, ghost goal: Played) returns (go: bool)
      requires !closed && goal == Play(cfg, out, [msg] + rest)
      modifies this`closed, this`out
      ensures go ==> !closed && goal == Play(cfg, out, rest)
      ensures !go ==> goal == Played(out, closed)
    {
      PlayOne(cfg, out, msg, rest);
      if msg.Null? {
        return false;
      }
      go := Handle(msg);
    }

    /** One behind the last newline, or zero. */
    method AfterLastNewline(chunk: Bytes) returns (end: nat)
      ensures end <= |chunk| && NoNewline(chunk[end..]) && (end > 0 ==> chunk[end - 1] == NEWLINE)
    {
      end := |chunk|;
      while end > 0 && chunk[end - 1] != NEWLINE
        invariant end <= |chunk| && NoNewline(chunk[end..])
      {
        end := end - 1;
      }
    }

    method ParseLines(text: Bytes) returns (messages: seq<Msg>)
      ensures messages == Messages(cfg.parse, CutAll(START, text).lines)
    {
      messages := [];
      var line: Bytes := [];
      ghost var done: seq<Bytes> := [];
      for i := 0 to |text|
        invariant CutAll(START, text[..i]) == Cut(done, line) && messages == Messages(cfg.parse, done)
      {
        assert text[..i + 1][..i] == text[..i];
        if text[i] != NEWLINE {
          line := line + [text[i]];
          continue;
        }
        var parsed := cfg.parse(line);
        if parsed.Some? {
          messages := messages + [parsed.value];
        }
        assert (done + [line])[..|done|] == done;
        done := done + [line];
        line := [];
      }
      assert text[..|text|] == text;
    }

    /** Add what was read; dispatch the messages of the lines it completes. */
    method TakeBytes(bytes: Bytes)
      requires !closed
      modifies this
      ensures View() == Take(cfg, old(View()), bytes)
    {
      var chunk := keyBuffer + bytes;
      keyOffset := keyOffset + |bytes|;
      var end := AfterLastNewline(chunk);
      CutAtNewline(chunk, end);
      lines := lines + CutAll(START, chunk).lines;
      keyBuffer := chunk[end..];
      if end == 0 {
        TakesNothing(cfg, old(View()), bytes);
        return;
      }
      var messages := ParseLines(chunk[..end]);
      polls := Noted(polls, messages);
      DispatchMessages(messages, Play(cfg, out, Surviving(messages)));
      TakenAs(cfg, old(View()), bytes, chunk[..end], chunk[end..], messages, View());
    }

    /** One poll of the key file, whose read returns at most `most` bytes. */
    method DrainKeys(file: Option<Bytes>, most: nat)
      modifies this
      ensures View() == if file.None? then old(View()) else DoDrain(cfg, file.value, old(View()), most)
    {
      if closed || file.None? {
        return;
      }
      var size := |file.value|;
      if size < keyOffset {
        keyOffset := 0;
        keyBuffer := [];
      }
      var remaining := size - keyOffset;
      if remaining <= 0 {
        return;
      }
      var bytesRead := if most < remaining then most else remaining;
      TakeBytes(file.value[keyOffset..keyOffset + bytesRead]);
    }
  }

  lemma TakesNothing(cfg: Config, r: Reader, bytes: Bytes)
    requires !r.closed && NoNewline(r.buffer + bytes)
    ensures Take(cfg, r, bytes) == r.(offset := r.offset + |bytes|, buffer := r.buffer + bytes)
  {
    CutNoNewline(r.buffer + bytes);
    assert r.lines + [] == r.lines;
  }

  /** What a poll makes of its bytes, put together. */
  lemma TakenAs(cfg: Config, r: Reader, bytes: Bytes, whole: Bytes, tail: Bytes, ms: seq<Msg>, q: Reader)
    requires CutAll(START, r.buffer + bytes) == Cut(CutAll(START, whole).lines, tail)
    requires ms == Messages(cfg.parse, CutAll(START, whole).lines) && Played(q.out, q.closed) == Play(cfg, r.out, Surviving(ms))
    requires q.offset == r.offset + |bytes| && q.buffer == tail && q.polls == Noted(r.polls, ms)
    requires q.lines == r.lines + CutAll(START, r.buffer + bytes).lines
    ensures q == Take(cfg, r, bytes)
  {
  }

  lemma CutAtNewline(chunk: Bytes, end: nat)
    requires end <= |chunk| && NoNewline(chunk[end..]) && (end > 0 ==> chunk[end - 1] == NEWLINE)
    ensures CutAll(START, chunk) == Cut(CutAll(START, chunk[..end]).lines, chunk[end..])
  {
    var c := CutAll(START, chunk[..end]);
    assert chunk[..end] + chunk[end..] == chunk;
    assert c.tail == [];
    CutConcat(START, chunk[..end], chunk[end..]);
    CutBehind(c.lines, [], chunk[end..]);
    CutNoNewline(chunk[end..]);
  }
}
